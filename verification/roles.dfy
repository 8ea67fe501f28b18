/** The four user roles and the role-list normalisation shared by the guards. */
module Roles {
  import opened Wrappers

  datatype Role = Admin | FranchiseOwner | Staff | Customer

  /** The string value of each role. */
  function RoleName(r: Role): string
  {
    match r
    case Admin => "ADMIN"
    case FranchiseOwner => "FRANCHISE_OWNER"
    case Staff => "STAFF"
    case Customer => "CUSTOMER"
  }

  /** Membership of a string among the role values: the role it names, if any. */
  function ParseRole(s: string): (r: Option<Role>)
    ensures forall x :: r == Some(x) <==> s == RoleName(x)
    ensures r.None? <==> forall x :: s != RoleName(x)
  {
    if s == "ADMIN" then Some(Admin)
    else if s == "FRANCHISE_OWNER" then Some(FranchiseOwner)
    else if s == "STAFF" then Some(Staff)
    else if s == "CUSTOMER" then Some(Customer)
    else None
  }

  /** A guard's argument: one role or a list of roles. */
  datatype RoleArg = One(role: Role) | Many(roles: seq<Role>)

  /** `Array.isArray(roles) ? roles : [roles]`. */
  function NormaliseRoles(arg: RoleArg): (rs: seq<Role>)
    ensures arg.One? ==> rs == [arg.role]
    ensures arg.Many? ==> rs == arg.roles
    ensures forall x :: x in rs <==> (arg.One? && x == arg.role) || (arg.Many? && x in arg.roles)
  {
    match arg
    case One(r) => [r]
    case Many(rs) => rs
  }

  /** `held.some((role) => required.includes(role))`. */
  predicate Intersects(held: seq<Role>, required: seq<Role>)
  {
    exists r :: r in held && r in required
  }
}
