/**
 * Route guards built on the JWT middleware: `requireAuth` checks only the
 * token, `requireRoles` adds a role check, and four fixed role sets are
 * exported for admins, staff, franchise owners and customers.
 */
module AuthGuards {
  import opened Wrappers
  import opened Roles
  import opened AuthMiddleware

  /** The roles carried by the request's verified token, none when it does not verify. */
  function TokenRoles(header: Option<string>, verify: string -> Option<JwtPayload>): seq<Role>
  {
    match VerifiedPayload(header, verify)
    case None => []
    case Some(p) => ExtractRoles(p)
  }

  /** `requireAuth`: the middleware without allowed roles, so only the token is checked. */
  function RequireAuth(header: Option<string>, verify: string -> Option<JwtPayload>): (d: Decision)
    ensures d == Proceed <==> VerifiedPayload(header, verify).Some?
    ensures d.Reject? ==> d.status == 401
  {
    Check(None, header, verify)
  }

  /**
   * `requireRoles(roles)`: the middleware with the normalised roles as allowed
   * roles. An empty list leaves only the token check.
   */
  function RequireRoles(roles: RoleArg, header: Option<string>, verify: string -> Option<JwtPayload>): (d: Decision)
    ensures d == Proceed <==> (VerifiedPayload(header, verify).Some?
      && (NormaliseRoles(roles) == [] || exists r :: r in TokenRoles(header, verify) && r in NormaliseRoles(roles)))
    ensures roles.One? ==> (d == Proceed <==> VerifiedPayload(header, verify).Some? && roles.role in TokenRoles(header, verify))
    ensures d.Reject? ==> d.status == 401 || d == Reject(403, ForbiddenMessage)
  {
    Check(Some(NormaliseRoles(roles)), header, verify)
  }

  /** `requireAdmin` admits ADMIN only. */
  function RequireAdmin(header: Option<string>, verify: string -> Option<JwtPayload>): (d: Decision)
    ensures d == Proceed <==> VerifiedPayload(header, verify).Some? && Admin in TokenRoles(header, verify)
  {
    RequireRoles(One(Admin), header, verify)
  }

  /** `requireStaff` admits STAFF or ADMIN. */
  function RequireStaff(header: Option<string>, verify: string -> Option<JwtPayload>): (d: Decision)
    ensures d == Proceed <==> (VerifiedPayload(header, verify).Some?
      && (Staff in TokenRoles(header, verify) || Admin in TokenRoles(header, verify)))
  {
    RequireRoles(Many([Staff, Admin]), header, verify)
  }

  /** `requireFranchiseOwner` admits FRANCHISE_OWNER or ADMIN. */
  function RequireFranchiseOwner(header: Option<string>, verify: string -> Option<JwtPayload>): (d: Decision)
    ensures d == Proceed <==> (VerifiedPayload(header, verify).Some?
      && (FranchiseOwner in TokenRoles(header, verify) || Admin in TokenRoles(header, verify)))
  {
    RequireRoles(Many([FranchiseOwner, Admin]), header, verify)
  }

  /** `requireCustomer` admits CUSTOMER only, so an admin without that role is refused. */
  function RequireCustomer(header: Option<string>, verify: string -> Option<JwtPayload>): (d: Decision)
    ensures d == Proceed <==> VerifiedPayload(header, verify).Some? && Customer in TokenRoles(header, verify)
    ensures VerifiedPayload(header, verify).Some? && Customer !in TokenRoles(header, verify)
      ==> d == Reject(403, ForbiddenMessage)
  {
    RequireRoles(One(Customer), header, verify)
  }

  /** Every guard implies the token check, and an admin passes every guard but the customer one. */
  lemma GuardsOrdered(header: Option<string>, verify: string -> Option<JwtPayload>)
    ensures RequireCustomer(header, verify) == Proceed ==> RequireAuth(header, verify) == Proceed
    ensures RequireAdmin(header, verify) == Proceed ==>
      RequireStaff(header, verify) == Proceed && RequireFranchiseOwner(header, verify) == Proceed
    ensures RequireAdmin(header, verify) == Proceed ==> RequireAuth(header, verify) == Proceed
  {
  }
}
