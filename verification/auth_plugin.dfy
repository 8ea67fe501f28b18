/**
 * The authentication plugin: takes the Bearer token off the header, verifies
 * it, and offers guards (sign-in, any of some roles, admin, staff, franchise
 * owner, customer) that allow the request, refuse it with 401 or 403, or fail
 * when the user has no role list. Token verification and the conversion of a
 * payload to a user are oracles.
 */
module AuthPlugin {
  import opened Wrappers
  import opened Text
  import opened Roles
  import AuthMiddleware

  /** The user `toAuthUser` builds; its role list may be missing. */
  datatype PluginUser = PluginUser(id: string, roles: Option<seq<Role>>)

  /** What `derive` adds to the request: the user and the verified payload. */
  datatype AuthContext<P> = AuthContext(user: Option<PluginUser>, userPayload: Option<P>)

  /** A guard's outcome: allow, refuse with a status, or fail with an exception. */
  datatype Outcome = Allow | Deny(status: int, message: string) | Crash

  const AuthRequiredMessage := "Unauthorized - Authentication required"
  const InsufficientMessage := "Forbidden - Insufficient permissions"
  const AdminMessage := "Forbidden - Admin access required"
  const StaffMessage := "Forbidden - Staff access required"
  const FranchiseOwnerMessage := "Forbidden - Franchise owner access required"
  const CustomerMessage := "Forbidden - Customer access required"

  /** `authHeader.slice(7)` when the header starts with "Bearer ", nothing otherwise. */
  function PluginToken(header: Option<string>): (t: Option<string>)
    ensures t.Some? <==> AuthMiddleware.HasBearerPrefix(header)
    ensures t.Some? ==> header.value == "Bearer " + t.value
  {
    if AuthMiddleware.HasBearerPrefix(header) then Some(header.value[7..]) else None
  }

  /** A usable token: present and non-empty. */
  predicate HasToken(header: Option<string>)
  {
    PluginToken(header).Some? && PluginToken(header).value != ""
  }

  /**
   * `derive`: without a token, or when verification fails, both the user and
   * the payload are null; otherwise the payload and the user converted from it.
   */
  function Derive<P>(header: Option<string>, verifyToken: string -> Option<P>,
                     toAuthUser: P -> Option<PluginUser>): (c: AuthContext<P>)
    ensures !HasToken(header) ==> c == AuthContext(None, None)
    ensures HasToken(header) && verifyToken(PluginToken(header).value).None? ==> c == AuthContext(None, None)
    ensures c.userPayload.Some? <==> HasToken(header) && verifyToken(PluginToken(header).value).Some?
    ensures c.userPayload.Some? ==>
      c.userPayload == verifyToken(PluginToken(header).value) && c.user == toAuthUser(c.userPayload.value)
    ensures c.userPayload.None? ==> c.user.None?
  {
    var token := PluginToken(header);
    if token.None? || token.value == "" then AuthContext(None, None)
    else match verifyToken(token.value)
      case None => AuthContext(None, None)
      case Some(payload) => AuthContext(toAuthUser(payload), Some(payload))
  }

  /** `isSignIn(enabled)`: disabled installs no check; enabled refuses a missing user with 401. */
  function IsSignIn(enabled: bool, user: Option<PluginUser>): (o: Outcome)
    ensures !enabled ==> o == Allow
    ensures enabled ==> (o == Allow <==> user.Some?)
    ensures o != Allow ==> o == Deny(401, AuthRequiredMessage)
  {
    if !enabled then Allow
    else if user.None? then Deny(401, AuthRequiredMessage)
    else Allow
  }

  /** `user.roles || []`. */
  function RolesOrEmpty(u: PluginUser): seq<Role>
  {
    if u.roles.Some? then u.roles.value else []
  }

  /**
   * `hasRole(required)`: 401 without a user; allow when one of the user's roles
   * (none when missing) is required; 403 otherwise. It never fails.
   */
  function HasRole(required: RoleArg, user: Option<PluginUser>): (o: Outcome)
    ensures user.None? ==> o == Deny(401, AuthRequiredMessage)
    ensures user.Some? ==> (o == Allow <==> Intersects(RolesOrEmpty(user.value), NormaliseRoles(required)))
    ensures user.Some? && o != Allow ==> o == Deny(403, InsufficientMessage)
    ensures user.Some? && user.value.roles.None? ==> o == Deny(403, InsufficientMessage)
  {
    var roles := NormaliseRoles(required);
    if user.None? then Deny(401, AuthRequiredMessage)
    else if Intersects(RolesOrEmpty(user.value), roles) then Allow
    else Deny(403, InsufficientMessage)
  }

  /**
   * The shape shared by the four convenience guards: 401 without a user, a
   * failure when the user's role list is missing (`user.roles.includes` on
   * undefined), allow when the user holds one of `admitted`, 403 otherwise.
   */
  function FixedRoleGuard(admitted: seq<Role>, message: string, user: Option<PluginUser>): (o: Outcome)
    ensures user.None? ==> o == Deny(401, AuthRequiredMessage)
    ensures user.Some? && user.value.roles.None? ==> o == Crash
    ensures user.Some? && user.value.roles.Some? ==>
      (o == Allow <==> exists r :: r in admitted && r in user.value.roles.value)
    ensures user.Some? && user.value.roles.Some? && o != Allow ==> o == Deny(403, message)
  {
    if user.None? then Deny(401, AuthRequiredMessage)
    else if user.value.roles.None? then Crash
    else if exists r :: r in admitted && r in user.value.roles.value then Allow
    else Deny(403, message)
  }

  /** `isAdmin` admits ADMIN only. */
  function IsAdmin(user: Option<PluginUser>): (o: Outcome)
    ensures user.Some? && user.value.roles.Some? ==> (o == Allow <==> Admin in user.value.roles.value)
    ensures user.Some? && user.value.roles.Some? && o != Allow ==> o == Deny(403, AdminMessage)
    ensures user.None? ==> o == Deny(401, AuthRequiredMessage)
    ensures user.Some? && user.value.roles.None? ==> o == Crash
  {
    FixedRoleGuard([Admin], AdminMessage, user)
  }

  /** `isStaff` admits STAFF or ADMIN. */
  function IsStaff(user: Option<PluginUser>): (o: Outcome)
    ensures user.Some? && user.value.roles.Some? ==>
      (o == Allow <==> Staff in user.value.roles.value || Admin in user.value.roles.value)
    ensures user.Some? && user.value.roles.Some? && o != Allow ==> o == Deny(403, StaffMessage)
    ensures user.None? ==> o == Deny(401, AuthRequiredMessage)
    ensures user.Some? && user.value.roles.None? ==> o == Crash
  {
    FixedRoleGuard([Staff, Admin], StaffMessage, user)
  }

  /** `isFranchiseOwner` admits FRANCHISE_OWNER or ADMIN. */
  function IsFranchiseOwner(user: Option<PluginUser>): (o: Outcome)
    ensures user.Some? && user.value.roles.Some? ==>
      (o == Allow <==> FranchiseOwner in user.value.roles.value || Admin in user.value.roles.value)
    ensures user.Some? && user.value.roles.Some? && o != Allow ==> o == Deny(403, FranchiseOwnerMessage)
    ensures user.None? ==> o == Deny(401, AuthRequiredMessage)
    ensures user.Some? && user.value.roles.None? ==> o == Crash
  {
    FixedRoleGuard([FranchiseOwner, Admin], FranchiseOwnerMessage, user)
  }

  /** `isCustomer` admits CUSTOMER only: an admin without that role is refused. */
  function IsCustomer(user: Option<PluginUser>): (o: Outcome)
    ensures user.Some? && user.value.roles.Some? ==> (o == Allow <==> Customer in user.value.roles.value)
    ensures user.Some? && user.value.roles.Some? && Customer !in user.value.roles.value
      ==> o == Deny(403, CustomerMessage)
    ensures user.None? ==> o == Deny(401, AuthRequiredMessage)
    ensures user.Some? && user.value.roles.None? ==> o == Crash
  {
    FixedRoleGuard([Customer], CustomerMessage, user)
  }

  /** The status a guard answers with: 200 when it allows, 500 when it fails. */
  function StatusOf(o: Outcome): int
  {
    match o
    case Allow => 200
    case Deny(status, _) => status
    case Crash => 500
  }

  /**
   * For a user whose role list is present (or no user), each convenience guard
   * decides exactly as `hasRole` with the same roles; without a role list,
   * `hasRole` refuses with 403 where the convenience guards fail.
   */
  lemma ConvenienceGuardsMatchHasRole(user: Option<PluginUser>)
    ensures user.None? || user.value.roles.Some? ==>
      && StatusOf(IsAdmin(user)) == StatusOf(HasRole(One(Admin), user))
      && StatusOf(IsStaff(user)) == StatusOf(HasRole(Many([Staff, Admin]), user))
      && StatusOf(IsFranchiseOwner(user)) == StatusOf(HasRole(Many([FranchiseOwner, Admin]), user))
      && StatusOf(IsCustomer(user)) == StatusOf(HasRole(One(Customer), user))
    ensures user.Some? && user.value.roles.None? ==>
      IsAdmin(user) == Crash && HasRole(One(Admin), user) == Deny(403, InsufficientMessage)
  {
  }

  /**
   * The plugin keeps everything after "Bearer ", the middleware only the text
   * up to the next space: the middleware's token is a prefix of the plugin's,
   * and the two agree exactly when the plugin's token holds no space.
   */
  lemma {:induction false} TokensCompared(header: Option<string>)
    ensures PluginToken(header).Some? <==> AuthMiddleware.MiddlewareToken(header).Some?
    ensures PluginToken(header).Some? ==>
      var p := PluginToken(header).value;
      var m := AuthMiddleware.MiddlewareToken(header).value;
      m == p[..|m|] && (m == p <==> ' ' !in p)
  {
    if PluginToken(header).Some? {
      var p := PluginToken(header).value;
      var m := AuthMiddleware.MiddlewareToken(header).value;
      assert header.value[7..] == p;
      assert m == UpToSpace(p);
      assert |m| < |p| ==> p[|m|] == ' ' && p[|m|] in p;
    }
  }

  /** For "Bearer a b" the plugin's token is "a b" and the middleware's is "a". */
  lemma TokensDifferOnSpaces()
    ensures PluginToken(Some("Bearer a b")) == Some("a b")
    ensures AuthMiddleware.MiddlewareToken(Some("Bearer a b")) == Some("a")
  {
    var h := "Bearer a b";
    assert StartsWith(h, "Bearer ");
    assert h[7..] == "a b";
    assert UpToSpace("a b") == "a" by {
      assert "a b"[1..] == " b";
    }
  }
}
