/**
 * The JWT middleware: builds the request's user from a Bearer token and
 * decides, before each handler, between proceeding, 401 and 403. Token
 * verification (key import and signature check) is an oracle that gives the
 * payload or fails.
 */
module AuthMiddleware {
  import opened Wrappers
  import opened Text
  import opened Roles

  /**
   * The claims read from a verified token. Each `role` entry is the value of
   * `e?.role?.role`, absent when any link of that chain is missing.
   */
  datatype JwtPayload = JwtPayload(sub: Option<string>, email: Option<string>, role: Option<seq<Option<string>>>)

  datatype AuthUser = AuthUser(id: string, roles: seq<Role>, email: Option<string>)

  /** The hook's outcome: go on to the handler, or answer with a status and a message. */
  datatype Decision = Proceed | Reject(status: int, message: string)

  const NoTokenMessage := "Unauthorized - No Token"
  const EmptyTokenMessage := "Unauthorized - Empty Token"
  const InvalidTokenMessage := "Unauthorized - Invalid Token"
  const ForbiddenMessage := "Forbidden - Insufficient permissions"

  /** The entries that name one of the four roles, in order; the others are dropped. */
  function KnownRoles(entries: seq<Option<string>>): (r: seq<Role>)
    ensures |r| <= |entries|
    ensures forall x :: x in r <==> Some(RoleName(x)) in entries
  {
    if entries == [] then []
    else
      var first := if entries[0].Some? && ParseRole(entries[0].value).Some? then [ParseRole(entries[0].value).value] else [];
      first + KnownRoles(entries[1..])
  }

  /** Filtering keeps the order: it distributes over concatenation. */
  lemma {:induction false} KnownRolesAppend(a: seq<Option<string>>, b: seq<Option<string>>)
    ensures KnownRoles(a + b) == KnownRoles(a) + KnownRoles(b)
  {
    if a == [] {
      assert a + b == b;
    } else {
      assert (a + b)[0] == a[0];
      assert (a + b)[1..] == a[1..] + b;
      KnownRolesAppend(a[1..], b);
    }
  }

  /** When every entry names a role, each one is kept, in place. */
  lemma {:induction false} KnownRolesKeepsAll(entries: seq<Option<string>>)
    requires forall k :: 0 <= k < |entries| ==> entries[k].Some? && ParseRole(entries[k].value).Some?
    ensures |KnownRoles(entries)| == |entries|
    ensures forall k :: 0 <= k < |entries| ==> RoleName(KnownRoles(entries)[k]) == entries[k].value
  {
    if entries != [] {
      KnownRolesKeepsAll(entries[1..]);
      var r := KnownRoles(entries);
      assert r == [ParseRole(entries[0].value).value] + KnownRoles(entries[1..]);
      forall k | 0 <= k < |entries| ensures RoleName(r[k]) == entries[k].value {
        if k > 0 {
          assert r[k] == KnownRoles(entries[1..])[k - 1];
        }
      }
    }
  }

  /** `extractRoles`: no `role` claim gives no roles. */
  function ExtractRoles(p: JwtPayload): (r: seq<Role>)
    ensures p.role.None? ==> r == []
    ensures p.role.Some? ==> |r| <= |p.role.value|
    ensures forall x :: x in r <==> p.role.Some? && Some(RoleName(x)) in p.role.value
  {
    match p.role
    case None => []
    case Some(entries) => KnownRoles(entries)
  }

  predicate HasBearerPrefix(header: Option<string>)
  {
    header.Some? && StartsWith(header.value, "Bearer ")
  }

  /** `authHeader.split(" ")[1]` for a Bearer header: the text after "Bearer " up to the next space. */
  function MiddlewareToken(header: Option<string>): (t: Option<string>)
    ensures t.Some? <==> HasBearerPrefix(header)
    ensures t.Some? ==> t.value == UpToSpace(header.value[7..]) && ' ' !in t.value
  {
    if HasBearerPrefix(header) then
      var h := header.value;
      assert h == "Bearer" + " " + h[7..];
      SplitAfterWord("Bearer", h[7..]);
      Some(Split(h)[1])
    else None
  }

  /** The payload of a Bearer header whose token is non-empty and verifies. */
  function VerifiedPayload(header: Option<string>, verify: string -> Option<JwtPayload>): Option<JwtPayload>
  {
    match MiddlewareToken(header)
    case None => None
    case Some(token) => if token == "" then None else verify(token)
  }

  /** No role check applies: the allowed roles are absent or empty. */
  predicate NoRoleCheck(allowedRoles: Option<seq<Role>>)
  {
    allowedRoles.None? || |allowedRoles.value| == 0
  }

  /**
   * `derive`: the user of a verified token with a non-empty subject, its id the
   * subject and its roles the extracted ones; nothing otherwise.
   */
  function DeriveUser(header: Option<string>, verify: string -> Option<JwtPayload>): (u: Option<AuthUser>)
    ensures u.Some? <==> (VerifiedPayload(header, verify).Some?
      && VerifiedPayload(header, verify).value.sub.Some? && VerifiedPayload(header, verify).value.sub.value != "")
    ensures u.Some? ==> var p := VerifiedPayload(header, verify).value;
      u.value.id == p.sub.value && u.value.roles == ExtractRoles(p) && u.value.email == p.email
    ensures !HasBearerPrefix(header) ==> u.None?
  {
    if !HasBearerPrefix(header) then None
    else
      var token := MiddlewareToken(header).value;
      if token == "" then None
      else match verify(token)
        case None => None
        case Some(p) =>
          if p.sub.None? || p.sub.value == "" then None
          else Some(AuthUser(p.sub.value, ExtractRoles(p), p.email))
  }

  /**
   * `onBeforeHandle`: 401 without a Bearer header, with an empty token or when
   * verification fails; 403 when a role check applies and no extracted role is
   * allowed; proceed otherwise.
   */
  function Check(allowedRoles: Option<seq<Role>>, header: Option<string>, verify: string -> Option<JwtPayload>): (d: Decision)
    ensures !HasBearerPrefix(header) ==> d == Reject(401, NoTokenMessage)
    ensures HasBearerPrefix(header) && MiddlewareToken(header).value == "" ==> d == Reject(401, EmptyTokenMessage)
    ensures HasBearerPrefix(header) && MiddlewareToken(header).value != "" && verify(MiddlewareToken(header).value).None?
      ==> d == Reject(401, InvalidTokenMessage)
    ensures (d.Reject? && d.status == 401) <==> VerifiedPayload(header, verify).None?
    ensures d == Proceed <==> (VerifiedPayload(header, verify).Some?
      && (NoRoleCheck(allowedRoles) || Intersects(ExtractRoles(VerifiedPayload(header, verify).value), allowedRoles.value)))
    ensures d.Reject? && d.status != 401 ==> d == Reject(403, ForbiddenMessage)
  {
    if !HasBearerPrefix(header) then Reject(401, NoTokenMessage)
    else
      var token := MiddlewareToken(header).value;
      if token == "" then Reject(401, EmptyTokenMessage)
      else match verify(token)
        case None => Reject(401, InvalidTokenMessage)
        case Some(p) =>
          if !NoRoleCheck(allowedRoles) && !Intersects(ExtractRoles(p), allowedRoles.value)
          then Reject(403, ForbiddenMessage)
          else Proceed
  }

  /** The response settings the hook writes: `set.status`. */
  class ResponseSet {
    var status: int

    constructor ()
      ensures status == 200
    {
      status := 200;
    }
  }

  /**
   * The hook as it runs: it assigns `set.status` and returns a message body on
   * rejection, and leaves the status alone when the request proceeds.
   */
  method OnBeforeHandle(allowedRoles: Option<seq<Role>>, header: Option<string>,
                        verify: string -> Option<JwtPayload>, response: ResponseSet)
    returns (body: Option<string>)
    modifies response
    ensures Check(allowedRoles, header, verify) == Proceed ==> body.None? && response.status == old(response.status)
    ensures Check(allowedRoles, header, verify).Reject? ==>
      body == Some(Check(allowedRoles, header, verify).message) && response.status == Check(allowedRoles, header, verify).status
  {
    if !HasBearerPrefix(header) {
      response.status := 401;
      return Some(NoTokenMessage);
    }
    var token := MiddlewareToken(header).value;
    if token == "" {
      response.status := 401;
      return Some(EmptyTokenMessage);
    }
    var verified := verify(token);
    if verified.None? {
      response.status := 401;
      return Some(InvalidTokenMessage);
    }
    if allowedRoles.Some? && |allowedRoles.value| > 0 {
      var userRoles := ExtractRoles(verified.value);
      var hasPermission := Intersects(userRoles, allowedRoles.value);
      if !hasPermission {
        response.status := 403;
        return Some(ForbiddenMessage);
      }
    }
    return None;
  }

  /** For a request whose user was derived, the role check is decided by that user's roles. */
  lemma DerivedUserDecidesRoleCheck(allowedRoles: Option<seq<Role>>, header: Option<string>,
                                    verify: string -> Option<JwtPayload>)
    requires DeriveUser(header, verify).Some?
    ensures var u := DeriveUser(header, verify).value;
      (Check(allowedRoles, header, verify) == Proceed <==>
        NoRoleCheck(allowedRoles) || Intersects(u.roles, allowedRoles.value))
    ensures Check(allowedRoles, header, verify).Reject? ==> Check(allowedRoles, header, verify).status == 403
  {
  }

  /** A verified token without a subject passes the hook, yet derives no user. */
  lemma TokenWithoutSubjectPassesHook()
    ensures var verify := (t: string) => Some(JwtPayload(None, None, None));
      Check(None, Some("Bearer abc"), verify) == Proceed && DeriveUser(Some("Bearer abc"), verify).None?
  {
    var h := "Bearer abc";
    assert StartsWith(h, "Bearer ");
    assert UpToSpace(h[7..]) == "abc";
  }
}
