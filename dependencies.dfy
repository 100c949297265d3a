/**
 * The second authentication dependency and the role-name guards built on
 * it. This `get_current_user` trusts any decodable token with a subject:
 * it reads neither the token's type nor the session table. The guards
 * compare the role's name, case-sensitively, with fixed lists of names.
 */
module Dependencies {
  import opened Common
  import opened IdentityModel
  import opened Security
  import AuthMiddleware

  const INVALID_CREDENTIALS: string := "Invalid authentication credentials"
  const USER_NOT_FOUND: string := "User not found"
  const NO_ROLE_ASSIGNED: string := "No role assigned to user"

  /**
   * `get_current_user` of the dependencies module: 401 for an undecodable
   * token or one without `sub`; a `sub` that is not a key makes the query
   * fail (500); 401 when no account has that key; 403 when the account is
   * not active, with the status's value in the message.
   */
  function CurrentUser(j: Jwt, users: seq<Account>, token: string, now: Moment): (r: Result<Account>)
    ensures r.Ok? <==> j.decode(token, Stamp(now)).Some? && j.decode(token, Stamp(now)).value.sub.Some?
                       && ParseId(j.decode(token, Stamp(now)).value.sub.value).Some?
                       && FindAccount(users, ParseId(j.decode(token, Stamp(now)).value.sub.value).value).Some?
                       && FindAccount(users, ParseId(j.decode(token, Stamp(now)).value.sub.value).value).value.status
                          == ACTIVE
    ensures r.Ok? ==> r == Ok(FindAccount(users, ParseId(j.decode(token, Stamp(now)).value.sub.value).value).value)
    ensures j.decode(token, Stamp(now)).None? || j.decode(token, Stamp(now)).value.sub.None?
            ==> r == Err(UNAUTHORIZED, INVALID_CREDENTIALS)
    ensures r.Err? && r.status == FORBIDDEN ==> exists u :: u in users && r.detail == "User account is " + StatusValue(u.status)
  {
    var c := j.decode(token, Stamp(now));
    if c.None? || c.value.sub.None? then Err(UNAUTHORIZED, INVALID_CREDENTIALS)
    else
      var id := ParseId(c.value.sub.value);
      if id.None? then Err(INTERNAL_ERROR, UNHANDLED)
      else
        var u := FindAccount(users, id.value);
        if u.None? then Err(UNAUTHORIZED, USER_NOT_FOUND)
        else if u.value.status != ACTIVE then Err(FORBIDDEN, "User account is " + StatusValue(u.value.status))
        else Ok(u.value)
  }

  /**
   * A refresh token, which the session-checking dependency refuses as the
   * wrong type, is accepted here for its whole seven-day life.
   */
  lemma RefreshTokenPassesHere(j: Jwt, sessions: seq<UserSession>, users: seq<Account>, u: Account, issued: Moment,
                               now: Moment)
    requires Faithful(j)
    requires u in users && u.status == ACTIVE && AccountKeysUnique(users)
    requires Stamp(now) <= Stamp(issued) + REFRESH_TOKEN_EXPIRE_DAYS * DAY
    ensures CurrentUser(j, users, CreateRefreshToken(j, IdText(u.id), None, issued), now) == Ok(u)
    ensures AuthMiddleware.GetCurrentUser(j, sessions, users, CreateRefreshToken(j, IdText(u.id), None, issued), now)
            == Err(UNAUTHORIZED, AuthMiddleware.INVALID_TOKEN_TYPE)
  {
    var c := RefreshClaims(IdText(u.id), None, issued);
    assert j.decode(j.encode(c), Stamp(now)) == Some(c);
    ParseIdText(u.id);
    UniqueKeyFinds(users, u);
  }

  /**
   * A logged-out access token still authenticates here until its `exp`:
   * revoking the session changes nothing for this dependency, while the
   * session-checking one refuses the token.
   */
  lemma RevokedSessionPassesHere(j: Jwt, sessions: seq<UserSession>, users: seq<Account>, u: Account,
                                 delta: Option<int>, issued: Moment, now: Moment)
    requires Faithful(j)
    requires u in users && u.status == ACTIVE && AccountKeysUnique(users)
    requires Stamp(now) <= AccessClaims(IdText(u.id), delta, issued).exp
    requires forall k :: 0 <= k < |sessions| ==> sessions[k].revokedAt.Some?
    ensures CurrentUser(j, users, CreateAccessToken(j, IdText(u.id), delta, issued), now) == Ok(u)
    ensures AuthMiddleware.GetCurrentUser(j, sessions, users, CreateAccessToken(j, IdText(u.id), delta, issued), now)
            == Err(UNAUTHORIZED, AuthMiddleware.SESSION_REVOKED)
  {
    var c := AccessClaims(IdText(u.id), delta, issued);
    assert j.decode(j.encode(c), Stamp(now)) == Some(c);
    ParseIdText(u.id);
    UniqueKeyFinds(users, u);
  }

  /** The 403 message naming the allowed roles. */
  function InsufficientMessage(allowed: seq<string>): string
  {
    "Insufficient permissions. Required roles: " + Join(allowed, ", ")
  }

  /**
   * The checker `require_role(allowed)` builds, applied to an
   * authenticated account: 403 without a role, 403 unless the role's name
   * is exactly one of `allowed`.
   */
  function RequireRole(allowed: seq<string>, roles: seq<Role>, u: Account): (r: Result<Account>)
    ensures r.Ok? <==> RoleOf(roles, u).Some? && RoleOf(roles, u).value.name in allowed
    ensures r.Ok? ==> r.value == u
    ensures RoleOf(roles, u).None? ==> r == Err(FORBIDDEN, NO_ROLE_ASSIGNED)
    ensures RoleOf(roles, u).Some? && !r.Ok? ==> r == Err(FORBIDDEN, InsufficientMessage(allowed))
  {
    var role := RoleOf(roles, u);
    if role.None? then Err(FORBIDDEN, NO_ROLE_ASSIGNED)
    else if role.value.name !in allowed then Err(FORBIDDEN, InsufficientMessage(allowed))
    else Ok(u)
  }

  const SUPER_ADMIN: seq<string> := ["super_admin"]
  const ADMIN_OR_ABOVE: seq<string> := ["super_admin", "admin"]
  const MANAGER_OR_ABOVE: seq<string> := ["super_admin", "admin", "manager"]
  const STAFF_OR_ABOVE: seq<string> := ["super_admin", "admin", "manager", "staff"]

  /** Each guard admits every name the one above it admits, and one name more. */
  lemma GuardsAreNested(name: string)
    ensures name in SUPER_ADMIN ==> name in ADMIN_OR_ABOVE
    ensures name in ADMIN_OR_ABOVE ==> name in MANAGER_OR_ABOVE
    ensures name in MANAGER_OR_ABOVE ==> name in STAFF_OR_ABOVE
    ensures "admin" in ADMIN_OR_ABOVE && "admin" !in SUPER_ADMIN
    ensures "manager" in MANAGER_OR_ABOVE && "manager" !in ADMIN_OR_ABOVE
    ensures "staff" in STAFF_OR_ABOVE && "staff" !in MANAGER_OR_ABOVE
  {
  }

  /** A role name that differs from every guard name: any name with a capital letter or a space, such as the seeded ones. */
  lemma NotAGuardName(name: string)
    requires exists k :: 0 <= k < |name| && (IsUpperAscii(name[k]) || name[k] == ' ')
    ensures name !in STAFF_OR_ABOVE
  {
    var k :| 0 <= k < |name| && (IsUpperAscii(name[k]) || name[k] == ' ');
    forall g | g in STAFF_OR_ABOVE ensures forall i :: 0 <= i < |g| ==> !IsUpperAscii(g[i]) && g[i] != ' ' {
    }
  }

  /**
   * An account whose role bears one of the seeded names ("Super Admin",
   * "Organization Admin", "Support Staff", "Billing Admin") fails every
   * one of the four guards.
   */
  lemma SeededRolesFailEveryGuard(roles: seq<Role>, u: Account, allowed: seq<string>)
    requires RoleOf(roles, u).Some?
    requires RoleOf(roles, u).value.name in ["Super Admin", "Organization Admin", "Support Staff", "Billing Admin"]
    requires allowed in [SUPER_ADMIN, ADMIN_OR_ABOVE, MANAGER_OR_ABOVE, STAFF_OR_ABOVE]
    ensures RequireRole(allowed, roles, u) == Err(FORBIDDEN, InsufficientMessage(allowed))
  {
    var name := RoleOf(roles, u).value.name;
    assert name[0] == 'S' || name[0] == 'O' || name[0] == 'B';
    NotAGuardName(name);
    GuardsAreNested(name);
  }
}
