/**
 * Bearer-token authentication and the flat permission check most routers
 * depend on: a request is authenticated by an access token that has a live,
 * unexpired session of an active account, and authorised when the
 * account's role holds the permission (resource, action).
 *
 * An error result with status 500 stands for an exception the dependency
 * does not turn into an HTTP error (it reaches the server's generic
 * handler); every other error result is an `HTTPException`.
 */
module AuthMiddleware {
  import opened Common
  import opened IdentityModel
  import opened Security

  const INVALID_CREDENTIALS: string := "Invalid authentication credentials"
  const INVALID_TOKEN_TYPE: string := "Invalid token type"
  const SESSION_REVOKED: string := "Session not found or has been revoked"
  const SESSION_EXPIRED: string := "Session has expired"
  const USER_NOT_FOUND: string := "User not found"
  const EMAIL_NOT_VERIFIED: string := "Email not verified"
  const NO_ROLE: string := "User has no role assigned"

  /** A session row of the token that has not been revoked. */
  function LiveSession(token: string): UserSession -> bool
  {
    (s: UserSession) => s.token == token && s.revokedAt.None?
  }

  /**
   * `TokenPayload(**payload)` accepts the claims: `sub` and `type` are both
   * present, and `exp` is a whole number (its `int` field refuses a float
   * with a fractional part).
   */
  predicate WellFormed(c: Claims)
  {
    c.sub.Some? && c.typ.Some? && c.wholeExp
  }

  /** The token decodes (signature and `exp` hold at `now`) to well-formed claims of an access token. */
  predicate IsAccessToken(j: Jwt, token: string, now: Moment)
  {
    var c := j.decode(token, Stamp(now));
    c.Some? && WellFormed(c.value) && c.value.typ == Some(ACCESS)
  }

  /** The message of the 403 for an account that is not active: the enum member as `str` prints it. */
  function InactiveMessage(u: Account): string
  {
    "User account is " + StatusName(u.status)
  }

  /**
   * `get_current_user`: the account of the token's session. It refuses, in
   * this order, an undecodable token (401), claims without `sub` or `type`
   * or with a fractional `exp` (500), a token that is not an access token (401), a token without a
   * live session (401), an expired session (401), a session whose account
   * is gone (404) and an account that is not active (403). The account is
   * the session's, whatever the token's `sub` says.
   */
  function GetCurrentUser(j: Jwt, sessions: seq<UserSession>, users: seq<Account>, token: string, now: Moment)
    : (r: Result<Account>)
    ensures j.decode(token, Stamp(now)).None? ==> r == Err(UNAUTHORIZED, INVALID_CREDENTIALS)
    ensures j.decode(token, Stamp(now)).Some? && !WellFormed(j.decode(token, Stamp(now)).value)
            ==> r == Err(INTERNAL_ERROR, UNHANDLED)
    ensures j.decode(token, Stamp(now)).Some? && WellFormed(j.decode(token, Stamp(now)).value)
            && j.decode(token, Stamp(now)).value.typ != Some(ACCESS)
            ==> r == Err(UNAUTHORIZED, INVALID_TOKEN_TYPE)
    ensures IsAccessToken(j, token, now) && (forall k :: 0 <= k < |sessions| ==> !LiveSession(token)(sessions[k]))
            ==> r == Err(UNAUTHORIZED, SESSION_REVOKED)
    ensures r.Ok? ==> IsAccessToken(j, token, now) && r.value in users && r.value.status == ACTIVE
                      && exists k :: 0 <= k < |sessions| && LiveSession(token)(sessions[k])
                                     && sessions[k].userId == r.value.id
                                     && Stamp(now) <= Stamp(sessions[k].expiresAt)
    ensures r.Err? && r.status == FORBIDDEN ==> exists u :: u in users && u.status != ACTIVE && r.detail == InactiveMessage(u)
  {
    var c := j.decode(token, Stamp(now));
    if c.None? then Err(UNAUTHORIZED, INVALID_CREDENTIALS)
    else if !WellFormed(c.value) then Err(INTERNAL_ERROR, UNHANDLED)
    else if c.value.typ != Some(ACCESS) then Err(UNAUTHORIZED, INVALID_TOKEN_TYPE)
    else
      var i := FirstMatch(sessions, LiveSession(token));
      if i.None? then Err(UNAUTHORIZED, SESSION_REVOKED)
      else
        var s := sessions[i.value];
        if Stamp(s.expiresAt) < Stamp(now) then Err(UNAUTHORIZED, SESSION_EXPIRED)
        else
          var u := FindAccount(users, s.userId);
          if u.None? then Err(NOT_FOUND, USER_NOT_FOUND)
          else if u.value.status != ACTIVE then Err(FORBIDDEN, InactiveMessage(u.value))
          else Ok(u.value)
  }

  /**
   * When the token's session is the only live one with that token, the
   * dependency accepts exactly when the session is unexpired and its
   * account exists and is active, and then returns that account.
   */
  lemma AcceptsTheSessionsAccount(j: Jwt, sessions: seq<UserSession>, users: seq<Account>, token: string,
                                  now: Moment, k: nat)
    requires IsAccessToken(j, token, now)
    requires k < |sessions| && LiveSession(token)(sessions[k])
    requires forall i :: 0 <= i < |sessions| && i != k ==> !LiveSession(token)(sessions[i])
    ensures var s := sessions[k];
            GetCurrentUser(j, sessions, users, token, now).Ok?
            <==> Stamp(now) <= Stamp(s.expiresAt) && FindAccount(users, s.userId).Some?
                 && FindAccount(users, s.userId).value.status == ACTIVE
    ensures GetCurrentUser(j, sessions, users, token, now).Ok?
            ==> Some(GetCurrentUser(j, sessions, users, token, now).value) == FindAccount(users, sessions[k].userId)
  {
    assert FirstMatch(sessions, LiveSession(token)) == Some(k);
  }

  /** `get_current_active_user`: an authenticated account whose email is also verified (403 otherwise). */
  function GetCurrentActiveUser(j: Jwt, sessions: seq<UserSession>, users: seq<Account>, token: string, now: Moment)
    : (r: Result<Account>)
    ensures r.Ok? <==> (GetCurrentUser(j, sessions, users, token, now).Ok?
                        && GetCurrentUser(j, sessions, users, token, now).value.emailVerified)
    ensures r.Ok? ==> r == GetCurrentUser(j, sessions, users, token, now)
    ensures GetCurrentUser(j, sessions, users, token, now).Err? ==> r == GetCurrentUser(j, sessions, users, token, now)
    ensures GetCurrentUser(j, sessions, users, token, now).Ok? && !r.Ok? ==> r == Err(FORBIDDEN, EMAIL_NOT_VERIFIED)
  {
    var u := GetCurrentUser(j, sessions, users, token, now);
    if u.Ok? && !u.value.emailVerified then Err(FORBIDDEN, EMAIL_NOT_VERIFIED) else u
  }

  /** The account's role holds a permission with this resource and action. */
  predicate Granted(roles: seq<Role>, perms: seq<Permission>, u: Account, resource: string, action: string)
  {
    RoleOf(roles, u).Some?
    && exists k :: 0 <= k < |perms| && perms[k].id in RoleOf(roles, u).value.permissionIds
                   && perms[k].resource == resource && perms[k].action == action
  }

  function Matches(resource: string, action: string): Permission -> bool
  {
    (p: Permission) => p.resource == resource && p.action == action
  }

  function DeniedMessage(resource: string, action: string): string
  {
    "Permission denied: " + resource + ":" + action
  }

  /**
   * The checker `require_permission(resource, action)` builds, applied to
   * an authenticated account: 403 without a role, 403 unless one of the
   * role's permissions has exactly this resource and action. Only the
   * role is read.
   */
  function PermissionCheck(roles: seq<Role>, perms: seq<Permission>, u: Account, resource: string, action: string)
    : (r: Result<Account>)
    ensures r.Ok? <==> Granted(roles, perms, u, resource, action)
    ensures r.Ok? ==> r.value == u
    ensures RoleOf(roles, u).None? ==> r == Err(FORBIDDEN, NO_ROLE)
    ensures RoleOf(roles, u).Some? && !r.Ok? ==> r == Err(FORBIDDEN, DeniedMessage(resource, action))
  {
    var role := RoleOf(roles, u);
    if role.None? then Err(FORBIDDEN, NO_ROLE)
    else
      var held := Resolve(perms, role.value.permissionIds);
      var i := FirstMatch(held, Matches(resource, action));
      if i.None? then
        assert forall k :: 0 <= k < |perms| && perms[k].id in role.value.permissionIds ==> perms[k] in held;
        Err(FORBIDDEN, DeniedMessage(resource, action))
      else
        assert Matches(resource, action)(held[i.value]);
        Ok(u)
  }

  /** `require_permission(resource, action)` as a whole: an active, verified account, then the check. */
  function RequirePermission(j: Jwt, sessions: seq<UserSession>, users: seq<Account>, roles: seq<Role>,
                             perms: seq<Permission>, token: string, now: Moment, resource: string, action: string)
    : (r: Result<Account>)
    ensures r.Ok? <==> (GetCurrentActiveUser(j, sessions, users, token, now).Ok?
                        && Granted(roles, perms, GetCurrentActiveUser(j, sessions, users, token, now).value, resource, action))
    ensures GetCurrentActiveUser(j, sessions, users, token, now).Err? ==> r == GetCurrentActiveUser(j, sessions, users, token, now)
  {
    var u := GetCurrentActiveUser(j, sessions, users, token, now);
    if u.Err? then u else PermissionCheck(roles, perms, u.value, resource, action)
  }

  /** The custom-permission flag and list of an account never change the outcome of the check. */
  lemma CustomPermissionsNeverConsulted(roles: seq<Role>, perms: seq<Permission>, u: Account, flag: bool, ids: seq<Id>,
                                        resource: string, action: string)
    ensures PermissionCheck(roles, perms, u.(useCustomPermissions := flag, customPermissionIds := ids), resource, action).Ok?
            == PermissionCheck(roles, perms, u, resource, action).Ok?
  {
    var v := u.(useCustomPermissions := flag, customPermissionIds := ids);
    assert RoleOf(roles, v) == RoleOf(roles, u);
  }

  /**
   * `get_optional_current_user`: no credentials gives None, and so does
   * any HTTP error of `get_current_user`; an exception that is not an HTTP
   * error (claims without `sub` or `type`, or with a fractional `exp`)
   * still propagates.
   */
  function GetOptionalCurrentUser(j: Jwt, sessions: seq<UserSession>, users: seq<Account>, credentials: Option<string>,
                                  now: Moment): (r: Result<Option<Account>>)
    ensures credentials.None? ==> r == Ok(None)
    ensures credentials.Some? && GetCurrentUser(j, sessions, users, credentials.value, now).Ok?
            ==> r == Ok(Some(GetCurrentUser(j, sessions, users, credentials.value, now).value))
    ensures r.Err? <==> credentials.Some? && j.decode(credentials.value, Stamp(now)).Some?
                        && !WellFormed(j.decode(credentials.value, Stamp(now)).value)
    ensures r.Ok? && r.value.None? && credentials.Some? ==> GetCurrentUser(j, sessions, users, credentials.value, now).Err?
  {
    if credentials.None? then Ok(None)
    else
      var u := GetCurrentUser(j, sessions, users, credentials.value, now);
      if u.Ok? then Ok(Some(u.value))
      else if u.status == INTERNAL_ERROR then Err(u.status, u.detail)
      else Ok(None)
  }

  /**
   * Access and refresh tokens carry `sub`, `type` and a whole `exp`, so for
   * them the optional dependency never fails.
   */
  lemma OptionalUserNeverFailsOnIssuedTokens(j: Jwt, sessions: seq<UserSession>, users: seq<Account>, c: Claims, now: Moment)
    requires Faithful(j)
    requires WellFormed(c)
    ensures GetOptionalCurrentUser(j, sessions, users, Some(j.encode(c)), now).Ok?
  {
    assert j.decode(j.encode(c), Stamp(now)) == if Stamp(now) <= c.exp then Some(c) else None;
  }

  /**
   * A password-reset or email-verification token presented as a bearer
   * token, while unexpired, is a server error for both dependencies: its
   * float `exp` fails `TokenPayload` before the type is looked at.
   */
  lemma FloatExpiryIsServerError(j: Jwt, sessions: seq<UserSession>, users: seq<Account>, email: string,
                                 issued: Moment, now: Moment, reset: bool)
    requires Faithful(j)
    requires Stamp(now) <= Stamp(issued)
                           + (if reset then PASSWORD_RESET_TOKEN_EXPIRE_HOURS else EMAIL_VERIFICATION_TOKEN_EXPIRE_HOURS) * HOUR
    ensures var token := if reset then GeneratePasswordResetToken(j, email, issued)
                         else GenerateEmailVerificationToken(j, email, issued);
            && GetCurrentUser(j, sessions, users, token, now) == Err(INTERNAL_ERROR, UNHANDLED)
            && GetOptionalCurrentUser(j, sessions, users, Some(token), now).Err?
  {
    var c := if reset then ResetClaims(email, issued) else VerificationClaims(email, issued);
    assert j.decode(j.encode(c), Stamp(now)) == Some(c);
  }
}
