/**
 * `POST /auth/login` and `POST /auth/verify-email-otp`.
 *
 * A login is decided on the first account whose email or username equals
 * the submitted login, in this order: an active lockout (423), a wrong
 * password (401, one more failed attempt, a 30-minute lockout from the
 * fifth), an account that is not active (403), an unverified email (403,
 * and a fresh six-digit code), and otherwise success: the failure count and
 * lockout are cleared and a session is stored for the new access token.
 *
 * The stored datetimes come back from the database without a time zone
 * while both handlers compare them with an aware `now`; Python refuses such
 * a comparison. `DecideAsWritten` and `CheckEmailCodeAsWritten` model that;
 * `Decide` and `CheckEmailCode` compare the instants, as intended, and are
 * what the handlers below use.
 */
module Login {
  import opened Common
  import opened IdentityModel
  import opened Security
  import IdentityDb
  import AuthMiddleware

  const INCORRECT_LOGIN: string := "Incorrect email or password"
  const USER_NOT_FOUND: string := "User not found"
  const INCORRECT_PASSWORD: string := "Incorrect password"
  const VERIFICATION_SENT: string := "Email not verified. Verification code sent to your email."
  const LOGIN_FAILED: string := "login_failed"
  const LOGIN_SUCCESS: string := "login_success"
  const BEARER: string := "bearer"

  const ALREADY_VERIFIED: string := "Email already verified"
  const NO_CODE: string := "No verification code found. Please request a new one."
  const CODE_EXPIRED: string := "Verification code has expired. Please request a new one."
  const INVALID_CODE: string := "Invalid verification code"
  const EMAIL_VERIFIED: string := "email_verified"
  const EMAIL_VERIFIED_MESSAGE: string := "Email verified successfully"

  /** `LoginRequest`; the login travels in the `email` field. */
  datatype LoginRequest = LoginRequest(email: string, password: string, rememberMe: bool)

  /** `LoginResponse`: the role and permission list the handler also builds are not fields of it. */
  datatype LoginResponse = LoginResponse(accessToken: string, refreshToken: string, tokenType: string,
                                         expiresIn: int, user: Account, mustChangePassword: bool)

  /** `(User.email == login) | (User.username == login)`. */
  function MatchesLogin(login: string): Account -> bool
  {
    (u: Account) => u.email == login || u.username == Some(login)
  }

  /** The position of the first account the login names. */
  function FindLogin(users: seq<Account>, login: string): (r: Option<nat>)
    ensures r.Some? ==> r.value < |users| && (users[r.value].email == login || users[r.value].username == Some(login))
    ensures r.Some? ==> forall k :: 0 <= k < r.value ==> users[k].email != login && users[k].username != Some(login)
    ensures r.None? <==> forall k :: 0 <= k < |users| ==> users[k].email != login && users[k].username != Some(login)
  {
    var i := FirstMatch(users, MatchesLogin(login));
    if i.Some? then
      assert MatchesLogin(login)(users[i.value]);
      assert forall k :: 0 <= k < i.value ==> !MatchesLogin(login)(users[k]);
      i
    else
      assert forall k :: 0 <= k < |users| ==> !MatchesLogin(login)(users[k]);
      None
  }

  // ---------------------------------------------------------------------
  // The decision
  // ---------------------------------------------------------------------

  /** `lockout_until` lies after `now`. */
  predicate Locked(u: Account, now: Moment)
  {
    u.lockoutUntil.Some? && Stamp(u.lockoutUntil.value) > Stamp(now)
  }

  /** `int(remaining.total_seconds() / 60)`: whole minutes left, rounded down. */
  function MinutesLeft(until: Moment, now: Moment): (r: nat)
    requires Stamp(until) > Stamp(now)
    ensures r * MINUTE <= Stamp(until) - Stamp(now) < (r + 1) * MINUTE
  {
    (Stamp(until) - Stamp(now)) / MINUTE
  }

  function LockedMessage(minutes: nat): string
  {
    "Account is locked. Try again in " + NatToString(minutes) + " minutes"
  }

  /** What a login attempt on a found account comes to, and the account as the attempt leaves it. */
  datatype Decision =
    | Refuse(status: int, detail: string)
    | WrongPassword(account: Account)
    | SendCode(account: Account)
    | Admit(account: Account)

  /** `now + timedelta(minutes=m)`. */
  function MinutesAfter(now: Moment, m: int): (r: Moment)
    ensures Stamp(r) == Stamp(now) + m * MINUTE
  {
    AddSeconds(now, m * MINUTE)
  }

  /** A wrong password: one more failed attempt, and from the fifth a lockout of 30 minutes from now. */
  function AfterFailure(u: Account, now: Moment): (r: Account)
    ensures r.failedAttempts == u.failedAttempts + 1
    ensures r.failedAttempts >= MAX_LOGIN_ATTEMPTS
            ==> r.lockoutUntil == Some(MinutesAfter(now, LOCKOUT_DURATION_MINUTES))
    ensures r.failedAttempts < MAX_LOGIN_ATTEMPTS ==> r.lockoutUntil == u.lockoutUntil
    ensures r.(failedAttempts := u.failedAttempts, lockoutUntil := u.lockoutUntil) == u
  {
    var n := u.failedAttempts + 1;
    if n >= MAX_LOGIN_ATTEMPTS then u.(failedAttempts := n, lockoutUntil := Some(MinutesAfter(now, LOCKOUT_DURATION_MINUTES)))
    else u.(failedAttempts := n)
  }

  /** An unverified email: the digest of a new code, valid for ten minutes. */
  function AfterUnverified(u: Account, digest: string, now: Moment): (r: Account)
    ensures r.otpHash == Some(digest) && r.otpExpires == Some(MinutesAfter(now, OTP_EXPIRE_MINUTES))
    ensures r.(otpHash := u.otpHash, otpExpires := u.otpExpires) == u
  {
    u.(otpHash := Some(digest), otpExpires := Some(MinutesAfter(now, OTP_EXPIRE_MINUTES)))
  }

  /** A successful login: no failed attempts, no lockout, and the login time. */
  function AfterSuccess(u: Account, now: Moment): (r: Account)
    ensures r.failedAttempts == 0 && r.lockoutUntil.None? && r.lastLogin == Some(now)
    ensures r.(failedAttempts := u.failedAttempts, lockoutUntil := u.lockoutUntil, lastLogin := u.lastLogin) == u
  {
    u.(failedAttempts := 0, lockoutUntil := None, lastLogin := Some(now))
  }

  /**
   * The checks of `login` after the account is found, with the lockout
   * compared as instants. `pick` draws the code, `sha` digests it.
   */
  function Decide(u: Account, req: LoginRequest, b: Bcrypt, sha: string -> string, pick: nat -> nat, now: Moment)
    : (r: Decision)
    ensures Locked(u, now) ==> r == Refuse(LOCKED, LockedMessage(MinutesLeft(u.lockoutUntil.value, now)))
    ensures r.WrongPassword? <==> !Locked(u, now) && !b.verify(req.password, u.passwordHash)
    ensures r.WrongPassword? ==> r.account == AfterFailure(u, now)
    ensures r.SendCode? <==> !Locked(u, now) && b.verify(req.password, u.passwordHash) && u.status == ACTIVE
                             && !u.emailVerified
    ensures r.SendCode? ==> r.account == AfterUnverified(u, HashOtp(sha, GenerateOtp(pick, OTP_LENGTH)), now)
    ensures r.Admit? <==> !Locked(u, now) && b.verify(req.password, u.passwordHash) && u.status == ACTIVE
                          && u.emailVerified
    ensures r.Admit? ==> r.account == AfterSuccess(u, now)
    ensures r.Refuse? && !Locked(u, now) ==> r == Refuse(FORBIDDEN, "Account is " + StatusValue(u.status))
  {
    if Locked(u, now) then Refuse(LOCKED, LockedMessage(MinutesLeft(u.lockoutUntil.value, now)))
    else if !b.verify(req.password, u.passwordHash) then WrongPassword(AfterFailure(u, now))
    else if u.status != ACTIVE then Refuse(FORBIDDEN, "Account is " + StatusValue(u.status))
    else if !u.emailVerified then SendCode(AfterUnverified(u, HashOtp(sha, GenerateOtp(pick, OTP_LENGTH)), now))
    else Admit(AfterSuccess(u, now))
  }

  /**
   * The same checks as written: a stored `lockout_until` is naive, `now`
   * is aware, and comparing them raises, whatever the two instants are.
   */
  function DecideAsWritten(u: Account, req: LoginRequest, b: Bcrypt, sha: string -> string, pick: nat -> nat,
                           now: Moment): (r: Decision)
    ensures u.lockoutUntil.Some? ==> r == Refuse(INTERNAL_ERROR, UNHANDLED)
    ensures u.lockoutUntil.None? ==> r == Decide(u, req, b, sha, pick, now)
  {
    if u.lockoutUntil.Some? then Refuse(INTERNAL_ERROR, UNHANDLED) else Decide(u, req, b, sha, pick, now)
  }

  // ---------------------------------------------------------------------
  // Tokens and the session
  // ---------------------------------------------------------------------

  /** `access_token_expires`: 30 days with remember-me, else the 30-minute default. */
  function AccessLifetime(rememberMe: bool): (r: int)
    ensures r > 0
  {
    if rememberMe then REMEMBER_ME_DAYS * DAY else ACCESS_TOKEN_EXPIRE_MINUTES * MINUTE
  }

  /** `session_expires`: 30 days with remember-me, else `SESSION_EXPIRE_MINUTES`. */
  function SessionExpiry(rememberMe: bool, now: Moment): (r: Moment)
    ensures Stamp(r) > Stamp(now)
  {
    if rememberMe then AddSeconds(now, REMEMBER_ME_DAYS * DAY) else MinutesAfter(now, SESSION_EXPIRE_MINUTES)
  }

  function AccessTokenFor(j: Jwt, u: Account, rememberMe: bool, now: Moment): string
  {
    CreateAccessToken(j, IdText(u.id), Some(AccessLifetime(rememberMe)), now)
  }

  function RefreshTokenFor(j: Jwt, u: Account, now: Moment): string
  {
    CreateRefreshToken(j, IdText(u.id), None, now)
  }

  /** The session row a successful login stores. */
  function NewSession(id: Id, j: Jwt, u: Account, req: LoginRequest, origin: Origin, now: Moment): (r: UserSession)
    ensures r.userId == u.id && r.token == AccessTokenFor(j, u, req.rememberMe, now) && r.revokedAt.None?
    ensures r.refreshToken == RefreshTokenFor(j, u, now) && r.rememberMe == req.rememberMe
    ensures r.expiresAt == SessionExpiry(req.rememberMe, now)
  {
    UserSession(id, u.id, AccessTokenFor(j, u, req.rememberMe, now), RefreshTokenFor(j, u, now), origin.host,
                origin.userAgent, req.rememberMe, SessionExpiry(req.rememberMe, now), None)
  }

  /** A stored session already holds the new token or refresh token; both columns are unique. */
  function Collides(s: UserSession): UserSession -> bool
  {
    (t: UserSession) => t.token == s.token || t.refreshToken == s.refreshToken
  }

  predicate TokenTaken(sessions: seq<UserSession>, s: UserSession)
  {
    exists k :: 0 <= k < |sessions| && (sessions[k].token == s.token || sessions[k].refreshToken == s.refreshToken)
  }

  function Response(j: Jwt, a: Account, req: LoginRequest, now: Moment): (r: LoginResponse)
    ensures r.tokenType == BEARER && r.expiresIn == AccessLifetime(req.rememberMe) && r.user == a
    ensures r.mustChangePassword == a.mustChangePassword
  {
    LoginResponse(AccessTokenFor(j, a, req.rememberMe, now), RefreshTokenFor(j, a, now), BEARER,
                  AccessLifetime(req.rememberMe), a, a.mustChangePassword)
  }

  function FailureEvent(id: Id, userId: Option<Id>, origin: Origin, error: string): AuthEvent
  {
    IdentityDb.NewEvent(id, userId, LOGIN_FAILED, origin, false, Some(error))
  }

  /** `f"{permission.resource}:{permission.action}"`. */
  function PermissionString(p: Permission): string
  {
    p.resource + ":" + p.action
  }

  /**
   * The permission strings a successful login builds from the account's
   * role, one per role permission; an account without a role gets none.
   * The response model has no field for them, so they are not returned.
   */
  function PermissionStrings(roles: seq<Role>, perms: seq<Permission>, u: Account): (r: seq<string>)
    ensures RoleOf(roles, u).None? ==> r == []
    ensures forall k :: 0 <= k < |r| ==> exists p :: p in perms && p.id in RoleOf(roles, u).value.permissionIds
                                                     && r[k] == PermissionString(p)
  {
    var role := RoleOf(roles, u);
    if role.None? then []
    else
      var held := Resolve(perms, role.value.permissionIds);
      var r := MapSeq(held, PermissionString);
      assert forall k :: 0 <= k < |r| ==> held[k] in perms && held[k].id in role.value.permissionIds
                                          && r[k] == PermissionString(held[k]);
      r
  }

  /**
   * Every permission the flat check grants appears among the strings, and
   * the custom-permission flag and list change nothing in them.
   */
  lemma PermissionStringsCoverGrants(roles: seq<Role>, perms: seq<Permission>, u: Account, resource: string,
                                     action: string, flag: bool, ids: seq<Id>)
    ensures AuthMiddleware.Granted(roles, perms, u, resource, action)
            ==> resource + ":" + action in PermissionStrings(roles, perms, u)
    ensures PermissionStrings(roles, perms, u.(useCustomPermissions := flag, customPermissionIds := ids))
            == PermissionStrings(roles, perms, u)
  {
    if AuthMiddleware.Granted(roles, perms, u, resource, action) {
      var role := RoleOf(roles, u).value;
      var k :| 0 <= k < |perms| && perms[k].id in role.permissionIds && perms[k].resource == resource
               && perms[k].action == action;
      var held := Resolve(perms, role.permissionIds);
      assert perms[k] in held;
      var m :| 0 <= m < |held| && held[m] == perms[k];
      assert MapSeq(held, PermissionString)[m] == resource + ":" + action;
    }
    assert RoleOf(roles, u.(useCustomPermissions := flag, customPermissionIds := ids)) == RoleOf(roles, u);
  }

  /**
   * `login`. An unknown login logs a failure without a user and answers
   * 401; a wrong password stores the failed attempt, logs it and answers
   * the same 401; a code sent stores its digest; a success stores the
   * account, the session and the event, unless the unique token columns
   * refuse the session, in which case the commit fails and nothing changes.
   */
  method Login(d: IdentityDb.Directory, j: Jwt, b: Bcrypt, sha: string -> string, pick: nat -> nat,
               req: LoginRequest, origin: Origin, now: Moment) returns (r: Result<LoginResponse>)
    modifies d`users, d`sessions, d`events
    ensures FindLogin(old(d.users), req.email).None?
            ==> r == Err(UNAUTHORIZED, INCORRECT_LOGIN) && d.users == old(d.users) && d.sessions == old(d.sessions)
                && d.events == old(d.events)
                               + [FailureEvent(IdentityDb.FreshKey(old(d.events), IdentityDb.AuthEventIdOf), None, origin,
                                               USER_NOT_FOUND)]
    ensures FindLogin(old(d.users), req.email).Some? ==>
              var i := FindLogin(old(d.users), req.email).value;
              var u := old(d.users)[i];
              var key := IdentityDb.FreshKey(old(d.events), IdentityDb.AuthEventIdOf);
              match Decide(u, req, b, sha, pick, now)
              case Refuse(status, detail) =>
                r == Err(status, detail) && d.users == old(d.users) && d.sessions == old(d.sessions)
                && d.events == old(d.events)
              case WrongPassword(a) =>
                r == Err(UNAUTHORIZED, INCORRECT_LOGIN) && d.users == old(d.users)[i := a]
                && d.sessions == old(d.sessions)
                && d.events == old(d.events) + [FailureEvent(key, Some(u.id), origin, INCORRECT_PASSWORD)]
              case SendCode(a) =>
                r == Err(FORBIDDEN, VERIFICATION_SENT) && d.users == old(d.users)[i := a]
                && d.sessions == old(d.sessions) && d.events == old(d.events)
              case Admit(a) =>
                var s := NewSession(IdentityDb.FreshKey(old(d.sessions), IdentityDb.SessionIdOf), j, a, req, origin, now);
                if TokenTaken(old(d.sessions), s) then
                  r == Err(INTERNAL_ERROR, UNHANDLED) && d.users == old(d.users) && d.sessions == old(d.sessions)
                  && d.events == old(d.events)
                else
                  r == Ok(Response(j, a, req, now)) && d.users == old(d.users)[i := a]
                  && d.sessions == old(d.sessions) + [s]
                  && d.events == old(d.events) + [IdentityDb.NewEvent(key, Some(u.id), LOGIN_SUCCESS, origin, true, None)]
  {
    var found := FindLogin(d.users, req.email);
    var key := IdentityDb.FreshKey(d.events, IdentityDb.AuthEventIdOf);
    if found.None? {
      d.events := d.events + [FailureEvent(key, None, origin, USER_NOT_FOUND)];
      return Err(UNAUTHORIZED, INCORRECT_LOGIN);
    }
    var i := found.value;
    var u := d.users[i];
    var decision := Decide(u, req, b, sha, pick, now);
    match decision {
      case Refuse(status, detail) =>
        r := Err(status, detail);
      case WrongPassword(a) =>
        d.users := d.users[i := a];
        d.events := d.events + [FailureEvent(key, Some(u.id), origin, INCORRECT_PASSWORD)];
        r := Err(UNAUTHORIZED, INCORRECT_LOGIN);
      case SendCode(a) =>
        d.users := d.users[i := a];
        r := Err(FORBIDDEN, VERIFICATION_SENT);
      case Admit(a) =>
        var s := NewSession(IdentityDb.FreshKey(d.sessions, IdentityDb.SessionIdOf), j, a, req, origin, now);
        if FirstMatch(d.sessions, Collides(s)).Some? {
          var k := FirstMatch(d.sessions, Collides(s)).value;
          assert Collides(s)(d.sessions[k]);
          return Err(INTERNAL_ERROR, UNHANDLED);
        }
        assert forall k :: 0 <= k < |d.sessions| ==> !Collides(s)(d.sessions[k]);
        d.users := d.users[i := a];
        d.sessions := d.sessions + [s];
        d.events := d.events + [IdentityDb.NewEvent(key, Some(u.id), LOGIN_SUCCESS, origin, true, None)];
        r := Ok(Response(j, a, req, now));
    }
  }

  // ---------------------------------------------------------------------
  // Lockout
  // ---------------------------------------------------------------------

  /** One login attempt: what was sent, and when. */
  datatype Try = Try(req: LoginRequest, at: Moment)

  /** The account after a run of attempts, each decided on the account the previous ones left. */
  function Replay(u: Account, tries: seq<Try>, b: Bcrypt, sha: string -> string, pick: nat -> nat): Account
    decreases |tries|
  {
    if tries == [] then u
    else
      var rest := Replay(u, tries[..|tries| - 1], b, sha, pick);
      var d := Decide(rest, tries[|tries| - 1].req, b, sha, pick, tries[|tries| - 1].at);
      if d.Refuse? then rest else d.account
  }

  /** Every attempt of the run sends a password the account's hash refuses. */
  predicate AllWrong(u: Account, tries: seq<Try>, b: Bcrypt)
  {
    forall k :: 0 <= k < |tries| ==> !b.verify(tries[k].req.password, u.passwordHash)
  }

  /**
   * Below the limit, every wrong password counts: an account without a
   * lockout gains one failed attempt per attempt, stays unlocked and keeps
   * its password.
   */
  lemma {:induction false} WrongPasswordsCount(u: Account, tries: seq<Try>, b: Bcrypt, sha: string -> string,
                                               pick: nat -> nat)
    requires u.lockoutUntil.None? && AllWrong(u, tries, b)
    requires u.failedAttempts + |tries| < MAX_LOGIN_ATTEMPTS
    ensures Replay(u, tries, b, sha, pick) == u.(failedAttempts := u.failedAttempts + |tries|)
    decreases |tries|
  {
    if tries != [] {
      var init := tries[..|tries| - 1];
      assert AllWrong(u, init, b) by {
        forall k | 0 <= k < |init| ensures !b.verify(init[k].req.password, u.passwordHash) {
          assert init[k] == tries[k];
        }
      }
      WrongPasswordsCount(u, init, b, sha, pick);
      var rest := Replay(u, init, b, sha, pick);
      assert !b.verify(tries[|tries| - 1].req.password, rest.passwordHash);
    }
  }

  /**
   * `MAX_LOGIN_ATTEMPTS` wrong passwords in a row lock a fresh account for
   * 30 minutes from the last of them.
   */
  lemma FiveWrongPasswordsLock(u: Account, tries: seq<Try>, b: Bcrypt, sha: string -> string, pick: nat -> nat)
    requires u.lockoutUntil.None? && u.failedAttempts == 0 && AllWrong(u, tries, b)
    requires |tries| == MAX_LOGIN_ATTEMPTS
    ensures Replay(u, tries, b, sha, pick)
            == u.(failedAttempts := MAX_LOGIN_ATTEMPTS,
                  lockoutUntil := Some(MinutesAfter(tries[|tries| - 1].at, LOCKOUT_DURATION_MINUTES)))
  {
    var init := tries[..|tries| - 1];
    assert AllWrong(u, init, b) by {
      forall k | 0 <= k < |init| ensures !b.verify(init[k].req.password, u.passwordHash) {
        assert init[k] == tries[k];
      }
    }
    WrongPasswordsCount(u, init, b, sha, pick);
  }

  /**
   * While the lockout lasts every attempt is refused with 423, the right
   * password included, and the account does not change.
   */
  lemma LockoutRefusesEveryAttempt(a: Account, req: LoginRequest, b: Bcrypt, sha: string -> string, pick: nat -> nat,
                                   now: Moment)
    requires a.lockoutUntil.Some? && Stamp(now) < Stamp(a.lockoutUntil.value)
    ensures Decide(a, req, b, sha, pick, now).Refuse?
    ensures Decide(a, req, b, sha, pick, now).status == LOCKED
    ensures Decide(a, req, b, sha, pick, now).detail
            == LockedMessage((Stamp(a.lockoutUntil.value) - Stamp(now)) / MINUTE)
  {
  }

  /**
   * Once the lockout has passed, the right password of an active,
   * verified account logs in again and clears the failures and the lockout.
   */
  lemma LockoutLapses(a: Account, req: LoginRequest, b: Bcrypt, sha: string -> string, pick: nat -> nat, now: Moment)
    requires a.lockoutUntil.Some? && Stamp(a.lockoutUntil.value) <= Stamp(now)
    requires b.verify(req.password, a.passwordHash) && a.status == ACTIVE && a.emailVerified
    ensures Decide(a, req, b, sha, pick, now).Admit?
    ensures Decide(a, req, b, sha, pick, now).account.failedAttempts == 0
    ensures Decide(a, req, b, sha, pick, now).account.lockoutUntil.None?
  {
  }

  /**
   * As written, the lockout never lapses: after the fifth wrong password
   * the account carries a `lockout_until`, and every later attempt, at any
   * time and with the right password, fails with a server error, while the
   * instant comparison admits it once the 30 minutes are over.
   */
  lemma LockedForeverAsWritten(u: Account, tries: seq<Try>, b: Bcrypt, sha: string -> string, pick: nat -> nat,
                               req: LoginRequest, later: Moment)
    requires u.lockoutUntil.None? && u.failedAttempts == 0 && AllWrong(u, tries, b)
    requires |tries| == MAX_LOGIN_ATTEMPTS
    requires b.verify(req.password, u.passwordHash) && u.status == ACTIVE && u.emailVerified
    ensures DecideAsWritten(Replay(u, tries, b, sha, pick), req, b, sha, pick, later) == Refuse(INTERNAL_ERROR, UNHANDLED)
    ensures Stamp(later) >= Stamp(tries[|tries| - 1].at) + LOCKOUT_DURATION_MINUTES * MINUTE
            ==> Decide(Replay(u, tries, b, sha, pick), req, b, sha, pick, later).Admit?
  {
    FiveWrongPasswordsLock(u, tries, b, sha, pick);
  }

  // ---------------------------------------------------------------------
  // The session a login opens
  // ---------------------------------------------------------------------

  /**
   * The access token of a successful login authenticates, through the
   * session-checking dependency, as the logged-in account from the moment
   * of login until the token's `exp`, which is also when the session
   * expires; afterwards the token no longer decodes.
   */
  lemma AdmittedTokenAuthenticates(j: Jwt, users: seq<Account>, sessions: seq<UserSession>, i: nat, id: Id,
                                   req: LoginRequest, b: Bcrypt, sha: string -> string, pick: nat -> nat,
                                   origin: Origin, now: Moment, t: Moment)
    requires Faithful(j) && AccountKeysUnique(users)
    requires i < |users| && Decide(users[i], req, b, sha, pick, now).Admit?
    requires var s := NewSession(id, j, Decide(users[i], req, b, sha, pick, now).account, req, origin, now);
             !TokenTaken(sessions, s)
    requires Stamp(now) <= Stamp(t)
    ensures var a := Decide(users[i], req, b, sha, pick, now).account;
            var s := NewSession(id, j, a, req, origin, now);
            Stamp(s.expiresAt) == Stamp(now) + AccessLifetime(req.rememberMe)
            && (Stamp(t) <= Stamp(now) + AccessLifetime(req.rememberMe)
                ==> AuthMiddleware.GetCurrentUser(j, sessions + [s], users[i := a], s.token, t) == Ok(a))
            && (Stamp(t) > Stamp(now) + AccessLifetime(req.rememberMe)
                ==> AuthMiddleware.GetCurrentUser(j, sessions + [s], users[i := a], s.token, t)
                    == Err(UNAUTHORIZED, AuthMiddleware.INVALID_CREDENTIALS))
  {
    var a := Decide(users[i], req, b, sha, pick, now).account;
    var s := NewSession(id, j, a, req, origin, now);
    var all := sessions + [s];
    var c := AccessClaims(IdText(a.id), Some(AccessLifetime(req.rememberMe)), now);
    assert j.decode(j.encode(c), Stamp(t)) == if Stamp(t) <= c.exp then Some(c) else None;
    if Stamp(t) <= c.exp {
      assert AuthMiddleware.IsAccessToken(j, s.token, t);
      assert FirstMatch(all, AuthMiddleware.LiveSession(s.token)) == Some(|sessions|) by {
        forall k | 0 <= k < |sessions| ensures !AuthMiddleware.LiveSession(s.token)(all[k]) {
          assert all[k] == sessions[k];
        }
        assert all[|sessions|] == s;
      }
      var v := users[i := a];
      assert AccountKeysUnique(v) by {
        assert a.id == users[i].id;
      }
      assert v[i] == a;
      UniqueKeyFinds(v, a);
    }
  }

  // ---------------------------------------------------------------------
  // Email verification
  // ---------------------------------------------------------------------

  /**
   * The checks of `verify_email_otp` on the found account, with the expiry
   * compared as instants: already verified, no code, an expired code, a
   * code that does not match. A stored code without an expiry cannot be
   * compared at all (`None < now` raises).
   */
  function CheckEmailCode(u: Account, otp: string, sha: string -> string, now: Moment): (r: Result<()>)
    ensures r.Ok? <==> !u.emailVerified && Truthy(u.otpHash) && u.otpExpires.Some?
                       && Stamp(now) <= Stamp(u.otpExpires.value) && VerifyOtp(sha, otp, u.otpHash.value)
    ensures u.emailVerified ==> r == Err(BAD_REQUEST, ALREADY_VERIFIED)
    ensures !u.emailVerified && !Truthy(u.otpHash) ==> r == Err(BAD_REQUEST, NO_CODE)
    ensures !u.emailVerified && Truthy(u.otpHash) && u.otpExpires.Some? && Stamp(u.otpExpires.value) < Stamp(now)
            ==> r == Err(BAD_REQUEST, CODE_EXPIRED)
    ensures r.Err? && r.status != INTERNAL_ERROR ==> r.status == BAD_REQUEST
  {
    if u.emailVerified then Err(BAD_REQUEST, ALREADY_VERIFIED)
    else if !Truthy(u.otpHash) then Err(BAD_REQUEST, NO_CODE)
    else if u.otpExpires.None? then Err(INTERNAL_ERROR, UNHANDLED)
    else if Stamp(u.otpExpires.value) < Stamp(now) then Err(BAD_REQUEST, CODE_EXPIRED)
    else if !VerifyOtp(sha, otp, u.otpHash.value) then Err(BAD_REQUEST, INVALID_CODE)
    else Ok(())
  }

  /** The same checks as written: the stored expiry is naive, so the comparison always raises. */
  function CheckEmailCodeAsWritten(u: Account, otp: string, sha: string -> string, now: Moment): (r: Result<()>)
    ensures !r.Ok?
    ensures !u.emailVerified && Truthy(u.otpHash) ==> r == Err(INTERNAL_ERROR, UNHANDLED)
    ensures u.emailVerified || !Truthy(u.otpHash) ==> r == CheckEmailCode(u, otp, sha, now)
  {
    if u.emailVerified then Err(BAD_REQUEST, ALREADY_VERIFIED)
    else if !Truthy(u.otpHash) then Err(BAD_REQUEST, NO_CODE)
    else Err(INTERNAL_ERROR, UNHANDLED)
  }

  /** A verified account: the code is spent, and a pending account becomes active. */
  function AfterEmailVerified(u: Account): (r: Account)
    ensures r.emailVerified && r.otpHash.None? && r.otpExpires.None?
    ensures r.status == if u.status == PENDING then ACTIVE else u.status
    ensures r.(emailVerified := u.emailVerified, otpHash := u.otpHash, otpExpires := u.otpExpires, status := u.status) == u
  {
    u.(emailVerified := true, otpHash := None, otpExpires := None, status := if u.status == PENDING then ACTIVE else u.status)
  }

  /** `verify_email_otp`: 404 for an unknown email, then the checks; success stores the account and the event. */
  method VerifyEmailOtp(d: IdentityDb.Directory, sha: string -> string, email: string, otp: string, origin: Origin,
                        now: Moment) returns (r: Result<string>)
    modifies d`users, d`events
    ensures FindByEmail(old(d.users), email).None?
            ==> r == Err(NOT_FOUND, USER_NOT_FOUND) && d.users == old(d.users) && d.events == old(d.events)
    ensures FindByEmail(old(d.users), email).Some? ==>
              var i := FindByEmail(old(d.users), email).value;
              var u := old(d.users)[i];
              var check := CheckEmailCode(u, otp, sha, now);
              (check.Err? ==> r == Err(check.status, check.detail) && d.users == old(d.users) && d.events == old(d.events))
              && (check.Ok? ==> r == Ok(EMAIL_VERIFIED_MESSAGE) && d.users == old(d.users)[i := AfterEmailVerified(u)]
                                && d.events == old(d.events)
                                   + [IdentityDb.NewEvent(IdentityDb.FreshKey(old(d.events), IdentityDb.AuthEventIdOf),
                                                          Some(u.id), EMAIL_VERIFIED, origin, true, None)])
  {
    var found := FindByEmail(d.users, email);
    if found.None? {
      return Err(NOT_FOUND, USER_NOT_FOUND);
    }
    var i := found.value;
    var u := d.users[i];
    var check := CheckEmailCode(u, otp, sha, now);
    if check.Err? {
      return Err(check.status, check.detail);
    }
    var key := IdentityDb.FreshKey(d.events, IdentityDb.AuthEventIdOf);
    d.users := d.users[i := AfterEmailVerified(u)];
    d.events := d.events + [IdentityDb.NewEvent(key, Some(u.id), EMAIL_VERIFIED, origin, true, None)];
    r := Ok(EMAIL_VERIFIED_MESSAGE);
  }

  /**
   * The code a refused login sends verifies the email within its ten
   * minutes; with an injective digest no other code does. As written the
   * same request fails with a server error.
   */
  lemma SentCodeVerifies(u: Account, req: LoginRequest, b: Bcrypt, sha: string -> string, pick: nat -> nat,
                         now: Moment, given: string, t: Moment)
    requires Decide(u, req, b, sha, pick, now).SendCode?
    requires Stamp(t) <= Stamp(now) + OTP_EXPIRE_MINUTES * MINUTE
    requires sha(GenerateOtp(pick, OTP_LENGTH)) != ""
    ensures var a := Decide(u, req, b, sha, pick, now).account;
            CheckEmailCode(a, GenerateOtp(pick, OTP_LENGTH), sha, t) == Ok(())
            && (Injective(sha) && given != GenerateOtp(pick, OTP_LENGTH)
                ==> CheckEmailCode(a, given, sha, t) == Err(BAD_REQUEST, INVALID_CODE))
            && CheckEmailCodeAsWritten(a, GenerateOtp(pick, OTP_LENGTH), sha, t) == Err(INTERNAL_ERROR, UNHANDLED)
  {
    var code := GenerateOtp(pick, OTP_LENGTH);
    OtpAcceptsTheIssuedCode(sha, code, given);
  }

  /**
   * A pending account is never sent a code at login: it is refused as
   * pending (or as locked, or for its password) before the email check.
   * Its code comes from account creation, and verifying it makes the
   * account active, after which the right password logs in.
   */
  lemma PendingAccountVerifiesThenLogsIn(u: Account, req: LoginRequest, b: Bcrypt, sha: string -> string,
                                         pick: nat -> nat, now: Moment)
    requires u.status == PENDING && !Locked(u, now) && b.verify(req.password, u.passwordHash)
    ensures Decide(u, req, b, sha, pick, now) == Refuse(FORBIDDEN, "Account is pending")
    ensures Decide(AfterEmailVerified(u), req, b, sha, pick, now) == Admit(AfterSuccess(AfterEmailVerified(u), now))
  {
    assert StatusValue(PENDING) == "pending";
  }
}
