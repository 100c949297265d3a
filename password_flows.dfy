/**
 * The password endpoints: a reset request (a reset token and a six-digit
 * code), checking the code, completing a reset with the token, and a
 * change by an authenticated account. A new password must meet the policy
 * and must not verify against any of the account's five most recent
 * history entries; the replaced hash joins the history.
 *
 * The reset code lives in the same columns as the email-verification code.
 * As in the login module, the stored expiry instants are naive and the
 * handlers compare them with an aware `now`; the `AsWritten` functions
 * model that, and the handlers below compare instants.
 *
 * `newHash` is the bcrypt hash the handler computes for the new password
 * under a random salt.
 */
module PasswordFlows {
  import opened Common
  import opened IdentityModel
  import opened Security
  import IdentityDb
  import Login

  const RESET_REQUESTED: string := "If an account exists with this email, a password reset link has been sent."
  const PASSWORD_RESET_REQUESTED: string := "password_reset_requested"
  const USER_NOT_FOUND: string := "User not found"
  const NO_OTP: string := "No OTP found. Please request a password reset first."
  const OTP_EXPIRED: string := "OTP has expired. Please request a new password reset."
  const INVALID_OTP: string := "Invalid OTP"
  const OTP_VERIFIED: string := "OTP verified successfully. You can now reset your password."
  const INVALID_OR_EXPIRED_TOKEN: string := "Invalid or expired reset token"
  const INVALID_RESET_TOKEN: string := "Invalid reset token"
  const RESET_TOKEN_EXPIRED: string := "Reset token has expired"
  const RECENTLY_USED: string := "Cannot use any of your last 5 passwords"
  const PASSWORD_RESET_COMPLETED: string := "password_reset_completed"
  const RESET_DONE: string := "Password reset successfully"
  const CURRENT_INCORRECT: string := "Current password is incorrect"
  const MUST_DIFFER: string := "New password must be different from current password"
  const PASSWORD_CHANGED: string := "password_changed"
  const CHANGED_MESSAGE: string := "Password changed successfully"

  /** How many history entries a new password is checked against. */
  const HISTORY_DEPTH: nat := 5

  // ---------------------------------------------------------------------
  // Reset request and code
  // ---------------------------------------------------------------------

  /** The code a reset request draws. */
  function ResetCode(pick: nat -> nat): string
  {
    GenerateOtp(pick, OTP_LENGTH)
  }

  /** A reset request: a 48-hour reset token and a ten-minute code, replacing any code the account held. */
  function AfterResetRequest(u: Account, j: Jwt, sha: string -> string, pick: nat -> nat, now: Moment): (r: Account)
    ensures r.resetToken == Some(GeneratePasswordResetToken(j, u.email, now))
    ensures r.resetExpires.Some? && Stamp(r.resetExpires.value) == Stamp(now) + PASSWORD_RESET_TOKEN_EXPIRE_HOURS * HOUR
    ensures r.otpHash == Some(HashOtp(sha, ResetCode(pick)))
    ensures r.otpExpires == Some(Login.MinutesAfter(now, OTP_EXPIRE_MINUTES))
    ensures r.(resetToken := u.resetToken, resetExpires := u.resetExpires, otpHash := u.otpHash,
               otpExpires := u.otpExpires) == u
  {
    var expires: Moment := AddSeconds(now, PASSWORD_RESET_TOKEN_EXPIRE_HOURS * HOUR);
    u.(resetToken := Some(GeneratePasswordResetToken(j, u.email, now)), resetExpires := Some(expires),
       otpHash := Some(HashOtp(sha, ResetCode(pick))), otpExpires := Some(Login.MinutesAfter(now, OTP_EXPIRE_MINUTES)))
  }

  /**
   * `request_password_reset`: the same answer whether or not an account
   * has the email; only an existing account is changed and logged.
   */
  method RequestPasswordReset(d: IdentityDb.Directory, j: Jwt, sha: string -> string, pick: nat -> nat, email: string,
                              origin: Origin, now: Moment) returns (r: Result<string>)
    modifies d`users, d`events
    ensures r == Ok(RESET_REQUESTED)
    ensures FindByEmail(old(d.users), email).None? ==> d.users == old(d.users) && d.events == old(d.events)
    ensures FindByEmail(old(d.users), email).Some? ==>
              var i := FindByEmail(old(d.users), email).value;
              d.users == old(d.users)[i := AfterResetRequest(old(d.users)[i], j, sha, pick, now)]
              && d.events == old(d.events)
                 + [IdentityDb.NewEvent(IdentityDb.FreshKey(old(d.events), IdentityDb.AuthEventIdOf), Some(old(d.users)[i].id),
                                        PASSWORD_RESET_REQUESTED, origin, true, None)]
  {
    var found := FindByEmail(d.users, email);
    if found.Some? {
      var i := found.value;
      var u := d.users[i];
      var key := IdentityDb.FreshKey(d.events, IdentityDb.AuthEventIdOf);
      d.users := d.users[i := AfterResetRequest(u, j, sha, pick, now)];
      d.events := d.events + [IdentityDb.NewEvent(key, Some(u.id), PASSWORD_RESET_REQUESTED, origin, true, None)];
    }
    r := Ok(RESET_REQUESTED);
  }

  /**
   * The checks of `verify_reset_otp` on the found account, comparing the
   * expiry as instants: no code, an expired code, a wrong code. The account
   * is not changed either way.
   */
  function CheckResetCode(u: Account, otp: string, sha: string -> string, now: Moment): (r: Result<()>)
    ensures r.Ok? <==> Truthy(u.otpHash) && u.otpExpires.Some? && Stamp(now) <= Stamp(u.otpExpires.value)
                       && VerifyOtp(sha, otp, u.otpHash.value)
    ensures !Truthy(u.otpHash) ==> r == Err(BAD_REQUEST, NO_OTP)
    ensures Truthy(u.otpHash) && u.otpExpires.Some? && Stamp(u.otpExpires.value) < Stamp(now)
            ==> r == Err(BAD_REQUEST, OTP_EXPIRED)
    ensures (Truthy(u.otpHash) && u.otpExpires.Some? && Stamp(now) <= Stamp(u.otpExpires.value)
             && !VerifyOtp(sha, otp, u.otpHash.value)) ==> r == Err(BAD_REQUEST, INVALID_OTP)
  {
    if !Truthy(u.otpHash) then Err(BAD_REQUEST, NO_OTP)
    else if u.otpExpires.None? then Err(INTERNAL_ERROR, UNHANDLED)
    else if Stamp(u.otpExpires.value) < Stamp(now) then Err(BAD_REQUEST, OTP_EXPIRED)
    else if !VerifyOtp(sha, otp, u.otpHash.value) then Err(BAD_REQUEST, INVALID_OTP)
    else Ok(())
  }

  /** The same checks as written: once a code is stored, the naive expiry makes the comparison raise. */
  function CheckResetCodeAsWritten(u: Account, otp: string, sha: string -> string, now: Moment): (r: Result<()>)
    ensures !r.Ok?
    ensures Truthy(u.otpHash) ==> r == Err(INTERNAL_ERROR, UNHANDLED)
    ensures !Truthy(u.otpHash) ==> r == CheckResetCode(u, otp, sha, now)
  {
    if !Truthy(u.otpHash) then Err(BAD_REQUEST, NO_OTP) else Err(INTERNAL_ERROR, UNHANDLED)
  }

  /** `verify_reset_otp`: 404 for an unknown email, then the checks. */
  function VerifyResetOtp(users: seq<Account>, sha: string -> string, email: string, otp: string, now: Moment)
    : (r: Result<string>)
    ensures FindByEmail(users, email).None? ==> r == Err(NOT_FOUND, USER_NOT_FOUND)
    ensures r.Ok? <==> FindByEmail(users, email).Some?
                       && CheckResetCode(users[FindByEmail(users, email).value], otp, sha, now).Ok?
    ensures r.Ok? ==> r.value == OTP_VERIFIED
  {
    var i := FindByEmail(users, email);
    if i.None? then Err(NOT_FOUND, USER_NOT_FOUND)
    else
      var check := CheckResetCode(users[i.value], otp, sha, now);
      if check.Err? then Err(check.status, check.detail) else Ok(OTP_VERIFIED)
  }

  /**
   * The code a reset request sends passes the reset-code check and, on an
   * unverified account, the email-verification check too, for ten minutes:
   * the two flows share one code. As written, both checks raise instead.
   */
  lemma ResetCodeAlsoVerifiesEmail(u: Account, j: Jwt, sha: string -> string, pick: nat -> nat, now: Moment, t: Moment)
    requires !u.emailVerified
    requires Stamp(t) <= Stamp(now) + OTP_EXPIRE_MINUTES * MINUTE
    requires sha(ResetCode(pick)) != ""
    ensures var a := AfterResetRequest(u, j, sha, pick, now);
            CheckResetCode(a, ResetCode(pick), sha, t) == Ok(())
            && Login.CheckEmailCode(a, ResetCode(pick), sha, t) == Ok(())
            && CheckResetCodeAsWritten(a, ResetCode(pick), sha, t) == Err(INTERNAL_ERROR, UNHANDLED)
            && Login.CheckEmailCodeAsWritten(a, ResetCode(pick), sha, t) == Err(INTERNAL_ERROR, UNHANDLED)
  {
    var a := AfterResetRequest(u, j, sha, pick, now);
    assert Truthy(a.otpHash);
  }

  // ---------------------------------------------------------------------
  // Password history
  // ---------------------------------------------------------------------

  function HistoryOf(userId: Id): PasswordHistory -> bool
  {
    (h: PasswordHistory) => h.userId == userId
  }

  function HistoryStamp(h: PasswordHistory): int
  {
    Stamp(h.createdAt)
  }

  /** The account's five most recent history entries, newest first. */
  function Recent(history: seq<PasswordHistory>, userId: Id): (r: seq<PasswordHistory>)
    ensures |r| <= HISTORY_DEPTH
    ensures forall k :: 0 <= k < |r| ==> r[k] in history && r[k].userId == userId
    ensures SortedDesc(r, HistoryStamp)
  {
    var all := SelectDesc(history, HistoryOf(userId), HistoryStamp);
    TakeSortedDesc(all, HISTORY_DEPTH, HistoryStamp);
    Take(all, HISTORY_DEPTH)
  }

  /** The password verifies against one of the account's five most recent history entries. */
  predicate RecentlyUsed(b: Bcrypt, history: seq<PasswordHistory>, userId: Id, p: string)
  {
    var recent := Recent(history, userId);
    exists k :: 0 <= k < |recent| && b.verify(p, recent[k].passwordHash)
  }

  /** In a list sorted newest first, an element newer than every other one comes first. */
  lemma NewestComesFirst<T>(r: seq<T>, e: T, key: T -> int)
    requires SortedDesc(r, key) && e in r
    requires forall k :: 0 <= k < |r| && r[k] != e ==> key(r[k]) < key(e)
    ensures r[0] == e
  {
    var k :| 0 <= k < |r| && r[k] == e;
    assert k == 0 || key(r[0]) >= key(r[k]);
  }

  /**
   * An entry newer than every other entry of its account is the first of
   * the recent ones.
   */
  lemma NewestEntryIsRecent(history: seq<PasswordHistory>, e: PasswordHistory)
    requires forall h :: h in history && h.userId == e.userId ==> Stamp(h.createdAt) < Stamp(e.createdAt)
    ensures |Recent(history + [e], e.userId)| > 0 && Recent(history + [e], e.userId)[0] == e
  {
    var all := history + [e];
    var sorted := SelectDesc(all, HistoryOf(e.userId), HistoryStamp);
    assert all[|history|] == e;
    assert e in Filter(all, HistoryOf(e.userId));
    assert e in multiset(sorted);
    NewestComesFirst(sorted, e, HistoryStamp);
  }

  // ---------------------------------------------------------------------
  // Completing a reset
  // ---------------------------------------------------------------------

  /**
   * The checks of `reset_password`, giving the position of the account:
   * the token must decode as a reset token with a non-empty subject (a
   * token of that type without a subject is a server error), name an
   * account, be the token the account stores and be unexpired; the new
   * password must meet the policy and not be recently used.
   */
  function ResetChecks(j: Jwt, b: Bcrypt, users: seq<Account>, history: seq<PasswordHistory>, token: string,
                       newPassword: string, now: Moment): (r: Result<nat>)
    ensures r.Ok? ==> r.value < |users|
    ensures r.Ok? <==> var v := VerifyPasswordResetToken(j, token, Stamp(now));
                       v.Ok? && v.value.Some? && v.value.value != ""
                       && FindByEmail(users, v.value.value).Some?
                       && var u := users[FindByEmail(users, v.value.value).value];
                          u.resetToken == Some(token) && u.resetExpires.Some? && Stamp(now) <= Stamp(u.resetExpires.value)
                          && Policy(newPassword) && !RecentlyUsed(b, history, u.id, newPassword)
    ensures r.Ok? ==> Some(r.value) == FindByEmail(users, VerifyPasswordResetToken(j, token, Stamp(now)).value.value)
    ensures VerifyPasswordResetToken(j, token, Stamp(now)) == Ok(None) ==> r == Err(BAD_REQUEST, INVALID_OR_EXPIRED_TOKEN)
  {
    var v := VerifyPasswordResetToken(j, token, Stamp(now));
    if v.Err? then Err(v.status, v.detail)
    else if v.value.None? || v.value.value == "" then Err(BAD_REQUEST, INVALID_OR_EXPIRED_TOKEN)
    else
      var i := FindByEmail(users, v.value.value);
      if i.None? then Err(NOT_FOUND, USER_NOT_FOUND)
      else
        var u := users[i.value];
        if u.resetToken != Some(token) then Err(BAD_REQUEST, INVALID_RESET_TOKEN)
        else if u.resetExpires.None? then Err(INTERNAL_ERROR, UNHANDLED)
        else if Stamp(u.resetExpires.value) < Stamp(now) then Err(BAD_REQUEST, RESET_TOKEN_EXPIRED)
        else if !ValidatePassword(newPassword).0 then Err(BAD_REQUEST, ValidatePassword(newPassword).1)
        else if RecentlyUsed(b, history, u.id, newPassword) then Err(BAD_REQUEST, RECENTLY_USED)
        else Ok(i.value)
  }

  /** The same checks as written: the naive `password_reset_expires` makes the comparison raise, so no reset completes. */
  function ResetChecksAsWritten(j: Jwt, b: Bcrypt, users: seq<Account>, history: seq<PasswordHistory>, token: string,
                                newPassword: string, now: Moment): (r: Result<nat>)
    ensures !r.Ok?
    ensures ResetChecks(j, b, users, history, token, newPassword, now).Ok? ==> r == Err(INTERNAL_ERROR, UNHANDLED)
  {
    var v := VerifyPasswordResetToken(j, token, Stamp(now));
    if v.Err? then Err(v.status, v.detail)
    else if v.value.None? || v.value.value == "" then Err(BAD_REQUEST, INVALID_OR_EXPIRED_TOKEN)
    else
      var i := FindByEmail(users, v.value.value);
      if i.None? then Err(NOT_FOUND, USER_NOT_FOUND)
      else if users[i.value].resetToken != Some(token) then Err(BAD_REQUEST, INVALID_RESET_TOKEN)
      else Err(INTERNAL_ERROR, UNHANDLED)
  }

  /** A completed reset: the new hash, the token and code spent, the change time, no forced change. */
  function AfterPasswordReset(u: Account, newHash: string, now: Moment): (r: Account)
    ensures r.passwordHash == newHash && r.resetToken.None? && r.resetExpires.None? && r.otpHash.None?
    ensures r.otpExpires.None? && r.passwordChangedAt == Some(now) && !r.mustChangePassword
    ensures r.(passwordHash := u.passwordHash, resetToken := u.resetToken, resetExpires := u.resetExpires,
               otpHash := u.otpHash, otpExpires := u.otpExpires, passwordChangedAt := u.passwordChangedAt,
               mustChangePassword := u.mustChangePassword) == u
  {
    u.(passwordHash := newHash, resetToken := None, resetExpires := None, otpHash := None, otpExpires := None,
       passwordChangedAt := Some(now), mustChangePassword := false)
  }

  /** The history entry that keeps the hash a password change replaces. */
  function Retired(id: Id, u: Account, now: Moment): (r: PasswordHistory)
    ensures r.id == id && r.userId == u.id && r.passwordHash == u.passwordHash && r.createdAt == now
  {
    PasswordHistory(id, u.id, u.passwordHash, now)
  }

  /** `reset_password`: the checks, then the retired hash, the account and the event. */
  method ResetPassword(d: IdentityDb.Directory, j: Jwt, b: Bcrypt, token: string, newPassword: string, newHash: string,
                       origin: Origin, now: Moment) returns (r: Result<string>)
    modifies d`users, d`history, d`events
    ensures var check := ResetChecks(j, b, old(d.users), old(d.history), token, newPassword, now);
            (check.Err? ==> r == Err(check.status, check.detail) && d.users == old(d.users)
                            && d.history == old(d.history) && d.events == old(d.events))
            && (check.Ok? ==>
                  var u := old(d.users)[check.value];
                  r == Ok(RESET_DONE)
                  && d.users == old(d.users)[check.value := AfterPasswordReset(u, newHash, now)]
                  && d.history == old(d.history)
                     + [Retired(IdentityDb.FreshKey(old(d.history), IdentityDb.HistoryIdOf), u, now)]
                  && d.events == old(d.events)
                     + [IdentityDb.NewEvent(IdentityDb.FreshKey(old(d.events), IdentityDb.AuthEventIdOf), Some(u.id),
                                            PASSWORD_RESET_COMPLETED, origin, true, None)])
  {
    var check := ResetChecks(j, b, d.users, d.history, token, newPassword, now);
    if check.Err? {
      return Err(check.status, check.detail);
    }
    var i := check.value;
    var u := d.users[i];
    var hkey := IdentityDb.FreshKey(d.history, IdentityDb.HistoryIdOf);
    var ekey := IdentityDb.FreshKey(d.events, IdentityDb.AuthEventIdOf);
    d.history := d.history + [Retired(hkey, u, now)];
    d.users := d.users[i := AfterPasswordReset(u, newHash, now)];
    d.events := d.events + [IdentityDb.NewEvent(ekey, Some(u.id), PASSWORD_RESET_COMPLETED, origin, true, None)];
    r := Ok(RESET_DONE);
  }

  /**
   * The link a reset request mails completes a reset within 48 hours, for
   * a new password that meets the policy and is not recently used; as
   * written the same request fails with a server error.
   */
  lemma ResetLinkCompletes(j: Jwt, b: Bcrypt, users: seq<Account>, history: seq<PasswordHistory>, i: nat,
                           sha: string -> string, pick: nat -> nat, issued: Moment, newPassword: string, now: Moment)
    requires Faithful(j)
    requires i < |users| && users[i].email != "" && FindByEmail(users, users[i].email) == Some(i)
    requires Stamp(issued) <= Stamp(now) <= Stamp(issued) + PASSWORD_RESET_TOKEN_EXPIRE_HOURS * HOUR
    requires Policy(newPassword) && !RecentlyUsed(b, history, users[i].id, newPassword)
    ensures var after := users[i := AfterResetRequest(users[i], j, sha, pick, issued)];
            var token := GeneratePasswordResetToken(j, users[i].email, issued);
            ResetChecks(j, b, after, history, token, newPassword, now) == Ok(i)
            && ResetChecksAsWritten(j, b, after, history, token, newPassword, now) == Err(INTERNAL_ERROR, UNHANDLED)
  {
    var u := users[i];
    var after := users[i := AfterResetRequest(u, j, sha, pick, issued)];
    ResetTokenRoundTrip(j, u.email, issued, Stamp(now));
    assert FindByEmail(after, u.email) == Some(i) by {
      assert after[i].email == u.email;
      forall k | 0 <= k < i ensures after[k].email != u.email {
        assert after[k] == users[k];
      }
    }
  }

  /** A reset token is good for one reset: the completed reset clears it, and the same token is then refused. */
  lemma ResetTokenIsSingleUse(j: Jwt, b: Bcrypt, users: seq<Account>, history: seq<PasswordHistory>, token: string,
                              newPassword: string, newHash: string, now: Moment, again: string, hid: Id, later: Moment)
    requires ResetChecks(j, b, users, history, token, newPassword, now).Ok?
    requires Stamp(now) <= Stamp(later)
    requires VerifyPasswordResetToken(j, token, Stamp(later)) == VerifyPasswordResetToken(j, token, Stamp(now))
    ensures var i := ResetChecks(j, b, users, history, token, newPassword, now).value;
            var after := users[i := AfterPasswordReset(users[i], newHash, now)];
            ResetChecks(j, b, after, history + [Retired(hid, users[i], now)], token, again, later)
            == Err(BAD_REQUEST, INVALID_RESET_TOKEN)
  {
    var i := ResetChecks(j, b, users, history, token, newPassword, now).value;
    var email := VerifyPasswordResetToken(j, token, Stamp(now)).value.value;
    var after := users[i := AfterPasswordReset(users[i], newHash, now)];
    assert FindByEmail(after, email) == Some(i) by {
      assert after[i].email == users[i].email;
      forall k | 0 <= k < i ensures after[k].email != email {
        assert after[k] == users[k];
      }
    }
  }

  // ---------------------------------------------------------------------
  // Changing a password
  // ---------------------------------------------------------------------

  /**
   * The checks of `change_password` on the authenticated account: the
   * current password must verify, differ from the new one as a string, and
   * the new one must meet the policy and not be recently used.
   */
  function ChangeChecks(b: Bcrypt, history: seq<PasswordHistory>, u: Account, current: string, newPassword: string)
    : (r: Result<()>)
    ensures r.Ok? <==> b.verify(current, u.passwordHash) && current != newPassword && Policy(newPassword)
                       && !RecentlyUsed(b, history, u.id, newPassword)
    ensures !b.verify(current, u.passwordHash) ==> r == Err(BAD_REQUEST, CURRENT_INCORRECT)
    ensures b.verify(current, u.passwordHash) && current == newPassword ==> r == Err(BAD_REQUEST, MUST_DIFFER)
    ensures r.Err? ==> r.status == BAD_REQUEST
  {
    if !b.verify(current, u.passwordHash) then Err(BAD_REQUEST, CURRENT_INCORRECT)
    else if current == newPassword then Err(BAD_REQUEST, MUST_DIFFER)
    else if !ValidatePassword(newPassword).0 then Err(BAD_REQUEST, ValidatePassword(newPassword).1)
    else if RecentlyUsed(b, history, u.id, newPassword) then Err(BAD_REQUEST, RECENTLY_USED)
    else Ok(())
  }

  /** A changed password: the new hash, the change time, no forced change. */
  function AfterPasswordChange(u: Account, newHash: string, now: Moment): (r: Account)
    ensures r.passwordHash == newHash && r.passwordChangedAt == Some(now) && !r.mustChangePassword
    ensures r.(passwordHash := u.passwordHash, passwordChangedAt := u.passwordChangedAt,
               mustChangePassword := u.mustChangePassword) == u
  {
    u.(passwordHash := newHash, passwordChangedAt := Some(now), mustChangePassword := false)
  }

  /** `change_password` for the authenticated account, which is the `i`-th row. */
  method ChangePassword(d: IdentityDb.Directory, b: Bcrypt, i: nat, current: string, newPassword: string,
                        newHash: string, origin: Origin, now: Moment) returns (r: Result<string>)
    requires i < |d.users|
    modifies d`users, d`history, d`events
    ensures var u := old(d.users)[i];
            var check := ChangeChecks(b, old(d.history), u, current, newPassword);
            (check.Err? ==> r == Err(check.status, check.detail) && d.users == old(d.users)
                            && d.history == old(d.history) && d.events == old(d.events))
            && (check.Ok? ==>
                  r == Ok(CHANGED_MESSAGE)
                  && d.users == old(d.users)[i := AfterPasswordChange(u, newHash, now)]
                  && d.history == old(d.history)
                     + [Retired(IdentityDb.FreshKey(old(d.history), IdentityDb.HistoryIdOf), u, now)]
                  && d.events == old(d.events)
                     + [IdentityDb.NewEvent(IdentityDb.FreshKey(old(d.events), IdentityDb.AuthEventIdOf), Some(u.id),
                                            PASSWORD_CHANGED, origin, true, None)])
  {
    var u := d.users[i];
    var check := ChangeChecks(b, d.history, u, current, newPassword);
    if check.Err? {
      return Err(check.status, check.detail);
    }
    var hkey := IdentityDb.FreshKey(d.history, IdentityDb.HistoryIdOf);
    var ekey := IdentityDb.FreshKey(d.events, IdentityDb.AuthEventIdOf);
    d.history := d.history + [Retired(hkey, u, now)];
    d.users := d.users[i := AfterPasswordChange(u, newHash, now)];
    d.events := d.events + [IdentityDb.NewEvent(ekey, Some(u.id), PASSWORD_CHANGED, origin, true, None)];
    r := Ok(CHANGED_MESSAGE);
  }

  /**
   * Changing a password and then changing it straight back is refused:
   * the replaced hash is the account's newest history entry, and the old
   * password verifies against it.
   */
  lemma ChangeBackIsRefused(b: Bcrypt, history: seq<PasswordHistory>, u: Account, p: string, q: string,
                            newHash: string, hid: Id, now: Moment)
    requires ChangeChecks(b, history, u, p, q).Ok?
    requires b.verify(q, newHash) && Policy(p)
    requires forall h :: h in history && h.userId == u.id ==> Stamp(h.createdAt) < Stamp(now)
    ensures ChangeChecks(b, history + [Retired(hid, u, now)], AfterPasswordChange(u, newHash, now), q, p)
            == Err(BAD_REQUEST, RECENTLY_USED)
  {
    var e := Retired(hid, u, now);
    NewestEntryIsRecent(history, e);
    assert b.verify(p, Recent(history + [e], u.id)[0].passwordHash);
  }

  /**
   * A reset never looks at the account's current hash: replacing it
   * changes nothing in the outcome, so the current password is accepted as
   * the new one unless the history holds it, while a change to the same
   * password is refused.
   */
  lemma ResetIgnoresTheCurrentHash(j: Jwt, b: Bcrypt, users: seq<Account>, history: seq<PasswordHistory>, i: nat,
                                   h: string, token: string, p: string, now: Moment)
    requires i < |users|
    ensures ResetChecks(j, b, users[i := users[i].(passwordHash := h)], history, token, p, now)
            == ResetChecks(j, b, users, history, token, p, now)
    ensures ChangeChecks(b, history, users[i], p, p).Err?
  {
    var after := users[i := users[i].(passwordHash := h)];
    forall email: string ensures FindByEmail(after, email) == FindByEmail(users, email) {
      assert forall k :: 0 <= k < |users| ==> after[k].email == users[k].email;
    }
  }
}
