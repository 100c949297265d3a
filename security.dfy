/**
 * The security helpers the authentication handlers build on: signed tokens
 * and their type checks, one-time codes, generated passwords and the
 * password policy.
 *
 * The cryptographic primitives are parameters. `Jwt` stands for the JWT
 * library under the application's key and algorithm, `Bcrypt` for the
 * password-hashing context, and a plain `string -> string` function for
 * SHA-256 hex digests. Random draws are a stream `pick: nat -> nat`, the
 * i-th `secrets.choice` taking element `pick(i) % |alphabet|`.
 */
module Security {
  import opened Common
  import opened IdentityModel

  // ---------------------------------------------------------------------
  // Tokens
  // ---------------------------------------------------------------------

  const ACCESS: string := "access"
  const REFRESH: string := "refresh"
  const PASSWORD_RESET: string := "password_reset"
  const EMAIL_VERIFICATION: string := "email_verification"

  /** The claims of a token: `exp` in seconds since the epoch, `sub` and `type` (a decoded token may lack the last two). */
  /**
   * A token's claims. `exp` is in whole seconds; `wholeExp` says whether
   * the issuer wrote it as an integer (a `datetime`, which the JWT library
   * turns into whole seconds) or as the float of `datetime.timestamp()`,
   * which carries the clock's microseconds.
   */
  datatype Claims = Claims(exp: int, wholeExp: bool, sub: Option<string>, typ: Option<string>)

  /**
   * `jwt.encode` and `jwt.decode`. `decode(token, now)` is None exactly
   * when the library raises (`JWTError`): a forged or malformed token, or
   * one that has expired by `now`.
   */
  datatype Jwt = Jwt(encode: Claims -> string, decode: (string, int) -> Option<Claims>)

  /** The decoder gives back every claim set the encoder signed while it is unexpired, and nothing after. */
  ghost predicate Faithful(j: Jwt)
  {
    forall c: Claims, now: int {:trigger j.decode(j.encode(c), now)} ::
      j.decode(j.encode(c), now) == if now <= c.exp then Some(c) else None
  }

  /**
   * The lifetime a token is issued for: `expires_delta` when it is truthy,
   * otherwise the default. A zero delta is falsy and falls back too.
   */
  function Lifetime(delta: Option<int>, default: int): (r: int)
    ensures delta.Some? && delta.value != 0 ==> r == delta.value
    ensures delta.None? || delta.value == 0 ==> r == default
  {
    if delta.Some? && delta.value != 0 then delta.value else default
  }

  /** The claims of `create_access_token`. */
  function AccessClaims(subject: string, delta: Option<int>, now: Moment): (r: Claims)
    ensures r.sub == Some(subject) && r.typ == Some(ACCESS) && r.wholeExp
    ensures r.exp - Stamp(now) == Lifetime(delta, ACCESS_TOKEN_EXPIRE_MINUTES * MINUTE)
  {
    Claims(Stamp(now) + Lifetime(delta, ACCESS_TOKEN_EXPIRE_MINUTES * MINUTE), true, Some(subject), Some(ACCESS))
  }

  /** The claims of `create_refresh_token`. */
  function RefreshClaims(subject: string, delta: Option<int>, now: Moment): (r: Claims)
    ensures r.sub == Some(subject) && r.typ == Some(REFRESH) && r.wholeExp
    ensures r.exp - Stamp(now) == Lifetime(delta, REFRESH_TOKEN_EXPIRE_DAYS * DAY)
  {
    Claims(Stamp(now) + Lifetime(delta, REFRESH_TOKEN_EXPIRE_DAYS * DAY), true, Some(subject), Some(REFRESH))
  }

  function CreateAccessToken(j: Jwt, subject: string, delta: Option<int>, now: Moment): string
  {
    j.encode(AccessClaims(subject, delta, now))
  }

  function CreateRefreshToken(j: Jwt, subject: string, delta: Option<int>, now: Moment): string
  {
    j.encode(RefreshClaims(subject, delta, now))
  }

  /**
   * The claims of `generate_password_reset_token`: the email as subject,
   * valid for 48 hours, the expiry written as a float with a fractional part.
   */
  function ResetClaims(email: string, now: Moment): (r: Claims)
    ensures r.sub == Some(email) && r.typ == Some(PASSWORD_RESET) && !r.wholeExp
    ensures r.exp == Stamp(now) + PASSWORD_RESET_TOKEN_EXPIRE_HOURS * HOUR
  {
    Claims(Stamp(now) + PASSWORD_RESET_TOKEN_EXPIRE_HOURS * HOUR, false, Some(email), Some(PASSWORD_RESET))
  }

  /**
   * The claims of `generate_email_verification_token`: the email as
   * subject, valid for 48 hours, the expiry written as a float with a
   * fractional part.
   */
  function VerificationClaims(email: string, now: Moment): (r: Claims)
    ensures r.sub == Some(email) && r.typ == Some(EMAIL_VERIFICATION) && !r.wholeExp
    ensures r.exp == Stamp(now) + EMAIL_VERIFICATION_TOKEN_EXPIRE_HOURS * HOUR
  {
    Claims(Stamp(now) + EMAIL_VERIFICATION_TOKEN_EXPIRE_HOURS * HOUR, false, Some(email), Some(EMAIL_VERIFICATION))
  }

  function GeneratePasswordResetToken(j: Jwt, email: string, now: Moment): string
  {
    j.encode(ResetClaims(email, now))
  }

  function GenerateEmailVerificationToken(j: Jwt, email: string, now: Moment): string
  {
    j.encode(VerificationClaims(email, now))
  }

  /**
   * `verify_password_reset_token` and `verify_email_verification_token`
   * for the expected `typ`: the subject of a decodable token of that type;
   * None for an undecodable token or another type. A token of the right
   * type without a subject makes `decoded_token["sub"]` raise `KeyError`,
   * which the `except JWTError` does not catch: a server error.
   */
  function VerifyTypedToken(j: Jwt, token: string, typ: string, now: int): (r: Result<Option<string>>)
    ensures r == Ok(None) <==> j.decode(token, now).None? || j.decode(token, now).value.typ != Some(typ)
    ensures r.Ok? && r.value.Some? <==>
              j.decode(token, now).Some? && j.decode(token, now).value.typ == Some(typ)
              && j.decode(token, now).value.sub.Some?
    ensures r.Ok? && r.value.Some? ==> Some(r.value.value) == j.decode(token, now).value.sub
    ensures r.Err? ==> r == Err(INTERNAL_ERROR, UNHANDLED)
  {
    var c := j.decode(token, now);
    if c.None? || c.value.typ != Some(typ) then Ok(None)
    else if c.value.sub.None? then Err(INTERNAL_ERROR, UNHANDLED)
    else Ok(Some(c.value.sub.value))
  }

  function VerifyPasswordResetToken(j: Jwt, token: string, now: int): Result<Option<string>>
  {
    VerifyTypedToken(j, token, PASSWORD_RESET, now)
  }

  function VerifyEmailVerificationToken(j: Jwt, token: string, now: int): Result<Option<string>>
  {
    VerifyTypedToken(j, token, EMAIL_VERIFICATION, now)
  }

  /** A reset token gives back its email until it expires 48 hours after issue, and nothing after. */
  lemma ResetTokenRoundTrip(j: Jwt, email: string, issued: Moment, now: int)
    requires Faithful(j)
    ensures now <= Stamp(issued) + PASSWORD_RESET_TOKEN_EXPIRE_HOURS * HOUR
            ==> VerifyPasswordResetToken(j, GeneratePasswordResetToken(j, email, issued), now) == Ok(Some(email))
    ensures now > Stamp(issued) + PASSWORD_RESET_TOKEN_EXPIRE_HOURS * HOUR
            ==> VerifyPasswordResetToken(j, GeneratePasswordResetToken(j, email, issued), now) == Ok(None)
  {
    assert j.decode(j.encode(ResetClaims(email, issued)), now)
        == if now <= ResetClaims(email, issued).exp then Some(ResetClaims(email, issued)) else None;
  }

  /** The same for an email-verification token. */
  lemma VerificationTokenRoundTrip(j: Jwt, email: string, issued: Moment, now: int)
    requires Faithful(j)
    ensures now <= Stamp(issued) + EMAIL_VERIFICATION_TOKEN_EXPIRE_HOURS * HOUR
            ==> VerifyEmailVerificationToken(j, GenerateEmailVerificationToken(j, email, issued), now) == Ok(Some(email))
  {
    assert j.decode(j.encode(VerificationClaims(email, issued)), now) == Some(VerificationClaims(email, issued))
      || now > VerificationClaims(email, issued).exp;
  }

  /** A login token (access or refresh) is never taken for a reset or verification token. */
  lemma SessionTokensAreNotResetTokens(j: Jwt, subject: string, delta: Option<int>, issued: Moment, now: int)
    requires Faithful(j)
    ensures VerifyPasswordResetToken(j, CreateAccessToken(j, subject, delta, issued), now) == Ok(None)
    ensures VerifyPasswordResetToken(j, CreateRefreshToken(j, subject, delta, issued), now) == Ok(None)
    ensures VerifyEmailVerificationToken(j, CreateAccessToken(j, subject, delta, issued), now) == Ok(None)
  {
    var a := AccessClaims(subject, delta, issued);
    var f := RefreshClaims(subject, delta, issued);
    assert j.decode(j.encode(a), now) == if now <= a.exp then Some(a) else None;
    assert j.decode(j.encode(f), now) == if now <= f.exp then Some(f) else None;
  }

  // ---------------------------------------------------------------------
  // One-time codes
  // ---------------------------------------------------------------------

  /** `generate_otp(length)`: `length` draws from the ten decimal digits. */
  function GenerateOtp(pick: nat -> nat, length: nat): (r: string)
    ensures |r| == length
    ensures forall k :: 0 <= k < |r| ==> IsDigit(r[k])
  {
    if length == 0 then [] else GenerateOtp(pick, length - 1) + [DigitChar(pick(length - 1) % 10)]
  }

  function DigitValue(c: char): nat
    requires IsDigit(c)
  {
    (c as int - '0' as int) as nat
  }

  /** The draws that spell `s`, one digit per draw. */
  function DrawsFor(s: string): nat -> nat
    requires forall k :: 0 <= k < |s| ==> IsDigit(s[k])
  {
    (i: nat) => if i < |s| then DigitValue(s[i]) else 0
  }

  lemma {:induction false} DrawsSpellPrefix(s: string, n: nat)
    requires forall k :: 0 <= k < |s| ==> IsDigit(s[k])
    requires n <= |s|
    ensures GenerateOtp(DrawsFor(s), n) == s[..n]
  {
    if n > 0 {
      DrawsSpellPrefix(s, n - 1);
      assert s[..n] == s[..n - 1] + [s[n - 1]];
      assert DigitChar(DrawsFor(s)(n - 1) % 10) == s[n - 1];
    }
  }

  /** Every string of decimal digits is a code `generate_otp` can produce: the codes are exactly the digit strings. */
  lemma EveryDigitStringIsACode(s: string)
    requires forall k :: 0 <= k < |s| ==> IsDigit(s[k])
    ensures exists pick: nat -> nat :: GenerateOtp(pick, |s|) == s
  {
    DrawsSpellPrefix(s, |s|);
    assert s[..|s|] == s;
    assert GenerateOtp(DrawsFor(s), |s|) == s;
  }

  /** `hash_otp`: the SHA-256 hex digest of the code. */
  function HashOtp(sha: string -> string, otp: string): string
  {
    sha(otp)
  }

  /** `verify_otp`. */
  function VerifyOtp(sha: string -> string, plain: string, hashed: string): bool
  {
    HashOtp(sha, plain) == hashed
  }

  ghost predicate Injective(sha: string -> string)
  {
    forall a: string, b: string {:trigger sha(a), sha(b)} :: sha(a) == sha(b) ==> a == b
  }

  /**
   * A stored digest accepts the code it was made from; when the digest
   * function is injective it accepts no other.
   */
  lemma OtpAcceptsTheIssuedCode(sha: string -> string, issued: string, given: string)
    ensures VerifyOtp(sha, issued, HashOtp(sha, issued))
    ensures Injective(sha) ==> (VerifyOtp(sha, given, HashOtp(sha, issued)) <==> given == issued)
  {
  }

  // ---------------------------------------------------------------------
  // Passwords
  // ---------------------------------------------------------------------

  /** `pwd_context.verify(plain, hashed)`. */
  datatype Bcrypt = Bcrypt(verify: (string, string) -> bool)

  /** A hash verifies at most one password. */
  ghost predicate Binding(b: Bcrypt)
  {
    forall p: string, q: string, h: string {:trigger b.verify(p, h), b.verify(q, h)} ::
      b.verify(p, h) && b.verify(q, h) ==> p == q
  }

  /** `n` consecutive characters starting at `first`. */
  function CharRun(first: char, n: nat): (r: seq<char>)
    requires first as int + n <= 0xD800
    ensures |r| == n
    ensures forall k :: 0 <= k < n ==> r[k] as int == first as int + k
  {
    seq(n, (k: int) requires 0 <= k < n => (first as int + k) as char)
  }

  const GENERATED_SPECIALS: string := "!@#$%^&*"

  /** `string.ascii_letters + string.digits + "!@#$%^&*"`. */
  function PasswordAlphabet(): (r: seq<char>)
    ensures |r| == 70
    ensures forall k :: 0 <= k < |r| ==> IsAlnumAscii(r[k]) || r[k] in GENERATED_SPECIALS
    ensures r[0] == 'a'
  {
    CharRun('a', 26) + CharRun('A', 26) + CharRun('0', 10) + GENERATED_SPECIALS
  }

  /** `generate_random_password(length)`: `length` draws from the 70-character alphabet. */
  function GenerateRandomPassword(pick: nat -> nat, length: nat): (r: string)
    ensures |r| == length
    ensures forall k :: 0 <= k < |r| ==> IsAlnumAscii(r[k]) || r[k] in GENERATED_SPECIALS
  {
    if length == 0 then []
    else GenerateRandomPassword(pick, length - 1) + [PasswordAlphabet()[pick(length - 1) % 70]]
  }

  const SPECIALS: string := "!@#$%^&*()_+-=[]{}|;:,.<>?"

  const TOO_SHORT: string := "Password must be at least 8 characters long"
  const NO_UPPER: string := "Password must contain at least one uppercase letter"
  const NO_LOWER: string := "Password must contain at least one lowercase letter"
  const NO_DIGIT: string := "Password must contain at least one digit"
  const NO_SPECIAL: string := "Password must contain at least one special character"
  const PASSWORD_VALID: string := "Password is valid"

  predicate HasUpper(p: string) { exists k :: 0 <= k < |p| && IsUpperAscii(p[k]) }
  predicate HasLower(p: string) { exists k :: 0 <= k < |p| && IsLowerAscii(p[k]) }
  predicate HasDigit(p: string) { exists k :: 0 <= k < |p| && IsDigit(p[k]) }
  predicate HasOneOf(p: string, chars: string) { exists k :: 0 <= k < |p| && p[k] in chars }

  /** The password policy: long enough, with an uppercase letter, a lowercase letter, a digit and a special character. */
  predicate Policy(p: string)
  {
    |p| >= PASSWORD_MIN_LENGTH && HasUpper(p) && HasLower(p) && HasDigit(p) && HasOneOf(p, SPECIALS)
  }

  /**
   * `validate_password`: whether the policy holds, and the message of the
   * first rule that fails, in the order length, uppercase, lowercase,
   * digit, special character.
   */
  function ValidatePassword(p: string): (r: (bool, string))
    ensures r.0 <==> Policy(p)
    ensures r.0 ==> r.1 == PASSWORD_VALID
    ensures |p| < PASSWORD_MIN_LENGTH ==> r.1 == TOO_SHORT
    ensures |p| >= PASSWORD_MIN_LENGTH && !HasUpper(p) ==> r.1 == NO_UPPER
    ensures |p| >= PASSWORD_MIN_LENGTH && HasUpper(p) && !HasLower(p) ==> r.1 == NO_LOWER
    ensures |p| >= PASSWORD_MIN_LENGTH && HasUpper(p) && HasLower(p) && !HasDigit(p) ==> r.1 == NO_DIGIT
    ensures |p| >= PASSWORD_MIN_LENGTH && HasUpper(p) && HasLower(p) && HasDigit(p) && !HasOneOf(p, SPECIALS)
            ==> r.1 == NO_SPECIAL
  {
    if |p| < PASSWORD_MIN_LENGTH then (false, TOO_SHORT)
    else if !HasUpper(p) then (false, NO_UPPER)
    else if !HasLower(p) then (false, NO_LOWER)
    else if !HasDigit(p) then (false, NO_DIGIT)
    else if !HasOneOf(p, SPECIALS) then (false, NO_SPECIAL)
    else (true, PASSWORD_VALID)
  }

  /** A password drawn as the alphabet's first letter every time has no uppercase letter: generated passwords can fail the policy. */
  lemma GeneratedPasswordCanFailPolicy(pick: nat -> nat, length: nat)
    requires forall i :: pick(i) == 0
    requires length >= PASSWORD_MIN_LENGTH
    ensures ValidatePassword(GenerateRandomPassword(pick, length)) == (false, NO_UPPER)
  {
    var p := GenerateRandomPassword(pick, length);
    AllFirstLetter(pick, length);
    assert p[0] == 'a';
    assert !HasUpper(p);
  }

  lemma {:induction false} AllFirstLetter(pick: nat -> nat, length: nat)
    requires forall i :: pick(i) == 0
    ensures forall k :: 0 <= k < length ==> GenerateRandomPassword(pick, length)[k] == 'a'
  {
    if length > 0 {
      AllFirstLetter(pick, length - 1);
      var p := GenerateRandomPassword(pick, length);
      assert p == GenerateRandomPassword(pick, length - 1) + [PasswordAlphabet()[0]];
    }
  }
}
