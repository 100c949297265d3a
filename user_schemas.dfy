/**
 * The request bodies of the user, organisation and role endpoints and the
 * rules their fields are checked against before a handler runs: length
 * bounds, the subdomain and colour patterns, and the password rules of
 * `UserCreate` and `ChangePassword`.
 *
 * A body is checked field by field in declaration order; a field reports
 * at most one violation (its bounds, then its pattern, then its own
 * validator), and the body is accepted when no field reports one.
 */
module UserSchemas {
  import opened Common
  import opened IdentityModel
  import opened Security

  /** Why a field was refused. */
  datatype Violation =
    | TooShort(field: string, min: nat)
    | TooLong(field: string, max: nat)
    | Mismatch(field: string)
    | Invalid(field: string, message: string)
    | TooSmall(field: string, least: int)
    | TooLarge(field: string, most: int)
    | TooFewItems(field: string, min: nat)
    | TooManyItems(field: string, max: nat)

  /** A `Field(min_length=min, max_length=max)` bound on a string. */
  function Bounds(field: string, s: string, min: nat, max: nat): (r: Option<Violation>)
    ensures r.None? <==> min <= |s| <= max
    ensures r.Some? ==> r.value.field == field
  {
    if |s| < min then Some(TooShort(field, min))
    else if |s| > max then Some(TooLong(field, max))
    else None
  }

  /** The same bound on an optional field: an absent value passes. */
  function OptionalBounds(field: string, s: Option<string>, min: nat, max: nat): (r: Option<Violation>)
    ensures r.None? <==> s.None? || min <= |s.value| <= max
  {
    if s.None? then None else Bounds(field, s.value, min, max)
  }

  /** A `Field(ge=min, le=max)` bound on an optional number: an absent value passes. */
  function Range(field: string, v: Option<int>, min: int, max: int): (r: Option<Violation>)
    ensures r.None? <==> v.None? || min <= v.value <= max
    ensures r.Some? ==> r.value.field == field
  {
    if v.None? then None
    else if v.value < min then Some(TooSmall(field, min))
    else if v.value > max then Some(TooLarge(field, max))
    else None
  }

  /** A `Field(ge=min)` bound on an optional number: an absent value passes. */
  function AtLeast(field: string, v: Option<int>, min: int): (r: Option<Violation>)
    ensures r.None? <==> v.None? || min <= v.value
  {
    if v.Some? && v.value < min then Some(TooSmall(field, min)) else None
  }

  /** A `Field(min_items=min, max_items=max)` bound on a list. */
  function ItemBounds<T>(field: string, items: seq<T>, min: nat, max: nat): (r: Option<Violation>)
    ensures r.None? <==> min <= |items| <= max
  {
    if |items| < min then Some(TooFewItems(field, min))
    else if |items| > max then Some(TooManyItems(field, max))
    else None
  }

  /** A `Field(min_items=min)` bound on a list with no upper bound. */
  function MinItems<T>(field: string, items: seq<T>, min: nat): (r: Option<Violation>)
    ensures r.None? <==> min <= |items|
  {
    if |items| < min then Some(TooFewItems(field, min)) else None
  }

  /** The violation of one field, if any, ahead of those of the fields after it. */
  function Then(v: Option<Violation>, rest: seq<Violation>): (r: seq<Violation>)
    ensures r == [] <==> v.None? && rest == []
    ensures |r| <= |rest| + 1
  {
    if v.Some? then [v.value] + rest else rest
  }

  // ---------------------------------------------------------------------
  // Passwords
  // ---------------------------------------------------------------------

  /** The special characters of the schema's pattern `[!@#$%^&*()_+\-=\[\]{};:,.<>?]`: the policy's set without `|`. */
  const SCHEMA_SPECIALS: string := "!@#$%^&*()_+-=[]{};:,.<>?"

  /**
   * The `validate_password` field validator of `UserCreate` and
   * `ChangePassword`: the message of the first rule that fails, if any.
   */
  function SchemaValidator(p: string): (r: Option<string>)
    ensures r.None? <==> |p| >= 8 && HasUpper(p) && HasLower(p) && HasDigit(p) && HasOneOf(p, SCHEMA_SPECIALS)
  {
    if |p| < 8 then Some(TOO_SHORT)
    else if !HasUpper(p) then Some(NO_UPPER)
    else if !HasLower(p) then Some(NO_LOWER)
    else if !HasDigit(p) then Some(NO_DIGIT)
    else if !HasOneOf(p, SCHEMA_SPECIALS) then Some(NO_SPECIAL)
    else None
  }

  /** The schema's password rules: 8 to 100 characters and the validator. */
  predicate SchemaPolicy(p: string)
  {
    8 <= |p| <= 100 && SchemaValidator(p).None?
  }

  /** A password field of `UserCreate` or `ChangePassword`: `Field(min_length=8, max_length=100)`, then the validator. */
  function PasswordViolation(field: string, p: string): (r: Option<Violation>)
    ensures r.None? <==> SchemaPolicy(p)
    ensures r.Some? && |p| < 8 ==> r.value == TooShort(field, 8)
    ensures r.Some? && 8 <= |p| <= 100 ==> r.value == Invalid(field, SchemaValidator(p).value)
  {
    var b := Bounds(field, p, 8, 100);
    if b.Some? then b
    else
      var v := SchemaValidator(p);
      if v.Some? then Some(Invalid(field, v.value)) else None
  }

  lemma SchemaSpecialIsPolicySpecial(c: char)
    requires c in SCHEMA_SPECIALS
    ensures c in SPECIALS && c != '|'
  {
  }

  /**
   * The schema refuses every password `validate_password` refuses, with
   * the same message; of those `validate_password` accepts, it refuses
   * exactly the ones whose only special characters are `|`.
   */
  lemma SchemaValidatorAgainstPolicy(p: string)
    ensures !ValidatePassword(p).0 ==> SchemaValidator(p) == Some(ValidatePassword(p).1)
    ensures ValidatePassword(p).0 ==>
              (SchemaValidator(p).None? <==> exists k :: 0 <= k < |p| && p[k] in SPECIALS && p[k] != '|')
  {
    if HasOneOf(p, SCHEMA_SPECIALS) {
      var k :| 0 <= k < |p| && p[k] in SCHEMA_SPECIALS;
      SchemaSpecialIsPolicySpecial(p[k]);
    }
    if exists k :: 0 <= k < |p| && p[k] in SPECIALS && p[k] != '|' {
      var k :| 0 <= k < |p| && p[k] in SPECIALS && p[k] != '|';
      assert p[k] in SCHEMA_SPECIALS;
    }
  }

  lemma NotSchemaSpecial(c: char)
    requires c == 'A' || c == 'a' || c == '1' || c == '|'
    ensures c !in SCHEMA_SPECIALS
  {
  }

  /** "Aa1|aaaa" passes `validate_password` and fails the schema: its only special character is `|`. */
  lemma PipePasswordSplitsTheChecks(p: string)
    requires p == "Aa1|aaaa"
    ensures ValidatePassword(p) == (true, PASSWORD_VALID)
    ensures PasswordViolation("password", p) == Some(Invalid("password", NO_SPECIAL))
  {
    assert IsUpperAscii(p[0]) && IsLowerAscii(p[1]) && IsDigit(p[2]) && p[3] in SPECIALS;
    forall k | 0 <= k < |p| ensures p[k] !in SCHEMA_SPECIALS {
      NotSchemaSpecial(p[k]);
    }
  }

  // ---------------------------------------------------------------------
  // Organisations
  // ---------------------------------------------------------------------

  /** A character of the subdomain pattern `^[a-z0-9-]+$`. */
  predicate SubdomainChar(c: char) { IsLowerAscii(c) || IsDigit(c) || c == '-' }

  /** `^#[0-9A-Fa-f]{6}$`. */
  predicate ValidColour(s: string)
  {
    |s| == 7 && s[0] == '#' && forall k :: 1 <= k < 7 ==> HexDigit(s[k])
  }

  const DEFAULT_PRIMARY_COLOUR: string := "#4F46E5"
  const DEFAULT_SECONDARY_COLOUR: string := "#FFFFFF"
  const DEFAULT_TIMEZONE: string := "UTC"

  /** `OrganizationCreate` (the contact email, an `EmailStr`, is not modelled). */
  datatype OrganizationCreate = OrganizationCreate(name: string, subdomain: string, contactPhone: Option<string>,
                                                   address: Option<string>, timezone: string,
                                                   primaryColor: string, secondaryColor: string)

  /** A body with the fields left out taking their defaults. */
  function NewOrganizationCreate(name: string, subdomain: string, contactPhone: Option<string>, address: Option<string>,
                                 timezone: Option<string>, primaryColor: Option<string>, secondaryColor: Option<string>)
    : (r: OrganizationCreate)
    ensures timezone.None? ==> r.timezone == DEFAULT_TIMEZONE
    ensures primaryColor.None? ==> r.primaryColor == DEFAULT_PRIMARY_COLOUR
    ensures secondaryColor.None? ==> r.secondaryColor == DEFAULT_SECONDARY_COLOUR
    ensures timezone.Some? ==> r.timezone == timezone.value
    ensures primaryColor.Some? ==> r.primaryColor == primaryColor.value
    ensures secondaryColor.Some? ==> r.secondaryColor == secondaryColor.value
  {
    OrganizationCreate(name, subdomain, contactPhone, address,
                       if timezone.Some? then timezone.value else DEFAULT_TIMEZONE,
                       if primaryColor.Some? then primaryColor.value else DEFAULT_PRIMARY_COLOUR,
                       if secondaryColor.Some? then secondaryColor.value else DEFAULT_SECONDARY_COLOUR)
  }

  /** The subdomain field: 3 to 100 characters, then the pattern. */
  function SubdomainViolation(s: string): (r: Option<Violation>)
    ensures r.None? <==> 3 <= |s| <= 100 && forall k :: 0 <= k < |s| ==> SubdomainChar(s[k])
  {
    var b := Bounds("subdomain", s, 3, 100);
    if b.Some? then b
    else if forall k :: 0 <= k < |s| ==> SubdomainChar(s[k]) then None
    else Some(Mismatch("subdomain"))
  }

  function ColourViolation(field: string, s: string): (r: Option<Violation>)
    ensures r.None? <==> ValidColour(s)
  {
    if ValidColour(s) then None else Some(Mismatch(field))
  }

  /** The violations of an `OrganizationCreate` body. */
  function OrganizationViolations(o: OrganizationCreate): (r: seq<Violation>)
    ensures r == [] <==> 1 <= |o.name| <= 255 && SubdomainViolation(o.subdomain).None?
                         && (o.contactPhone.None? || |o.contactPhone.value| <= 20) && |o.timezone| <= 50
                         && ValidColour(o.primaryColor) && ValidColour(o.secondaryColor)
  {
    Then(Bounds("name", o.name, 1, 255),
    Then(SubdomainViolation(o.subdomain),
    Then(OptionalBounds("contact_phone", o.contactPhone, 0, 20),
    Then(Bounds("timezone", o.timezone, 0, 50),
    Then(ColourViolation("primary_color", o.primaryColor),
    Then(ColourViolation("secondary_color", o.secondaryColor), []))))))
  }

  /** The default colours match the colour pattern, so a body that omits them is never refused for its colours. */
  lemma DefaultColoursAreValid(name: string, subdomain: string, contactPhone: Option<string>, address: Option<string>,
                               timezone: Option<string>)
    ensures var o := NewOrganizationCreate(name, subdomain, contactPhone, address, timezone, None, None);
            ColourViolation("primary_color", o.primaryColor).None?
            && ColourViolation("secondary_color", o.secondaryColor).None?
  {
    assert HexDigit(DEFAULT_PRIMARY_COLOUR[1]) && HexDigit(DEFAULT_PRIMARY_COLOUR[2]);
  }

  // ---------------------------------------------------------------------
  // Users
  // ---------------------------------------------------------------------

  /** `UserCreate` (the email, an `EmailStr`, and the hire date are not checked here). */
  datatype UserCreate = UserCreate(email: string, username: Option<string>, firstName: string, lastName: string,
                                   phone: Option<string>, employeeId: Option<string>, timezone: Option<string>,
                                   password: string, organizationId: Option<Id>, roleId: Option<Id>)

  /** The violations of a `UserCreate` body. */
  function UserCreateViolations(u: UserCreate): (r: seq<Violation>)
    ensures r == [] <==> (u.username.None? || 3 <= |u.username.value| <= 100)
                         && 1 <= |u.firstName| <= 100 && 1 <= |u.lastName| <= 100
                         && (u.phone.None? || |u.phone.value| <= 20)
                         && (u.employeeId.None? || |u.employeeId.value| <= 50)
                         && (u.timezone.None? || |u.timezone.value| <= 50)
                         && SchemaPolicy(u.password)
  {
    Then(OptionalBounds("username", u.username, 3, 100),
    Then(Bounds("first_name", u.firstName, 1, 100),
    Then(Bounds("last_name", u.lastName, 1, 100),
    Then(OptionalBounds("phone", u.phone, 0, 20),
    Then(OptionalBounds("employee_id", u.employeeId, 0, 50),
    Then(OptionalBounds("timezone", u.timezone, 0, 50),
    Then(PasswordViolation("password", u.password), [])))))))
  }

  /** An accepted `UserCreate` carries a password `validate_password` accepts too. */
  lemma AcceptedUserPasswordMeetsPolicy(u: UserCreate)
    requires UserCreateViolations(u) == []
    ensures Policy(u.password)
  {
    SchemaValidatorAgainstPolicy(u.password);
  }

  /** `ChangePassword`: the current password unchecked, the new one under the schema's password rules. */
  function ChangePasswordViolations(current: string, newPassword: string): (r: seq<Violation>)
    ensures r == [] <==> SchemaPolicy(newPassword)
  {
    Then(PasswordViolation("new_password", newPassword), [])
  }

  /** `PasswordResetConfirm`: the new password is only held to 8 to 100 characters. */
  function ResetConfirmViolations(token: string, newPassword: string): (r: seq<Violation>)
    ensures r == [] <==> 8 <= |newPassword| <= 100
  {
    Then(Bounds("new_password", newPassword, 8, 100), [])
  }

  // ---------------------------------------------------------------------
  // Roles
  // ---------------------------------------------------------------------

  /** `RoleCreate`: an omitted `permission_ids` is the empty list. */
  datatype RoleCreate = RoleCreate(name: string, description: Option<string>, organizationId: Option<Id>,
                                   permissionIds: seq<Id>)

  /** `RoleUpdate`: every field optional; an omitted `permission_ids` stays None, unlike an empty list. */
  datatype RoleUpdate = RoleUpdate(name: Option<string>, description: Option<string>, permissionIds: Option<seq<Id>>)

  function NewRoleCreate(name: string, description: Option<string>, organizationId: Option<Id>,
                         permissionIds: Option<seq<Id>>): (r: RoleCreate)
    ensures permissionIds.None? ==> r.permissionIds == []
    ensures permissionIds.Some? ==> r.permissionIds == permissionIds.value
    ensures r.name == name && r.description == description && r.organizationId == organizationId
  {
    RoleCreate(name, description, organizationId, if permissionIds.Some? then permissionIds.value else [])
  }

  function RoleCreateViolations(b: RoleCreate): (r: seq<Violation>)
    ensures r == [] <==> 1 <= |b.name| <= 100
  {
    Then(Bounds("name", b.name, 1, 100), [])
  }

  function RoleUpdateViolations(b: RoleUpdate): (r: seq<Violation>)
    ensures r == [] <==> b.name.None? || 1 <= |b.name.value| <= 100
  {
    Then(OptionalBounds("name", b.name, 1, 100), [])
  }
}
