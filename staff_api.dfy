/**
 * The staff router: creating a staff member together with the user
 * account behind it, terminating and reactivating employment, and
 * resetting a staff member's password; with the two helpers that pick a
 * free username and propose an employee number.
 *
 * Each handler runs after `require_permission("staff", <action>)`; the
 * model takes the authenticated caller as a parameter. Staff rows are
 * looked up within the caller's organisation only.
 */
module StaffApi {
  import opened Common
  import opened IdentityModel
  import opened StaffModel
  import opened Security
  import IdentityDb
  import UsersApi
  import RolesApi
  import AuthMiddleware

  const EMAIL_EXISTS: string := "A user with this email already exists"
  const EMPLOYEE_ID_EXISTS: string := "An employee with this ID already exists"
  const EMPLOYEE_ID_REQUIRED: string := "Employee ID is required"
  const ROLE_NOT_FOUND: string := "Role not found"
  const SUPERVISOR_NOT_FOUND: string := "Supervisor not found"
  const CREATE_FAILED: string := "Failed to create staff member"
  const STAFF_CREATED: string := "Staff member created successfully and credentials sent via email"
  const STAFF_NOT_FOUND: string := "Staff member not found"
  const ALREADY_TERMINATED: string := "Staff member is already terminated"
  const NOT_TERMINATED: string := "Staff member is not terminated"
  const INVALID_DATE: string := "Invalid date format. Use YYYY-MM-DD"
  const TERMINATION_REASON: string := "\n\nTermination Reason: "
  const GENERATED_PASSWORD_LENGTH: nat := 12

  // ---------------------------------------------------------------------
  // Usernames
  // ---------------------------------------------------------------------

  /** `f"{first_name.lower()}.{last_name.lower()}"`. */
  function UsernameBase(first: string, last: string): string
  {
    Lower(first) + "." + Lower(last)
  }

  /** `f"{base_username}{counter}"`. */
  function Numbered(base: string, n: nat): string
  {
    base + NatToString(n)
  }

  predicate AllDigits(s: string)
  {
    forall k :: 0 <= k < |s| ==> IsDigit(s[k])
  }

  /** The number a username carries after `base`, when it is `base` followed by digits. */
  function Suffix(base: string, name: string): Option<nat>
  {
    if |base| < |name| && name[..|base|] == base && AllDigits(name[|base|..]) then
      Some(DigitsValue(name[|base|..]))
    else None
  }

  lemma SuffixOfNumbered(base: string, n: nat)
    ensures Suffix(base, Numbered(base, n)) == Some(n)
  {
    var name := Numbered(base, n);
    assert name[..|base|] == base && name[|base|..] == NatToString(n);
    DigitsValueOfNatToString(n);
  }

  /** Accounts whose username is `base` followed by a number of at least `c`. */
  function SuffixAtLeast(base: string, c: nat): Account -> bool
  {
    (u: Account) => u.username.Some? && Suffix(base, u.username.value).Some? && Suffix(base, u.username.value).value >= c
  }

  /** Raising the bound never counts more accounts, and counts fewer once `base` and `c` is held. */
  lemma FewerAtLeast(users: seq<Account>, base: string, c: nat)
    ensures Count(users, SuffixAtLeast(base, c + 1)) <= Count(users, SuffixAtLeast(base, c))
    ensures UsersApi.UsernameHeld(users, Numbered(base, c))
            ==> Count(users, SuffixAtLeast(base, c + 1)) < Count(users, SuffixAtLeast(base, c))
  {
    if UsersApi.UsernameHeld(users, Numbered(base, c)) {
      var k :| 0 <= k < |users| && users[k].username == Some(Numbered(base, c));
      SuffixOfNumbered(base, c);
      assert SuffixAtLeast(base, c)(users[k]) && !SuffixAtLeast(base, c + 1)(users[k]);
    }
    CountNarrower(users, SuffixAtLeast(base, c), SuffixAtLeast(base, c + 1));
  }

  /**
   * The first number from `counter` on whose numbered username is free;
   * every number before it is taken. The search ends because each taken
   * candidate is one account fewer that carries a number at least as large.
   */
  function FreeNumber(users: seq<Account>, base: string, counter: nat): (n: nat)
    ensures n >= counter && !UsersApi.UsernameHeld(users, Numbered(base, n))
    ensures forall m :: counter <= m < n ==> UsersApi.UsernameHeld(users, Numbered(base, m))
    decreases Count(users, SuffixAtLeast(base, counter))
  {
    if !UsersApi.UsernameQuery(users, Numbered(base, counter)) then counter
    else
      FewerAtLeast(users, base, counter);
      FreeNumber(users, base, counter + 1)
  }

  /**
   * `generate_username`: the base name when no account holds it, otherwise
   * the base name with the smallest number from 1 on that no account holds.
   */
  function FreeUsername(users: seq<Account>, first: string, last: string): (r: string)
    ensures !UsersApi.UsernameHeld(users, r)
    ensures !UsersApi.UsernameHeld(users, UsernameBase(first, last)) ==> r == UsernameBase(first, last)
    ensures UsersApi.UsernameHeld(users, UsernameBase(first, last))
            ==> exists n :: n >= 1 && r == Numbered(UsernameBase(first, last), n)
                            && forall m :: 1 <= m < n ==> UsersApi.UsernameHeld(users, Numbered(UsernameBase(first, last), m))
  {
    var base := UsernameBase(first, last);
    if !UsersApi.UsernameQuery(users, base) then base else Numbered(base, FreeNumber(users, base, 1))
  }

  /** One step of the search: a taken candidate passes it on to the next number. */
  lemma FreeNumberStep(users: seq<Account>, base: string, counter: nat)
    ensures UsersApi.UsernameHeld(users, Numbered(base, counter))
            ==> FreeNumber(users, base, counter) == FreeNumber(users, base, counter + 1)
    ensures !UsersApi.UsernameHeld(users, Numbered(base, counter)) ==> FreeNumber(users, base, counter) == counter
  {
  }

  /** `generate_username`: try the base name, then the base name with 1, 2, ... until one is free. */
  method GenerateUsername(d: IdentityDb.Directory, first: string, last: string) returns (r: string)
    ensures r == FreeUsername(d.users, first, last)
  {
    var base := UsernameBase(first, last);
    ghost var target := FreeUsername(d.users, first, last);
    r := base;
    var counter: nat := 1;
    while UsersApi.UsernameQuery(d.users, r)
      invariant counter >= 1
      invariant (counter == 1 && r == base) || (counter > 1 && r == Numbered(base, counter - 1))
      invariant UsersApi.UsernameHeld(d.users, r) ==> target == Numbered(base, FreeNumber(d.users, base, counter))
      invariant !UsersApi.UsernameHeld(d.users, r) ==> target == r
      decreases Count(d.users, SuffixAtLeast(base, counter - 1)) + (if counter == 1 then 1 else 0)
    {
      FewerAtLeast(d.users, base, counter - 1);
      FreeNumberStep(d.users, base, counter);
      r := Numbered(base, counter);
      counter := counter + 1;
    }
  }

  // ---------------------------------------------------------------------
  // Employee numbers
  // ---------------------------------------------------------------------

  /** `org.name[:3].upper()` for a known organisation, "EMP" otherwise. */
  function OrgPrefix(orgs: seq<Organization>, org: Id): (r: string)
    ensures |r| <= 3
  {
    var i := FirstMatch(orgs, UsersApi.OrganizationKey(org));
    if i.None? then "EMP"
    else
      var name := orgs[i.value].name;
      Upper(if |name| <= 3 then name else name[..3])
  }

  /**
   * The employee id a query ordered by `employee_id` descending returns
   * first among the organisation's staff (compared character by character).
   */
  function GreatestEmployeeId(rows: seq<Staff>, org: Id): (r: Option<string>)
    ensures r.None? <==> forall k :: 0 <= k < |rows| ==> rows[k].organizationId != org
    ensures r.Some? ==> exists k :: 0 <= k < |rows| && rows[k].organizationId == org && rows[k].employeeId == r.value
  {
    if rows == [] then None
    else
      var rest := GreatestEmployeeId(rows[..|rows| - 1], org);
      var last := rows[|rows| - 1];
      if last.organizationId != org then rest
      else if rest.None? || RolesApi.TextLe(rest.value, last.employeeId) then Some(last.employeeId)
      else rest
  }

  /** No employee id of the organisation sorts after the one the query returns. */
  lemma {:induction false} GreatestEmployeeIdIsGreatest(rows: seq<Staff>, org: Id, k: nat)
    requires k < |rows| && rows[k].organizationId == org
    ensures RolesApi.TextLe(rows[k].employeeId, GreatestEmployeeId(rows, org).value)
  {
    var front := rows[..|rows| - 1];
    var rest := GreatestEmployeeId(front, org);
    var last := rows[|rows| - 1];
    var g := GreatestEmployeeId(rows, org).value;
    if k == |rows| - 1 {
      if g != last.employeeId {
        RolesApi.TextLeTotal(rest.value, last.employeeId);
      } else {
        RolesApi.TextLeTotal(g, g);
      }
    } else {
      assert front[k] == rows[k];
      GreatestEmployeeIdIsGreatest(front, org, k);
      if last.organizationId == org && RolesApi.TextLe(rest.value, last.employeeId) {
        RolesApi.TextLeTransitive(rows[k].employeeId, rest.value, last.employeeId);
      }
    }
  }

  /** A number of at most three digits reads back from its three-digit padding. */
  lemma PyIntOfPadded(n: nat)
    requires n < 1000
    ensures |ZeroPad(n, 3)| == 3
    ensures PyInt(ZeroPad(n, 3)) == Some(n)
  {
    ShortNumerals(n);
    PyIntOfDigits(ZeroPad(n, 3));
    DigitsValueOfZeroPad(n, 3);
  }

  lemma ShortNumerals(n: nat)
    ensures n < 1000 ==> |NatToString(n)| <= 3
    ensures n < 10000 ==> |NatToString(n)| <= 4
  {
    if n >= 100 {
      assert |NatToString(n)| == |NatToString(n / 10)| + 1;
      assert |NatToString(n / 10)| == |NatToString(n / 100)| + 1;
    }
  }

  /** `employee_id[-3:]`. */
  function LastThree(s: string): (r: string)
    ensures |s| >= 3 ==> |r| == 3 && s == s[..|s| - 3] + r
  {
    if |s| >= 3 then s[|s| - 3..] else s
  }

  /** `f"{n:03d}"`: three digits at least, the sign counting towards the width. */
  function Padded3(n: int): string
  {
    if n >= 0 then ZeroPad(n, 3) else "-" + ZeroPad(-n, 2)
  }

  /** One more than the number in an id's last three characters, or 1 when they are no number. */
  function NextNumber(id: string): int
  {
    var v := PyInt(LastThree(id));
    if v.Some? then v.value + 1 else 1
  }

  /**
   * `generate_employee_id`: the organisation's prefix and the number after
   * the one its greatest employee id ends in, or 1 when it has none.
   */
  function GenerateEmployeeId(orgs: seq<Organization>, rows: seq<Staff>, org: Id): string
  {
    var g := GreatestEmployeeId(rows, org);
    OrgPrefix(orgs, org) + Padded3(if g.Some? && g.value != [] then NextNumber(g.value) else 1)
  }

  /** The first employee id of an organisation is its prefix and "001". */
  lemma FirstEmployeeId(orgs: seq<Organization>, rows: seq<Staff>, org: Id)
    requires forall k :: 0 <= k < |rows| ==> rows[k].organizationId != org
    ensures GenerateEmployeeId(orgs, rows, org) == OrgPrefix(orgs, org) + "001"
  {
    assert NatToString(1) == "1";
  }

  /** The proposal after a greatest id whose last three characters read as `v`. */
  lemma ProposalAfter(orgs: seq<Organization>, rows: seq<Staff>, org: Id, v: int)
    requires GreatestEmployeeId(rows, org).Some? && GreatestEmployeeId(rows, org).value != []
    requires PyInt(LastThree(GreatestEmployeeId(rows, org).value)) == Some(v)
    ensures GenerateEmployeeId(orgs, rows, org) == OrgPrefix(orgs, org) + Padded3(v + 1)
  {
    var g := GreatestEmployeeId(rows, org).value;
    assert NextNumber(g) == v + 1;
    assert GenerateEmployeeId(orgs, rows, org) == OrgPrefix(orgs, org) + Padded3(NextNumber(g));
  }

  /**
   * After an id ending in three digits below 999 comes the id with the next
   * number, which reads back from the new id's last three characters.
   */
  lemma EmployeeIdCountsOn(orgs: seq<Organization>, rows: seq<Staff>, org: Id, stem: string, n: nat)
    requires n < 999 && GreatestEmployeeId(rows, org) == Some(stem + ZeroPad(n, 3))
    ensures GenerateEmployeeId(orgs, rows, org) == OrgPrefix(orgs, org) + ZeroPad(n + 1, 3)
    ensures PyInt(LastThree(GenerateEmployeeId(orgs, rows, org))) == Some(n + 1)
  {
    PyIntOfPadded(n);
    PyIntOfPadded(n + 1);
    assert LastThree(stem + ZeroPad(n, 3)) == ZeroPad(n, 3);
    ProposalAfter(orgs, rows, org, n);
    var r := OrgPrefix(orgs, org) + ZeroPad(n + 1, 3);
    assert LastThree(r) == ZeroPad(n + 1, 3);
  }

  lemma {:induction false} TextLeSharedStem(stem: string, a: string, b: string)
    ensures RolesApi.TextLe(stem + a, stem + b) == RolesApi.TextLe(a, b)
  {
    if stem != [] {
      assert (stem + a)[0] == stem[0] == (stem + b)[0];
      assert (stem + a)[1..] == stem[1..] + a && (stem + b)[1..] == stem[1..] + b;
      TextLeSharedStem(stem[1..], a, b);
    } else {
      assert stem + a == a && stem + b == b;
    }
  }

  lemma Numerals999()
    ensures NatToString(999) == "999" && NatToString(1000) == "1000"
  {
    assert NatToString(9) == "9" && NatToString(99) == "99";
    assert NatToString(1) == "1" && NatToString(10) == "10" && NatToString(100) == "100";
  }

  /** After the greatest id "<prefix>999" comes "<prefix>1000". */
  lemma ProposalAfter999(orgs: seq<Organization>, rows: seq<Staff>, org: Id)
    requires GreatestEmployeeId(rows, org) == Some(OrgPrefix(orgs, org) + "999")
    ensures GenerateEmployeeId(orgs, rows, org) == OrgPrefix(orgs, org) + "1000"
  {
    Numerals999();
    PyIntOfPadded(999);
    assert LastThree(OrgPrefix(orgs, org) + "999") == "999";
    ProposalAfter(orgs, rows, org, 999);
  }

  /** "<prefix>1000" sorts before "<prefix>999", so adding it leaves the greatest id as it was. */
  lemma GreatestSkips1000(rows: seq<Staff>, org: Id, stem: string, s: Staff)
    requires GreatestEmployeeId(rows, org) == Some(stem + "999")
    requires s.organizationId == org && s.employeeId == stem + "1000"
    ensures GreatestEmployeeId(rows + [s], org) == Some(stem + "999")
  {
    TextLeSharedStem(stem, "999", "1000");
    assert !RolesApi.TextLe("999", "1000");
    assert (rows + [s])[..|rows|] == rows;
  }

  /**
   * Past 999 the proposal stops moving: the organisation's greatest id
   * "ABC999" gives "ABC1000", but "ABC1000" sorts before "ABC999", so once
   * a staff member holds it the same id is proposed again.
   */
  lemma EmployeeIdRepeatsAfter999(orgs: seq<Organization>, rows: seq<Staff>, org: Id, s: Staff)
    requires GreatestEmployeeId(rows, org) == Some(OrgPrefix(orgs, org) + "999")
    requires s.organizationId == org && s.employeeId == GenerateEmployeeId(orgs, rows, org)
    ensures GenerateEmployeeId(orgs, rows, org) == OrgPrefix(orgs, org) + "1000"
    ensures GenerateEmployeeId(orgs, rows + [s], org) == s.employeeId
  {
    ProposalAfter999(orgs, rows, org);
    GreatestSkips1000(rows, org, OrgPrefix(orgs, org), s);
    ProposalAfter999(orgs, rows + [s], org);
  }

  // ---------------------------------------------------------------------
  // Create
  // ---------------------------------------------------------------------

  /**
   * The request body of `POST /staff/` (the columns the model keeps).
   * `fteHundredths` is `fte_percentage` in hundredths.
   */
  datatype StaffCreate = StaffCreate(
    email: string,
    firstName: string,
    lastName: string,
    employeeId: string,
    roleId: Id,
    supervisorId: Option<Id>,
    preferredName: Option<string>,
    hireDate: Day,
    employmentStatus: EmploymentStatus,
    payType: PayType,
    fteHundredths: int,
    notes: Option<string>)

  /** Some staff row of organisation `org` carries this employee id. */
  predicate EmployeeIdInOrg(rows: seq<Staff>, eid: string, org: Option<Id>)
  {
    exists k :: 0 <= k < |rows| && rows[k].employeeId == eid && Some(rows[k].organizationId) == org
  }

  /** Some staff row, of any organisation, carries this employee id. */
  predicate EmployeeIdHeld(rows: seq<Staff>, eid: string)
  {
    exists k :: 0 <= k < |rows| && rows[k].employeeId == eid
  }

  /**
   * The request validation and the handler's checks, in order: a blank
   * employee id (422; the id is kept stripped), a used email (400), the
   * employee id within the caller's organisation (400), the role (404, any
   * role), the supervisor within the caller's organisation (404).
   */
  function StaffChecks(users: seq<Account>, rows: seq<Staff>, roles: seq<Role>, caller: Account, req: StaffCreate)
    : (r: Result<string>)
    ensures r.Ok? <==> Strip(req.employeeId) != [] && !UsersApi.EmailHeld(users, req.email)
                       && !EmployeeIdInOrg(rows, Strip(req.employeeId), caller.organizationId)
                       && UsersApi.HasRole(roles, req.roleId)
                       && (req.supervisorId.Some? ==> StaffInOrg(rows, req.supervisorId.value, caller.organizationId))
    ensures r.Ok? ==> r.value == Strip(req.employeeId)
    ensures Strip(req.employeeId) == [] ==> r == Err(UNPROCESSABLE, EMPLOYEE_ID_REQUIRED)
    ensures Strip(req.employeeId) != [] && UsersApi.EmailHeld(users, req.email) ==> r == Err(BAD_REQUEST, EMAIL_EXISTS)
  {
    var eid := Strip(req.employeeId);
    if eid == [] then Err(UNPROCESSABLE, EMPLOYEE_ID_REQUIRED)
    else if UsersApi.EmailQuery(users, req.email) then Err(BAD_REQUEST, EMAIL_EXISTS)
    else if EmployeeIdInOrg(rows, eid, caller.organizationId) then Err(BAD_REQUEST, EMPLOYEE_ID_EXISTS)
    else if !UsersApi.RoleQuery(roles, req.roleId) then Err(NOT_FOUND, ROLE_NOT_FOUND)
    else if req.supervisorId.Some? && !StaffInOrg(rows, req.supervisorId.value, caller.organizationId) then
      Err(NOT_FOUND, SUPERVISOR_NOT_FOUND)
    else Ok(eid)
  }

  /** The new account: active, verified, bound to change its password, in the caller's organisation. */
  function StaffAccount(users: seq<Account>, caller: Account, req: StaffCreate, username: string, hash: string, now: Moment)
    : (r: Account)
    ensures r.status == UserStatus.ACTIVE && r.emailVerified && r.mustChangePassword
    ensures r.email == req.email && r.username == Some(username) && r.passwordHash == hash
    ensures r.organizationId == caller.organizationId && r.roleId == Some(req.roleId)
    ensures forall k :: 0 <= k < |users| ==> users[k].id < r.id
  {
    NewAccount(IdentityDb.FreshKey(users, IdentityDb.AccountIdOf), caller.organizationId, req.email, Some(username), hash,
               req.firstName, req.lastName, Some(req.roleId), UserStatus.ACTIVE, now).(emailVerified := true, mustChangePassword := true)
  }

  /** The new staff row, linked to the account `userId`. */
  function StaffRow(rows: seq<Staff>, userId: Id, org: Id, eid: string, req: StaffCreate): (r: Staff)
    ensures r.userId == userId && r.organizationId == org && r.employeeId == eid
    ensures r.terminationDate.None? && r.employmentStatus == req.employmentStatus && r.supervisorId == req.supervisorId
    ensures forall k :: 0 <= k < |rows| ==> rows[k].id < r.id
  {
    Staff(IdentityDb.FreshKey(rows, IdentityDb.StaffKeyOf), userId, org, eid, req.preferredName, req.hireDate,
          req.employmentStatus, req.payType, req.fteHundredths, req.supervisorId, req.notes, None)
  }

  /**
   * `create_staff` as a decision: the checks, then the database's own
   * refusals, which the handler turns into 500 "Failed to create staff
   * member": a caller without an organisation (the staff row's
   * organisation is required), an employee id used in another organisation
   * (the column is unique across all of them), a username already held.
   */
  function StaffCreation(users: seq<Account>, rows: seq<Staff>, roles: seq<Role>, caller: Account, req: StaffCreate,
                         username: string, hash: string, now: Moment)
    : (r: Result<(Account, Staff)>)
    ensures StaffChecks(users, rows, roles, caller, req).Err? ==> r.Err? && r.status == StaffChecks(users, rows, roles, caller, req).status
    ensures r.Ok? <==> StaffChecks(users, rows, roles, caller, req).Ok? && caller.organizationId.Some?
                       && !EmployeeIdHeld(rows, Strip(req.employeeId)) && !UsersApi.UsernameHeld(users, username)
    ensures r.Ok? ==> r.value.0 == StaffAccount(users, caller, req, username, hash, now)
                      && r.value.1 == StaffRow(rows, r.value.0.id, caller.organizationId.value, Strip(req.employeeId), req)
  {
    var c := StaffChecks(users, rows, roles, caller, req);
    if c.Err? then Err(c.status, c.detail)
    else if caller.organizationId.None? || EmployeeIdHeld(rows, c.value) || UsersApi.UsernameQuery(users, username) then
      Err(INTERNAL_ERROR, CREATE_FAILED)
    else
      var a := StaffAccount(users, caller, req, username, hash, now);
      Ok((a, StaffRow(rows, a.id, caller.organizationId.value, c.value, req)))
  }

  /**
   * `create_staff`: the account and the staff row are added together, and
   * the answer carries the row and the generated twelve-character password
   * (whose bcrypt digest is `hash`).
   */
  method CreateStaff(d: IdentityDb.Directory, caller: Account, req: StaffCreate, pick: nat -> nat, hash: string, now: Moment)
    returns (r: Result<(Staff, string)>)
    modifies d`users, d`staff
    ensures match StaffCreation(old(d.users), old(d.staff), d.roles, caller, req,
                                FreeUsername(old(d.users), req.firstName, req.lastName), hash, now)
            case Err(status, detail) => r == Err(status, detail) && d.users == old(d.users) && d.staff == old(d.staff)
            case Ok(created) =>
              r == Ok((created.1, GenerateRandomPassword(pick, GENERATED_PASSWORD_LENGTH)))
              && d.users == old(d.users) + [created.0] && d.staff == old(d.staff) + [created.1]
  {
    // The search for a username changes nothing, so running it before the checks answers alike.
    var username := GenerateUsername(d, req.firstName, req.lastName);
    var password := GenerateRandomPassword(pick, GENERATED_PASSWORD_LENGTH);
    var decision := StaffCreation(d.users, d.staff, d.roles, caller, req, username, hash, now);
    if decision.Err? {
      return Err(decision.status, decision.detail);
    }
    d.users := d.users + [decision.value.0];
    d.staff := d.staff + [decision.value.1];
    r := Ok((decision.value.1, password));
  }

  /**
   * A created staff member keeps emails, usernames, account ids and
   * employee ids unique, and the new row points at the new account.
   */
  lemma CreateStaffKeepsIdentifiersUnique(users: seq<Account>, rows: seq<Staff>, roles: seq<Role>, caller: Account,
                                          req: StaffCreate, hash: string, now: Moment)
    requires UsersApi.EmailsUnique(users) && UsersApi.UsernamesUnique(users) && AccountKeysUnique(users)
    requires EmployeeIdsUnique(rows)
    requires StaffCreation(users, rows, roles, caller, req, FreeUsername(users, req.firstName, req.lastName), hash, now).Ok?
    ensures var created := StaffCreation(users, rows, roles, caller, req, FreeUsername(users, req.firstName, req.lastName), hash, now).value;
            UsersApi.EmailsUnique(users + [created.0]) && UsersApi.UsernamesUnique(users + [created.0])
            && AccountKeysUnique(users + [created.0]) && EmployeeIdsUnique(rows + [created.1])
            && created.1.userId == created.0.id && Some(created.1.organizationId) == caller.organizationId
  {
    var username := FreeUsername(users, req.firstName, req.lastName);
    var created := StaffCreation(users, rows, roles, caller, req, username, hash, now).value;
    var after := users + [created.0];
    forall a, b | 0 <= a < b < |after| && after[a].username.Some?
      ensures after[a].username != after[b].username
    {
      if b == |users| {
        assert after[a] == users[a];
      }
    }
  }

  /**
   * The role check only asks that the role exists: a caller allowed to
   * create staff can give the new account any role, a system role or a
   * role of another organisation included.
   */
  lemma StaffCreationAcceptsAnyRole(users: seq<Account>, rows: seq<Staff>, roles: seq<Role>, caller: Account,
                                    req: StaffCreate, username: string, hash: string, now: Moment, k: nat)
    requires k < |roles| && roles[k].id == req.roleId
    requires Strip(req.employeeId) != [] && !EmployeeIdHeld(rows, Strip(req.employeeId))
    requires !UsersApi.EmailHeld(users, req.email) && !UsersApi.UsernameHeld(users, username)
    requires req.supervisorId.None? && caller.organizationId.Some?
    ensures StaffCreation(users, rows, roles, caller, req, username, hash, now).Ok?
    ensures StaffCreation(users, rows, roles, caller, req, username, hash, now).value.0.roleId == Some(roles[k].id)
  {
  }

  // ---------------------------------------------------------------------
  // Termination dates
  // ---------------------------------------------------------------------

  /** A month as `%m` reads it: `1[0-2]`, `0[1-9]` or `[1-9]`. */
  predicate MonthText(t: string)
  {
    (|t| == 1 && '1' <= t[0] <= '9')
    || (|t| == 2 && ((t[0] == '0' && '1' <= t[1] <= '9') || (t[0] == '1' && '0' <= t[1] <= '2')))
  }

  /** A day as `%d` reads it: `3[01]`, `[12]\d`, `0[1-9]`, `[1-9]` or a space and `[1-9]`. */
  predicate DayText(t: string)
  {
    (|t| == 1 && '1' <= t[0] <= '9')
    || (|t| == 2 && ((t[0] == '3' && '0' <= t[1] <= '1') || ('1' <= t[0] <= '2' && IsDigit(t[1]))
                     || ((t[0] == '0' || t[0] == ' ') && '1' <= t[1] <= '9')))
  }

  function DayValue(t: string): nat
    requires DayText(t)
  {
    if t[0] == ' ' then DigitsValue(t[1..]) else DigitsValue(t)
  }

  /**
   * `datetime.strptime(text, "%Y-%m-%d").date()`: four digits, a month, a
   * day, separated by dashes and nothing else, naming a real date of a year
   * from 1 on; `None` where Python raises `ValueError`.
   */
  function ParseIsoDay(text: string): (r: Option<Day>)
  {
    var parts := Split(text, '-');
    if |parts| == 3 && |parts[0]| == 4 && AllDigits(parts[0]) && MonthText(parts[1]) && DayText(parts[2]) then
      var date := Date(DigitsValue(parts[0]), DigitsValue(parts[1]), DayValue(parts[2]));
      if date.year >= 1 && ValidDate(date) then
        var day: Day := date;
        Some(day)
      else None
    else None
  }

  lemma MonthPadding(m: int)
    requires 1 <= m <= 12
    ensures MonthText(ZeroPad(m, 2)) && DigitsValue(ZeroPad(m, 2)) == m
  {
    DigitsValueOfZeroPad(m, 2);
    if m >= 10 {
      assert NatToString(m) == NatToString(1) + [DigitChar(m % 10)];
    }
  }

  lemma DayPadding(d: int)
    requires 1 <= d <= 31
    ensures DayText(ZeroPad(d, 2)) && DayValue(ZeroPad(d, 2)) == d
  {
    DigitsValueOfZeroPad(d, 2);
    if d >= 10 {
      assert NatToString(d) == NatToString(d / 10) + [DigitChar(d % 10)];
    }
  }

  /** `YYYY-MM-DD` splits at its dashes into the three padded numbers. */
  lemma DateIsoParts(d: Day)
    requires 1 <= d.year <= 9999
    ensures Split(DateIso(d), '-') == [ZeroPad(d.year, 4), ZeroPad(d.month, 2), ZeroPad(d.day, 2)]
    ensures |ZeroPad(d.year, 4)| == 4
  {
    ShortNumerals(d.year);
    var y, m, dd := ZeroPad(d.year, 4), ZeroPad(d.month, 2), ZeroPad(d.day, 2);
    assert DateIso(d) == y + ['-'] + (m + ['-'] + dd);
    SplitAfterPart(y, '-', m + ['-'] + dd);
    SplitAfterPart(m, '-', dd);
    SplitWithoutSeparator(dd, '-');
  }

  /** Every date of years 1 to 9999 written as `YYYY-MM-DD` parses back to itself. */
  lemma ParsesIsoFormat(d: Day)
    requires 1 <= d.year <= 9999
    ensures ParseIsoDay(DateIso(d)) == Some(d)
  {
    DateIsoParts(d);
    MonthPadding(d.month);
    DayPadding(d.day);
    DigitsValueOfZeroPad(d.year, 4);
  }

  /** The parser is lenient: a one-digit month, and a one-digit day after a space, are accepted. */
  lemma ParsesShortForms(y: int, m: int, day: int)
    requires 1 <= y <= 9999 && 1 <= m <= 9 && 1 <= day <= 9
    ensures var text := ZeroPad(y, 4) + "-" + [DigitChar(m)] + "-" + [' ', DigitChar(day)];
            ParseIsoDay(text).Some? && ParseIsoDay(text).value == Date(y, m, day)
  {
    ShortNumerals(y);
    DigitsValueOfZeroPad(y, 4);
    var Y, M, D := ZeroPad(y, 4), [DigitChar(m)], [' ', DigitChar(day)];
    assert Y + "-" + M + "-" + D == Y + ['-'] + (M + ['-'] + D);
    SplitAfterPart(Y, '-', M + ['-'] + D);
    SplitAfterPart(M, '-', D);
    SplitWithoutSeparator(D, '-');
    assert D[1..] == [DigitChar(day)];
    assert M[..0] == [] && D[1..][..0] == [];
    var text := ZeroPad(y, 4) + "-" + [DigitChar(m)] + "-" + [' ', DigitChar(day)];
    assert Split(text, '-') == [Y, M, D];
    assert MonthText(M) && DayText(D);
    assert DigitsValue(M) == m;
    assert DayValue(D) == day;
    assert ValidDate(Date(y, m, day));
  }

  // ---------------------------------------------------------------------
  // Terminate, reactivate, reset
  // ---------------------------------------------------------------------

  function StaffKey(id: Id, org: Option<Id>): Staff -> bool
  {
    (s: Staff) => s.id == id && Some(s.organizationId) == org
  }

  /** The position of the caller's organisation's staff row `id`, with the account behind it. */
  function StaffTarget(rows: seq<Staff>, users: seq<Account>, caller: Account, id: Id): (r: Result<(nat, nat)>)
    ensures r.Ok? ==> r.value.0 < |rows| && rows[r.value.0].id == id && Some(rows[r.value.0].organizationId) == caller.organizationId
    ensures r.Ok? ==> r.value.1 < |users| && users[r.value.1].id == rows[r.value.0].userId
    ensures r == Err(NOT_FOUND, STAFF_NOT_FOUND) <==> !StaffInOrg(rows, id, caller.organizationId)
    ensures r.Err? && r != Err(NOT_FOUND, STAFF_NOT_FOUND) ==> r == Err(INTERNAL_ERROR, UNHANDLED)
  {
    var i := FirstMatch(rows, StaffKey(id, caller.organizationId));
    if i.None? then
      assert forall k :: 0 <= k < |rows| ==> !StaffKey(id, caller.organizationId)(rows[k]);
      Err(NOT_FOUND, STAFF_NOT_FOUND)
    else
      assert StaffKey(id, caller.organizationId)(rows[i.value]);
      var j := IdentityDb.AccountIndex(users, rows[i.value].userId);
      if j.None? then Err(INTERNAL_ERROR, UNHANDLED) else Ok((i.value, j.value))
  }

  /** The termination date: the parsed query parameter when one is given, otherwise today. */
  function TerminationDay(date: Option<string>, today: Day): (r: Result<Day>)
    ensures Truthy(date) ==> (r.Err? <==> ParseIsoDay(date.value).None?)
    ensures r.Err? ==> r == Err(BAD_REQUEST, INVALID_DATE)
  {
    if !Truthy(date) then Ok(today)
    else
      var parsed := ParseIsoDay(date.value);
      if parsed.None? then Err(BAD_REQUEST, INVALID_DATE) else Ok(parsed.value)
  }

  /**
   * `terminate_staff` as a decision: the row (404), not terminated yet
   * (400), the date (400), the account behind it (500 when missing).
   */
  function Termination(rows: seq<Staff>, users: seq<Account>, caller: Account, id: Id, date: Option<string>, today: Day)
    : (r: Result<(nat, nat, Day)>)
    ensures r.Ok? ==> r.value.0 < |rows| && r.value.1 < |users| && rows[r.value.0].employmentStatus != TERMINATED
    ensures r.Ok? ==> StaffTarget(rows, users, caller, id) == Ok((r.value.0, r.value.1))
    ensures r.Ok? && !Truthy(date) ==> r.value.2 == today
    ensures r.Ok? && Truthy(date) ==> ParseIsoDay(date.value) == Some(r.value.2)
    ensures StaffTarget(rows, users, caller, id).Ok? && rows[StaffTarget(rows, users, caller, id).value.0].employmentStatus == TERMINATED
            ==> r == Err(BAD_REQUEST, ALREADY_TERMINATED)
  {
    var i := FirstMatch(rows, StaffKey(id, caller.organizationId));
    if i.None? then Err(NOT_FOUND, STAFF_NOT_FOUND)
    else if rows[i.value].employmentStatus == TERMINATED then Err(BAD_REQUEST, ALREADY_TERMINATED)
    else
      var day := TerminationDay(date, today);
      if day.Err? then Err(day.status, day.detail)
      else
        var t := StaffTarget(rows, users, caller, id);
        if t.Err? then Err(t.status, t.detail) else Ok((t.value.0, t.value.1, day.value))
  }

  /** The terminated row: status, date, and the reason appended to the notes when one is given. */
  function Terminated(s: Staff, day: Day, reason: Option<string>): (r: Staff)
    ensures r.employmentStatus == TERMINATED && r.terminationDate == Some(day)
    ensures Truthy(reason) ==> r.notes == Some(Strip(OrEmpty(s.notes) + TERMINATION_REASON + reason.value))
    ensures !Truthy(reason) ==> r.notes == s.notes
    ensures r.(employmentStatus := s.employmentStatus, terminationDate := s.terminationDate, notes := s.notes) == s
  {
    var notes := if Truthy(reason) then Some(Strip(OrEmpty(s.notes) + TERMINATION_REASON + reason.value)) else s.notes;
    s.(employmentStatus := TERMINATED, terminationDate := Some(day), notes := notes)
  }

  function TerminatedMessage(u: Account): string
  {
    "Staff member " + AccountName(u) + " has been terminated"
  }

  /**
   * `terminate_staff`: the row is terminated and the account behind it
   * deactivated. `today` is the server's local date.
   */
  method TerminateStaff(d: IdentityDb.Directory, caller: Account, id: Id, date: Option<string>, reason: Option<string>,
                        today: Day, now: Moment)
    returns (r: Result<string>)
    modifies d`staff, d`users
    ensures match Termination(old(d.staff), old(d.users), caller, id, date, today)
            case Err(status, detail) => r == Err(status, detail) && d.staff == old(d.staff) && d.users == old(d.users)
            case Ok(target) =>
              d.staff == old(d.staff)[target.0 := Terminated(old(d.staff)[target.0], target.2, reason)]
              && d.users == old(d.users)[target.1 := UsersApi.WithStatus(old(d.users)[target.1], UserStatus.INACTIVE, now)]
              && r == Ok(TerminatedMessage(old(d.users)[target.1]))
  {
    var t := Termination(d.staff, d.users, caller, id, date, today);
    if t.Err? {
      return Err(t.status, t.detail);
    }
    var (i, j, day) := t.value;
    d.staff := d.staff[i := Terminated(d.staff[i], day, reason)];
    d.users := d.users[j := UsersApi.WithStatus(d.users[j], UserStatus.INACTIVE, now)];
    r := Ok(TerminatedMessage(d.users[j]));
  }

  /** `reactivate_staff` as a decision: the row (404), terminated (400), the account (500 when missing). */
  function Reactivation(rows: seq<Staff>, users: seq<Account>, caller: Account, id: Id): (r: Result<(nat, nat)>)
    ensures r.Ok? <==> StaffTarget(rows, users, caller, id).Ok?
                       && rows[StaffTarget(rows, users, caller, id).value.0].employmentStatus == TERMINATED
    ensures r.Ok? ==> r == StaffTarget(rows, users, caller, id)
  {
    var i := FirstMatch(rows, StaffKey(id, caller.organizationId));
    if i.None? then Err(NOT_FOUND, STAFF_NOT_FOUND)
    else if rows[i.value].employmentStatus != TERMINATED then Err(BAD_REQUEST, NOT_TERMINATED)
    else StaffTarget(rows, users, caller, id)
  }

  function Reactivated(s: Staff): (r: Staff)
    ensures r.employmentStatus == EmploymentStatus.ACTIVE && r.terminationDate.None?
    ensures r.(employmentStatus := s.employmentStatus, terminationDate := s.terminationDate) == s
  {
    s.(employmentStatus := EmploymentStatus.ACTIVE, terminationDate := None)
  }

  function ReactivatedMessage(u: Account): string
  {
    "Staff member " + AccountName(u) + " has been reactivated"
  }

  /** `reactivate_staff`: the row is active again, without a termination date, and so is the account. */
  method ReactivateStaff(d: IdentityDb.Directory, caller: Account, id: Id, now: Moment) returns (r: Result<string>)
    modifies d`staff, d`users
    ensures match Reactivation(old(d.staff), old(d.users), caller, id)
            case Err(status, detail) => r == Err(status, detail) && d.staff == old(d.staff) && d.users == old(d.users)
            case Ok(target) =>
              d.staff == old(d.staff)[target.0 := Reactivated(old(d.staff)[target.0])]
              && d.users == old(d.users)[target.1 := UsersApi.WithStatus(old(d.users)[target.1], UserStatus.ACTIVE, now)]
              && r == Ok(ReactivatedMessage(old(d.users)[target.1]))
  {
    var t := Reactivation(d.staff, d.users, caller, id);
    if t.Err? {
      return Err(t.status, t.detail);
    }
    var (i, j) := t.value;
    d.staff := d.staff[i := Reactivated(d.staff[i])];
    d.users := d.users[j := UsersApi.WithStatus(d.users[j], UserStatus.ACTIVE, now)];
    r := Ok(ReactivatedMessage(d.users[j]));
  }

  /**
   * Terminating and then reactivating gives back the row as it was, active
   * and without a termination date, apart from the reason appended to the
   * notes; and a terminated member cannot be terminated a second time.
   */
  lemma ReactivationUndoesTermination(rows: seq<Staff>, users: seq<Account>, caller: Account, id: Id,
                                      date: Option<string>, reason: Option<string>, today: Day, now: Moment,
                                      date2: Option<string>, today2: Day)
    requires Termination(rows, users, caller, id, date, today).Ok?
    ensures var (i, j, day) := Termination(rows, users, caller, id, date, today).value;
            var rows2 := rows[i := Terminated(rows[i], day, reason)];
            var users2 := users[j := UsersApi.WithStatus(users[j], UserStatus.INACTIVE, now)];
            Reactivation(rows2, users2, caller, id) == Ok((i, j))
            && Reactivated(rows2[i]) == rows[i].(employmentStatus := EmploymentStatus.ACTIVE, terminationDate := None, notes := rows2[i].notes)
            && Termination(rows2, users2, caller, id, date2, today2) == Err(BAD_REQUEST, ALREADY_TERMINATED)
  {
    var (i, j, day) := Termination(rows, users, caller, id, date, today).value;
    var rows2 := rows[i := Terminated(rows[i], day, reason)];
    var users2 := users[j := UsersApi.WithStatus(users[j], UserStatus.INACTIVE, now)];
    FirstMatchAlike(rows, rows2, StaffKey(id, caller.organizationId));
    FirstMatchAlike(users, users2, AccountKey(rows[i].userId));
  }

  /**
   * A terminated staff member's account is refused by the session-checking
   * dependency whatever its sessions and tokens.
   */
  lemma TerminationLocksOut(j: Jwt, rows: seq<Staff>, users: seq<Account>, sessions: seq<UserSession>, caller: Account,
                            id: Id, date: Option<string>, reason: Option<string>, today: Day, now: Moment,
                            token: string, t: Moment)
    requires AccountKeysUnique(users)
    requires Termination(rows, users, caller, id, date, today).Ok?
    ensures var (i, k, day) := Termination(rows, users, caller, id, date, today).value;
            var after := users[k := UsersApi.WithStatus(users[k], UserStatus.INACTIVE, now)];
            AuthMiddleware.GetCurrentUser(j, sessions, after, token, t).Ok?
            ==> AuthMiddleware.GetCurrentUser(j, sessions, after, token, t).value.id != rows[i].userId
  {
  }

  /** `reset_staff_password` as a decision: the row (404) and the account behind it (500 when missing). */
  function StaffResetTarget(rows: seq<Staff>, users: seq<Account>, caller: Account, id: Id): (r: Result<(nat, nat)>)
    ensures r == StaffTarget(rows, users, caller, id)
  {
    StaffTarget(rows, users, caller, id)
  }

  /** The account after a staff reset: the new digest, a forced change, and the change time. */
  function AfterStaffReset(u: Account, hash: string, now: Moment): (r: Account)
    ensures r.passwordHash == hash && r.mustChangePassword
    ensures r.passwordChangedAt == Some(now) && r.updatedAt == Some(now)
  {
    u.(passwordHash := hash, mustChangePassword := true, passwordChangedAt := Some(now), updatedAt := Some(now))
  }

  function StaffResetMessage(u: Account): string
  {
    "Password reset successfully for " + AccountName(u) + ". New credentials sent via email."
  }

  /**
   * `reset_staff_password`: a random twelve-character password, whose
   * bcrypt digest is `hash`, replaces the account's, and the owner must
   * change it at the next login. The password itself only goes out by
   * email.
   */
  method ResetStaffPassword(d: IdentityDb.Directory, caller: Account, id: Id, pick: nat -> nat, hash: string, now: Moment)
    returns (r: Result<string>)
    modifies d`users
    ensures match StaffResetTarget(d.staff, old(d.users), caller, id)
            case Err(status, detail) => r == Err(status, detail) && d.users == old(d.users)
            case Ok(target) =>
              d.users == old(d.users)[target.1 := AfterStaffReset(old(d.users)[target.1], hash, now)]
              && r == Ok(StaffResetMessage(old(d.users)[target.1]))
  {
    var t := StaffResetTarget(d.staff, d.users, caller, id);
    if t.Err? {
      return Err(t.status, t.detail);
    }
    var password := GenerateRandomPassword(pick, GENERATED_PASSWORD_LENGTH);
    var j := t.value.1;
    d.users := d.users[j := AfterStaffReset(d.users[j], hash, now)];
    r := Ok(StaffResetMessage(d.users[j]));
  }

  /**
   * A staff reset is the administrator's reset of the users router plus a
   * forced change: the new password opens the account (when `hash` is its
   * digest), the previous one no longer does, and the owner must change it.
   */
  lemma StaffResetForcesChange(u: Account, b: Bcrypt, pick: nat -> nat, hash: string, now: Moment, previous: string)
    requires b.verify(GenerateRandomPassword(pick, GENERATED_PASSWORD_LENGTH), hash)
    requires Binding(b) && previous != GenerateRandomPassword(pick, GENERATED_PASSWORD_LENGTH)
    ensures AfterStaffReset(u, hash, now) == UsersApi.AfterAdminReset(u, hash, now).(mustChangePassword := true)
    ensures b.verify(GenerateRandomPassword(pick, GENERATED_PASSWORD_LENGTH), AfterStaffReset(u, hash, now).passwordHash)
    ensures !b.verify(previous, AfterStaffReset(u, hash, now).passwordHash)
  {
  }
}
