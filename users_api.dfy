/**
 * The users router: creating accounts, listing and reading them, editing,
 * deleting, activating and deactivating them, and resetting a password on
 * an administrator's behalf.
 *
 * Each handler runs after `require_permission("users", <action>)`; the
 * model takes the authenticated caller as a parameter. A caller whose role
 * is not a system role works only on accounts of its own organisation
 * (403 otherwise); a system-role caller works on every account.
 */
module UsersApi {
  import opened Common
  import opened IdentityModel
  import opened Security
  import opened UserSchemas
  import IdentityDb
  import AuthMiddleware
  import Login
  import RolesApi

  const USER_EXISTS: string := "User with this email or username already exists"
  const ORGANIZATION_NOT_FOUND: string := "Organization not found"
  const ROLE_NOT_FOUND: string := "Role not found"
  const USER_NOT_FOUND: string := "User not found"
  const EMAIL_IN_USE: string := "Email already in use"
  const USERNAME_IN_USE: string := "Username already in use"
  const CANNOT_ACCESS: string := "Cannot access users from other organizations"
  const CANNOT_UPDATE: string := "Cannot update users from other organizations"
  const CANNOT_DELETE: string := "Cannot delete users from other organizations"
  const CANNOT_ACTIVATE: string := "Cannot activate users from other organizations"
  const CANNOT_DEACTIVATE: string := "Cannot deactivate users from other organizations"
  const CANNOT_RESET: string := "Cannot reset password for users from other organizations"
  const DELETE_SELF: string := "Cannot delete your own account"
  const DEACTIVATE_SELF: string := "Cannot deactivate your own account"
  const USER_DELETED: string := "User deleted successfully"
  const USER_ACTIVATED: string := "User activated successfully"
  const USER_DEACTIVATED: string := "User deactivated successfully"
  const GENERATED_PASSWORD_LENGTH: nat := 12

  // ---------------------------------------------------------------------
  // Identifiers
  // ---------------------------------------------------------------------

  /** No two accounts share an email. */
  predicate EmailsUnique(users: seq<Account>)
  {
    forall a, b :: 0 <= a < b < |users| ==> users[a].email != users[b].email
  }

  /** No two accounts share a username (accounts without one are not compared). */
  predicate UsernamesUnique(users: seq<Account>)
  {
    forall a, b :: 0 <= a < b < |users| && users[a].username.Some? ==> users[a].username != users[b].username
  }

  /** Some account has this email or, when one is given, this username. */
  predicate Taken(users: seq<Account>, email: string, username: Option<string>)
  {
    exists k :: 0 <= k < |users| && (users[k].email == email || (username.Some? && users[k].username == username))
  }

  function ClashesWith(email: string, username: Option<string>): Account -> bool
  {
    (u: Account) => u.email == email || (username.Some? && u.username == username)
  }

  /** The duplicate query of `create_user`, with the username compared only when one is given. */
  function TakenQuery(users: seq<Account>, email: string, username: Option<string>): (r: bool)
    ensures r <==> Taken(users, email, username)
  {
    var i := FirstMatch(users, ClashesWith(email, username));
    if i.Some? then
      assert ClashesWith(email, username)(users[i.value]);
      true
    else
      assert forall k :: 0 <= k < |users| ==> !ClashesWith(email, username)(users[k]);
      false
  }

  /**
   * The duplicate query as written: `User.username == None` compiles to
   * `username IS NULL`, so a request without a username matches every
   * account that has none.
   */
  function TakenQueryAsWritten(users: seq<Account>, email: string, username: Option<string>): (r: bool)
    ensures r <==> exists k :: 0 <= k < |users| && (users[k].email == email || users[k].username == username)
  {
    var p := (u: Account) => u.email == email || u.username == username;
    var i := FirstMatch(users, p);
    if i.Some? then
      assert p(users[i.value]);
      true
    else
      assert forall k :: 0 <= k < |users| ==> !p(users[k]);
      false
  }

  /**
   * As written, one account without a username blocks the creation of
   * every other account without one, whatever its email; the intended
   * query lets it through.
   */
  lemma NamelessAccountBlocksCreationAsWritten(users: seq<Account>, email: string, k: nat)
    requires k < |users| && users[k].username.None?
    requires forall m :: 0 <= m < |users| ==> users[m].email != email
    ensures TakenQueryAsWritten(users, email, None)
    ensures !TakenQuery(users, email, None)
  {
  }

  // ---------------------------------------------------------------------
  // Create
  // ---------------------------------------------------------------------

  function OrganizationKey(id: Id): Organization -> bool { (o: Organization) => o.id == id }

  predicate HasOrganization(orgs: seq<Organization>, id: Id)
  {
    exists k :: 0 <= k < |orgs| && orgs[k].id == id
  }

  predicate HasRole(roles: seq<Role>, id: Id)
  {
    exists k :: 0 <= k < |roles| && roles[k].id == id
  }

  function OrganizationQuery(orgs: seq<Organization>, id: Id): (r: bool)
    ensures r <==> HasOrganization(orgs, id)
  {
    var i := FirstMatch(orgs, OrganizationKey(id));
    if i.Some? then
      assert OrganizationKey(id)(orgs[i.value]);
      true
    else
      assert forall k :: 0 <= k < |orgs| ==> !OrganizationKey(id)(orgs[k]);
      false
  }

  function RoleQuery(roles: seq<Role>, id: Id): (r: bool)
    ensures r <==> HasRole(roles, id)
  {
    var i := FirstMatch(roles, RoleKey(id));
    if i.Some? then
      assert RoleKey(id)(roles[i.value]);
      true
    else
      assert forall k :: 0 <= k < |roles| ==> !RoleKey(id)(roles[k]);
      false
  }

  /**
   * The checks of `create_user`, in order: 400 for a taken email or
   * username, 404 for a named organisation that does not exist, 404 for a
   * named role that does not exist. The role may belong to any
   * organisation.
   */
  function CreateChecks(users: seq<Account>, orgs: seq<Organization>, roles: seq<Role>, req: UserCreate): (r: Result<()>)
    ensures r.Ok? <==> !Taken(users, req.email, req.username)
                       && (req.organizationId.None? || HasOrganization(orgs, req.organizationId.value))
                       && (req.roleId.None? || HasRole(roles, req.roleId.value))
    ensures Taken(users, req.email, req.username) ==> r == Err(BAD_REQUEST, USER_EXISTS)
    ensures r.Err? ==> r.status in {BAD_REQUEST, NOT_FOUND}
  {
    if TakenQuery(users, req.email, req.username) then Err(BAD_REQUEST, USER_EXISTS)
    else if req.organizationId.Some? && !OrganizationQuery(orgs, req.organizationId.value) then
      Err(NOT_FOUND, ORGANIZATION_NOT_FOUND)
    else if req.roleId.Some? && !RoleQuery(roles, req.roleId.value) then Err(NOT_FOUND, ROLE_NOT_FOUND)
    else Ok(())
  }

  /**
   * The account `create_user` stores: pending, in the named organisation
   * or else the caller's, with the password's digest and the digest of a
   * fresh six-digit code valid for ten minutes.
   */
  function CreatedAccount(id: Id, caller: Account, req: UserCreate, hash: string, sha: string -> string,
                          pick: nat -> nat, now: Moment): (r: Account)
    ensures r.id == id && r.email == req.email && r.username == req.username && r.passwordHash == hash
    ensures r.status == PENDING && !r.emailVerified && r.roleId == req.roleId
    ensures r.organizationId == (if req.organizationId.Some? then req.organizationId else caller.organizationId)
    ensures r.otpHash == Some(HashOtp(sha, GenerateOtp(pick, OTP_LENGTH)))
    ensures r.otpExpires == Some(Login.MinutesAfter(now, OTP_EXPIRE_MINUTES))
  {
    var org := if req.organizationId.Some? then req.organizationId else caller.organizationId;
    var created := NewAccount(id, org, req.email, req.username, hash, req.firstName, req.lastName, req.roleId,
                            PENDING, now);
    Login.AfterUnverified(created, HashOtp(sha, GenerateOtp(pick, OTP_LENGTH)), now)
  }

  /**
   * `create_user`: the checks, then the new account. `hash` is the bcrypt
   * digest of the body's password; the code goes out by email.
   */
  method CreateUser(d: IdentityDb.Directory, caller: Account, req: UserCreate, hash: string, sha: string -> string,
                    pick: nat -> nat, now: Moment) returns (r: Result<Account>)
    modifies d`users
    ensures match CreateChecks(old(d.users), d.organizations, d.roles, req)
            case Err(status, detail) => r == Err(status, detail) && d.users == old(d.users)
            case Ok(_) =>
              var a := CreatedAccount(IdentityDb.FreshKey(old(d.users), IdentityDb.AccountIdOf), caller, req, hash, sha,
                                      pick, now);
              d.users == old(d.users) + [a] && r == Ok(a)
  {
    var checks := CreateChecks(d.users, d.organizations, d.roles, req);
    if checks.Err? {
      return Err(checks.status, checks.detail);
    }
    var a := CreatedAccount(IdentityDb.FreshKey(d.users, IdentityDb.AccountIdOf), caller, req, hash, sha, pick, now);
    d.users := d.users + [a];
    r := Ok(a);
  }

  /** A created account keeps emails, usernames and keys unique. */
  lemma CreateKeepsIdentifiersUnique(users: seq<Account>, orgs: seq<Organization>, roles: seq<Role>, caller: Account,
                                     req: UserCreate, hash: string, sha: string -> string, pick: nat -> nat, now: Moment)
    requires EmailsUnique(users) && UsernamesUnique(users) && AccountKeysUnique(users)
    requires CreateChecks(users, orgs, roles, req).Ok?
    ensures var after := users + [CreatedAccount(IdentityDb.FreshKey(users, IdentityDb.AccountIdOf), caller, req, hash,
                                                 sha, pick, now)];
            EmailsUnique(after) && UsernamesUnique(after) && AccountKeysUnique(after)
  {
    var a := CreatedAccount(IdentityDb.FreshKey(users, IdentityDb.AccountIdOf), caller, req, hash, sha, pick, now);
    var after := users + [a];
    forall i, j | 0 <= i < j < |after|
      ensures after[i].email != after[j].email && after[i].id != after[j].id
      ensures after[i].username.Some? ==> after[i].username != after[j].username
    {
      if j == |users| {
        assert after[i] == users[i] && !ClashesWith(req.email, req.username)(users[i]);
        assert IdentityDb.AccountIdOf(users[i]) < a.id;
      } else {
        assert after[i] == users[i] && after[j] == users[j];
      }
    }
  }

  /**
   * The created account is pending until its owner enters the emailed
   * code: within ten minutes that code verifies it.
   */
  lemma CreatedAccountVerifiesWithItsCode(id: Id, caller: Account, req: UserCreate, hash: string, sha: string -> string,
                                          pick: nat -> nat, now: Moment, t: Moment)
    requires sha(GenerateOtp(pick, OTP_LENGTH)) != ""
    requires Stamp(t) <= Stamp(now) + OTP_EXPIRE_MINUTES * MINUTE
    ensures var a := CreatedAccount(id, caller, req, hash, sha, pick, now);
            a.status == PENDING && Login.CheckEmailCode(a, GenerateOtp(pick, OTP_LENGTH), sha, t) == Ok(())
  {
  }

  // ---------------------------------------------------------------------
  // Tenant scope
  // ---------------------------------------------------------------------

  /** The caller's role is not a system role (or it has none) and the account is of another organisation. */
  predicate CrossTenant(roles: seq<Role>, caller: Account, u: Account)
  {
    !IdentityDb.HasSystemRole(roles, caller) && u.organizationId != caller.organizationId
  }

  /** The account a handler works on: 404 when no account has the key, 403 (with `denied`) across tenants. */
  function Target(users: seq<Account>, roles: seq<Role>, caller: Account, id: Id, denied: string): (r: Result<nat>)
    ensures r.Ok? <==> FindAccount(users, id).Some? && !CrossTenant(roles, caller, FindAccount(users, id).value)
    ensures r.Ok? ==> Some(r.value) == IdentityDb.AccountIndex(users, id)
    ensures FindAccount(users, id).None? ==> r == Err(NOT_FOUND, USER_NOT_FOUND)
    ensures FindAccount(users, id).Some? && !r.Ok? ==> r == Err(FORBIDDEN, denied)
  {
    var i := IdentityDb.AccountIndex(users, id);
    if i.None? then Err(NOT_FOUND, USER_NOT_FOUND)
    else if CrossTenant(roles, caller, users[i.value]) then Err(FORBIDDEN, denied)
    else Ok(i.value)
  }

  /** `get_user`. */
  function GetUser(users: seq<Account>, roles: seq<Role>, caller: Account, id: Id): (r: Result<Account>)
    ensures r.Ok? <==> Target(users, roles, caller, id, CANNOT_ACCESS).Ok?
    ensures r.Ok? ==> r.value in users && r.value.id == id && !CrossTenant(roles, caller, r.value)
    ensures r.Err? ==> r == Err(Target(users, roles, caller, id, CANNOT_ACCESS).status,
                                Target(users, roles, caller, id, CANNOT_ACCESS).detail)
  {
    var t := Target(users, roles, caller, id, CANNOT_ACCESS);
    if t.Err? then Err(t.status, t.detail) else Ok(users[t.value])
  }

  // ---------------------------------------------------------------------
  // List
  // ---------------------------------------------------------------------

  /**
   * The rows `get_users` selects: those of the `organization_id` filter
   * when one is given, whoever asks; otherwise those of the caller's
   * organisation unless the caller's role is a system role; then the
   * search (over email, names and username) and the status filter.
   */
  predicate Selected(roles: seq<Role>, caller: Account, org: Option<Id>, search: Option<string>,
                     status: Option<UserStatus>, u: Account)
  {
    (if org.Some? then u.organizationId == org
     else IdentityDb.HasSystemRole(roles, caller) || u.organizationId == caller.organizationId)
    && (!Truthy(search) || ILike(u.email, search.value) || ILike(u.firstName, search.value)
        || ILike(u.lastName, search.value) || (u.username.Some? && ILike(u.username.value, search.value)))
    && (status.None? || u.status == status.value)
  }

  function SelectedBy(roles: seq<Role>, caller: Account, org: Option<Id>, search: Option<string>,
                      status: Option<UserStatus>): Account -> bool
  {
    (u: Account) => Selected(roles, caller, org, search, status, u)
  }

  /** `get_users`: the selected accounts in table order, `limit` of them from `skip` on. */
  function ListUsers(users: seq<Account>, roles: seq<Role>, caller: Account, skip: nat, limit: nat,
                     search: Option<string>, status: Option<UserStatus>, org: Option<Id>): (r: seq<Account>)
    requires 1 <= limit <= 100
    ensures |r| <= limit
    ensures forall k :: 0 <= k < |r| ==> r[k] in users && Selected(roles, caller, org, search, status, r[k])
    ensures skip == 0 && Count(users, SelectedBy(roles, caller, org, search, status)) <= limit
            ==> forall k :: 0 <= k < |users| && Selected(roles, caller, org, search, status, users[k]) ==> users[k] in r
    ensures r == Window(Filter(users, SelectedBy(roles, caller, org, search, status)), skip, limit)
  {
    var chosen := Filter(users, SelectedBy(roles, caller, org, search, status));
    var r := Window(chosen, skip, limit);
    assert forall k :: 0 <= k < |r| ==> r[k] in chosen;
    assert skip == 0 && |chosen| <= limit ==> r == chosen;
    r
  }

  /**
   * The listing keeps a caller without a system role inside its own
   * organisation only when no `organization_id` is given: with one, it
   * lists the accounts of any organisation, among them accounts the same
   * caller is refused (403) one by one.
   */
  lemma ListingCrossesTenantsOnRequest(users: seq<Account>, roles: seq<Role>, caller: Account, u: Account)
    requires u in users && AccountKeysUnique(users)
    requires !IdentityDb.HasSystemRole(roles, caller) && u.organizationId.Some?
    requires u.organizationId != caller.organizationId
    requires |users| <= 100
    ensures u in ListUsers(users, roles, caller, 0, 100, None, None, u.organizationId)
    ensures u !in ListUsers(users, roles, caller, 0, 100, None, None, None)
    ensures GetUser(users, roles, caller, u.id) == Err(FORBIDDEN, CANNOT_ACCESS)
  {
    UniqueKeyFinds(users, u);
    var k :| 0 <= k < |users| && users[k] == u;
    assert Selected(roles, caller, u.organizationId, None, None, users[k]);
  }

  // ---------------------------------------------------------------------
  // Update
  // ---------------------------------------------------------------------

  /** A field of a body read with `exclude_unset`: absent, or sent (possibly as null). */
  datatype Patch<T> = Unset | Set(value: Option<T>)

  /** `UserUpdate`, for the columns an account holds here. */
  datatype UserUpdate = UserUpdate(email: Patch<string>, username: Patch<string>, firstName: Patch<string>,
                                   lastName: Patch<string>, status: Patch<UserStatus>, roleId: Patch<Id>)

  /** A sent value that Python treats as true. */
  predicate SentText(p: Patch<string>)
  {
    p.Set? && p.value.Some? && p.value.value != ""
  }

  /** The body sends null for a column that cannot be null, so the commit fails. */
  predicate ClearsRequired(p: UserUpdate)
  {
    p.email == Set(None) || p.firstName == Set(None) || p.lastName == Set(None) || p.status == Set(None)
  }

  function ApplyPatch<T>(p: Patch<T>, current: T): T
  {
    if p.Set? && p.value.Some? then p.value.value else current
  }

  /** The account with every sent field set, and `updated_at` stamped. */
  function Patched(u: Account, p: UserUpdate, now: Moment): (r: Account)
    ensures r.id == u.id && r.organizationId == u.organizationId && r.passwordHash == u.passwordHash
    ensures r.email == ApplyPatch(p.email, u.email) && r.status == ApplyPatch(p.status, u.status)
    ensures r.username == (if p.username.Set? then p.username.value else u.username)
    ensures r.roleId == (if p.roleId.Set? then p.roleId.value else u.roleId)
    ensures r.updatedAt == Some(now)
  {
    u.(email := ApplyPatch(p.email, u.email),
       username := if p.username.Set? then p.username.value else u.username,
       firstName := ApplyPatch(p.firstName, u.firstName),
       lastName := ApplyPatch(p.lastName, u.lastName),
       status := ApplyPatch(p.status, u.status),
       roleId := if p.roleId.Set? then p.roleId.value else u.roleId,
       updatedAt := Some(now))
  }

  predicate EmailHeld(users: seq<Account>, email: string)
  {
    exists k :: 0 <= k < |users| && users[k].email == email
  }

  predicate UsernameHeld(users: seq<Account>, username: string)
  {
    exists k :: 0 <= k < |users| && users[k].username == Some(username)
  }

  function EmailQuery(users: seq<Account>, email: string): (r: bool)
    ensures r <==> EmailHeld(users, email)
  {
    FindByEmail(users, email).Some?
  }

  function UsernameKey(username: string): Account -> bool { (u: Account) => u.username == Some(username) }

  function UsernameQuery(users: seq<Account>, username: string): (r: bool)
    ensures r <==> UsernameHeld(users, username)
  {
    var i := FirstMatch(users, UsernameKey(username));
    if i.Some? then
      assert UsernameKey(username)(users[i.value]);
      true
    else
      assert forall k :: 0 <= k < |users| ==> !UsernameKey(username)(users[k]);
      false
  }

  /** A new email is refused when it differs from the account's and some account holds it. */
  predicate EmailConflict(users: seq<Account>, u: Account, p: UserUpdate)
  {
    SentText(p.email) && p.email.value.value != u.email && EmailHeld(users, p.email.value.value)
  }

  /** A new username is refused when it differs from the account's and some account holds it. */
  predicate UsernameConflict(users: seq<Account>, u: Account, p: UserUpdate)
  {
    SentText(p.username) && p.username.value != u.username && UsernameHeld(users, p.username.value.value)
  }

  /**
   * The row at `i`, replaced by `v`, would repeat another row's email or
   * username: the unique indexes of both columns refuse it at commit.
   */
  predicate DuplicatesAnother(users: seq<Account>, i: nat, v: Account)
  {
    exists k :: 0 <= k < |users| && k != i && (users[k].email == v.email || (v.username.Some? && users[k].username == v.username))
  }

  /**
   * `update_user` as a decision: the target, then 400 for a new email or
   * username another account holds (an unchanged value is not looked up),
   * 404 for an unknown role; a null sent for a required column, or a value
   * the unique indexes refuse, fails the commit (500). Otherwise the
   * position and the patched account.
   */
  function UserEdit(users: seq<Account>, roles: seq<Role>, caller: Account, id: Id, p: UserUpdate, now: Moment)
    : (r: Result<(nat, Account)>)
    ensures Target(users, roles, caller, id, CANNOT_UPDATE).Err?
            ==> r == Err(Target(users, roles, caller, id, CANNOT_UPDATE).status,
                         Target(users, roles, caller, id, CANNOT_UPDATE).detail)
    ensures r.Ok? <==> Target(users, roles, caller, id, CANNOT_UPDATE).Ok?
                       && var i := Target(users, roles, caller, id, CANNOT_UPDATE).value;
                       !EmailConflict(users, users[i], p) && !UsernameConflict(users, users[i], p)
                       && !(p.roleId.Set? && p.roleId.value.Some? && !HasRole(roles, p.roleId.value.value))
                       && !ClearsRequired(p) && !DuplicatesAnother(users, i, Patched(users[i], p, now))
    ensures r.Ok? ==> r.value.0 == Target(users, roles, caller, id, CANNOT_UPDATE).value
                      && r.value.1 == Patched(users[r.value.0], p, now)
  {
    var t := Target(users, roles, caller, id, CANNOT_UPDATE);
    if t.Err? then Err(t.status, t.detail)
    else
      var u := users[t.value];
      if SentText(p.email) && p.email.value.value != u.email && EmailQuery(users, p.email.value.value) then
        Err(BAD_REQUEST, EMAIL_IN_USE)
      else if SentText(p.username) && p.username.value != u.username && UsernameQuery(users, p.username.value.value) then
        Err(BAD_REQUEST, USERNAME_IN_USE)
      else if p.roleId.Set? && p.roleId.value.Some? && !RoleQuery(roles, p.roleId.value.value) then
        Err(NOT_FOUND, ROLE_NOT_FOUND)
      else if ClearsRequired(p) || DuplicatesAnother(users, t.value, Patched(u, p, now)) then Err(INTERNAL_ERROR, UNHANDLED)
      else Ok((t.value, Patched(u, p, now)))
  }

  /** `update_user`: the decision applied to the table. */
  method UpdateUser(d: IdentityDb.Directory, caller: Account, id: Id, p: UserUpdate, now: Moment) returns (r: Result<Account>)
    modifies d`users
    ensures match UserEdit(old(d.users), d.roles, caller, id, p, now)
            case Err(status, detail) => r == Err(status, detail) && d.users == old(d.users)
            case Ok(edit) => d.users == old(d.users)[edit.0 := edit.1] && r == Ok(edit.1)
  {
    var edit := UserEdit(d.users, d.roles, caller, id, p, now);
    if edit.Err? {
      return Err(edit.status, edit.detail);
    }
    d.users := d.users[edit.value.0 := edit.value.1];
    r := Ok(edit.value.1);
  }

  /** Sending an account's own email and username back is never a conflict, whoever else exists. */
  lemma OwnValuesNeverConflict(users: seq<Account>, u: Account, p: UserUpdate)
    requires p.email.Set? && p.email.value == Some(u.email)
    requires p.username.Set? && p.username.value == u.username
    ensures !EmailConflict(users, u, p) && !UsernameConflict(users, u, p)
  {
  }

  /**
   * The handler's own look-ups leave the unique indexes nothing to refuse,
   * except for an empty email or username, which is sent without a look-up.
   */
  lemma ChecksLeaveNoDuplicate(users: seq<Account>, i: nat, p: UserUpdate, now: Moment)
    requires EmailsUnique(users) && UsernamesUnique(users) && i < |users|
    requires !EmailConflict(users, users[i], p) && !UsernameConflict(users, users[i], p)
    requires p.email != Set(Some("")) && p.username != Set(Some(""))
    ensures !DuplicatesAnother(users, i, Patched(users[i], p, now))
  {
    var u := users[i];
    var v := Patched(u, p, now);
    forall k | 0 <= k < |users| && k != i
      ensures users[k].email != v.email && (v.username.Some? ==> users[k].username != v.username)
    {
      assert users[k].email != u.email;
      assert u.username.Some? ==> users[k].username != u.username;
    }
  }

  /** An accepted edit keeps emails and usernames unique. */
  lemma EditKeepsIdentifiersUnique(users: seq<Account>, roles: seq<Role>, caller: Account, id: Id, p: UserUpdate,
                                   now: Moment)
    requires EmailsUnique(users) && UsernamesUnique(users)
    requires UserEdit(users, roles, caller, id, p, now).Ok?
    ensures var edit := UserEdit(users, roles, caller, id, p, now).value;
            EmailsUnique(users[edit.0 := edit.1]) && UsernamesUnique(users[edit.0 := edit.1])
  {
    var edit := UserEdit(users, roles, caller, id, p, now).value;
    var i := edit.0;
    var after := users[i := edit.1];
    forall a, b | 0 <= a < b < |after|
      ensures after[a].email != after[b].email
      ensures after[a].username.Some? ==> after[a].username != after[b].username
    {
      if a == i {
        assert after[b] == users[b];
      } else if b == i {
        assert after[a] == users[a];
      }
    }
  }

  /**
   * Any role key passes the check, a system role's among them: a caller
   * without a system role who may update users can give its own account a
   * system role, after which no account is outside its reach.
   */
  lemma SelfPromotionToSystemRole(users: seq<Account>, roles: seq<Role>, caller: Account, p: UserUpdate, now: Moment,
                                  k: nat, other: Account)
    requires caller in users && AccountKeysUnique(users) && EmailsUnique(users) && UsernamesUnique(users)
    requires k < |roles| && roles[k].isSystemRole && RolesApi.RoleKeysUnique(roles)
    requires p == UserUpdate(Unset, Unset, Unset, Unset, Unset, Set(Some(roles[k].id)))
    ensures UserEdit(users, roles, caller, caller.id, p, now).Ok?
    ensures var promoted := UserEdit(users, roles, caller, caller.id, p, now).value.1;
            IdentityDb.HasSystemRole(roles, promoted) && !CrossTenant(roles, promoted, other)
  {
    UniqueKeyFinds(users, caller);
    var i := Target(users, roles, caller, caller.id, CANNOT_UPDATE).value;
    ChecksLeaveNoDuplicate(users, i, p, now);
    var promoted := Patched(caller, p, now);
    var r := RoleOf(roles, promoted).value;
    var m :| 0 <= m < |roles| && roles[m] == r;
    assert m == k;
  }

  // ---------------------------------------------------------------------
  // Delete, activate, deactivate
  // ---------------------------------------------------------------------

  /** The table without the row at `i`. */
  function WithoutAccount(users: seq<Account>, i: nat): (r: seq<Account>)
    requires i < |users|
    ensures |r| == |users| - 1
    ensures forall k :: 0 <= k < |r| ==> r[k] == (if k < i then users[k] else users[k + 1])
  {
    users[..i] + users[i + 1..]
  }

  function SessionNotOf(id: Id): UserSession -> bool { (s: UserSession) => s.userId != id }
  function EventNotOf(id: Id): AuthEvent -> bool { (e: AuthEvent) => e.userId != Some(id) }
  function HistoryNotOf(id: Id): PasswordHistory -> bool { (h: PasswordHistory) => h.userId != id }

  /** `delete_user` as a decision: the target, then 400 for the caller's own account. */
  function Removal(users: seq<Account>, roles: seq<Role>, caller: Account, id: Id): (r: Result<nat>)
    ensures r.Ok? <==> Target(users, roles, caller, id, CANNOT_DELETE).Ok? && id != caller.id
    ensures r.Ok? ==> r == Target(users, roles, caller, id, CANNOT_DELETE)
    ensures Target(users, roles, caller, id, CANNOT_DELETE).Ok? && id == caller.id ==> r == Err(BAD_REQUEST, DELETE_SELF)
  {
    var t := Target(users, roles, caller, id, CANNOT_DELETE);
    if t.Err? then t
    else if users[t.value].id == caller.id then Err(BAD_REQUEST, DELETE_SELF)
    else t
  }

  /**
   * `delete_user`: the account goes, and with it (the relationships
   * cascade) its sessions, its authentication events and its password
   * history. `pinned` holds the keys of accounts some row still refers to
   * through a foreign key that neither cascades nor may be emptied: a staff
   * profile (its `user_id` is NOT NULL) or a task the account created. For
   * such an account the commit fails, nothing is deleted and the caller
   * gets a 500.
   */
  method DeleteUser(d: IdentityDb.Directory, caller: Account, id: Id, pinned: set<Id>) returns (r: Result<string>)
    modifies d`users, d`sessions, d`events, d`history
    ensures match Removal(old(d.users), d.roles, caller, id)
            case Err(status, detail) =>
              r == Err(status, detail) && d.users == old(d.users) && d.sessions == old(d.sessions)
              && d.events == old(d.events) && d.history == old(d.history)
            case Ok(i) =>
              if id in pinned then
                r == Err(INTERNAL_ERROR, UNHANDLED) && d.users == old(d.users) && d.sessions == old(d.sessions)
                && d.events == old(d.events) && d.history == old(d.history)
              else
                r == Ok(USER_DELETED) && d.users == WithoutAccount(old(d.users), i)
                && d.sessions == Filter(old(d.sessions), SessionNotOf(id))
                && d.events == Filter(old(d.events), EventNotOf(id))
                && d.history == Filter(old(d.history), HistoryNotOf(id))
  {
    var removal := Removal(d.users, d.roles, caller, id);
    if removal.Err? {
      return Err(removal.status, removal.detail);
    }
    if id in pinned {
      return Err(INTERNAL_ERROR, UNHANDLED);
    }
    d.users := WithoutAccount(d.users, removal.value);
    d.sessions := Filter(d.sessions, SessionNotOf(id));
    d.events := Filter(d.events, EventNotOf(id));
    d.history := Filter(d.history, HistoryNotOf(id));
    r := Ok(USER_DELETED);
  }

  /**
   * A deleted account, once the delete commits, is gone for good: no account with its key is left
   * and no token authenticates as it any more; the caller's own account is
   * never the one deleted.
   */
  lemma DeletedAccountNoLongerAuthenticates(j: Jwt, users: seq<Account>, roles: seq<Role>, sessions: seq<UserSession>,
                                            caller: Account, id: Id, token: string, now: Moment)
    requires AccountKeysUnique(users)
    requires Removal(users, roles, caller, id).Ok?
    ensures var after := WithoutAccount(users, Removal(users, roles, caller, id).value);
            caller.id != id && FindAccount(after, id).None?
            && var g := AuthMiddleware.GetCurrentUser(j, Filter(sessions, SessionNotOf(id)), after, token, now);
               (g.Ok? ==> g.value.id != id)
  {
    var i := Removal(users, roles, caller, id).value;
    var after := WithoutAccount(users, i);
    forall k | 0 <= k < |after| ensures after[k].id != id {
      if k < i { assert after[k] == users[k]; } else { assert after[k] == users[k + 1]; }
    }
  }

  /** The account with a new status and `updated_at` stamped. */
  function WithStatus(u: Account, status: UserStatus, now: Moment): (r: Account)
    ensures r.status == status && r.updatedAt == Some(now)
    ensures r.(status := u.status, updatedAt := u.updatedAt) == u
  {
    u.(status := status, updatedAt := Some(now))
  }

  /** `activate_user`: the target becomes active (the caller's own account too). */
  method ActivateUser(d: IdentityDb.Directory, caller: Account, id: Id, now: Moment) returns (r: Result<string>)
    modifies d`users
    ensures match Target(old(d.users), d.roles, caller, id, CANNOT_ACTIVATE)
            case Err(status, detail) => r == Err(status, detail) && d.users == old(d.users)
            case Ok(i) => r == Ok(USER_ACTIVATED) && d.users == old(d.users)[i := WithStatus(old(d.users)[i], ACTIVE, now)]
  {
    var t := Target(d.users, d.roles, caller, id, CANNOT_ACTIVATE);
    if t.Err? {
      return Err(t.status, t.detail);
    }
    d.users := d.users[t.value := WithStatus(d.users[t.value], ACTIVE, now)];
    r := Ok(USER_ACTIVATED);
  }

  /** `deactivate_user` as a decision: the target, then 400 for the caller's own account. */
  function Deactivation(users: seq<Account>, roles: seq<Role>, caller: Account, id: Id): (r: Result<nat>)
    ensures r.Ok? <==> Target(users, roles, caller, id, CANNOT_DEACTIVATE).Ok? && id != caller.id
    ensures r.Ok? ==> r == Target(users, roles, caller, id, CANNOT_DEACTIVATE)
    ensures Target(users, roles, caller, id, CANNOT_DEACTIVATE).Ok? && id == caller.id
            ==> r == Err(BAD_REQUEST, DEACTIVATE_SELF)
  {
    var t := Target(users, roles, caller, id, CANNOT_DEACTIVATE);
    if t.Err? then t
    else if users[t.value].id == caller.id then Err(BAD_REQUEST, DEACTIVATE_SELF)
    else t
  }

  /** `deactivate_user`: the target becomes inactive. */
  method DeactivateUser(d: IdentityDb.Directory, caller: Account, id: Id, now: Moment) returns (r: Result<string>)
    modifies d`users
    ensures match Deactivation(old(d.users), d.roles, caller, id)
            case Err(status, detail) => r == Err(status, detail) && d.users == old(d.users)
            case Ok(i) => r == Ok(USER_DEACTIVATED) && d.users == old(d.users)[i := WithStatus(old(d.users)[i], INACTIVE, now)]
  {
    var t := Deactivation(d.users, d.roles, caller, id);
    if t.Err? {
      return Err(t.status, t.detail);
    }
    d.users := d.users[t.value := WithStatus(d.users[t.value], INACTIVE, now)];
    r := Ok(USER_DEACTIVATED);
  }

  /**
   * A deactivated account is refused by the session-checking dependency
   * whatever its sessions (403), and activating it again restores the
   * account as it was apart from the stamp.
   */
  lemma DeactivationLocksOut(j: Jwt, users: seq<Account>, roles: seq<Role>, sessions: seq<UserSession>, caller: Account,
                             id: Id, token: string, now: Moment, t: Moment)
    requires AccountKeysUnique(users)
    requires Deactivation(users, roles, caller, id).Ok?
    requires users[Deactivation(users, roles, caller, id).value].status == ACTIVE
    ensures var i := Deactivation(users, roles, caller, id).value;
            var after := users[i := WithStatus(users[i], INACTIVE, now)];
            (AuthMiddleware.GetCurrentUser(j, sessions, after, token, t).Ok?
             ==> AuthMiddleware.GetCurrentUser(j, sessions, after, token, t).value.id != id)
            && WithStatus(WithStatus(users[i], INACTIVE, now), ACTIVE, t) == users[i].(updatedAt := Some(t))
  {
    var i := Deactivation(users, roles, caller, id).value;
    var after := users[i := WithStatus(users[i], INACTIVE, now)];
  }

  // ---------------------------------------------------------------------
  // Reset by an administrator
  // ---------------------------------------------------------------------

  /** The account after an administrator's reset: the new digest, and the change time. */
  function AfterAdminReset(u: Account, hash: string, now: Moment): (r: Account)
    ensures r.passwordHash == hash && r.passwordChangedAt == Some(now) && r.updatedAt == Some(now)
    ensures r.(passwordHash := u.passwordHash, passwordChangedAt := u.passwordChangedAt, updatedAt := u.updatedAt) == u
  {
    u.(passwordHash := hash, passwordChangedAt := Some(now), updatedAt := Some(now))
  }

  function ResetMessage(password: string): string
  {
    "Password reset successfully. New password: " + password
  }

  /**
   * `admin_reset_password`: a random twelve-character password, whose
   * bcrypt digest is `hash`, replaces the target's; the answer shows the
   * password. The change is not forced at next login and the account's
   * sessions stay live.
   */
  method AdminResetPassword(d: IdentityDb.Directory, caller: Account, id: Id, pick: nat -> nat, hash: string, now: Moment)
    returns (r: Result<string>)
    modifies d`users
    ensures match Target(old(d.users), d.roles, caller, id, CANNOT_RESET)
            case Err(status, detail) => r == Err(status, detail) && d.users == old(d.users)
            case Ok(i) =>
              r == Ok(ResetMessage(GenerateRandomPassword(pick, GENERATED_PASSWORD_LENGTH)))
              && d.users == old(d.users)[i := AfterAdminReset(old(d.users)[i], hash, now)]
  {
    var t := Target(d.users, d.roles, caller, id, CANNOT_RESET);
    if t.Err? {
      return Err(t.status, t.detail);
    }
    var password := GenerateRandomPassword(pick, GENERATED_PASSWORD_LENGTH);
    d.users := d.users[t.value := AfterAdminReset(d.users[t.value], hash, now)];
    r := Ok(ResetMessage(password));
  }

  /**
   * After an administrator's reset the new password opens the account
   * (when `hash` is its digest), the old one no longer does (when the
   * digest binds one password), and nothing makes the owner change it.
   */
  lemma AdminResetReplacesThePassword(u: Account, b: Bcrypt, pick: nat -> nat, hash: string, now: Moment, previous: string)
    requires b.verify(GenerateRandomPassword(pick, GENERATED_PASSWORD_LENGTH), hash)
    requires Binding(b) && previous != GenerateRandomPassword(pick, GENERATED_PASSWORD_LENGTH)
    ensures b.verify(GenerateRandomPassword(pick, GENERATED_PASSWORD_LENGTH), AfterAdminReset(u, hash, now).passwordHash)
    ensures !b.verify(previous, AfterAdminReset(u, hash, now).passwordHash)
    ensures AfterAdminReset(u, hash, now).mustChangePassword == u.mustChangePassword
  {
  }
}
