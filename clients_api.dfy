/**
 * The clients router: the client number generator, creating a client with
 * its login account, the paged listing, reading a client, soft deletion,
 * discharge and readmission, and the account's role and custom
 * permissions. Every handler works inside the caller's organisation: a
 * client of another organisation is "not found".
 */
module ClientsApi {
  import opened Common
  import opened IdentityModel
  import opened ClientModel
  import IdentityDb
  import RolesApi
  import UsersApi

  const EMAIL_REGISTERED: string := "Email already registered"
  const ROLE_NOT_FOUND: string := "Role not found"
  const CLIENT_NOT_FOUND: string := "Client not found"
  const NOT_DISCHARGED: string := "Client is not discharged"
  const NO_ACCOUNT: string := "Client does not have a user account"
  const STATUS_ACTIVE: string := "active"
  const STATUS_INACTIVE: string := "inactive"
  const STATUS_DISCHARGED: string := "discharged"

  // ---------------------------------------------------------------------
  // Client numbers
  // ---------------------------------------------------------------------

  /** A value of `random.randint(10000, 99999)`. */
  type ClientNumber = n: nat | 10000 <= n <= 99999 witness 10000

  /** Five-digit numbers print as five digits. */
  lemma {:induction false} FiveDigits(n: ClientNumber)
    ensures |NatToString(n)| == 5
  {
    var a := n / 10;
    var b := a / 10;
    var c := b / 10;
    var d := c / 10;
    assert 1 <= d < 10 && 10 <= c < 100 && 100 <= b < 1000 && 1000 <= a < 10000;
    assert |NatToString(c)| == |NatToString(d)| + 1;
    assert |NatToString(b)| == |NatToString(c)| + 1;
    assert |NatToString(a)| == |NatToString(b)| + 1;
    assert |NatToString(n)| == |NatToString(a)| + 1;
  }

  /** `f"CL{n}"`: "CL" and five digits, from which the number reads back. */
  function ClientIdText(n: ClientNumber): (r: string)
    ensures |r| == 7 && r[..2] == "CL" && forall k :: 2 <= k < 7 ==> IsDigit(r[k])
    ensures DigitsValue(r[2..]) == n
  {
    FiveDigits(n);
    DigitsValueOfNatToString(n);
    var r := "CL" + NatToString(n);
    assert r[2..] == NatToString(n);
    r
  }

  /** Different numbers give different client numbers. */
  lemma ClientIdTextInjective(m: ClientNumber, n: ClientNumber)
    requires ClientIdText(m) == ClientIdText(n)
    ensures m == n
  {
  }

  /** Some client of organisation `org` carries the client number. */
  predicate UsedIn(clients: seq<Client>, org: Option<Id>, cid: string)
  {
    exists k :: 0 <= k < |clients| && clients[k].clientId == cid && Some(clients[k].organizationId) == org
  }

  function ClientNumberIn(cid: string, org: Option<Id>): Client -> bool
  {
    (c: Client) => c.clientId == cid && Some(c.organizationId) == org
  }

  /**
   * The number `generate_client_id` settles on when the random source
   * yields `draws`: the first one not yet used in the organisation, or none
   * while every draw is taken (the loop would draw again).
   */
  function FirstUnused(clients: seq<Client>, org: Option<Id>, draws: seq<ClientNumber>): (r: Option<string>)
    ensures r.Some? ==> exists k :: 0 <= k < |draws| && r.value == ClientIdText(draws[k])
                                    && !UsedIn(clients, org, ClientIdText(draws[k]))
                                    && forall j :: 0 <= j < k ==> UsedIn(clients, org, ClientIdText(draws[j]))
    ensures r.None? <==> forall k :: 0 <= k < |draws| ==> UsedIn(clients, org, ClientIdText(draws[k]))
  {
    var i := FirstMatch(draws, Unused(clients, org));
    if i.Some? then
      assert forall j :: 0 <= j < i.value ==> !Unused(clients, org)(draws[j]);
      Some(ClientIdText(draws[i.value]))
    else
      assert forall k :: 0 <= k < |draws| ==> !Unused(clients, org)(draws[k]);
      None
  }

  /** The draws whose client number is still free in the organisation. */
  function Unused(clients: seq<Client>, org: Option<Id>): ClientNumber -> bool
  {
    (n: ClientNumber) => !UsedIn(clients, org, ClientIdText(n))
  }

  /** One draw of the generator: an unused number ends the search, a used one leaves the rest of the draws. */
  lemma FirstUnusedStep(clients: seq<Client>, org: Option<Id>, draws: seq<ClientNumber>, i: nat)
    requires i < |draws|
    ensures FirstUnused(clients, org, draws[i..])
            == if UsedIn(clients, org, ClientIdText(draws[i])) then FirstUnused(clients, org, draws[i + 1..])
               else Some(ClientIdText(draws[i]))
  {
    assert draws[i..][0] == draws[i] && draws[i..][1..] == draws[i + 1..];
  }

  /** `generate_client_id`: draw, look the number up in the organisation, and stop at the first unused one. */
  method GenerateClientId(d: IdentityDb.Directory, org: Option<Id>, draws: seq<ClientNumber>) returns (r: Option<string>)
    ensures r == FirstUnused(d.clients, org, draws)
  {
    assert draws[0..] == draws;
    var i := 0;
    while i < |draws|
      invariant 0 <= i <= |draws|
      invariant FirstUnused(d.clients, org, draws) == FirstUnused(d.clients, org, draws[i..])
    {
      var cid := ClientIdText(draws[i]);
      var existing := FirstMatch(d.clients, ClientNumberIn(cid, org));
      FirstUnusedStep(d.clients, org, draws, i);
      if existing.None? {
        assert !UsedIn(d.clients, org, cid) by {
          forall k | 0 <= k < |d.clients| ensures !(d.clients[k].clientId == cid && Some(d.clients[k].organizationId) == org) {
            assert !ClientNumberIn(cid, org)(d.clients[k]);
          }
        }
        return Some(cid);
      }
      assert ClientNumberIn(cid, org)(d.clients[existing.value]);
      i := i + 1;
    }
    assert draws[i..] == [];
    r := None;
  }

  // ---------------------------------------------------------------------
  // Create
  // ---------------------------------------------------------------------

  /** `ClientCreate`, with the columns the client row holds; the admission date is optional. */
  datatype ClientCreate = ClientCreate(email: string, firstName: string, lastName: string,
                                       preferredName: Option<string>, dateOfBirth: Day, gender: string,
                                       admissionDate: Option<Day>, primaryDiagnosis: Option<string>,
                                       roleId: Option<Id>, customPermissionIds: Option<seq<Id>>,
                                       useCustomPermissions: bool, sendCredentials: bool)

  /** Custom permissions are asked for: the flag is on and the list is given. */
  predicate AsksCustom(use: bool, ids: Option<seq<Id>>)
  {
    use && ids.Some?
  }

  /** The custom permission keys a request grants: the resolved list when asked for, none otherwise. */
  function RequestedKeys(perms: seq<Permission>, use: bool, ids: Option<seq<Id>>): (r: Result<seq<Id>>)
    ensures !AsksCustom(use, ids) ==> r == Ok([])
    ensures AsksCustom(use, ids) ==> r == RolesApi.GrantedKeys(perms, ids.value)
  {
    if AsksCustom(use, ids) then RolesApi.GrantedKeys(perms, ids.value) else Ok([])
  }

  /**
   * The checks of `create_client`, in order: 400 for an email already
   * registered, 404 for a named role that does not exist (in any
   * organisation), 400 for custom permission keys that do not all resolve.
   * The result is the list of keys granted.
   */
  function ClientChecks(users: seq<Account>, roles: seq<Role>, perms: seq<Permission>, req: ClientCreate)
    : (r: Result<seq<Id>>)
    ensures r.Ok? <==> !UsersApi.EmailHeld(users, req.email)
                       && (req.roleId.None? || UsersApi.HasRole(roles, req.roleId.value))
                       && RequestedKeys(perms, req.useCustomPermissions, req.customPermissionIds).Ok?
    ensures UsersApi.EmailHeld(users, req.email) ==> r == Err(BAD_REQUEST, EMAIL_REGISTERED)
    ensures r.Ok? ==> r == RequestedKeys(perms, req.useCustomPermissions, req.customPermissionIds)
  {
    if UsersApi.EmailQuery(users, req.email) then Err(BAD_REQUEST, EMAIL_REGISTERED)
    else if req.roleId.Some? && !UsersApi.RoleQuery(roles, req.roleId.value) then Err(NOT_FOUND, ROLE_NOT_FOUND)
    else RequestedKeys(perms, req.useCustomPermissions, req.customPermissionIds)
  }

  /** `email.split('@')[0]`. */
  function LocalPart(email: string): (r: string)
    ensures '@' !in r
    ensures '@' !in email ==> r == email
  {
    if '@' !in email then
      SplitWithoutSeparator(email, '@');
      Split(email, '@')[0]
    else
      Split(email, '@')[0]
  }

  /**
   * The client's login account: active but unverified, in the caller's
   * organisation, named after the email's local part, with a temporary
   * password (`hash` is its digest) that must be changed, and the granted
   * custom permissions.
   */
  function ClientAccount(id: Id, caller: Account, req: ClientCreate, hash: string, keys: seq<Id>, now: Moment)
    : (r: Account)
    ensures r.id == id && r.email == req.email && r.username == Some(LocalPart(req.email))
    ensures r.organizationId == caller.organizationId && r.roleId == req.roleId && r.passwordHash == hash
    ensures r.status == ACTIVE && !r.emailVerified && r.mustChangePassword && r.passwordChangedAt == Some(now)
    ensures r.useCustomPermissions == req.useCustomPermissions && r.customPermissionIds == keys
  {
    NewAccount(id, caller.organizationId, req.email, Some(LocalPart(req.email)), hash, req.firstName, req.lastName,
               req.roleId, ACTIVE, now)
      .(mustChangePassword := true, passwordChangedAt := Some(now), useCustomPermissions := req.useCustomPermissions,
        customPermissionIds := keys)
  }

  /** The client row: active, admitted on the given date or today, linked to the account. */
  function ClientRow(id: Id, org: Id, cid: string, account: Id, req: ClientCreate, now: Moment): (r: Client)
    ensures r.id == id && r.organizationId == org && r.clientId == cid && r.userId == Some(account)
    ensures r.status == STATUS_ACTIVE && r.dischargeDate.None?
    ensures r.admissionDate == if req.admissionDate.Some? then req.admissionDate.value else now.date
    ensures r.firstName == req.firstName && r.lastName == req.lastName && r.gender == req.gender
  {
    Client(id, org, cid, Some(account), req.firstName, req.lastName, req.preferredName, req.dateOfBirth, req.gender,
           STATUS_ACTIVE, if req.admissionDate.Some? then req.admissionDate.value else now.date, None,
           req.primaryDiagnosis)
  }

  /** Some client of any organisation carries the number (the column is unique across the table). */
  predicate NumberTaken(clients: seq<Client>, cid: string)
  {
    exists k :: 0 <= k < |clients| && clients[k].clientId == cid
  }

  /**
   * `create_client` as a decision, given the generated number `cid`: the
   * checks, then the two flushes, which fail (500) when the account's
   * username is taken, when the caller has no organisation for the client
   * row, or when a client of another organisation holds the number.
   * Otherwise the account and the client row.
   */
  function ClientCreation(users: seq<Account>, clients: seq<Client>, roles: seq<Role>, perms: seq<Permission>,
                          caller: Account, req: ClientCreate, hash: string, cid: string, now: Moment)
    : (r: Result<(Account, Client)>)
    ensures ClientChecks(users, roles, perms, req).Err?
            ==> r == Err(ClientChecks(users, roles, perms, req).status, ClientChecks(users, roles, perms, req).detail)
    ensures r.Ok? <==> ClientChecks(users, roles, perms, req).Ok? && !UsersApi.UsernameHeld(users, LocalPart(req.email))
                       && caller.organizationId.Some? && !NumberTaken(clients, cid)
    ensures r.Ok? ==> var account := ClientAccount(IdentityDb.FreshKey(users, IdentityDb.AccountIdOf), caller, req,
                                                   hash, ClientChecks(users, roles, perms, req).value, now);
                      r.value == (account, ClientRow(IdentityDb.FreshKey(clients, IdentityDb.ClientIdOf),
                                                     caller.organizationId.value, cid, account.id, req, now))
    ensures r.Err? && ClientChecks(users, roles, perms, req).Ok? ==> r == Err(INTERNAL_ERROR, UNHANDLED)
  {
    var checks := ClientChecks(users, roles, perms, req);
    if checks.Err? then Err(checks.status, checks.detail)
    else if UsersApi.UsernameQuery(users, LocalPart(req.email)) then Err(INTERNAL_ERROR, UNHANDLED)
    else if caller.organizationId.None? then Err(INTERNAL_ERROR, UNHANDLED)
    else if FirstMatch(clients, (c: Client) => c.clientId == cid).Some? then Err(INTERNAL_ERROR, UNHANDLED)
    else
      assert forall k :: 0 <= k < |clients| ==> clients[k].clientId != cid;
      var account := ClientAccount(IdentityDb.FreshKey(users, IdentityDb.AccountIdOf), caller, req, hash, checks.value,
                                   now);
      Ok((account, ClientRow(IdentityDb.FreshKey(clients, IdentityDb.ClientIdOf), caller.organizationId.value, cid,
                             account.id, req, now)))
  }

  /**
   * `create_client`: the checks, the account, a client number from the
   * random source (`draws` must hold an unused one), and the client row.
   * `hash` is the digest of the temporary password; mailing the
   * credentials is not part of the model.
   */
  method CreateClient(d: IdentityDb.Directory, caller: Account, req: ClientCreate, hash: string,
                      draws: seq<ClientNumber>, now: Moment) returns (r: Result<Client>)
    requires FirstUnused(d.clients, caller.organizationId, draws).Some?
    modifies d`users, d`clients
    ensures match ClientCreation(old(d.users), old(d.clients), d.roles, d.permissions, caller, req, hash,
                                 FirstUnused(old(d.clients), caller.organizationId, draws).value, now)
            case Err(status, detail) => r == Err(status, detail) && d.users == old(d.users) && d.clients == old(d.clients)
            case Ok(rows) => d.users == old(d.users) + [rows.0] && d.clients == old(d.clients) + [rows.1] && r == Ok(rows.1)
  {
    var cid := GenerateClientId(d, caller.organizationId, draws);
    var creation := ClientCreation(d.users, d.clients, d.roles, d.permissions, caller, req, hash, cid.value, now);
    if creation.Err? {
      return Err(creation.status, creation.detail);
    }
    d.users := d.users + [creation.value.0];
    d.clients := d.clients + [creation.value.1];
    r := Ok(creation.value.1);
  }

  /**
   * A created client is active in the caller's organisation, carries a
   * number no other client holds and the key of its new account, which
   * has the request's email, is unverified and must change its password;
   * the custom permissions are exactly the requested keys when asked for
   * and none otherwise. Emails and client numbers stay unique.
   */
  lemma CreatedClientIsLinked(users: seq<Account>, clients: seq<Client>, roles: seq<Role>, perms: seq<Permission>,
                              caller: Account, req: ClientCreate, hash: string, draws: seq<ClientNumber>, now: Moment)
    requires UsersApi.EmailsUnique(users) && ClientIdsUnique(clients) && PermissionKeysUnique(perms)
    requires FirstUnused(clients, caller.organizationId, draws).Some?
    requires ClientCreation(users, clients, roles, perms, caller, req, hash,
                            FirstUnused(clients, caller.organizationId, draws).value, now).Ok?
    ensures var rows := ClientCreation(users, clients, roles, perms, caller, req, hash,
                                       FirstUnused(clients, caller.organizationId, draws).value, now).value;
            var account := rows.0;
            var client := rows.1;
            client.userId == Some(account.id) && Some(client.organizationId) == caller.organizationId
            && client.status == STATUS_ACTIVE && account.email == req.email && account.mustChangePassword
            && !account.emailVerified
            && (AsksCustom(req.useCustomPermissions, req.customPermissionIds)
                ==> KeySet(account.customPermissionIds) == KeySet(req.customPermissionIds.value))
            && (!AsksCustom(req.useCustomPermissions, req.customPermissionIds) ==> account.customPermissionIds == [])
            && UsersApi.EmailsUnique(users + [account]) && ClientIdsUnique(clients + [client])
  {
    var cid := FirstUnused(clients, caller.organizationId, draws).value;
    var rows := ClientCreation(users, clients, roles, perms, caller, req, hash, cid, now).value;
    if AsksCustom(req.useCustomPermissions, req.customPermissionIds) {
      RolesApi.GrantedKeysAreTheRequested(perms, req.customPermissionIds.value);
    }
    var after := users + [rows.0];
    forall a, b | 0 <= a < b < |after| ensures after[a].email != after[b].email {
      if b == |users| {
        assert after[a] == users[a];
      }
    }
    var table := clients + [rows.1];
    forall a, b | 0 <= a < b < |table| ensures table[a].clientId != table[b].clientId {
      if b == |clients| {
        assert table[a] == clients[a];
      }
    }
  }

  /**
   * The account's username is the email's local part, so a client whose
   * email shares it with an existing username cannot be created: the
   * flush fails (500) even though the email itself is new.
   */
  lemma SharedLocalPartFailsCreation(users: seq<Account>, clients: seq<Client>, roles: seq<Role>,
                                     perms: seq<Permission>, caller: Account, req: ClientCreate, hash: string,
                                     cid: string, now: Moment, k: nat)
    requires ClientChecks(users, roles, perms, req).Ok?
    requires k < |users| && users[k].username == Some(LocalPart(req.email))
    ensures ClientCreation(users, clients, roles, perms, caller, req, hash, cid, now) == Err(INTERNAL_ERROR, UNHANDLED)
  {
  }

  // ---------------------------------------------------------------------
  // List and read
  // ---------------------------------------------------------------------

  /** Client `id` has a current placement at `location`. */
  predicate PlacedAt(assignments: seq<ClientAssignment>, id: Id, location: Id)
  {
    exists k :: 0 <= k < |assignments| && assignments[k].clientId == id && assignments[k].locationId == location
                && assignments[k].isCurrent
  }

  /**
   * The clients `list_clients` selects: the caller's organisation, then
   * the search over first name, last name and client number, the status
   * and the current location.
   */
  predicate Listed(assignments: seq<ClientAssignment>, caller: Account, search: Option<string>,
                   status: Option<string>, location: Option<Id>, c: Client)
  {
    Some(c.organizationId) == caller.organizationId
    && (!Truthy(search) || ILike(c.firstName, search.value) || ILike(c.lastName, search.value)
        || ILike(c.clientId, search.value))
    && (!Truthy(status) || c.status == status.value)
    && (location.None? || PlacedAt(assignments, c.id, location.value))
  }

  function ListedBy(assignments: seq<ClientAssignment>, caller: Account, search: Option<string>,
                    status: Option<string>, location: Option<Id>): Client -> bool
  {
    (c: Client) => Listed(assignments, caller, search, status, location, c)
  }

  /** `ClientListResponse`. */
  datatype ClientPage = ClientPage(items: seq<Client>, total: nat, page: nat, pageSize: nat, pages: nat)

  /** `list_clients`: the selected clients in table order, page `page` of `pageSize`. */
  function ListClients(clients: seq<Client>, assignments: seq<ClientAssignment>, caller: Account,
                       search: Option<string>, status: Option<string>, location: Option<Id>, page: nat,
                       pageSize: nat): (r: ClientPage)
    requires page >= 1 && 1 <= pageSize <= 100
    ensures r.page == page && r.pageSize == pageSize && |r.items| <= pageSize
    ensures r.total == Count(clients, ListedBy(assignments, caller, search, status, location))
    ensures r.pages * pageSize >= r.total && (r.pages == 0 || (r.pages - 1) * pageSize < r.total)
    ensures forall k :: 0 <= k < |r.items| ==> r.items[k] in clients
                                               && Listed(assignments, caller, search, status, location, r.items[k])
  {
    var chosen := Filter(clients, ListedBy(assignments, caller, search, status, location));
    var items := Window(chosen, (page - 1) * pageSize, pageSize);
    assert forall k :: 0 <= k < |items| ==> items[k] in chosen;
    ClientPage(items, |chosen|, page, pageSize, PageCount(|chosen|, pageSize))
  }

  /** Multiplying by a natural number keeps the order. */
  lemma MulMonotone(a: nat, b: nat, c: nat)
    requires a <= b
    ensures a * c <= b * c
  {
  }

  /**
   * The pages cut the selection into consecutive runs: the selected
   * client at position `k` is item `k % pageSize` of page
   * `k / pageSize + 1`, which is one of the counted pages.
   */
  lemma PagesCoverTheSelection(clients: seq<Client>, assignments: seq<ClientAssignment>, caller: Account,
                               search: Option<string>, status: Option<string>, location: Option<Id>, pageSize: nat,
                               k: nat)
    requires 1 <= pageSize <= 100
    requires k < Count(clients, ListedBy(assignments, caller, search, status, location))
    ensures var page := ListClients(clients, assignments, caller, search, status, location, k / pageSize + 1, pageSize);
            k / pageSize + 1 <= page.pages && k % pageSize < |page.items|
            && page.items[k % pageSize] == Filter(clients, ListedBy(assignments, caller, search, status, location))[k]
  {
    var chosen := Filter(clients, ListedBy(assignments, caller, search, status, location));
    WindowHoldsPosition(chosen, pageSize, k);
    var q := k / pageSize;
    var pages := PageCount(|chosen|, pageSize);
    if pages <= q {
      MulMonotone(pages, q, pageSize);
    }
  }

  /** The window of `size` starting at `k`'s page boundary holds `xs[k]` at `k % size`. */
  lemma WindowHoldsPosition<T>(xs: seq<T>, size: nat, k: nat)
    requires size >= 1 && k < |xs|
    ensures k % size < |Window(xs, (k / size) * size, size)|
    ensures Window(xs, (k / size) * size, size)[k % size] == xs[k]
  {
    var skip := (k / size) * size;
    assert skip + k % size == k;
  }

  /** A page past the last counted one is empty. */
  lemma NoItemsPastTheLastPage(clients: seq<Client>, assignments: seq<ClientAssignment>, caller: Account,
                               search: Option<string>, status: Option<string>, location: Option<Id>, pageSize: nat,
                               later: nat)
    requires 1 <= pageSize <= 100
    requires later > ListClients(clients, assignments, caller, search, status, location, 1, pageSize).pages
    ensures ListClients(clients, assignments, caller, search, status, location, later, pageSize).items == []
  {
    var chosen := Filter(clients, ListedBy(assignments, caller, search, status, location));
    var pages := PageCount(|chosen|, pageSize);
    MulMonotone(pages, later - 1, pageSize);
  }

  /** The row of `clients` with key `id` in organisation `org`. */
  function ClientAt(clients: seq<Client>, id: Id, org: Option<Id>): (r: Option<nat>)
    ensures r.Some? ==> r.value < |clients| && clients[r.value].id == id && Some(clients[r.value].organizationId) == org
    ensures r.None? <==> !ClientInOrg(clients, id, org)
  {
    var i := FirstMatch(clients, ClientMatch(id, org));
    if i.Some? then i
    else
      assert forall k :: 0 <= k < |clients| ==> !ClientMatch(id, org)(clients[k]);
      None
  }

  /** `get_client`: the client of the caller's organisation with that key, else 404. */
  function GetClient(clients: seq<Client>, caller: Account, id: Id): (r: Result<Client>)
    ensures r.Ok? <==> ClientInOrg(clients, id, caller.organizationId)
    ensures r.Ok? ==> r.value in clients && r.value.id == id && Some(r.value.organizationId) == caller.organizationId
    ensures r.Err? ==> r == Err(NOT_FOUND, CLIENT_NOT_FOUND)
  {
    var i := ClientAt(clients, id, caller.organizationId);
    if i.None? then Err(NOT_FOUND, CLIENT_NOT_FOUND) else Ok(clients[i.value])
  }

  // ---------------------------------------------------------------------
  // Soft delete, discharge, readmit
  // ---------------------------------------------------------------------

  /** `client.user`: the position of the linked account, if the client has one. */
  function LinkedAccount(users: seq<Account>, c: Client): (r: Option<nat>)
    ensures r.Some? ==> r.value < |users| && Some(users[r.value].id) == c.userId
    ensures r.None? <==> c.userId.None? || FindAccount(users, c.userId.value).None?
  {
    if c.userId.None? then None else IdentityDb.AccountIndex(users, c.userId.value)
  }

  /** The accounts with the linked one, if any, set to `status`. */
  function WithLinkedStatus(users: seq<Account>, c: Client, status: UserStatus): (r: seq<Account>)
    ensures |r| == |users|
    ensures forall k :: 0 <= k < |users| ==> r[k] == if Some(k) == LinkedAccount(users, c) then users[k].(status := status)
                                                                                                 else users[k]
  {
    var j := LinkedAccount(users, c);
    if j.None? then users else users[j.value := users[j.value].(status := status)]
  }

  /** `delete_client`: the client becomes inactive and so does its account; nothing is removed. */
  method DeleteClient(d: IdentityDb.Directory, caller: Account, id: Id) returns (r: Result<()>)
    modifies d`clients, d`users
    ensures match ClientAt(old(d.clients), id, caller.organizationId)
            case None => r == Err(NOT_FOUND, CLIENT_NOT_FOUND) && d.clients == old(d.clients) && d.users == old(d.users)
            case Some(i) =>
              r == Ok(()) && d.clients == old(d.clients)[i := old(d.clients)[i].(status := STATUS_INACTIVE)]
              && d.users == WithLinkedStatus(old(d.users), old(d.clients)[i], INACTIVE)
  {
    var i := ClientAt(d.clients, id, caller.organizationId);
    if i.None? {
      return Err(NOT_FOUND, CLIENT_NOT_FOUND);
    }
    var c := d.clients[i.value];
    d.clients := d.clients[i.value := c.(status := STATUS_INACTIVE)];
    d.users := WithLinkedStatus(d.users, c, INACTIVE);
    r := Ok(());
  }

  /** A placement of client `id` that is current ends on `day`; any other row stays as it is. */
  function EndPlacement(id: Id, day: Day): ClientAssignment -> ClientAssignment
  {
    (a: ClientAssignment) => if a.clientId == id && a.isCurrent then a.(isCurrent := false, endDate := Some(day)) else a
  }

  /** The placements after a discharge of client `id` on `day`. */
  function Ended(assignments: seq<ClientAssignment>, id: Id, day: Day): (r: seq<ClientAssignment>)
    ensures |r| == |assignments|
  {
    MapSeq(assignments, EndPlacement(id, day))
  }

  /** `discharge_date or datetime.utcnow().date()`. */
  function DayOr(given: Option<Day>, now: Moment): Day
  {
    if given.Some? then given.value else now.date
  }

  /**
   * `discharge_client`: the client is discharged on the given day (today
   * by default) and each of its current placements ends that day.
   */
  method DischargeClient(d: IdentityDb.Directory, caller: Account, id: Id, date: Option<Day>, now: Moment)
    returns (r: Result<Client>)
    modifies d`clients, d`assignments
    ensures match ClientAt(old(d.clients), id, caller.organizationId)
            case None =>
              r == Err(NOT_FOUND, CLIENT_NOT_FOUND) && d.clients == old(d.clients) && d.assignments == old(d.assignments)
            case Some(i) =>
              var c := old(d.clients)[i].(status := STATUS_DISCHARGED, dischargeDate := Some(DayOr(date, now)));
              r == Ok(c) && d.clients == old(d.clients)[i := c]
              && d.assignments == Ended(old(d.assignments), id, DayOr(date, now))
  {
    var i := ClientAt(d.clients, id, caller.organizationId);
    if i.None? {
      return Err(NOT_FOUND, CLIENT_NOT_FOUND);
    }
    var day := DayOr(date, now);
    var c := d.clients[i.value].(status := STATUS_DISCHARGED, dischargeDate := Some(day));
    d.clients := d.clients[i.value := c];
    var k := 0;
    while k < |d.assignments|
      invariant 0 <= k <= |d.assignments| == |old(d.assignments)|
      invariant forall m :: 0 <= m < k ==> d.assignments[m] == EndPlacement(id, day)(old(d.assignments)[m])
      invariant forall m :: k <= m < |d.assignments| ==> d.assignments[m] == old(d.assignments)[m]
      invariant d.clients == old(d.clients)[i.value := c]
    {
      var a := d.assignments[k];
      if a.clientId == id && a.isCurrent {
        d.assignments := d.assignments[k := a.(isCurrent := false, endDate := Some(day))];
      }
      k := k + 1;
    }
    assert d.assignments == Ended(old(d.assignments), id, day);
    r := Ok(c);
  }

  /**
   * After a discharge the client has no current placement, every ended
   * placement ends on the discharge day, and the placements of every
   * other client are as they were.
   */
  lemma DischargeEndsEveryPlacement(assignments: seq<ClientAssignment>, id: Id, day: Day, location: Id)
    ensures !PlacedAt(Ended(assignments, id, day), id, location)
    ensures forall k :: 0 <= k < |assignments| && assignments[k].clientId == id && assignments[k].isCurrent
                        ==> Ended(assignments, id, day)[k].endDate == Some(day)
    ensures forall k :: 0 <= k < |assignments| && (assignments[k].clientId != id || !assignments[k].isCurrent)
                        ==> Ended(assignments, id, day)[k] == assignments[k]
  {
    var after := Ended(assignments, id, day);
    forall k | 0 <= k < |after| && after[k].clientId == id ensures !after[k].isCurrent {
      assert after[k] == EndPlacement(id, day)(assignments[k]);
    }
  }

  /** `readmit_client` as a decision: 404 outside the organisation, 400 unless discharged. */
  function Readmission(clients: seq<Client>, caller: Account, id: Id): (r: Result<nat>)
    ensures r.Ok? <==> ClientInOrg(clients, id, caller.organizationId)
                       && clients[ClientAt(clients, id, caller.organizationId).value].status == STATUS_DISCHARGED
    ensures r.Ok? ==> Some(r.value) == ClientAt(clients, id, caller.organizationId)
    ensures !ClientInOrg(clients, id, caller.organizationId) ==> r == Err(NOT_FOUND, CLIENT_NOT_FOUND)
    ensures ClientInOrg(clients, id, caller.organizationId) && !r.Ok? ==> r == Err(BAD_REQUEST, NOT_DISCHARGED)
  {
    var i := ClientAt(clients, id, caller.organizationId);
    if i.None? then Err(NOT_FOUND, CLIENT_NOT_FOUND)
    else if clients[i.value].status != STATUS_DISCHARGED then Err(BAD_REQUEST, NOT_DISCHARGED)
    else Ok(i.value)
  }

  /** The client readmitted on `day`: active, and no discharge date. */
  function Readmitted(c: Client, day: Day): (r: Client)
    ensures r.status == STATUS_ACTIVE && r.admissionDate == day && r.dischargeDate.None?
    ensures r.(status := c.status, admissionDate := c.admissionDate, dischargeDate := c.dischargeDate) == c
  {
    c.(status := STATUS_ACTIVE, admissionDate := day, dischargeDate := None)
  }

  /**
   * `readmit_client`: a discharged client becomes active again, admitted on
   * the given day (today by default), and its account becomes active.
   */
  method ReadmitClient(d: IdentityDb.Directory, caller: Account, id: Id, date: Option<Day>, now: Moment)
    returns (r: Result<Client>)
    modifies d`clients, d`users
    ensures match Readmission(old(d.clients), caller, id)
            case Err(status, detail) =>
              r == Err(status, detail) && d.clients == old(d.clients) && d.users == old(d.users)
            case Ok(i) =>
              var c := Readmitted(old(d.clients)[i], DayOr(date, now));
              r == Ok(c) && d.clients == old(d.clients)[i := c] && d.users == WithLinkedStatus(old(d.users), c, ACTIVE)
  {
    var i := Readmission(d.clients, caller, id);
    if i.Err? {
      return Err(i.status, i.detail);
    }
    var c := Readmitted(d.clients[i.value], DayOr(date, now));
    d.clients := d.clients[i.value := c];
    d.users := WithLinkedStatus(d.users, c, ACTIVE);
    r := Ok(c);
  }

  /**
   * Discharge then readmission: the client is active again with no
   * discharge date, a second readmission is refused (400), and the
   * placements the discharge ended stay ended.
   */
  lemma ReadmissionFollowsDischarge(clients: seq<Client>, assignments: seq<ClientAssignment>, caller: Account, id: Id,
                                    off: Day, back: Day, location: Id)
    requires ClientInOrg(clients, id, caller.organizationId)
    ensures var i := ClientAt(clients, id, caller.organizationId).value;
            var discharged := clients[i := clients[i].(status := STATUS_DISCHARGED, dischargeDate := Some(off))];
            Readmission(discharged, caller, id) == Ok(i)
            && var readmitted := discharged[i := Readmitted(discharged[i], back)];
               readmitted[i].status == STATUS_ACTIVE && readmitted[i].dischargeDate.None?
               && Readmission(readmitted, caller, id) == Err(BAD_REQUEST, NOT_DISCHARGED)
               && !PlacedAt(Ended(assignments, id, off), id, location)
  {
    var i := ClientAt(clients, id, caller.organizationId).value;
    var discharged := clients[i := clients[i].(status := STATUS_DISCHARGED, dischargeDate := Some(off))];
    assert forall k :: 0 <= k < i ==> discharged[k] == clients[k];
    var readmitted := discharged[i := Readmitted(discharged[i], back)];
    assert forall k :: 0 <= k < i ==> readmitted[k] == clients[k];
    DischargeEndsEveryPlacement(assignments, id, off, location);
  }

  // ---------------------------------------------------------------------
  // Role and custom permissions of the client's account
  // ---------------------------------------------------------------------

  /** `ClientPermissionUpdate`. */
  datatype ClientPermissionUpdate = ClientPermissionUpdate(roleId: Option<Id>, customPermissionIds: Option<seq<Id>>,
                                                           useCustomPermissions: bool)

  /** The account after the update: the role if one is named, the flag, the granted keys, the stamp. */
  function WithPermissions(u: Account, upd: ClientPermissionUpdate, keys: seq<Id>, now: Moment): (r: Account)
    ensures r.roleId == (if upd.roleId.Some? then upd.roleId else u.roleId)
    ensures r.useCustomPermissions == upd.useCustomPermissions && r.customPermissionIds == keys
    ensures r.updatedAt == Some(now) && r.id == u.id && r.status == u.status && r.organizationId == u.organizationId
  {
    u.(roleId := if upd.roleId.Some? then upd.roleId else u.roleId, useCustomPermissions := upd.useCustomPermissions,
       customPermissionIds := keys, updatedAt := Some(now))
  }

  /**
   * `update_client_permissions` as a decision: 404 for a client outside the
   * organisation, 400 without an account, 404 for a named role that does
   * not exist, 400 for custom keys that do not all resolve; otherwise the
   * account's position and its new state. A failure changes nothing, the
   * role included.
   */
  function PermissionChange(clients: seq<Client>, users: seq<Account>, roles: seq<Role>, perms: seq<Permission>,
                            caller: Account, id: Id, upd: ClientPermissionUpdate, now: Moment)
    : (r: Result<(nat, Account)>)
    ensures r.Ok? <==> ClientInOrg(clients, id, caller.organizationId)
                       && LinkedAccount(users, clients[ClientAt(clients, id, caller.organizationId).value]).Some?
                       && (upd.roleId.None? || UsersApi.HasRole(roles, upd.roleId.value))
                       && RequestedKeys(perms, upd.useCustomPermissions, upd.customPermissionIds).Ok?
    ensures !ClientInOrg(clients, id, caller.organizationId) ==> r == Err(NOT_FOUND, CLIENT_NOT_FOUND)
    ensures r.Ok? ==> var j := LinkedAccount(users, clients[ClientAt(clients, id, caller.organizationId).value]).value;
                      r.value == (j, WithPermissions(users[j], upd,
                                                     RequestedKeys(perms, upd.useCustomPermissions,
                                                                   upd.customPermissionIds).value, now))
  {
    var i := ClientAt(clients, id, caller.organizationId);
    if i.None? then Err(NOT_FOUND, CLIENT_NOT_FOUND)
    else
      var j := LinkedAccount(users, clients[i.value]);
      if j.None? then Err(BAD_REQUEST, NO_ACCOUNT)
      else if upd.roleId.Some? && !UsersApi.RoleQuery(roles, upd.roleId.value) then Err(NOT_FOUND, ROLE_NOT_FOUND)
      else
        var keys := RequestedKeys(perms, upd.useCustomPermissions, upd.customPermissionIds);
        if keys.Err? then Err(keys.status, keys.detail)
        else Ok((j.value, WithPermissions(users[j.value], upd, keys.value, now)))
  }

  function PermissionsUpdated(c: Client): string
  {
    "Permissions updated successfully for " + FullName(c)
  }

  /** `update_client_permissions`: the decision applied to the account. */
  method UpdateClientPermissions(d: IdentityDb.Directory, caller: Account, id: Id, upd: ClientPermissionUpdate,
                                 now: Moment) returns (r: Result<string>)
    modifies d`users
    ensures match PermissionChange(d.clients, old(d.users), d.roles, d.permissions, caller, id, upd, now)
            case Err(status, detail) => r == Err(status, detail) && d.users == old(d.users)
            case Ok(change) =>
              d.users == old(d.users)[change.0 := change.1]
              && r == Ok(PermissionsUpdated(d.clients[ClientAt(d.clients, id, caller.organizationId).value]))
  {
    var change := PermissionChange(d.clients, d.users, d.roles, d.permissions, caller, id, upd, now);
    if change.Err? {
      return Err(change.status, change.detail);
    }
    d.users := d.users[change.value.0 := change.value.1];
    r := Ok(PermissionsUpdated(d.clients[ClientAt(d.clients, id, caller.organizationId).value]));
  }

  /**
   * After an accepted update the account uses custom permissions exactly
   * when the flag says so; with the flag on and a list given, it holds
   * exactly the listed keys, once each; otherwise it holds none. The
   * update is accepted with a list only when the keys are distinct and all
   * resolve.
   */
  lemma PermissionUpdateGrantsTheRequested(clients: seq<Client>, users: seq<Account>, roles: seq<Role>,
                                           perms: seq<Permission>, caller: Account, id: Id,
                                           upd: ClientPermissionUpdate, now: Moment)
    requires PermissionKeysUnique(perms)
    requires PermissionChange(clients, users, roles, perms, caller, id, upd, now).Ok?
    ensures var u := PermissionChange(clients, users, roles, perms, caller, id, upd, now).value.1;
            u.useCustomPermissions == upd.useCustomPermissions
            && (AsksCustom(upd.useCustomPermissions, upd.customPermissionIds)
                ==> Distinct(u.customPermissionIds) && KeySet(u.customPermissionIds) == KeySet(upd.customPermissionIds.value)
                    && (upd.customPermissionIds.value == []
                        || (Distinct(upd.customPermissionIds.value) && AllResolve(perms, upd.customPermissionIds.value))))
            && (!AsksCustom(upd.useCustomPermissions, upd.customPermissionIds) ==> u.customPermissionIds == [])
  {
    if AsksCustom(upd.useCustomPermissions, upd.customPermissionIds) {
      RolesApi.GrantedKeysAreTheRequested(perms, upd.customPermissionIds.value);
    }
  }

  /**
   * The role named in the update may be any role of any organisation, a
   * system role among them: the check only asks that it exist.
   */
  lemma AnyExistingRoleIsAccepted(clients: seq<Client>, users: seq<Account>, roles: seq<Role>, perms: seq<Permission>,
                                  caller: Account, id: Id, k: nat, now: Moment)
    requires ClientInOrg(clients, id, caller.organizationId)
    requires LinkedAccount(users, clients[ClientAt(clients, id, caller.organizationId).value]).Some?
    requires k < |roles|
    ensures var upd := ClientPermissionUpdate(Some(roles[k].id), None, false);
            PermissionChange(clients, users, roles, perms, caller, id, upd, now).Ok?
            && PermissionChange(clients, users, roles, perms, caller, id, upd, now).value.1.roleId == Some(roles[k].id)
  {
  }
}
