/**
 * The identity tables: organisations, user accounts, roles, the permission
 * catalog, login sessions, the authentication audit trail and the password
 * history, with the settings the authentication handlers read.
 *
 * Timestamps are `Moment`s (UTC, whole seconds). Roles hold the keys of
 * their permissions (the `role_permissions` association) and accounts the
 * keys of their custom permissions (the `user_permissions` association).
 */
module IdentityModel {
  import opened Common

  // ---------------------------------------------------------------------
  // Settings
  // ---------------------------------------------------------------------

  const ACCESS_TOKEN_EXPIRE_MINUTES: int := 30
  const REFRESH_TOKEN_EXPIRE_DAYS: int := 7
  const PASSWORD_MIN_LENGTH: int := 8
  const PASSWORD_RESET_TOKEN_EXPIRE_HOURS: int := 48
  const EMAIL_VERIFICATION_TOKEN_EXPIRE_HOURS: int := 48
  const MAX_LOGIN_ATTEMPTS: int := 5
  const LOCKOUT_DURATION_MINUTES: int := 30
  const SESSION_EXPIRE_MINUTES: int := 30
  const REMEMBER_ME_DAYS: int := 30
  const OTP_EXPIRE_MINUTES: int := 10
  const OTP_LENGTH: nat := 6

  const MINUTE: int := 60
  const HOUR: int := 3600
  const DAY: int := 86400

  // ---------------------------------------------------------------------
  // Rows
  // ---------------------------------------------------------------------

  datatype UserStatus = ACTIVE | INACTIVE | SUSPENDED | PENDING

  /** The stored value of a status (`status.value`). */
  function StatusValue(s: UserStatus): (r: string)
    ensures r != []
  {
    match s
    case ACTIVE => "active"
    case INACTIVE => "inactive"
    case SUSPENDED => "suspended"
    case PENDING => "pending"
  }

  /** `str(status)` of the enum member, as an f-string prints it without `.value`. */
  function StatusName(s: UserStatus): (r: string)
  {
    match s
    case ACTIVE => "UserStatus.ACTIVE"
    case INACTIVE => "UserStatus.INACTIVE"
    case SUSPENDED => "UserStatus.SUSPENDED"
    case PENDING => "UserStatus.PENDING"
  }

  datatype Organization = Organization(id: Id, name: string, subdomain: string, contactEmail: string,
                                       timezone: string, isActive: bool)

  /** A row of `users`. */
  datatype Account = Account(
    id: Id,
    organizationId: Option<Id>,
    email: string,
    username: Option<string>,
    passwordHash: string,
    firstName: string,
    lastName: string,
    roleId: Option<Id>,
    status: UserStatus,
    lastLogin: Option<Moment>,
    resetToken: Option<string>,
    resetExpires: Option<Moment>,
    emailVerified: bool,
    otpHash: Option<string>,
    otpExpires: Option<Moment>,
    failedAttempts: int,
    lockoutUntil: Option<Moment>,
    mustChangePassword: bool,
    passwordChangedAt: Option<Moment>,
    useCustomPermissions: bool,
    customPermissionIds: seq<Id>,
    updatedAt: Option<Moment>)

  /** `User.full_name`. */
  function AccountName(u: Account): string
  {
    u.firstName + " " + u.lastName
  }

  datatype Role = Role(id: Id, organizationId: Option<Id>, name: string, description: Option<string>,
                       isSystemRole: bool, permissionIds: seq<Id>, updatedAt: Option<Moment>)

  datatype Permission = Permission(id: Id, resource: string, action: string, description: Option<string>)

  datatype UserSession = UserSession(id: Id, userId: Id, token: string, refreshToken: string,
                                     ipAddress: Option<string>, userAgent: Option<string>, rememberMe: bool,
                                     expiresAt: Moment, revokedAt: Option<Moment>)

  /**
   * A row of `auth_audit_logs`. Its `meta_data` column is never written:
   * the handlers pass `metadata=`, which the declarative constructor sets
   * as a plain attribute (the class's `metadata` registry exists), so the
   * value never reaches the table.
   */
  datatype AuthEvent = AuthEvent(id: Id, userId: Option<Id>, action: string, ipAddress: Option<string>,
                                 userAgent: Option<string>, success: bool, errorMessage: Option<string>)

  datatype PasswordHistory = PasswordHistory(id: Id, userId: Id, passwordHash: string, createdAt: Moment)

  /** Where a request came from: `request.client.host` and the `User-Agent` header. */
  datatype Origin = Origin(host: Option<string>, userAgent: Option<string>)

  /** A new account with the column defaults of `User`. */
  function NewAccount(id: Id, org: Option<Id>, email: string, username: Option<string>, hash: string,
                      first: string, last: string, roleId: Option<Id>, status: UserStatus, now: Moment)
    : (r: Account)
    ensures r.id == id && r.email == email && r.username == username && r.status == status
    ensures r.organizationId == org && r.roleId == roleId && r.passwordHash == hash
    ensures !r.emailVerified && r.failedAttempts == 0 && r.lockoutUntil.None? && !r.mustChangePassword
    ensures !r.useCustomPermissions && r.customPermissionIds == [] && r.resetToken.None? && r.otpHash.None?
  {
    Account(id, org, email, username, hash, first, last, roleId, status, None, None, None, false, None, None,
            0, None, false, Some(now), false, [], Some(now))
  }

  // ---------------------------------------------------------------------
  // Lookups
  // ---------------------------------------------------------------------

  function AccountKey(id: Id): Account -> bool { (u: Account) => u.id == id }
  function RoleKey(id: Id): Role -> bool { (r: Role) => r.id == id }
  function EmailIs(email: string): Account -> bool { (u: Account) => u.email == email }

  /** `db.query(User).filter(User.id == id).first()`. */
  function FindAccount(users: seq<Account>, id: Id): (r: Option<Account>)
    ensures r.Some? <==> exists k :: 0 <= k < |users| && users[k].id == id
    ensures r.Some? ==> r.value in users && r.value.id == id
  {
    var i := FirstMatch(users, AccountKey(id));
    if i.None? then
      assert forall k :: 0 <= k < |users| ==> !AccountKey(id)(users[k]);
      None
    else Some(users[i.value])
  }

  /** No two accounts share a key. */
  predicate AccountKeysUnique(users: seq<Account>)
  {
    forall a, b :: 0 <= a < b < |users| ==> users[a].id != users[b].id
  }

  /** With unique keys, looking an account up by its own key finds that account. */
  lemma UniqueKeyFinds(users: seq<Account>, u: Account)
    requires u in users && AccountKeysUnique(users)
    ensures FindAccount(users, u.id) == Some(u)
  {
    var k :| 0 <= k < |users| && users[k] == u;
    var f := FindAccount(users, u.id).value;
    var m :| 0 <= m < |users| && users[m] == f;
    assert m == k;
  }

  /**
   * The key a subject names when compared with `User.id`: the text of a
   * key, or None when the text is not a key at all (the database then
   * refuses the comparison).
   */
  function ParseId(s: string): (r: Option<Id>)
    ensures r.Some? ==> forall k :: 0 <= k < |s| ==> IsDigit(s[k])
  {
    if s != [] && forall k :: 0 <= k < |s| ==> IsDigit(s[k]) then Some(DigitsValue(s)) else None
  }

  /** The text of a key reads back as that key. */
  lemma ParseIdText(id: Id)
    ensures ParseId(IdText(id)) == Some(id)
  {
    DigitsValueOfNatToString(id);
  }

  /** `db.query(User).filter(User.email == email).first()`. */
  function FindByEmail(users: seq<Account>, email: string): (r: Option<nat>)
    ensures r.Some? ==> r.value < |users| && users[r.value].email == email
    ensures r.Some? ==> forall k :: 0 <= k < r.value ==> users[k].email != email
    ensures r.None? <==> forall k :: 0 <= k < |users| ==> users[k].email != email
  {
    var i := FirstMatch(users, EmailIs(email));
    if i.Some? then
      assert forall k :: 0 <= k < i.value ==> !EmailIs(email)(users[k]);
      i
    else
      assert forall k :: 0 <= k < |users| ==> !EmailIs(email)(users[k]);
      None
  }

  /** `current_user.role`: the role row the account's `role_id` names, if any. */
  function RoleOf(roles: seq<Role>, u: Account): (r: Option<Role>)
    ensures r.Some? ==> u.roleId.Some? && r.value in roles && r.value.id == u.roleId.value
    ensures r.None? <==> u.roleId.None? || forall k :: 0 <= k < |roles| ==> roles[k].id != u.roleId.value
  {
    if u.roleId.None? then None
    else
      var i := FirstMatch(roles, RoleKey(u.roleId.value));
      if i.None? then
        assert forall k :: 0 <= k < |roles| ==> !RoleKey(u.roleId.value)(roles[k]);
        None
      else Some(roles[i.value])
  }

  function InIds(ids: seq<Id>): Permission -> bool { (p: Permission) => p.id in ids }

  /**
   * `Permission.id.in_(ids)`: the catalog rows whose key is among `ids`,
   * each once, in catalog order. It is also how a role's or an account's
   * permission relationship is loaded.
   */
  function Resolve(perms: seq<Permission>, ids: seq<Id>): (r: seq<Permission>)
    ensures forall k :: 0 <= k < |r| ==> r[k] in perms && r[k].id in ids
    ensures forall k :: 0 <= k < |perms| && perms[k].id in ids ==> perms[k] in r
  {
    Filter(perms, InIds(ids))
  }

  function PermissionIdOf(p: Permission): Id { p.id }

  /** The keys of permission rows. */
  function PermissionIds(ps: seq<Permission>): (r: seq<Id>)
    ensures |r| == |ps| && forall k :: 0 <= k < |ps| ==> r[k] == ps[k].id
  {
    MapSeq(ps, PermissionIdOf)
  }

  /** No two rows of the catalog share a key. */
  predicate PermissionKeysUnique(perms: seq<Permission>)
  {
    forall i, j :: 0 <= i < j < |perms| ==> perms[i].id != perms[j].id
  }

  /** No key appears twice in the list. */
  predicate Distinct(ids: seq<Id>)
  {
    forall i, j :: 0 <= i < j < |ids| ==> ids[i] != ids[j]
  }

  /** Every key of the list names a catalog row. */
  predicate AllResolve(perms: seq<Permission>, ids: seq<Id>)
  {
    forall k :: 0 <= k < |ids| ==> exists j :: 0 <= j < |perms| && perms[j].id == ids[k]
  }

  /** The set of keys a list holds. */
  function KeySet(ids: seq<Id>): (r: set<Id>)
    ensures forall x :: x in r <==> x in ids
  {
    if ids == [] then {} else {ids[0]} + KeySet(ids[1..])
  }

  /** A list whose head does not recur is distinct exactly when its tail is. */
  lemma DistinctCons(ids: seq<Id>)
    requires ids != [] && ids[0] !in ids[1..]
    ensures Distinct(ids) <==> Distinct(ids[1..])
  {
    var rest := ids[1..];
    if Distinct(rest) {
      forall i, j | 0 <= i < j < |ids| ensures ids[i] != ids[j] {
        if i == 0 {
          assert ids[j] == rest[j - 1];
        } else {
          assert ids[i] == rest[i - 1];
          assert ids[j] == rest[j - 1];
        }
      }
    }
  }

  /** A list holds at most as many keys as it is long, and exactly as many when no key repeats. */
  lemma {:induction false} KeySetSize(ids: seq<Id>)
    ensures |KeySet(ids)| <= |ids|
    ensures |KeySet(ids)| == |ids| <==> Distinct(ids)
  {
    if ids != [] {
      var rest := ids[1..];
      KeySetSize(rest);
      assert KeySet(ids) == {ids[0]} + KeySet(rest);
      if ids[0] in rest {
        assert KeySet(ids) == KeySet(rest);
        var j :| 0 <= j < |rest| && rest[j] == ids[0];
        assert ids[j + 1] == ids[0];
      } else {
        DistinctCons(ids);
      }
    }
  }

  /** Filtering a catalog with unique keys keeps the keys unique. */
  lemma {:induction false} FilterKeepsKeysUnique(perms: seq<Permission>, p: Permission -> bool)
    requires PermissionKeysUnique(perms)
    ensures PermissionKeysUnique(Filter(perms, p))
    decreases |perms|
  {
    if perms != [] {
      var rest := perms[1..];
      assert PermissionKeysUnique(rest) by {
        forall i, j | 0 <= i < j < |rest| ensures rest[i].id != rest[j].id {
          assert rest[i] == perms[i + 1] && rest[j] == perms[j + 1];
        }
      }
      FilterKeepsKeysUnique(rest, p);
      var tail := Filter(rest, p);
      forall k | 0 <= k < |tail| ensures tail[k].id != perms[0].id {
        var j :| 0 <= j < |rest| && rest[j] == tail[k];
        assert rest[j] == perms[j + 1];
      }
      var r := Filter(perms, p);
      if p(perms[0]) {
        assert r == [perms[0]] + tail;
        forall i, j | 0 <= i < j < |r| ensures r[i].id != r[j].id {
          if i == 0 { assert r[j] == tail[j - 1]; } else { assert r[i] == tail[i - 1] && r[j] == tail[j - 1]; }
        }
      } else {
        assert r == tail;
      }
    }
  }

  /** The set of keys of the catalog. */
  function CatalogKeys(perms: seq<Permission>): set<Id>
  {
    KeySet(PermissionIds(perms))
  }

  /** The keys of the resolved rows are distinct and are the requested keys the catalog holds. */
  lemma ResolvedKeys(perms: seq<Permission>, ids: seq<Id>)
    requires PermissionKeysUnique(perms)
    ensures Distinct(PermissionIds(Resolve(perms, ids)))
    ensures KeySet(PermissionIds(Resolve(perms, ids))) == KeySet(ids) * CatalogKeys(perms)
  {
    var rows := Resolve(perms, ids);
    var got := PermissionIds(rows);
    FilterKeepsKeysUnique(perms, InIds(ids));
    forall i, j | 0 <= i < j < |got| ensures got[i] != got[j] {
      assert got[i] == rows[i].id && got[j] == rows[j].id;
    }
    forall x ensures x in KeySet(got) <==> x in KeySet(ids) * CatalogKeys(perms) {
      if x in got {
        var k :| 0 <= k < |got| && got[k] == x;
        assert rows[k] in perms;
        var j :| 0 <= j < |perms| && perms[j] == rows[k];
        assert PermissionIds(perms)[j] == x;
      }
      if x in KeySet(ids) * CatalogKeys(perms) {
        var j :| 0 <= j < |perms| && PermissionIds(perms)[j] == x;
        assert perms[j] in rows;
        var k :| 0 <= k < |rows| && rows[k] == perms[j];
        assert got[k] == x;
      }
    }
  }

  /** Every requested key names a catalog row exactly when the requested set lies in the catalog's. */
  lemma AllResolveIffSubset(perms: seq<Permission>, ids: seq<Id>)
    ensures AllResolve(perms, ids) <==> KeySet(ids) <= CatalogKeys(perms)
  {
    if KeySet(ids) <= CatalogKeys(perms) {
      forall k | 0 <= k < |ids| ensures exists j :: 0 <= j < |perms| && perms[j].id == ids[k] {
        assert ids[k] in CatalogKeys(perms);
        var j :| 0 <= j < |perms| && PermissionIds(perms)[j] == ids[k];
      }
    }
    if AllResolve(perms, ids) {
      forall x | x in KeySet(ids) ensures x in CatalogKeys(perms) {
        var k :| 0 <= k < |ids| && ids[k] == x;
        var j :| 0 <= j < |perms| && perms[j].id == ids[k];
        assert PermissionIds(perms)[j] == x;
      }
    }
  }

  /** A part of a finite set as large as the set is the whole set. */
  lemma IntersectionAsLarge(a: set<Id>, b: set<Id>)
    ensures |a * b| <= |a|
    ensures |a * b| == |a| <==> a <= b
  {
    assert a == (a - b) + (a * b);
    assert (a - b) * (a * b) == {};
    assert |a - b| == |a| - |a * b|;
    if |a * b| == |a| {
      assert |a - b| == 0;
      assert a - b == {};
      forall x | x in a ensures x in b {
        assert x !in a - b;
      }
    }
  }

  /**
   * The handlers' test `len(rows) == len(ids)` after `Permission.id.in_(ids)`
   * holds exactly when the keys are pairwise distinct and all name catalog
   * rows: an unknown key and a repeated key both make it fail.
   */
  lemma ResolvesAll(perms: seq<Permission>, ids: seq<Id>)
    requires PermissionKeysUnique(perms)
    ensures |Resolve(perms, ids)| == |ids| <==> Distinct(ids) && AllResolve(perms, ids)
  {
    var got := PermissionIds(Resolve(perms, ids));
    ResolvedKeys(perms, ids);
    KeySetSize(got);
    KeySetSize(ids);
    AllResolveIffSubset(perms, ids);
    IntersectionAsLarge(KeySet(ids), CatalogKeys(perms));
    assert |got| == |Resolve(perms, ids)|;
  }
}
