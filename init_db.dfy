/**
 * The database initialisation script: the default organisation, the
 * permission catalog, the four built-in roles and the administrator
 * account, each fetched when present and created otherwise, so that a
 * second run changes nothing.
 *
 * Every insert is committed on its own; when a later step raises, what was
 * committed before it stays. Creating the tables is not modelled.
 */
module InitDb {
  import opened Common
  import opened IdentityModel
  import IdentityDb

  // ---------------------------------------------------------------------
  // Get or create, for a list of entries
  // ---------------------------------------------------------------------

  function KeyIs<T, K(==)>(rowKey: T -> K, k: K): T -> bool
  {
    (t: T) => rowKey(t) == k
  }

  /**
   * One entry: the first row whose key is the entry's, or a new row made
   * from the entry and appended; with the id of the row used.
   */
  function Fetch<T, E, K(==)>(rows: seq<T>, e: E, rowKey: T -> K, entryKey: E -> K, make: (seq<T>, E) -> T, id: T -> Id)
    : (r: (seq<T>, Id))
    ensures FirstMatch(rows, KeyIs(rowKey, entryKey(e))).Some? ==> r.0 == rows
    ensures FirstMatch(rows, KeyIs(rowKey, entryKey(e))).None? ==> r.0 == rows + [make(rows, e)]
  {
    var i := FirstMatch(rows, KeyIs(rowKey, entryKey(e)));
    if i.Some? then (rows, id(rows[i.value]))
    else (rows + [make(rows, e)], id(make(rows, e)))
  }

  /** The entries fetched or created one after the other, with the ids used, in entry order. */
  function GetOrCreate<T, E, K(==)>(rows: seq<T>, entries: seq<E>, rowKey: T -> K, entryKey: E -> K,
                                    make: (seq<T>, E) -> T, id: T -> Id)
    : (r: (seq<T>, seq<Id>))
    ensures |r.1| == |entries|
    decreases |entries|
  {
    if entries == [] then (rows, [])
    else
      var first := Fetch(rows, entries[0], rowKey, entryKey, make, id);
      var rest := GetOrCreate(first.0, entries[1..], rowKey, entryKey, make, id);
      (rest.0, [first.1] + rest.1)
  }

  /** The entries from position `i` on: the entry at `i`, then the rest over the rows it leaves. */
  lemma GetOrCreateStep<T, E, K>(rows: seq<T>, entries: seq<E>, i: nat, rowKey: T -> K, entryKey: E -> K,
                                 make: (seq<T>, E) -> T, id: T -> Id)
    requires i < |entries|
    ensures var f := Fetch(rows, entries[i], rowKey, entryKey, make, id);
            var rest := GetOrCreate(f.0, entries[i + 1..], rowKey, entryKey, make, id);
            GetOrCreate(rows, entries[i..], rowKey, entryKey, make, id) == (rest.0, [f.1] + rest.1)
  {
    assert entries[i..][0] == entries[i];
    assert entries[i..][1..] == entries[i + 1..];
  }

  /** Rows that were there stay, in place; only new rows are appended. */
  lemma {:induction false} GetOrCreateExtends<T, E, K>(rows: seq<T>, entries: seq<E>, rowKey: T -> K, entryKey: E -> K,
                                                          make: (seq<T>, E) -> T, id: T -> Id)
    ensures var r := GetOrCreate(rows, entries, rowKey, entryKey, make, id);
            |rows| <= |r.0| && r.0[..|rows|] == rows
    decreases |entries|
  {
    if entries != [] {
      var first := Fetch(rows, entries[0], rowKey, entryKey, make, id);
      GetOrCreateExtends(first.0, entries[1..], rowKey, entryKey, make, id);
      assert first.0[..|rows|] == rows;
    }
  }

  /** A first match in a table stays the first match once rows are appended. */
  lemma FirstMatchKept<T>(xs: seq<T>, ys: seq<T>, p: T -> bool)
    requires |xs| <= |ys| && ys[..|xs|] == xs && FirstMatch(xs, p).Some?
    ensures FirstMatch(ys, p) == FirstMatch(xs, p)
  {
    var i := FirstMatch(xs, p).value;
    assert ys[i] == xs[i];
    assert forall k :: 0 <= k < i ==> ys[k] == xs[k];
  }

  /**
   * Every entry ends up with a row of its key, and the id used for it is
   * that of the first such row.
   */
  lemma {:induction false} GetOrCreateCovers<T, E, K>(rows: seq<T>, entries: seq<E>, rowKey: T -> K, entryKey: E -> K,
                                                         make: (seq<T>, E) -> T, id: T -> Id, j: nat)
    requires forall rs: seq<T>, e: E :: rowKey(make(rs, e)) == entryKey(e)
    requires j < |entries|
    ensures var r := GetOrCreate(rows, entries, rowKey, entryKey, make, id);
            FirstMatch(r.0, KeyIs(rowKey, entryKey(entries[j]))).Some?
            && r.1[j] == id(r.0[FirstMatch(r.0, KeyIs(rowKey, entryKey(entries[j]))).value])
    decreases |entries|
  {
    var first := Fetch(rows, entries[0], rowKey, entryKey, make, id);
    var rest := GetOrCreate(first.0, entries[1..], rowKey, entryKey, make, id);
    if j == 0 {
      var p := KeyIs(rowKey, entryKey(entries[0]));
      if FirstMatch(rows, p).None? {
        var t := make(rows, entries[0]);
        assert p(first.0[|rows|]);
        assert forall k :: 0 <= k < |rows| ==> first.0[k] == rows[k];
      }
      GetOrCreateExtends(first.0, entries[1..], rowKey, entryKey, make, id);
      FirstMatchKept(first.0, rest.0, p);
    } else {
      GetOrCreateCovers(first.0, entries[1..], rowKey, entryKey, make, id, j - 1);
      assert entries[1..][j - 1] == entries[j];
    }
  }

  /** No two rows share a key. */
  predicate KeysUnique<T, K(==)>(rows: seq<T>, rowKey: T -> K)
  {
    forall a, b :: 0 <= a < b < |rows| ==> rowKey(rows[a]) != rowKey(rows[b])
  }

  /** A row is only added for a key no row has, so keys that were unique stay unique. */
  lemma {:induction false} GetOrCreateKeepsKeysUnique<T, E, K>(rows: seq<T>, entries: seq<E>, rowKey: T -> K,
                                                                  entryKey: E -> K, make: (seq<T>, E) -> T, id: T -> Id)
    requires forall rs: seq<T>, e: E :: rowKey(make(rs, e)) == entryKey(e)
    requires KeysUnique(rows, rowKey)
    ensures KeysUnique(GetOrCreate(rows, entries, rowKey, entryKey, make, id).0, rowKey)
    decreases |entries|
  {
    if entries != [] {
      var first := Fetch(rows, entries[0], rowKey, entryKey, make, id);
      var p := KeyIs(rowKey, entryKey(entries[0]));
      if FirstMatch(rows, p).None? {
        forall a, b | 0 <= a < b < |first.0|
          ensures rowKey(first.0[a]) != rowKey(first.0[b])
        {
          if b == |rows| {
            assert !p(rows[a]);
          } else {
            assert first.0[a] == rows[a] && first.0[b] == rows[b];
          }
        }
      }
      GetOrCreateKeepsKeysUnique(first.0, entries[1..], rowKey, entryKey, make, id);
    }
  }

  /** When every entry's key is already there, nothing is added and the ids are those of the first rows. */
  lemma {:induction false} GetOrCreateStable<T, E, K>(rows: seq<T>, entries: seq<E>, rowKey: T -> K, entryKey: E -> K,
                                                         make: (seq<T>, E) -> T, id: T -> Id)
    requires forall j :: 0 <= j < |entries| ==> FirstMatch(rows, KeyIs(rowKey, entryKey(entries[j]))).Some?
    ensures GetOrCreate(rows, entries, rowKey, entryKey, make, id).0 == rows
    ensures forall j :: 0 <= j < |entries| ==>
              GetOrCreate(rows, entries, rowKey, entryKey, make, id).1[j]
              == id(rows[FirstMatch(rows, KeyIs(rowKey, entryKey(entries[j]))).value])
    decreases |entries|
  {
    if entries != [] {
      assert forall j :: 0 <= j < |entries[1..]| ==> entries[1..][j] == entries[j + 1];
      GetOrCreateStable(rows, entries[1..], rowKey, entryKey, make, id);
    }
  }

  /** Running the same entries again over the result changes nothing and uses the same ids. */
  lemma GetOrCreateIdempotent<T, E, K>(rows: seq<T>, entries: seq<E>, rowKey: T -> K, entryKey: E -> K,
                                           make: (seq<T>, E) -> T, id: T -> Id)
    requires forall rs: seq<T>, e: E :: rowKey(make(rs, e)) == entryKey(e)
    ensures var r := GetOrCreate(rows, entries, rowKey, entryKey, make, id);
            GetOrCreate(r.0, entries, rowKey, entryKey, make, id) == r
  {
    var r := GetOrCreate(rows, entries, rowKey, entryKey, make, id);
    forall j | 0 <= j < |entries|
      ensures FirstMatch(r.0, KeyIs(rowKey, entryKey(entries[j]))).Some?
      ensures r.1[j] == id(r.0[FirstMatch(r.0, KeyIs(rowKey, entryKey(entries[j]))).value])
    {
      GetOrCreateCovers(rows, entries, rowKey, entryKey, make, id, j);
    }
    GetOrCreateStable(r.0, entries, rowKey, entryKey, make, id);
    var again := GetOrCreate(r.0, entries, rowKey, entryKey, make, id);
    assert again.1 == r.1;
  }


  /** Every appended row was made from one of the entries. */
  lemma {:induction false} RowsPastThePrefixAreMade<T, E, K>(rows: seq<T>, entries: seq<E>, rowKey: T -> K,
                                                                entryKey: E -> K, make: (seq<T>, E) -> T, id: T -> Id, i: nat)
    requires |rows| <= i < |GetOrCreate(rows, entries, rowKey, entryKey, make, id).0|
    ensures exists rs: seq<T>, e: E :: GetOrCreate(rows, entries, rowKey, entryKey, make, id).0[i] == make(rs, e)
                                      && e in entries
    decreases |entries|
  {
    var first := Fetch(rows, entries[0], rowKey, entryKey, make, id);
    var rest := GetOrCreate(first.0, entries[1..], rowKey, entryKey, make, id);
    GetOrCreateExtends(first.0, entries[1..], rowKey, entryKey, make, id);
    if i < |first.0| {
      assert i == |rows| && first.0 == rows + [make(rows, entries[0])];
      assert rest.0[i] == first.0[i];
    } else {
      RowsPastThePrefixAreMade(first.0, entries[1..], rowKey, entryKey, make, id, i);
      var rs, e :| rest.0[i] == make(rs, e) && e in entries[1..];
    }
  }

  /** A key some original row has is never given to an appended row. */
  lemma {:induction false} AppendedKeysAreNew<T, E, K>(rows: seq<T>, entries: seq<E>, rowKey: T -> K,
                                                          entryKey: E -> K, make: (seq<T>, E) -> T, id: T -> Id, k: nat)
    requires forall rs: seq<T>, e: E :: rowKey(make(rs, e)) == entryKey(e)
    requires k < |rows|
    ensures var after := GetOrCreate(rows, entries, rowKey, entryKey, make, id).0;
            forall m :: |rows| <= m < |after| ==> rowKey(after[m]) != rowKey(rows[k])
    decreases |entries|
  {
    if entries != [] {
      var first := Fetch(rows, entries[0], rowKey, entryKey, make, id);
      var after := GetOrCreate(first.0, entries[1..], rowKey, entryKey, make, id).0;
      var p := KeyIs(rowKey, entryKey(entries[0]));
      assert first.0[k] == rows[k];
      AppendedKeysAreNew(first.0, entries[1..], rowKey, entryKey, make, id, k);
      GetOrCreateExtends(first.0, entries[1..], rowKey, entryKey, make, id);
      if FirstMatch(rows, p).None? {
        assert !p(rows[k]);
        assert after[|rows|] == first.0[|rows|];
      }
    }
  }

  // ---------------------------------------------------------------------
  // The default organisation
  // ---------------------------------------------------------------------

  const DEFAULT_SUBDOMAIN: string := "starline"
  const DEFAULT_ORGANIZATION_NAME: string := "Starline Organization"

  function SubdomainIs(subdomain: string): Organization -> bool
  {
    (o: Organization) => o.subdomain == subdomain
  }

  /** The organisation with subdomain "starline", created with the administrator's email as contact when missing. */
  function DefaultOrganization(orgs: seq<Organization>, contactEmail: string): (r: (seq<Organization>, Organization))
    ensures r.1 in r.0 && r.1.subdomain == DEFAULT_SUBDOMAIN
    ensures (exists k :: 0 <= k < |orgs| && orgs[k].subdomain == DEFAULT_SUBDOMAIN) ==> r.0 == orgs
    ensures (forall k :: 0 <= k < |orgs| ==> orgs[k].subdomain != DEFAULT_SUBDOMAIN)
            ==> r.0 == orgs + [r.1] && r.1.name == DEFAULT_ORGANIZATION_NAME && r.1.contactEmail == contactEmail
                && r.1.timezone == "UTC" && r.1.isActive
  {
    var i := FirstMatch(orgs, SubdomainIs(DEFAULT_SUBDOMAIN));
    if i.Some? then
      assert SubdomainIs(DEFAULT_SUBDOMAIN)(orgs[i.value]);
      (orgs, orgs[i.value])
    else
      var o := Organization(IdentityDb.FreshKey(orgs, IdentityDb.OrganizationIdOf), DEFAULT_ORGANIZATION_NAME,
                            DEFAULT_SUBDOMAIN, contactEmail, "UTC", true);
      (orgs + [o], o)
  }

  // ---------------------------------------------------------------------
  // The permission catalog
  // ---------------------------------------------------------------------

  datatype CatalogEntry = CatalogEntry(resource: string, action: string, description: string)

  function PermissionPair(p: Permission): (string, string) { (p.resource, p.action) }
  function EntryPair(e: CatalogEntry): (string, string) { (e.resource, e.action) }

  /** A new permission row for a catalog entry. */
  function MakePermission(rows: seq<Permission>, e: CatalogEntry): (r: Permission)
    ensures PermissionPair(r) == EntryPair(e) && r.description == Some(e.description)
    ensures forall k :: 0 <= k < |rows| ==> rows[k].id < r.id
  {
    Permission(IdentityDb.FreshKey(rows, IdentityDb.PermissionKeyOf), e.resource, e.action, Some(e.description))
  }

  /**
   * The permission table after the catalog loop, with the id kept for each
   * catalog entry (the `permissions` dict, by catalog position).
   */
  function SeedPermissions(perms: seq<Permission>, catalog: seq<CatalogEntry>): (r: (seq<Permission>, seq<Id>))
    ensures |r.1| == |catalog|
  {
    GetOrCreate(perms, catalog, PermissionPair, EntryPair, MakePermission, IdentityDb.PermissionKeyOf)
  }

  /**
   * After the catalog loop every catalog pair has a permission row, the
   * kept id is that of the first such row, and rows that were there stay.
   * When no pair was duplicated before, each pair has exactly one row.
   */
  lemma CatalogSeeded(perms: seq<Permission>, catalog: seq<CatalogEntry>, j: nat)
    requires j < |catalog|
    ensures var (after, ids) := SeedPermissions(perms, catalog);
            var i := FirstMatch(after, KeyIs(PermissionPair, EntryPair(catalog[j])));
            i.Some? && ids[j] == after[i.value].id && PermissionPair(after[i.value]) == EntryPair(catalog[j])
            && |perms| <= |after| && after[..|perms|] == perms
            && (KeysUnique(perms, PermissionPair) ==>
                  forall k :: 0 <= k < |after| && PermissionPair(after[k]) == EntryPair(catalog[j]) ==> k == i.value)
  {
    GetOrCreateCovers(perms, catalog, PermissionPair, EntryPair, MakePermission, IdentityDb.PermissionKeyOf, j);
    GetOrCreateExtends(perms, catalog, PermissionPair, EntryPair, MakePermission, IdentityDb.PermissionKeyOf);
    if KeysUnique(perms, PermissionPair) {
      GetOrCreateKeepsKeysUnique(perms, catalog, PermissionPair, EntryPair, MakePermission, IdentityDb.PermissionKeyOf);
    }
  }

  /** Seeding the catalog a second time creates no permission and keeps the same ids. */
  lemma CatalogSeedingIdempotent(perms: seq<Permission>, catalog: seq<CatalogEntry>)
    ensures SeedPermissions(SeedPermissions(perms, catalog).0, catalog) == SeedPermissions(perms, catalog)
  {
    GetOrCreateIdempotent(perms, catalog, PermissionPair, EntryPair, MakePermission, IdentityDb.PermissionKeyOf);
  }

  /** The catalog loop, one entry at a time. */
  method SeedCatalog(d: IdentityDb.Directory, catalog: seq<CatalogEntry>) returns (ids: seq<Id>)
    modifies d`permissions
    ensures (d.permissions, ids) == SeedPermissions(old(d.permissions), catalog)
  {
    ghost var goal := SeedPermissions(d.permissions, catalog);
    ids := [];
    var i := 0;
    while i < |catalog|
      invariant 0 <= i <= |catalog|
      invariant GetOrCreate(d.permissions, catalog[i..], PermissionPair, EntryPair, MakePermission, IdentityDb.PermissionKeyOf).0
                == goal.0
      invariant ids + GetOrCreate(d.permissions, catalog[i..], PermissionPair, EntryPair, MakePermission, IdentityDb.PermissionKeyOf).1
                == goal.1
    {
      GetOrCreateStep(d.permissions, catalog, i, PermissionPair, EntryPair, MakePermission, IdentityDb.PermissionKeyOf);
      var fetched := Fetch(d.permissions, catalog[i], PermissionPair, EntryPair, MakePermission, IdentityDb.PermissionKeyOf);
      ghost var rest := GetOrCreate(fetched.0, catalog[i + 1..], PermissionPair, EntryPair, MakePermission, IdentityDb.PermissionKeyOf);
      assert ids + ([fetched.1] + rest.1) == (ids + [fetched.1]) + rest.1;
      d.permissions := fetched.0;
      ids := ids + [fetched.1];
      i := i + 1;
    }
    assert catalog[i..] == [] && ids + [] == ids;
  }

  // ---------------------------------------------------------------------
  // The built-in roles
  // ---------------------------------------------------------------------

  /** A built-in role: its name, description, whether it is a system role, and its permissions as catalog positions. */
  datatype Bundle = Bundle(name: string, description: string, isSystem: bool, members: seq<nat>)

  function RoleKeyPair(r: Role): (string, bool) { (r.name, r.isSystemRole) }
  function BundleKey(b: Bundle): (string, bool) { (b.name, b.isSystem) }

  /** The ids of a bundle's permissions, from the ids kept for the catalog. */
  function MemberIds(b: Bundle, ids: seq<Id>): (r: seq<Id>)
    ensures |r| == |b.members|
    ensures forall k :: 0 <= k < |r| && b.members[k] < |ids| ==> r[k] == ids[b.members[k]]
  {
    MapSeq(b.members, (k: nat) => if k < |ids| then ids[k] else 0)
  }

  /** A new built-in role: a system role has no organisation, the others belong to the default one. */
  function MakeRole(ids: seq<Id>, org: Id, now: Moment): (seq<Role>, Bundle) -> Role
  {
    (rows: seq<Role>, b: Bundle) =>
      Role(IdentityDb.FreshKey(rows, IdentityDb.RoleIdOf), if b.isSystem then None else Some(org), b.name,
           Some(b.description), b.isSystem, MemberIds(b, ids), Some(now))
  }

  lemma MakeRoleKeyed(ids: seq<Id>, org: Id, now: Moment)
    ensures forall rs: seq<Role>, b: Bundle :: RoleKeyPair(MakeRole(ids, org, now)(rs, b)) == BundleKey(b)
  {
  }

  /** The role table after the roles loop, with the id kept for each built-in role (the `roles` dict, by position). */
  function SeedRoles(roles: seq<Role>, bundles: seq<Bundle>, ids: seq<Id>, org: Id, now: Moment): (r: (seq<Role>, seq<Id>))
    ensures |r.1| == |bundles|
  {
    GetOrCreate(roles, bundles, RoleKeyPair, BundleKey, MakeRole(ids, org, now), IdentityDb.RoleIdOf)
  }

  /**
   * After the roles loop each built-in role has a row found by its name and
   * system flag; the role kept is the first such row. Roles that existed
   * stay as they were, their permissions included. A role that had to be
   * created has its bundle's permissions, and no organisation exactly when
   * it is a system role.
   */
  lemma RolesSeeded(roles: seq<Role>, bundles: seq<Bundle>, ids: seq<Id>, org: Id, now: Moment, j: nat)
    requires j < |bundles|
    requires forall a, b :: 0 <= a < b < |bundles| ==> BundleKey(bundles[a]) != BundleKey(bundles[b])
    ensures var (after, roleIds) := SeedRoles(roles, bundles, ids, org, now);
            var i := FirstMatch(after, KeyIs(RoleKeyPair, BundleKey(bundles[j])));
            i.Some? && roleIds[j] == after[i.value].id
            && after[i.value].name == bundles[j].name && after[i.value].isSystemRole == bundles[j].isSystem
            && |roles| <= |after| && after[..|roles|] == roles
            && (i.value >= |roles| ==>
                  after[i.value].permissionIds == MemberIds(bundles[j], ids)
                  && (after[i.value].organizationId.None? <==> bundles[j].isSystem)
                  && (!bundles[j].isSystem ==> after[i.value].organizationId == Some(org)))
  {
    MakeRoleKeyed(ids, org, now);
    var make := MakeRole(ids, org, now);
    GetOrCreateCovers(roles, bundles, RoleKeyPair, BundleKey, make, IdentityDb.RoleIdOf, j);
    GetOrCreateExtends(roles, bundles, RoleKeyPair, BundleKey, make, IdentityDb.RoleIdOf);
    var (after, roleIds) := SeedRoles(roles, bundles, ids, org, now);
    var i := FirstMatch(after, KeyIs(RoleKeyPair, BundleKey(bundles[j]))).value;
    if i >= |roles| {
      RowsPastThePrefixAreMade(roles, bundles, RoleKeyPair, BundleKey, make, IdentityDb.RoleIdOf, i);
      var rs, b :| after[i] == make(rs, b) && b in bundles;
      assert KeyIs(RoleKeyPair, BundleKey(bundles[j]))(after[i]);
      var a :| 0 <= a < |bundles| && bundles[a] == b;
      assert BundleKey(bundles[a]) == BundleKey(bundles[j]);
      assert a == j;
    }
  }

  /**
   * The role for a bundle naming every catalog position, created by the
   * loop, holds every permission the catalog loop kept, each of them a row
   * of its catalog pair.
   */
  lemma WholeCatalogBundle(perms: seq<Permission>, catalog: seq<CatalogEntry>, roles: seq<Role>, bundles: seq<Bundle>,
                           org: Id, now: Moment, j: nat)
    requires j < |bundles| && bundles[j].members == seq(|catalog|, k => k)
    requires forall a, b :: 0 <= a < b < |bundles| ==> BundleKey(bundles[a]) != BundleKey(bundles[b])
    requires forall k :: 0 <= k < |roles| ==> RoleKeyPair(roles[k]) != BundleKey(bundles[j])
    ensures var (after, ids) := SeedPermissions(perms, catalog);
            var (rolesAfter, roleIds) := SeedRoles(roles, bundles, ids, org, now);
            FirstMatch(rolesAfter, KeyIs(RoleKeyPair, BundleKey(bundles[j]))).Some?
            && var i := FirstMatch(rolesAfter, KeyIs(RoleKeyPair, BundleKey(bundles[j]))).value;
            rolesAfter[i].permissionIds == ids
            && forall p :: 0 <= p < |catalog| ==>
                 exists k :: 0 <= k < |after| && after[k].id == rolesAfter[i].permissionIds[p]
                             && PermissionPair(after[k]) == EntryPair(catalog[p])
  {
    var (after, ids) := SeedPermissions(perms, catalog);
    RolesSeeded(roles, bundles, ids, org, now, j);
    var (rolesAfter, roleIds) := SeedRoles(roles, bundles, ids, org, now);
    var i := FirstMatch(rolesAfter, KeyIs(RoleKeyPair, BundleKey(bundles[j]))).value;
    forall k | 0 <= k < |roles|
      ensures !KeyIs(RoleKeyPair, BundleKey(bundles[j]))(rolesAfter[k])
    {
      assert rolesAfter[k] == roles[k];
    }
    assert MemberIds(bundles[j], ids) == ids;
    forall p | 0 <= p < |catalog|
      ensures exists k :: 0 <= k < |after| && after[k].id == ids[p] && PermissionPair(after[k]) == EntryPair(catalog[p])
    {
      CatalogSeeded(perms, catalog, p);
    }
  }

  /**
   * Roles are found by name and system flag only, in any organisation: a
   * role of another organisation named like a built-in one stands in for
   * it, and no role with that key is created.
   */
  lemma ForeignRoleStandsIn(roles: seq<Role>, bundles: seq<Bundle>, ids: seq<Id>, org: Id, now: Moment, k: nat, j: nat)
    requires k < |roles| && j < |bundles| && RoleKeyPair(roles[k]) == BundleKey(bundles[j])
    ensures var (after, roleIds) := SeedRoles(roles, bundles, ids, org, now);
            forall m :: |roles| <= m < |after| ==> RoleKeyPair(after[m]) != BundleKey(bundles[j])
  {
    MakeRoleKeyed(ids, org, now);
    var make := MakeRole(ids, org, now);
    AppendedKeysAreNew(roles, bundles, RoleKeyPair, BundleKey, make, IdentityDb.RoleIdOf, k);
    assert SeedRoles(roles, bundles, ids, org, now).0 == GetOrCreate(roles, bundles, RoleKeyPair, BundleKey, make, IdentityDb.RoleIdOf).0;
  }

  /** Seeding the roles over the result, at any later time, changes nothing and keeps the same ids. */
  lemma RolesStable(roles: seq<Role>, bundles: seq<Bundle>, ids: seq<Id>, org: Id, now: Moment, later: Moment)
    ensures var r := SeedRoles(roles, bundles, ids, org, now);
            SeedRoles(r.0, bundles, ids, org, later) == r
  {
    MakeRoleKeyed(ids, org, now);
    var r := SeedRoles(roles, bundles, ids, org, now);
    forall j | 0 <= j < |bundles|
      ensures FirstMatch(r.0, KeyIs(RoleKeyPair, BundleKey(bundles[j]))).Some?
      ensures r.1[j] == IdentityDb.RoleIdOf(r.0[FirstMatch(r.0, KeyIs(RoleKeyPair, BundleKey(bundles[j]))).value])
    {
      GetOrCreateCovers(roles, bundles, RoleKeyPair, BundleKey, MakeRole(ids, org, now), IdentityDb.RoleIdOf, j);
    }
    GetOrCreateStable(r.0, bundles, RoleKeyPair, BundleKey, MakeRole(ids, org, later), IdentityDb.RoleIdOf);
    var again := SeedRoles(r.0, bundles, ids, org, later);
    assert again.1 == r.1;
  }

  /** The roles loop, one built-in role at a time. */
  method SeedBuiltInRoles(d: IdentityDb.Directory, bundles: seq<Bundle>, ids: seq<Id>, org: Id, now: Moment)
    returns (roleIds: seq<Id>)
    modifies d`roles
    ensures (d.roles, roleIds) == SeedRoles(old(d.roles), bundles, ids, org, now)
  {
    ghost var goal := SeedRoles(d.roles, bundles, ids, org, now);
    var make := MakeRole(ids, org, now);
    roleIds := [];
    var i := 0;
    while i < |bundles|
      invariant 0 <= i <= |bundles|
      invariant GetOrCreate(d.roles, bundles[i..], RoleKeyPair, BundleKey, make, IdentityDb.RoleIdOf).0 == goal.0
      invariant roleIds + GetOrCreate(d.roles, bundles[i..], RoleKeyPair, BundleKey, make, IdentityDb.RoleIdOf).1 == goal.1
    {
      GetOrCreateStep(d.roles, bundles, i, RoleKeyPair, BundleKey, make, IdentityDb.RoleIdOf);
      var fetched := Fetch(d.roles, bundles[i], RoleKeyPair, BundleKey, make, IdentityDb.RoleIdOf);
      ghost var rest := GetOrCreate(fetched.0, bundles[i + 1..], RoleKeyPair, BundleKey, make, IdentityDb.RoleIdOf);
      assert roleIds + ([fetched.1] + rest.1) == (roleIds + [fetched.1]) + rest.1;
      d.roles := fetched.0;
      roleIds := roleIds + [fetched.1];
      i := i + 1;
    }
    assert bundles[i..] == [] && roleIds + [] == roleIds;
  }

  // ---------------------------------------------------------------------
  // The script's seed data
  // ---------------------------------------------------------------------

  /** The catalog and the built-in roles the script seeds. */
  datatype SeedData = SeedData(catalog: seq<CatalogEntry>, bundles: seq<Bundle>)

  /** The 27 (resource, action) pairs, in the order the script creates them. */
  const CATALOG: seq<CatalogEntry> := [
    CatalogEntry("users", "create", "Create new users"),
    CatalogEntry("users", "read", "View users"),
    CatalogEntry("users", "update", "Update users"),
    CatalogEntry("users", "delete", "Delete users"),
    CatalogEntry("roles", "create", "Create new roles"),
    CatalogEntry("roles", "read", "View roles"),
    CatalogEntry("roles", "update", "Update roles"),
    CatalogEntry("roles", "delete", "Delete roles"),
    CatalogEntry("organizations", "create", "Create organizations"),
    CatalogEntry("organizations", "read", "View organizations"),
    CatalogEntry("organizations", "update", "Update organizations"),
    CatalogEntry("organizations", "delete", "Delete organizations"),
    CatalogEntry("clients", "create", "Create clients"),
    CatalogEntry("clients", "read", "View clients"),
    CatalogEntry("clients", "update", "Update clients"),
    CatalogEntry("clients", "delete", "Delete clients"),
    CatalogEntry("documentation", "create", "Create documentation"),
    CatalogEntry("documentation", "read", "View documentation"),
    CatalogEntry("documentation", "update", "Update documentation"),
    CatalogEntry("documentation", "delete", "Delete documentation"),
    CatalogEntry("reports", "create", "Generate reports"),
    CatalogEntry("reports", "read", "View reports"),
    CatalogEntry("reports", "export", "Export reports"),
    CatalogEntry("billing", "create", "Create billing records"),
    CatalogEntry("billing", "read", "View billing"),
    CatalogEntry("billing", "update", "Update billing"),
    CatalogEntry("billing", "process", "Process payments")
  ]

  const SUPER_ADMIN_NAME: string := "Super Admin"

  const SUPER_ADMIN: Bundle := Bundle(SUPER_ADMIN_NAME, "Full system access", true, seq(27, k => k))
  const ORGANIZATION_ADMIN: Bundle := Bundle("Organization Admin", "Manage organization and users", false, [0, 1, 2, 3, 5, 9, 10])
  const SUPPORT_STAFF: Bundle := Bundle("Support Staff", "Client care and documentation", false, [13, 14, 16, 17, 18, 21])
  const BILLING_ADMIN: Bundle := Bundle("Billing Admin", "Financial and billing access", false, [23, 24, 25, 26, 21, 22])

  const SEED: SeedData := SeedData(CATALOG, [SUPER_ADMIN, ORGANIZATION_ADMIN, SUPPORT_STAFF, BILLING_ADMIN])

  /** The (resource, action) pairs a bundle names. */
  function MemberPairs(catalog: seq<CatalogEntry>, b: Bundle): (r: seq<(string, string)>)
    ensures |r| == |b.members|
  {
    MapSeq(b.members, (k: nat) => if k < |catalog| then EntryPair(catalog[k]) else ("", ""))
  }

  /** Organization Admin: the four user permissions, reading roles, reading and updating organisations. */
  lemma OrganizationAdminPermissions()
    ensures MemberPairs(CATALOG, ORGANIZATION_ADMIN)
            == [("users", "create"), ("users", "read"), ("users", "update"), ("users", "delete"),
                ("roles", "read"), ("organizations", "read"), ("organizations", "update")]
  {
  }

  /** Support Staff: reading and updating clients, writing documentation, reading reports. */
  lemma SupportStaffPermissions()
    ensures MemberPairs(CATALOG, SUPPORT_STAFF)
            == [("clients", "read"), ("clients", "update"), ("documentation", "create"),
                ("documentation", "read"), ("documentation", "update"), ("reports", "read")]
  {
  }

  /** Billing Admin: the four billing permissions, reading and exporting reports. */
  lemma BillingAdminPermissions()
    ensures MemberPairs(CATALOG, BILLING_ADMIN)
            == [("billing", "create"), ("billing", "read"), ("billing", "update"),
                ("billing", "process"), ("reports", "read"), ("reports", "export")]
  {
  }

  /**
   * The seed data is well formed: the four roles have different keys,
   * every position a role names is in the catalog, Super Admin comes first
   * and is the system role naming the whole catalog.
   */
  lemma SeedIsWellFormed()
    ensures |SEED.catalog| == 27 && |SEED.bundles| == 4
    ensures forall a, b :: 0 <= a < b < |SEED.bundles| ==> BundleKey(SEED.bundles[a]) != BundleKey(SEED.bundles[b])
    ensures forall j, k :: 0 <= j < |SEED.bundles| && 0 <= k < |SEED.bundles[j].members| ==>
              SEED.bundles[j].members[k] < |SEED.catalog|
    ensures SEED.bundles[0].name == SUPER_ADMIN_NAME && SEED.bundles[0].isSystem
    ensures SEED.bundles[0].members == seq(|SEED.catalog|, k => k)
    ensures forall j :: 1 <= j < |SEED.bundles| ==> !SEED.bundles[j].isSystem
  {
  }

  // ---------------------------------------------------------------------
  // The administrator
  // ---------------------------------------------------------------------

  /** `DEFAULT_ADMIN_EMAIL`, `DEFAULT_ADMIN_USERNAME` and `DEFAULT_ADMIN_FULL_NAME` (the password enters as its digest). */
  datatype AdminSettings = AdminSettings(email: string, username: string, fullName: string)

  const DEFAULT_ADMIN_FULL_NAME: string := "Admin"

  /** The leading run of non-space characters. */
  function LeadingWord(s: string): (r: string)
    ensures |r| <= |s| && r == s[..|r|]
    ensures forall k :: 0 <= k < |r| ==> !IsSpace(r[k])
    ensures |r| < |s| ==> IsSpace(s[|r|])
  {
    if s == [] || IsSpace(s[0]) then [] else [s[0]] + LeadingWord(s[1..])
  }

  /** `s.split()`: the runs of non-space characters. */
  function Words(s: string): (r: seq<string>)
    ensures forall k :: 0 <= k < |r| ==> r[k] != []
    decreases |s|
  {
    if s == [] then []
    else if IsSpace(s[0]) then Words(s[1..])
    else
      var w := LeadingWord(s);
      [w] + Words(s[|w|..])
  }

  lemma {:induction false} WordsOfSpaces(s: string)
    requires forall k :: 0 <= k < |s| ==> IsSpace(s[k])
    ensures Words(s) == []
  {
    if s != [] {
      WordsOfSpaces(s[1..]);
    }
  }

  lemma {:induction false} LeadingWordOfWord(w: string, rest: string)
    requires forall k :: 0 <= k < |w| ==> !IsSpace(w[k])
    requires rest == [] || IsSpace(rest[0])
    ensures LeadingWord(w + rest) == w
  {
    if w != [] {
      assert (w + rest)[1..] == w[1..] + rest;
      LeadingWordOfWord(w[1..], rest);
    } else {
      assert w + rest == rest;
    }
  }

  /** A word followed by nothing or by a space is the first word. */
  lemma WordsAfterWord(w: string, rest: string)
    requires w != [] && forall k :: 0 <= k < |w| ==> !IsSpace(w[k])
    requires rest == [] || IsSpace(rest[0])
    ensures Words(w + rest) == [w] + Words(rest)
  {
    LeadingWordOfWord(w, rest);
    assert (w + rest)[0] == w[0];
    assert (w + rest)[|w|..] == rest;
  }

  /** One word, or two words with a space between them, split back into those words. */
  lemma WordsOfName(first: string, last: string)
    requires first != [] && forall k :: 0 <= k < |first| ==> !IsSpace(first[k])
    requires forall k :: 0 <= k < |last| ==> !IsSpace(last[k])
    ensures Words(first) == [first]
    ensures last != [] ==> Words(first + " " + last) == [first, last]
  {
    WordsAfterWord(first, []);
    assert first + [] == first;
    if last != [] {
      WordsAfterWord(first, " " + last);
      assert first + " " + last == first + (" " + last);
      assert (" " + last)[1..] == last;
      assert Words(" " + last) == Words(last);
      WordsAfterWord(last, []);
      assert last + [] == last;
    }
  }

  /**
   * The administrator's first and last name from the full name: the first
   * and last word, "Admin" for an empty full name and "User" without a
   * second word; `None` where indexing an empty split raises (a full name
   * of spaces only).
   */
  function AdminNames(fullName: string): (r: Option<(string, string)>)
    ensures fullName == "" ==> r == Some(("Admin", "User"))
    ensures fullName != "" ==> (r.None? <==> Words(fullName) == [])
    ensures r.Some? && fullName != "" ==> r.value.0 == Words(fullName)[0]
    ensures r.Some? && fullName != "" && |Words(fullName)| > 1 ==> r.value.1 == Words(fullName)[|Words(fullName)| - 1]
    ensures r.Some? && |Words(fullName)| <= 1 ==> r.value.1 == "User"
  {
    if fullName == "" then Some(("Admin", "User"))
    else
      var words := Words(fullName);
      if words == [] then None
      else Some((words[0], if |words| > 1 then words[|words| - 1] else "User"))
  }

  /** With the default full name "Admin" the administrator is "Admin User"; a full name of spaces fails. */
  lemma AdminNamesExamples(spaces: string)
    requires spaces != [] && forall k :: 0 <= k < |spaces| ==> IsSpace(spaces[k])
    ensures AdminNames(DEFAULT_ADMIN_FULL_NAME) == Some(("Admin", "User"))
    ensures AdminNames(spaces).None?
  {
    WordsOfName(DEFAULT_ADMIN_FULL_NAME, "");
    WordsOfSpaces(spaces);
  }

  function EmailIsKey(email: string): Account -> bool
  {
    (u: Account) => u.email == email
  }

  /**
   * The administrator step: nothing when an account has the email;
   * otherwise an active, verified account with the Super Admin role in the
   * default organisation. A full name of spaces, a missing Super Admin role
   * or a username another account holds (unique column) raises instead,
   * and no account is added.
   */
  function EnsureAdmin(users: seq<Account>, admin: AdminSettings, hash: string, org: Id, superAdmin: Option<Id>, now: Moment)
    : (r: (Result<bool>, seq<Account>))
    ensures r.0.Err? ==> r.1 == users && r.0.status == INTERNAL_ERROR
    ensures r.0 == Ok(false) <==> exists k :: 0 <= k < |users| && users[k].email == admin.email
    ensures r.0 == Ok(false) ==> r.1 == users
    ensures r.0 == Ok(true) <==> ((forall k :: 0 <= k < |users| ==> users[k].email != admin.email)
                                  && AdminNames(admin.fullName).Some? && superAdmin.Some?
                                  && forall k :: 0 <= k < |users| ==> users[k].username != Some(admin.username))
    ensures r.0 == Ok(true) ==> |r.1| == |users| + 1 && r.1[..|users|] == users
                                && r.1[|users|].email == admin.email && r.1[|users|].username == Some(admin.username)
                                && r.1[|users|].status == UserStatus.ACTIVE && r.1[|users|].emailVerified
                                && r.1[|users|].roleId == superAdmin && r.1[|users|].organizationId == Some(org)
                                && r.1[|users|].passwordHash == hash
                                && (r.1[|users|].firstName, r.1[|users|].lastName) == AdminNames(admin.fullName).value
  {
    var i := FirstMatch(users, EmailIsKey(admin.email));
    if i.Some? then
      assert EmailIsKey(admin.email)(users[i.value]);
      (Ok(false), users)
    else
      assert forall k :: 0 <= k < |users| ==> !EmailIsKey(admin.email)(users[k]);
      var names := AdminNames(admin.fullName);
      if names.None? then (Err(INTERNAL_ERROR, "IndexError: list index out of range"), users)
      else if superAdmin.None? then (Err(INTERNAL_ERROR, "KeyError: 'Super Admin'"), users)
      else if exists k :: 0 <= k < |users| && users[k].username == Some(admin.username) then
        (Err(INTERNAL_ERROR, "IntegrityError: duplicate username"), users)
      else
        var a := NewAccount(IdentityDb.FreshKey(users, IdentityDb.AccountIdOf), Some(org), admin.email, Some(admin.username),
                            hash, names.value.0, names.value.1, superAdmin, UserStatus.ACTIVE, now)
                 .(emailVerified := true);
        assert (users + [a])[..|users|] == users;
        (Ok(true), users + [a])
  }

  // ---------------------------------------------------------------------
  // The whole script
  // ---------------------------------------------------------------------

  /** The four tables the script reads and writes. */
  datatype Tables = Tables(orgs: seq<Organization>, perms: seq<Permission>, roles: seq<Role>, users: seq<Account>)

  function NameIs(name: string): Bundle -> bool
  {
    (b: Bundle) => b.name == name
  }

  /**
   * `roles["Super Admin"]`: the id kept for the bundle of that name. The
   * seed's names are all different, so which of two equal names the dict
   * keeps does not arise.
   */
  function SuperAdminId(bundles: seq<Bundle>, roleIds: seq<Id>): (r: Option<Id>)
    requires |roleIds| == |bundles|
    ensures r.Some? <==> exists j :: 0 <= j < |bundles| && bundles[j].name == SUPER_ADMIN_NAME
  {
    var j := FirstMatch(bundles, NameIs(SUPER_ADMIN_NAME));
    if j.Some? then
      assert NameIs(SUPER_ADMIN_NAME)(bundles[j.value]);
      Some(roleIds[j.value])
    else
      assert forall k :: 0 <= k < |bundles| ==> !NameIs(SUPER_ADMIN_NAME)(bundles[k]);
      None
  }

  /**
   * `init_db` with the given seed data: the default organisation, the
   * catalog, the roles, the administrator, in that order. The answer says
   * whether the administrator was created, or what the last step raised;
   * what earlier steps committed stays.
   */
  function Initialization(t: Tables, seed: SeedData, admin: AdminSettings, hash: string, now: Moment)
    : (r: (Result<bool>, Tables))
    ensures |t.orgs| <= |r.1.orgs| && r.1.orgs[..|t.orgs|] == t.orgs
    ensures |t.perms| <= |r.1.perms| && r.1.perms[..|t.perms|] == t.perms
    ensures |t.roles| <= |r.1.roles| && r.1.roles[..|t.roles|] == t.roles
    ensures r.0.Err? ==> r.1.users == t.users
  {
    var (orgs, org) := DefaultOrganization(t.orgs, admin.email);
    var (perms, ids) := SeedPermissions(t.perms, seed.catalog);
    var (roles, roleIds) := SeedRoles(t.roles, seed.bundles, ids, org.id, now);
    var (res, users) := EnsureAdmin(t.users, admin, hash, org.id, SuperAdminId(seed.bundles, roleIds), now);
    GetOrCreateExtends(t.perms, seed.catalog, PermissionPair, EntryPair, MakePermission, IdentityDb.PermissionKeyOf);
    GetOrCreateExtends(t.roles, seed.bundles, RoleKeyPair, BundleKey, MakeRole(ids, org.id, now), IdentityDb.RoleIdOf);
    assert orgs[..|t.orgs|] == t.orgs;
    (res, Tables(orgs, perms, roles, users))
  }

  /** The script over the directory's tables; the script itself runs it with `SEED`. */
  method InitDatabase(d: IdentityDb.Directory, seed: SeedData, admin: AdminSettings, hash: string, now: Moment)
    returns (r: Result<bool>)
    modifies d`organizations, d`permissions, d`roles, d`users
    ensures (r, Tables(d.organizations, d.permissions, d.roles, d.users))
            == Initialization(Tables(old(d.organizations), old(d.permissions), old(d.roles), old(d.users)), seed, admin, hash, now)
  {
    var created := DefaultOrganization(d.organizations, admin.email);
    d.organizations := created.0;
    var ids := SeedCatalog(d, seed.catalog);
    var roleIds := SeedBuiltInRoles(d, seed.bundles, ids, created.1.id, now);
    var step := EnsureAdmin(d.users, admin, hash, created.1.id, SuperAdminId(seed.bundles, roleIds), now);
    d.users := step.1;
    r := step.0;
  }

  /** Once the default organisation is there, it is found again and nothing is added. */
  lemma DefaultOrganizationStable(orgs: seq<Organization>, contactEmail: string, laterEmail: string)
    ensures var (once, org) := DefaultOrganization(orgs, contactEmail);
            DefaultOrganization(once, laterEmail) == (once, org)
  {
    var (once, org) := DefaultOrganization(orgs, contactEmail);
    if FirstMatch(orgs, SubdomainIs(DEFAULT_SUBDOMAIN)).None? {
      assert once == orgs + [org];
      forall k | 0 <= k < |orgs|
        ensures !SubdomainIs(DEFAULT_SUBDOMAIN)(once[k])
      {
        assert once[k] == orgs[k];
      }
      assert SubdomainIs(DEFAULT_SUBDOMAIN)(once[|orgs|]);
    }
  }

  /** Once the administrator step succeeded, the account with the email is found again and nothing is added. */
  lemma EnsureAdminStable(users: seq<Account>, admin: AdminSettings, hash: string, org: Id, superAdmin: Option<Id>,
                          now: Moment, org2: Id, superAdmin2: Option<Id>, later: Moment)
    requires EnsureAdmin(users, admin, hash, org, superAdmin, now).0.Ok?
    ensures var once := EnsureAdmin(users, admin, hash, org, superAdmin, now).1;
            EnsureAdmin(once, admin, hash, org2, superAdmin2, later) == (Ok(false), once)
  {
    var once := EnsureAdmin(users, admin, hash, org, superAdmin, now);
    if once.0 == Ok(true) {
      assert once.1[|users|].email == admin.email;
    }
  }

  /**
   * Running the script a second time, after a run that succeeded, changes
   * no table and creates no administrator.
   */
  lemma InitializationIdempotent(t: Tables, seed: SeedData, admin: AdminSettings, hash: string, now: Moment, later: Moment)
    requires Initialization(t, seed, admin, hash, now).0.Ok?
    ensures var once := Initialization(t, seed, admin, hash, now).1;
            Initialization(once, seed, admin, hash, later) == (Ok(false), once)
  {
    var (orgs, org) := DefaultOrganization(t.orgs, admin.email);
    DefaultOrganizationStable(t.orgs, admin.email, admin.email);
    var (perms, ids) := SeedPermissions(t.perms, seed.catalog);
    CatalogSeedingIdempotent(t.perms, seed.catalog);
    var (roles, roleIds) := SeedRoles(t.roles, seed.bundles, ids, org.id, now);
    RolesStable(t.roles, seed.bundles, ids, org.id, now, later);
    var superAdmin := SuperAdminId(seed.bundles, roleIds);
    EnsureAdminStable(t.users, admin, hash, org.id, superAdmin, now, org.id, superAdmin, later);
  }

  /**
   * `id` names a Super Admin role: a system role of no organisation holding
   * one permission per catalog entry, each the row of its catalog pair.
   */
  ghost predicate SuperAdminRole(perms: seq<Permission>, roles: seq<Role>, catalog: seq<CatalogEntry>, id: Id)
  {
    exists i :: 0 <= i < |roles| && roles[i].id == id
                && roles[i].name == SUPER_ADMIN_NAME && roles[i].isSystemRole
                && roles[i].organizationId.None?
                && |roles[i].permissionIds| == |catalog|
                && forall p :: 0 <= p < |catalog| ==>
                     exists k :: 0 <= k < |perms| && perms[k].id == roles[i].permissionIds[p]
                                 && PermissionPair(perms[k]) == EntryPair(catalog[p])
  }

  /**
   * On an empty database, with a full name that splits, the script creates
   * the administrator with the Super Admin role: a system role of no
   * organisation holding every catalog permission, each the row of its
   * catalog pair.
   */
  lemma FirstRunCreatesSuperAdmin(seed: SeedData, admin: AdminSettings, hash: string, now: Moment)
    requires |seed.bundles| > 0 && seed.bundles[0].name == SUPER_ADMIN_NAME && seed.bundles[0].isSystem
    requires seed.bundles[0].members == seq(|seed.catalog|, k => k)
    requires forall a, b :: 0 <= a < b < |seed.bundles| ==> BundleKey(seed.bundles[a]) != BundleKey(seed.bundles[b])
    requires AdminNames(admin.fullName).Some?
    ensures var (r, t) := Initialization(Tables([], [], [], []), seed, admin, hash, now);
            r == Ok(true) && |t.users| == 1 && t.users[0].roleId.Some?
            && SuperAdminRole(t.perms, t.roles, seed.catalog, t.users[0].roleId.value)
  {
    var (orgs, org) := DefaultOrganization([], admin.email);
    SuperAdminRoleSeeded(seed, org.id, now);
    var (perms, ids) := SeedPermissions([], seed.catalog);
    var (roles, roleIds) := SeedRoles([], seed.bundles, ids, org.id, now);
    var (res, users) := EnsureAdmin([], admin, hash, org.id, Some(roleIds[0]), now);
    assert res == Ok(true) && |users| == 1 && users[0].roleId == Some(roleIds[0]);
    assert Initialization(Tables([], [], [], []), seed, admin, hash, now) == (res, Tables(orgs, perms, roles, users));
  }

  /** Seeding an empty database gives the first bundle, Super Admin, a role holding the whole catalog. */
  lemma SuperAdminRoleSeeded(seed: SeedData, org: Id, now: Moment)
    requires |seed.bundles| > 0 && seed.bundles[0].name == SUPER_ADMIN_NAME && seed.bundles[0].isSystem
    requires seed.bundles[0].members == seq(|seed.catalog|, k => k)
    requires forall a, b :: 0 <= a < b < |seed.bundles| ==> BundleKey(seed.bundles[a]) != BundleKey(seed.bundles[b])
    ensures var (perms, ids) := SeedPermissions([], seed.catalog);
            var (roles, roleIds) := SeedRoles([], seed.bundles, ids, org, now);
            SuperAdminId(seed.bundles, roleIds) == Some(roleIds[0])
            && SuperAdminRole(perms, roles, seed.catalog, roleIds[0])
  {
    var (perms, ids) := SeedPermissions([], seed.catalog);
    var (roles, roleIds) := SeedRoles([], seed.bundles, ids, org, now);
    assert FirstMatch(seed.bundles, NameIs(SUPER_ADMIN_NAME)) == Some(0);
    RolesSeeded([], seed.bundles, ids, org, now, 0);
    WholeCatalogBundle([], seed.catalog, [], seed.bundles, org, now, 0);
    var i := FirstMatch(roles, KeyIs(RoleKeyPair, BundleKey(seed.bundles[0]))).value;
    assert roles[i].id == roleIds[0];
    assert roles[i].organizationId.None? && |roles[i].permissionIds| == |seed.catalog|;
  }

  /** The script's own seed data meets the conditions of the first-run lemma. */
  lemma FirstRunWithTheSeed(admin: AdminSettings, hash: string, now: Moment)
    requires AdminNames(admin.fullName).Some?
    ensures Initialization(Tables([], [], [], []), SEED, admin, hash, now).0 == Ok(true)
  {
    SeedIsWellFormed();
    FirstRunCreatesSuperAdmin(SEED, admin, hash, now);
  }
}
