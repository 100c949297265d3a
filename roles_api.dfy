/**
 * The roles router: listing and reading the roles an account can see,
 * creating custom roles in the caller's organisation, editing and deleting
 * them, and listing the permission catalog. System roles are never edited
 * or deleted here, and a role some account still holds is not deleted.
 *
 * Each handler runs after `require_permission("roles", <action>)`; the
 * model takes the authenticated caller as a parameter. A role's
 * permissions are the catalog rows its keys resolve to, in catalog order.
 */
module RolesApi {
  import opened Common
  import opened IdentityModel
  import opened UserSchemas
  import IdentityDb

  const ROLE_NOT_FOUND: string := "Role not found"
  const NOT_FOUND_OR_SYSTEM: string := "Role not found or is a system role"
  const NAME_TAKEN: string := "A role with this name already exists"
  const PERMISSIONS_NOT_FOUND: string := "One or more permissions not found"
  const ROLE_IN_USE: string := "Cannot delete role that is still assigned to users"

  /** `RoleWithPermissions`: the role and its permission rows. */
  datatype RoleView = RoleView(role: Role, permissions: seq<Permission>)

  /** The response body for a role. */
  function View(perms: seq<Permission>, r: Role): (v: RoleView)
    ensures v.role == r
    ensures forall k :: 0 <= k < |v.permissions| ==> v.permissions[k] in perms && v.permissions[k].id in r.permissionIds
    ensures forall k :: 0 <= k < |perms| && perms[k].id in r.permissionIds ==> perms[k] in v.permissions
  {
    RoleView(r, Resolve(perms, r.permissionIds))
  }

  // ---------------------------------------------------------------------
  // Reading
  // ---------------------------------------------------------------------

  /**
   * A role of the caller's organisation, or with `include_system` also any
   * system role. The filter compares with the caller's value, and a caller
   * without one is compared with `IS NULL`: such a caller's organisation
   * is the roles without one.
   */
  predicate Listed(caller: Account, includeSystem: bool, r: Role)
  {
    r.organizationId == caller.organizationId || (includeSystem && r.isSystemRole)
  }

  function ListedBy(caller: Account, includeSystem: bool): Role -> bool
  {
    (r: Role) => Listed(caller, includeSystem, r)
  }

  function ViewIn(perms: seq<Permission>): Role -> RoleView
  {
    (r: Role) => View(perms, r)
  }

  /** `list_roles`: the listed roles in table order, each with its permissions. */
  function ListRoles(roles: seq<Role>, perms: seq<Permission>, caller: Account, includeSystem: bool): (r: seq<RoleView>)
    ensures |r| == Count(roles, ListedBy(caller, includeSystem))
    ensures forall k :: 0 <= k < |r| ==> r[k].role in roles && Listed(caller, includeSystem, r[k].role)
                                         && r[k] == View(perms, r[k].role)
    ensures forall k :: 0 <= k < |roles| && Listed(caller, includeSystem, roles[k]) ==> View(perms, roles[k]) in r
  {
    var chosen := Filter(roles, ListedBy(caller, includeSystem));
    var r := MapSeq(chosen, ViewIn(perms));
    assert forall k :: 0 <= k < |roles| && Listed(caller, includeSystem, roles[k]) ==> roles[k] in chosen;
    forall k | 0 <= k < |roles| && Listed(caller, includeSystem, roles[k]) ensures View(perms, roles[k]) in r {
      var m :| 0 <= m < |chosen| && chosen[m] == roles[k];
      assert r[m] == View(perms, roles[k]);
    }
    r
  }

  /**
   * What `include_system` changes: the listing with it holds every role the
   * listing without it holds, and the system roles besides.
   */
  lemma IncludeSystemAddsOnlySystemRoles(roles: seq<Role>, perms: seq<Permission>, caller: Account)
    ensures forall v :: v in ListRoles(roles, perms, caller, false) ==> v in ListRoles(roles, perms, caller, true)
    ensures forall v :: v in ListRoles(roles, perms, caller, true) && v !in ListRoles(roles, perms, caller, false)
                        ==> v.role.isSystemRole
  {
    var without := ListRoles(roles, perms, caller, false);
    var with := ListRoles(roles, perms, caller, true);
    forall v | v in without ensures v in with {
      var k :| 0 <= k < |without| && without[k] == v;
      var m :| 0 <= m < |roles| && roles[m] == v.role;
      assert Listed(caller, true, roles[m]);
    }
    forall v | v in with && !v.role.isSystemRole ensures v in without {
      var k :| 0 <= k < |with| && with[k] == v;
      var m :| 0 <= m < |roles| && roles[m] == v.role;
      assert Listed(caller, false, roles[m]);
    }
  }

  function VisibleWithKey(caller: Account, id: Id): Role -> bool
  {
    (r: Role) => r.id == id && Listed(caller, true, r)
  }

  /** `get_role`: the role with this key when it is the caller's organisation's or a system role, else 404. */
  function GetRole(roles: seq<Role>, perms: seq<Permission>, caller: Account, id: Id): (r: Result<RoleView>)
    ensures r.Ok? <==> exists k :: 0 <= k < |roles| && roles[k].id == id && Listed(caller, true, roles[k])
    ensures r.Ok? ==> r.value.role in roles && r.value.role.id == id && r.value == View(perms, r.value.role)
    ensures r.Err? ==> r == Err(NOT_FOUND, ROLE_NOT_FOUND)
  {
    var i := FirstMatch(roles, VisibleWithKey(caller, id));
    if i.None? then
      assert forall k :: 0 <= k < |roles| ==> !VisibleWithKey(caller, id)(roles[k]);
      Err(NOT_FOUND, ROLE_NOT_FOUND)
    else
      assert VisibleWithKey(caller, id)(roles[i.value]);
      Ok(View(perms, roles[i.value]))
  }

  /** A single role can be read exactly when it appears in the listing with `include_system`. */
  lemma GetAgreesWithListing(roles: seq<Role>, perms: seq<Permission>, caller: Account, id: Id)
    ensures GetRole(roles, perms, caller, id).Ok?
            <==> exists v :: v in ListRoles(roles, perms, caller, true) && v.role.id == id
  {
    var listing := ListRoles(roles, perms, caller, true);
    if k :| 0 <= k < |roles| && roles[k].id == id && Listed(caller, true, roles[k]) {
      var v := View(perms, roles[k]);
      assert v in listing && v.role.id == id;
    }
  }

  // ---------------------------------------------------------------------
  // Permission keys of a request
  // ---------------------------------------------------------------------

  /**
   * The keys a role is given for `permission_ids`: none for an empty list;
   * otherwise the keys of the rows `Permission.id.in_(ids)` finds, provided
   * there are as many rows as keys (400 otherwise).
   */
  function GrantedKeys(perms: seq<Permission>, ids: seq<Id>): (r: Result<seq<Id>>)
    ensures ids == [] ==> r == Ok([])
    ensures r.Err? ==> r == Err(BAD_REQUEST, PERMISSIONS_NOT_FOUND)
    ensures r.Ok? ==> |r.value| == |ids| && forall k :: 0 <= k < |r.value| ==> r.value[k] in ids
  {
    if ids == [] then Ok([])
    else
      var rows := Resolve(perms, ids);
      if |rows| != |ids| then Err(BAD_REQUEST, PERMISSIONS_NOT_FOUND)
      else Ok(PermissionIds(rows))
  }

  /**
   * With a catalog whose keys are unique, a non-empty request is accepted
   * exactly when its keys are pairwise distinct and all name catalog rows
   * (a repeated key is refused too), and the role then holds exactly the
   * requested keys, each once.
   */
  lemma GrantedKeysAreTheRequested(perms: seq<Permission>, ids: seq<Id>)
    requires PermissionKeysUnique(perms)
    ensures GrantedKeys(perms, ids).Ok? <==> ids == [] || (Distinct(ids) && AllResolve(perms, ids))
    ensures GrantedKeys(perms, ids).Ok? ==> Distinct(GrantedKeys(perms, ids).value)
                                            && KeySet(GrantedKeys(perms, ids).value) == KeySet(ids)
  {
    if ids != [] {
      ResolvesAll(perms, ids);
      ResolvedKeys(perms, ids);
      if GrantedKeys(perms, ids).Ok? {
        AllResolveIffSubset(perms, ids);
      }
    }
  }

  // ---------------------------------------------------------------------
  // Names
  // ---------------------------------------------------------------------

  /** Another role of the organisation (any key but `except`, when given) already has the name. */
  predicate NameTaken(roles: seq<Role>, org: Option<Id>, name: string, except: Option<Id>)
  {
    exists k :: 0 <= k < |roles| && roles[k].organizationId == org && roles[k].name == name
                && (except.None? || roles[k].id != except.value)
  }

  function Clashes(org: Option<Id>, name: string, except: Option<Id>): Role -> bool
  {
    (r: Role) => r.organizationId == org && r.name == name && (except.None? || r.id != except.value)
  }

  /** The name-conflict query of create and update. */
  function NameTakenQuery(roles: seq<Role>, org: Option<Id>, name: string, except: Option<Id>): (r: bool)
    ensures r <==> NameTaken(roles, org, name, except)
  {
    var i := FirstMatch(roles, Clashes(org, name, except));
    if i.Some? then
      assert Clashes(org, name, except)(roles[i.value]);
      true
    else
      assert forall k :: 0 <= k < |roles| ==> !Clashes(org, name, except)(roles[k]);
      false
  }

  /** No two roles of one organisation share a name; the roles without an organisation count as one group. */
  predicate NamesUniquePerOrg(roles: seq<Role>)
  {
    forall a, b :: 0 <= a < b < |roles| && roles[a].organizationId == roles[b].organizationId
                   ==> roles[a].name != roles[b].name
  }

  /** No two roles share a key. */
  predicate RoleKeysUnique(roles: seq<Role>)
  {
    forall a, b :: 0 <= a < b < |roles| ==> roles[a].id != roles[b].id
  }

  // ---------------------------------------------------------------------
  // Create
  // ---------------------------------------------------------------------

  /** The row `create_role` adds: a custom role of the caller's organisation, whatever the body's `organization_id`. */
  function NewRole(id: Id, caller: Account, req: RoleCreate, keys: seq<Id>, now: Moment): (r: Role)
    ensures r.id == id && r.organizationId == caller.organizationId && !r.isSystemRole
    ensures r.name == req.name && r.description == req.description && r.permissionIds == keys
  {
    Role(id, caller.organizationId, req.name, req.description, false, keys, Some(now))
  }

  /**
   * `create_role`: 400 when a role of the caller's organisation has the
   * name, 400 when the permission keys do not all resolve; otherwise the
   * new role is stored and returned with its permissions.
   */
  method CreateRole(d: IdentityDb.Directory, caller: Account, req: RoleCreate, now: Moment) returns (r: Result<RoleView>)
    modifies d`roles
    ensures NameTaken(old(d.roles), caller.organizationId, req.name, None)
            ==> r == Err(BAD_REQUEST, NAME_TAKEN) && d.roles == old(d.roles)
    ensures !NameTaken(old(d.roles), caller.organizationId, req.name, None) ==>
              match GrantedKeys(d.permissions, req.permissionIds)
              case Err(status, detail) => r == Err(status, detail) && d.roles == old(d.roles)
              case Ok(keys) =>
                var role := NewRole(IdentityDb.FreshKey(old(d.roles), IdentityDb.RoleIdOf), caller, req, keys, now);
                d.roles == old(d.roles) + [role] && r == Ok(View(d.permissions, role))
  {
    if NameTakenQuery(d.roles, caller.organizationId, req.name, None) {
      return Err(BAD_REQUEST, NAME_TAKEN);
    }
    var keys := GrantedKeys(d.permissions, req.permissionIds);
    if keys.Err? {
      return Err(keys.status, keys.detail);
    }
    var role := NewRole(IdentityDb.FreshKey(d.roles, IdentityDb.RoleIdOf), caller, req, keys.value, now);
    d.roles := d.roles + [role];
    r := Ok(View(d.permissions, role));
  }

  /** A role created after the name check keeps role names unique per organisation and keys unique. */
  lemma CreateKeepsNamesUnique(roles: seq<Role>, caller: Account, req: RoleCreate, keys: seq<Id>, now: Moment)
    requires NamesUniquePerOrg(roles) && RoleKeysUnique(roles)
    requires !NameTaken(roles, caller.organizationId, req.name, None)
    ensures var after := roles + [NewRole(IdentityDb.FreshKey(roles, IdentityDb.RoleIdOf), caller, req, keys, now)];
            NamesUniquePerOrg(after) && RoleKeysUnique(after)
  {
    var role := NewRole(IdentityDb.FreshKey(roles, IdentityDb.RoleIdOf), caller, req, keys, now);
    var after := roles + [role];
    forall a, b | 0 <= a < b < |after| && after[a].organizationId == after[b].organizationId
      ensures after[a].name != after[b].name
    {
      if b == |roles| {
        assert after[a] == roles[a] && !Clashes(caller.organizationId, req.name, None)(roles[a]);
      } else {
        assert after[a] == roles[a] && after[b] == roles[b];
      }
    }
    forall a, b | 0 <= a < b < |after| ensures after[a].id != after[b].id {
      if b == |roles| {
        assert IdentityDb.RoleIdOf(roles[a]) < role.id;
      } else {
        assert after[a] == roles[a] && after[b] == roles[b];
      }
    }
  }

  // ---------------------------------------------------------------------
  // Update
  // ---------------------------------------------------------------------

  /** A custom role of the caller's organisation: the only kind update and delete touch. */
  predicate Editable(caller: Account, r: Role)
  {
    r.organizationId == caller.organizationId && !r.isSystemRole
  }

  function EditableWithKey(caller: Account, id: Id): Role -> bool
  {
    (r: Role) => r.id == id && Editable(caller, r)
  }

  /** The position of the editable role with this key. */
  function EditableIndex(roles: seq<Role>, caller: Account, id: Id): (r: Option<nat>)
    ensures r.Some? ==> r.value < |roles| && roles[r.value].id == id && Editable(caller, roles[r.value])
    ensures r.None? <==> forall k :: 0 <= k < |roles| ==> !(roles[k].id == id && Editable(caller, roles[k]))
  {
    var i := FirstMatch(roles, EditableWithKey(caller, id));
    if i.None? then
      assert forall k :: 0 <= k < |roles| ==> !EditableWithKey(caller, id)(roles[k]);
      None
    else
      assert EditableWithKey(caller, id)(roles[i.value]);
      i
  }

  /**
   * The role `update_role` leaves: a given name or description replaces
   * the old one (None keeps it), given permission keys replace the old ones
   * (an empty list clears them), and `updated_at` is stamped.
   */
  function Edited(r: Role, upd: RoleUpdate, keys: Option<seq<Id>>, now: Moment): (e: Role)
    ensures e.id == r.id && e.organizationId == r.organizationId && e.isSystemRole == r.isSystemRole
    ensures e.name == (if upd.name.Some? then upd.name.value else r.name)
    ensures e.description == (if upd.description.Some? then upd.description else r.description)
    ensures e.permissionIds == (if keys.Some? then keys.value else r.permissionIds)
    ensures e.updatedAt == Some(now)
  {
    r.(name := if upd.name.Some? then upd.name.value else r.name,
       description := if upd.description.Some? then upd.description else r.description,
       permissionIds := if keys.Some? then keys.value else r.permissionIds,
       updatedAt := Some(now))
  }

  /**
   * `update_role` as a decision: 404 unless the key names an editable
   * role; 400 when a new name is held by another role of the organisation
   * (the role's own name is no conflict); 400 when given permission keys do
   * not all resolve; otherwise the position and the edited role. An error
   * rolls the whole edit back.
   */
  function RoleEdit(roles: seq<Role>, perms: seq<Permission>, caller: Account, id: Id, upd: RoleUpdate, now: Moment)
    : (r: Result<(nat, Role)>)
    ensures EditableIndex(roles, caller, id).None? ==> r == Err(NOT_FOUND, NOT_FOUND_OR_SYSTEM)
    ensures r.Ok? <==> EditableIndex(roles, caller, id).Some?
                       && (upd.name.None? || !NameTaken(roles, caller.organizationId, upd.name.value, Some(id)))
                       && (upd.permissionIds.None? || GrantedKeys(perms, upd.permissionIds.value).Ok?)
    ensures r.Ok? ==> r.value.0 == EditableIndex(roles, caller, id).value
                      && r.value.1 == Edited(roles[r.value.0], upd,
                                             if upd.permissionIds.Some? then Some(GrantedKeys(perms, upd.permissionIds.value).value)
                                             else None, now)
    ensures r.Err? && EditableIndex(roles, caller, id).Some? ==> r.status == BAD_REQUEST
  {
    var i := EditableIndex(roles, caller, id);
    if i.None? then Err(NOT_FOUND, NOT_FOUND_OR_SYSTEM)
    else if upd.name.Some? && NameTakenQuery(roles, caller.organizationId, upd.name.value, Some(id)) then
      Err(BAD_REQUEST, NAME_TAKEN)
    else if upd.permissionIds.None? then Ok((i.value, Edited(roles[i.value], upd, None, now)))
    else
      var keys := GrantedKeys(perms, upd.permissionIds.value);
      if keys.Err? then Err(keys.status, keys.detail)
      else Ok((i.value, Edited(roles[i.value], upd, Some(keys.value), now)))
  }

  /** `update_role`: the decision applied to the table. */
  method UpdateRole(d: IdentityDb.Directory, caller: Account, id: Id, upd: RoleUpdate, now: Moment)
    returns (r: Result<RoleView>)
    modifies d`roles
    ensures match RoleEdit(old(d.roles), d.permissions, caller, id, upd, now)
            case Err(status, detail) => r == Err(status, detail) && d.roles == old(d.roles)
            case Ok(edit) => d.roles == old(d.roles)[edit.0 := edit.1] && r == Ok(View(d.permissions, edit.1))
  {
    var edit := RoleEdit(d.roles, d.permissions, caller, id, upd, now);
    if edit.Err? {
      return Err(edit.status, edit.detail);
    }
    d.roles := d.roles[edit.value.0 := edit.value.1];
    r := Ok(View(d.permissions, edit.value.1));
  }

  /**
   * An edit changes one custom role of the caller's organisation and no
   * other row, so every system role survives it unchanged, and it keeps
   * role names unique per organisation and keys unique.
   */
  lemma EditTouchesOneCustomRole(roles: seq<Role>, perms: seq<Permission>, caller: Account, id: Id, upd: RoleUpdate,
                                 now: Moment)
    requires RoleEdit(roles, perms, caller, id, upd, now).Ok?
    requires NamesUniquePerOrg(roles) && RoleKeysUnique(roles)
    ensures var edit := RoleEdit(roles, perms, caller, id, upd, now).value;
            var after := roles[edit.0 := edit.1];
            !roles[edit.0].isSystemRole && roles[edit.0].organizationId == caller.organizationId
            && (forall k :: 0 <= k < |roles| && k != edit.0 ==> after[k] == roles[k])
            && (forall k :: 0 <= k < |roles| && roles[k].isSystemRole ==> after[k] == roles[k])
            && NamesUniquePerOrg(after) && RoleKeysUnique(after)
  {
    var edit := RoleEdit(roles, perms, caller, id, upd, now).value;
    var i := edit.0;
    var after := roles[i := edit.1];
    forall a, b | 0 <= a < b < |after| && after[a].organizationId == after[b].organizationId
      ensures after[a].name != after[b].name
    {
      if a == i || b == i {
        var other := if a == i then b else a;
        assert after[other] == roles[other] && roles[other].id != id;
        if upd.name.Some? {
          assert !Clashes(caller.organizationId, upd.name.value, Some(id))(roles[other]);
        } else if a == i {
          assert roles[a].name != roles[b].name;
        } else {
          assert roles[a].name != roles[b].name;
        }
      }
    }
  }

  // ---------------------------------------------------------------------
  // Delete
  // ---------------------------------------------------------------------

  function HoldsRole(id: Id): Account -> bool
  {
    (u: Account) => u.roleId == Some(id)
  }

  /** `delete_role` as a decision: 404 unless the key names an editable role, 400 while an account holds it. */
  function RoleRemoval(roles: seq<Role>, users: seq<Account>, caller: Account, id: Id): (r: Result<nat>)
    ensures EditableIndex(roles, caller, id).None? ==> r == Err(NOT_FOUND, NOT_FOUND_OR_SYSTEM)
    ensures r.Ok? <==> EditableIndex(roles, caller, id).Some?
                       && forall k :: 0 <= k < |users| ==> users[k].roleId != Some(id)
    ensures r.Ok? ==> r == Ok(EditableIndex(roles, caller, id).value)
    ensures r.Err? && EditableIndex(roles, caller, id).Some? ==> r == Err(BAD_REQUEST, ROLE_IN_USE)
  {
    var i := EditableIndex(roles, caller, id);
    if i.None? then Err(NOT_FOUND, NOT_FOUND_OR_SYSTEM)
    else
      var holder := FirstMatch(users, HoldsRole(id));
      if holder.Some? then
        assert HoldsRole(id)(users[holder.value]);
        Err(BAD_REQUEST, ROLE_IN_USE)
      else
        assert forall k :: 0 <= k < |users| ==> !HoldsRole(id)(users[k]);
        Ok(i.value)
  }

  /** The table without the row at `i`. */
  function Without(roles: seq<Role>, i: nat): (r: seq<Role>)
    requires i < |roles|
    ensures |r| == |roles| - 1
    ensures forall k :: 0 <= k < |r| ==> r[k] == (if k < i then roles[k] else roles[k + 1])
  {
    roles[..i] + roles[i + 1..]
  }

  /** `delete_role`: the decision applied to the table, with the deleted role's name in the message. */
  method DeleteRole(d: IdentityDb.Directory, caller: Account, id: Id) returns (r: Result<string>)
    modifies d`roles
    ensures match RoleRemoval(old(d.roles), d.users, caller, id)
            case Err(status, detail) => r == Err(status, detail) && d.roles == old(d.roles)
            case Ok(i) => d.roles == Without(old(d.roles), i)
                          && r == Ok("Role '" + old(d.roles)[i].name + "' deleted successfully")
  {
    var removal := RoleRemoval(d.roles, d.users, caller, id);
    if removal.Err? {
      return Err(removal.status, removal.detail);
    }
    var name := d.roles[removal.value].name;
    d.roles := Without(d.roles, removal.value);
    r := Ok("Role '" + name + "' deleted successfully");
  }

  /** Every account's `role_id` names a stored role. */
  predicate RolesOfAccountsExist(users: seq<Account>, roles: seq<Role>)
  {
    forall k :: 0 <= k < |users| && users[k].roleId.Some?
                ==> exists m :: 0 <= m < |roles| && roles[m].id == users[k].roleId.value
  }

  /**
   * Deleting keeps every account's role in place: the deleted role is a
   * custom role of the caller's organisation that no account holds, every
   * system role survives, and with unique keys every account's `role_id`
   * still names a stored role.
   */
  lemma RemovalKeepsHeldRoles(roles: seq<Role>, users: seq<Account>, caller: Account, id: Id)
    requires RoleRemoval(roles, users, caller, id).Ok?
    requires RoleKeysUnique(roles) && RolesOfAccountsExist(users, roles)
    ensures var i := RoleRemoval(roles, users, caller, id).value;
            !roles[i].isSystemRole && roles[i].id == id
            && (forall k :: 0 <= k < |roles| && roles[k].isSystemRole ==> roles[k] in Without(roles, i))
            && RolesOfAccountsExist(users, Without(roles, i))
  {
    var i := RoleRemoval(roles, users, caller, id).value;
    var after := Without(roles, i);
    forall k | 0 <= k < |roles| && k != i ensures roles[k] in after {
      if k < i { assert after[k] == roles[k]; } else { assert after[k - 1] == roles[k]; }
    }
    forall k | 0 <= k < |users| && users[k].roleId.Some?
      ensures exists m :: 0 <= m < |after| && after[m].id == users[k].roleId.value
    {
      var m :| 0 <= m < |roles| && roles[m].id == users[k].roleId.value;
      assert m != i;
      if m < i { assert after[m] == roles[m]; } else { assert after[m - 1] == roles[m]; }
    }
  }

  // ---------------------------------------------------------------------
  // The permission catalog
  // ---------------------------------------------------------------------

  /** Code-point order on text, shorter prefix first. */
  predicate TextLe(a: string, b: string)
  {
    a == [] || (b != [] && (a[0] < b[0] || (a[0] == b[0] && TextLe(a[1..], b[1..]))))
  }

  lemma {:induction false} TextLeTotal(a: string, b: string)
    ensures TextLe(a, b) || TextLe(b, a)
  {
    if a != [] && b != [] && a[0] == b[0] {
      TextLeTotal(a[1..], b[1..]);
    }
  }

  lemma {:induction false} TextLeTransitive(a: string, b: string, c: string)
    requires TextLe(a, b) && TextLe(b, c)
    ensures TextLe(a, c)
  {
    if a != [] && b != [] && c != [] && a[0] == b[0] && b[0] == c[0] {
      TextLeTransitive(a[1..], b[1..], c[1..]);
    }
  }

  lemma {:induction false} TextLeAntisymmetric(a: string, b: string)
    requires TextLe(a, b) && TextLe(b, a)
    ensures a == b
  {
    if a != [] && b != [] {
      TextLeAntisymmetric(a[1..], b[1..]);
      assert a == [a[0]] + a[1..] && b == [b[0]] + b[1..];
    }
  }

  /** `order_by(Permission.resource, Permission.action)`: by resource, then by action. */
  predicate PermissionLe(p: Permission, q: Permission)
  {
    if p.resource == q.resource then TextLe(p.action, q.action) else TextLe(p.resource, q.resource)
  }

  lemma PermissionLeTotal(p: Permission, q: Permission)
    ensures PermissionLe(p, q) || PermissionLe(q, p)
  {
    TextLeTotal(p.action, q.action);
    TextLeTotal(p.resource, q.resource);
  }

  lemma PermissionLeTransitive(p: Permission, q: Permission, s: Permission)
    requires PermissionLe(p, q) && PermissionLe(q, s)
    ensures PermissionLe(p, s)
  {
    if p.resource == q.resource && q.resource == s.resource {
      TextLeTransitive(p.action, q.action, s.action);
    } else if p.resource == q.resource {
      assert TextLe(q.resource, s.resource);
    } else if q.resource == s.resource {
      assert TextLe(p.resource, q.resource);
    } else {
      TextLeTransitive(p.resource, q.resource, s.resource);
      if p.resource == s.resource {
        TextLeAntisymmetric(p.resource, q.resource);
      }
    }
  }

  predicate PermissionsSorted(ps: seq<Permission>)
  {
    forall a, b :: 0 <= a < b < |ps| ==> PermissionLe(ps[a], ps[b])
  }

  function InsertPermission(p: Permission, ps: seq<Permission>): (r: seq<Permission>)
    requires PermissionsSorted(ps)
    ensures PermissionsSorted(r)
    ensures multiset(r) == multiset(ps) + multiset{p}
  {
    if ps == [] then [p]
    else if PermissionLe(p, ps[0]) then
      SortedWithSmallerHead(p, ps);
      [p] + ps
    else
      PermissionLeTotal(p, ps[0]);
      var rest := InsertPermission(p, ps[1..]);
      assert ps == [ps[0]] + ps[1..];
      SortedWithHeadKept(p, ps, rest);
      [ps[0]] + rest
  }

  /** A permission no greater than the head of a sorted list may go in front of it. */
  lemma SortedWithSmallerHead(p: Permission, ps: seq<Permission>)
    requires PermissionsSorted(ps) && ps != [] && PermissionLe(p, ps[0])
    ensures PermissionsSorted([p] + ps)
  {
    var r := [p] + ps;
    forall a, b | 0 <= a < b < |r| ensures PermissionLe(r[a], r[b]) {
      if a == 0 && b > 1 {
        PermissionLeTransitive(p, ps[0], ps[b - 1]);
      }
    }
  }

  /** The head of a sorted list stays in front of the tail with a greater permission inserted. */
  lemma SortedWithHeadKept(p: Permission, ps: seq<Permission>, rest: seq<Permission>)
    requires PermissionsSorted(ps) && ps != [] && PermissionLe(ps[0], p)
    requires PermissionsSorted(rest) && multiset(rest) == multiset(ps[1..]) + multiset{p}
    ensures PermissionsSorted([ps[0]] + rest)
  {
    var r := [ps[0]] + rest;
    forall a, b | 0 <= a < b < |r| ensures PermissionLe(r[a], r[b]) {
      if a == 0 {
        assert rest[b - 1] in multiset(rest);
        assert rest[b - 1] == p || rest[b - 1] in multiset(ps[1..]);
        if rest[b - 1] != p {
          var m :| 0 <= m < |ps[1..]| && ps[1..][m] == rest[b - 1];
          assert ps[m + 1] == rest[b - 1];
        }
      }
    }
  }

  /** `list_all_permissions`: the whole catalog ordered by resource, then action. */
  function ListAllPermissions(perms: seq<Permission>): (r: seq<Permission>)
    ensures PermissionsSorted(r)
    ensures multiset(r) == multiset(perms)
  {
    if perms == [] then []
    else
      assert perms == [perms[0]] + perms[1..];
      InsertPermission(perms[0], ListAllPermissions(perms[1..]))
  }
}
