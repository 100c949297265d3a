/**
 * The tables the identity and administration handlers read and write,
 * held by one session object. Like the scheduling handlers, each handler
 * is a method over a `Directory`; a new row is keyed above every key its
 * table holds (`NextKey`), which stands for `uuid4()`.
 */
module IdentityDb {
  import opened Common
  import opened IdentityModel
  import opened StaffModel
  import opened ClientModel
  import SchedulingDb

  class Directory {
    var organizations: seq<Organization>
    var users: seq<Account>
    var roles: seq<Role>
    var permissions: seq<Permission>
    var sessions: seq<UserSession>
    var events: seq<AuthEvent>
    var history: seq<PasswordHistory>
    var clients: seq<Client>
    var assignments: seq<ClientAssignment>
    var staff: seq<Staff>

    /** A session over the given organisations, accounts, roles and catalog, and otherwise empty tables. */
    constructor (orgs0: seq<Organization>, users0: seq<Account>, roles0: seq<Role>, perms0: seq<Permission>)
      ensures organizations == orgs0 && users == users0 && roles == roles0 && permissions == perms0
      ensures sessions == [] && events == [] && history == [] && clients == [] && assignments == [] && staff == []
    {
      organizations, users, roles, permissions := orgs0, users0, roles0, perms0;
      sessions, events, history, clients, assignments, staff := [], [], [], [], [], [];
    }
  }

  function OrganizationIdOf(o: Organization): Id { o.id }
  function AccountIdOf(u: Account): Id { u.id }
  function RoleIdOf(r: Role): Id { r.id }
  function PermissionKeyOf(p: Permission): Id { p.id }
  function SessionIdOf(s: UserSession): Id { s.id }
  function AuthEventIdOf(e: AuthEvent): Id { e.id }
  function HistoryIdOf(h: PasswordHistory): Id { h.id }
  function ClientIdOf(c: Client): Id { c.id }
  function StaffKeyOf(s: Staff): Id { s.id }

  /** `uuid.uuid4()` for a row of `rows`: a key above every key the table holds. */
  function FreshKey<T>(rows: seq<T>, key: T -> Id): (r: Id)
    ensures forall k :: 0 <= k < |rows| ==> key(rows[k]) < r
  {
    SchedulingDb.NextKey(rows, key)
  }

  /** The row of `auth_audit_logs` a handler adds for a request from `origin`. */
  function NewEvent(id: Id, userId: Option<Id>, action: string, origin: Origin, success: bool,
                    error: Option<string>): (r: AuthEvent)
    ensures r.id == id && r.userId == userId && r.action == action && r.success == success && r.errorMessage == error
    ensures r.ipAddress == origin.host && r.userAgent == origin.userAgent
  {
    AuthEvent(id, userId, action, origin.host, origin.userAgent, success, error)
  }

  /** The position of the account with this key, if any. */
  function AccountIndex(users: seq<Account>, id: Id): (r: Option<nat>)
    ensures r.Some? ==> r.value < |users| && users[r.value].id == id
    ensures r.Some? ==> FindAccount(users, id) == Some(users[r.value])
    ensures r.None? <==> FindAccount(users, id).None?
  {
    var i := FirstMatch(users, AccountKey(id));
    if i.None? then None else Some(i.value)
  }

  /** `current_user.role.is_system_role`, false without a role. */
  predicate HasSystemRole(roles: seq<Role>, u: Account)
  {
    RoleOf(roles, u).Some? && RoleOf(roles, u).value.isSystemRole
  }
}
