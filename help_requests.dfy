/**
 * The staff side of client help requests. A help request is a task row of
 * type "help_request"; staff see and answer them. Who sees which requests
 * depends on the normalised role name (managers see the whole
 * organisation), on the caller's staff record and on its active client
 * assignments.
 *
 * As written every endpoint past the staff gate names `Task.task_type`, a
 * column the task table does not have, and fails with a 500
 * (`EndpointAsWritten`). The rest of this module models the handlers as
 * evidently intended, reading the help-request type from `Task.taskType`.
 */
module HelpRequests {
  import opened Common
  import opened Handlers
  import opened IdentityModel
  import opened ClientModel
  import StaffModel
  import opened DocumentationSchemas
  import opened Tasks

  type Staff = StaffModel.Staff
  type StaffAssignment = StaffModel.StaffAssignment

  const HELP_REQUEST: string := "help_request"
  const CLIENTS_REFUSED: string := "This endpoint is not accessible to clients"
  const HELP_NOT_FOUND: string := "Help request not found"
  const ASSIGNEE_NOT_IN_ORGANIZATION: string := "Assigned user not found in organization"
  const UNKNOWN_CLIENT: string := "Unknown Client"
  const OTHER: string := "other"
  const ALL: string := "all"
  const MANAGER_ROLES: seq<string> :=
    ["super_admin", "organization_admin", "admin", "manager", "hr_manager", "supervisor", "billing_admin"]

  // ---------------------------------------------------------------------
  // Who may ask, and what they see
  // ---------------------------------------------------------------------

  /** `get_staff_user`: a caller whose role name lower-cases to "client" is refused; a caller without a role passes. */
  function StaffGate(role: Option<Role>): (r: Result<()>)
    ensures r.Err? <==> role.Some? && Lower(role.value.name) == "client"
    ensures r.Err? ==> r == Err(FORBIDDEN, CLIENTS_REFUSED)
  {
    if role.Some? && Lower(role.value.name) == "client" then Err(FORBIDDEN, CLIENTS_REFUSED) else Ok(())
  }

  /** Spaces replaced by underscores, everything else kept. */
  function Underscored(s: string): (r: string)
    ensures |r| == |s|
    ensures forall k :: 0 <= k < |s| ==> r[k] == if s[k] == ' ' then '_' else s[k]
  {
    seq(|s|, k requires 0 <= k < |s| => if s[k] == ' ' then '_' else s[k])
  }

  /** The role name lower-cased with its spaces turned into '_'; "" for a caller without a role. */
  function NormalizedRole(role: Option<Role>): (r: string)
    ensures role.None? ==> r == ""
    ensures role.Some? ==> |r| == |role.value.name|
    ensures forall k :: 0 <= k < |r| ==> r[k] != ' ' && !IsUpperAscii(r[k])
  {
    if role.None? then "" else Underscored(Lower(role.value.name))
  }

  predicate IsManager(role: Option<Role>)
  {
    NormalizedRole(role) in MANAGER_ROLES
  }

  /** The seeded "Super Admin" role counts as a manager here. */
  lemma SuperAdminIsManager(role: Role)
    requires role.name == "Super Admin"
    ensures NormalizedRole(Some(role)) == "super_admin" && IsManager(Some(role))
  {
    assert Lower(role.name) == "super admin";
  }

  /** The seeded "Organization Admin" role counts as a manager here. */
  lemma OrganizationAdminIsManager(role: Role)
    requires role.name == "Organization Admin"
    ensures NormalizedRole(Some(role)) == "organization_admin" && IsManager(Some(role))
  {
    assert Lower(role.name) == "organization admin";
  }

  /** The seeded "Support Staff" role is no manager here: it sees only its own clients' requests. */
  lemma SupportStaffIsNotManager(role: Role)
    requires role.name == "Support Staff"
    ensures NormalizedRole(Some(role)) == "support_staff" && !IsManager(Some(role))
  {
    assert Lower(role.name) == "support staff";
  }

  /** A caller without a role is not a manager; one whose role is named like a client's is no manager either. */
  lemma ManagersAreNotClients(role: Option<Role>)
    ensures role.None? ==> !IsManager(role)
    ensures IsManager(role) ==> StaffGate(role).Ok?
  {
    if role.Some? && Lower(role.value.name) == "client" {
      assert NormalizedRole(role) == "client";
    }
  }

  /** The rows a caller's query is narrowed to. */
  datatype Scope =
    | Everyone
    | ClientsOf(ids: seq<Option<Id>>)
    | AssignedTo(userId: Id)
    | NoOne

  /** The caller's staff row, the first whose user is the caller. */
  function StaffRecord(staff: seq<Staff>, userId: Id): (r: Option<Staff>)
    ensures r.Some? ==> r.value in staff && r.value.userId == userId
    ensures r.None? ==> forall k :: 0 <= k < |staff| ==> staff[k].userId != userId
  {
    var i := FirstMatch(staff, (s: Staff) => s.userId == userId);
    if i.None? then None else Some(staff[i.value])
  }

  function ActiveFor(staffId: Id): StaffAssignment -> bool
  {
    (a: StaffAssignment) => a.staffId == staffId && a.isActive
  }

  /** The clients of the staff member's active assignments, an empty client included. */
  function ActiveClientIds(assignments: seq<StaffAssignment>, staffId: Id): (r: seq<Option<Id>>)
    ensures forall x :: x in r <==> exists k :: 0 <= k < |assignments| && ActiveFor(staffId)(assignments[k])
                                              && assignments[k].clientId == x
  {
    var active := Filter(assignments, ActiveFor(staffId));
    var r := MapSeq(active, (a: StaffAssignment) => a.clientId);
    assert forall x :: x in r ==> exists k :: 0 <= k < |active| && active[k].clientId == x;
    r
  }

  /**
   * The narrowing of the counts: managers see everything; other staff the
   * requests of their active clients, or, without any, those assigned to
   * them; a caller without a staff row those assigned to it.
   */
  function CountScope(c: Account, role: Option<Role>, staff: seq<Staff>, assignments: seq<StaffAssignment>)
    : (r: Scope)
    ensures IsManager(role) <==> r.Everyone?
    ensures !r.NoOne?
    ensures r.ClientsOf? ==> r.ids != [] && StaffRecord(staff, c.id).Some?
    ensures r.AssignedTo? ==> r.userId == c.id
  {
    if IsManager(role) then Everyone
    else
      var s := StaffRecord(staff, c.id);
      if s.None? then AssignedTo(c.id)
      else
        var ids := ActiveClientIds(assignments, s.value.id);
        if ids != [] then ClientsOf(ids) else AssignedTo(c.id)
  }

  /** The narrowing of the list: as for the counts, but a staff member without active clients sees nothing. */
  function ListScope(c: Account, role: Option<Role>, staff: seq<Staff>, assignments: seq<StaffAssignment>)
    : (r: Scope)
    ensures r.NoOne? <==> !IsManager(role) && StaffRecord(staff, c.id).Some?
                          && ActiveClientIds(assignments, StaffRecord(staff, c.id).value.id) == []
  {
    if IsManager(role) then Everyone
    else
      var s := StaffRecord(staff, c.id);
      if s.None? then AssignedTo(c.id)
      else
        var ids := ActiveClientIds(assignments, s.value.id);
        if ids != [] then ClientsOf(ids) else NoOne
  }

  /** The two narrowings agree except where the list shows nothing and the counts fall back to the caller's own requests. */
  lemma ScopesDifferOnlyWithoutClients(c: Account, role: Option<Role>, staff: seq<Staff>,
                                       assignments: seq<StaffAssignment>)
    ensures var l := ListScope(c, role, staff, assignments);
            var n := CountScope(c, role, staff, assignments);
            l == n || (l.NoOne? && n == AssignedTo(c.id))
  {
  }

  predicate InScope(t: Task, scope: Scope)
  {
    match scope
    case Everyone => true
    case ClientsOf(ids) => Some(t.clientId) in ids
    case AssignedTo(u) => t.assignedTo == Some(u)
    case NoOne => false
  }

  /** A help request of the caller's organization. */
  predicate HelpRequestOf(t: Task, org: Option<Id>)
  {
    Some(t.organizationId) == org && t.taskType == Some(HELP_REQUEST)
  }

  // ---------------------------------------------------------------------
  // Counts
  // ---------------------------------------------------------------------

  datatype HelpRequestCounts = HelpRequestCounts(pending: nat, inProgress: nat, urgent: nat, totalActive: nat)

  function Visible(org: Option<Id>, scope: Scope): Task -> bool
  {
    (t: Task) => HelpRequestOf(t, org) && InScope(t, scope)
  }

  function VisibleWithStatus(org: Option<Id>, scope: Scope, s: TaskStatus): Task -> bool
  {
    (t: Task) => Visible(org, scope)(t) && t.status == s
  }

  function UrgentOpen(org: Option<Id>, scope: Scope): Task -> bool
  {
    (t: Task) => Visible(org, scope)(t) && t.priority == URGENT
                 && (t.status == TaskStatus.PENDING || t.status == IN_PROGRESS)
  }

  /**
   * `get_help_request_counts`: pending, in progress, and urgent among those
   * two, within the caller's narrowing; the active total is pending plus in
   * progress, and the urgent ones are among them.
   */
  function Counts(rows: seq<Task>, staff: seq<Staff>, assignments: seq<StaffAssignment>, c: Account,
                  role: Option<Role>): (r: Result<HelpRequestCounts>)
    ensures r.Err? <==> StaffGate(role).Err?
    ensures r.Err? ==> r == Err(FORBIDDEN, CLIENTS_REFUSED)
    ensures r.Ok? ==> var scope := CountScope(c, role, staff, assignments);
                      r.value.pending == Count(rows, VisibleWithStatus(c.organizationId, scope, TaskStatus.PENDING))
                      && r.value.inProgress == Count(rows, VisibleWithStatus(c.organizationId, scope, IN_PROGRESS))
                      && r.value.urgent == Count(rows, UrgentOpen(c.organizationId, scope))
    ensures r.Ok? ==> r.value.totalActive == r.value.pending + r.value.inProgress
    ensures r.Ok? ==> r.value.urgent <= r.value.totalActive
  {
    if StaffGate(role).Err? then Err(FORBIDDEN, CLIENTS_REFUSED)
    else
      var scope := CountScope(c, role, staff, assignments);
      var pending := VisibleWithStatus(c.organizationId, scope, TaskStatus.PENDING);
      var inProgress := VisibleWithStatus(c.organizationId, scope, IN_PROGRESS);
      var either := (t: Task) => pending(t) || inProgress(t);
      CountDisjoint(rows, pending, inProgress, either);
      CountNarrower(rows, either, UrgentOpen(c.organizationId, scope));
      var p := Count(rows, pending);
      var i := Count(rows, inProgress);
      Ok(HelpRequestCounts(p, i, Count(rows, UrgentOpen(c.organizationId, scope)), p + i))
  }

  // ---------------------------------------------------------------------
  // The response for one request
  // ---------------------------------------------------------------------

  datatype HelpRequestView = HelpRequestView(
    id: Id,
    clientId: Id,
    clientName: string,
    requestType: string,
    title: string,
    description: string,
    priority: string,
    status: string,
    preferredTime: Option<Moment>,
    assignedTo: Option<Id>,
    assignedToName: Option<string>,
    createdAt: Moment,
    updatedAt: Option<Moment>,
    resolvedAt: Option<Moment>,
    response: Option<string>)

  /**
   * The request type: the "request_type" entry of a non-empty dict of
   * extra data, "other" when there is no such entry or no such dict. A
   * stored entry that is not text fails the response's validation with a
   * 500.
   */
  function RequestType(data: Option<Value>): (r: Result<string>)
    ensures (data.None? || !data.value.VDict? || data.value.entries == []) ==> r == Ok(OTHER)
    ensures data.Some? && data.value.VDict? && !HasKey(data.value.entries, "request_type") ==> r == Ok(OTHER)
    ensures r.Err? ==> r == Err(INTERNAL_ERROR, UNHANDLED)
    ensures data.Some? && data.value.VDict? && UniqueKeys(data.value.entries) ==>
              forall k :: 0 <= k < |data.value.entries| && data.value.entries[k].0 == "request_type" ==>
                r == if data.value.entries[k].1.VStr? then Ok(data.value.entries[k].1.s) else Err(INTERNAL_ERROR, UNHANDLED)
  {
    if data.Some? && data.value.VDict? && data.value.entries != [] then
      var v := if HasKey(data.value.entries, "request_type") then Get(data.value.entries, "request_type") else VStr(OTHER);
      if v.VStr? then Ok(v.s) else Err(INTERNAL_ERROR, UNHANDLED)
    else Ok(OTHER)
  }

  /** The client's full name, or "Unknown Client". */
  function ClientLabel(clients: seq<Client>, id: Id): string
  {
    var i := FirstMatch(clients, ClientWithId(id));
    if i.None? then UNKNOWN_CLIENT else FullName(clients[i.value])
  }

  /** The response for a task: its fields under the help-request names, or a 500 for a request type that is not text. */
  function HelpView(t: Task, clients: seq<Client>, users: seq<Account>): (r: Result<HelpRequestView>)
    ensures r.Ok? <==> RequestType(t.additionalData).Ok?
    ensures r.Err? ==> r == Err(INTERNAL_ERROR, UNHANDLED)
    ensures r.Ok? ==> r.value.id == t.id && r.value.clientId == t.clientId && r.value.status == TaskStatusValue(t.status)
                      && r.value.priority == TaskPriorityValue(t.priority) && r.value.resolvedAt == t.completedAt
                      && r.value.response == t.notes && r.value.preferredTime == t.dueDate
                      && r.value.description == OrEmpty(t.description)
  {
    var kind := RequestType(t.additionalData);
    if kind.Err? then Err(INTERNAL_ERROR, UNHANDLED)
    else
      Ok(HelpRequestView(t.id, t.clientId, ClientLabel(clients, t.clientId), kind.value, t.title, OrEmpty(t.description),
                         TaskPriorityValue(t.priority), TaskStatusValue(t.status), t.dueDate, t.assignedTo,
                         Tasks.UserName(users, t.assignedTo), t.createdAt, t.updatedAt, t.completedAt, t.notes))
  }

  /** The responses for several tasks, or a 500 when any one of them fails. */
  function Views(ts: seq<Task>, clients: seq<Client>, users: seq<Account>): (r: Result<seq<HelpRequestView>>)
    ensures r.Ok? <==> forall k :: 0 <= k < |ts| ==> HelpView(ts[k], clients, users).Ok?
    ensures r.Err? ==> r == Err(INTERNAL_ERROR, UNHANDLED)
    ensures r.Ok? ==> |r.value| == |ts| && forall k :: 0 <= k < |ts| ==> r.value[k] == HelpView(ts[k], clients, users).value
  {
    if ts == [] then Ok([])
    else
      var first := HelpView(ts[0], clients, users);
      var rest := Views(ts[1..], clients, users);
      if first.Err? then Err(INTERNAL_ERROR, UNHANDLED)
      else if rest.Err? then
        assert exists k :: 0 <= k < |ts[1..]| && HelpView(ts[1..][k], clients, users).Err?;
        Err(INTERNAL_ERROR, UNHANDLED)
      else
        assert forall k :: 1 <= k < |ts| ==> ts[k] == ts[1..][k - 1];
        Ok([first.value] + rest.value)
  }

  // ---------------------------------------------------------------------
  // Listing and reading
  // ---------------------------------------------------------------------

  /** The status filter: ignored when absent, empty, "all" or not a status value. */
  function StatusFilter(text: Option<string>): (r: Option<TaskStatus>)
    ensures r.Some? <==> Truthy(text) && text.value != ALL && ParseTaskStatus(text.value).Some?
    ensures r.Some? ==> TaskStatusValue(r.value) == text.value
  {
    if Truthy(text) && text.value != ALL then ParseTaskStatus(text.value) else None
  }

  function Listed(org: Option<Id>, scope: Scope, status: Option<TaskStatus>): Task -> bool
  {
    (t: Task) => Visible(org, scope)(t) && (status.None? || t.status == status.value)
  }

  /** Responses all of the status asked for, and all about the clients of the narrowing when it names clients. */
  predicate ShowsOnly(views: seq<HelpRequestView>, status: Option<TaskStatus>, scope: Scope)
  {
    forall k :: 0 <= k < |views| ==>
      (status.Some? ==> views[k].status == TaskStatusValue(status.value))
      && (scope.ClientsOf? ==> Some(views[k].clientId) in scope.ids)
  }

  /** The sort keys of `order_by(priority.desc(), desc(created_at))`. */
  function HelpOrderKeys(t: Task): seq<int>
  {
    [PriorityRank(t.priority), Stamp(t.createdAt)]
  }

  /** The list order: a higher priority comes first, and at equal priority the newer request. */
  lemma HelpOrder(a: Task, b: Task)
    ensures PriorityRank(a.priority) > PriorityRank(b.priority) ==>
              KeysFirst(HelpOrderKeys(a), HelpOrderKeys(b)) && !KeysFirst(HelpOrderKeys(b), HelpOrderKeys(a))
    ensures a.priority == b.priority ==>
              (KeysFirst(HelpOrderKeys(a), HelpOrderKeys(b)) <==> Stamp(a.createdAt) >= Stamp(b.createdAt))
  {
    var ka, kb := HelpOrderKeys(a), HelpOrderKeys(b);
    assert ka[1..][1..] == [] && kb[1..][1..] == [];
    assert KeysFirst(ka[1..], kb[1..]) <==> Stamp(a.createdAt) >= Stamp(b.createdAt);
    assert KeysFirst(kb[1..], ka[1..]) <==> Stamp(b.createdAt) >= Stamp(a.createdAt);
  }

  /**
   * `.order_by(priority.desc(), desc(created_at)).limit(limit)` of the rows
   * that pass: as many as pass, up to `limit`, in that order; a passing row
   * left out may not come before any row kept.
   */
  function Chosen(rows: seq<Task>, p: Task -> bool, limit: nat): (r: seq<Task>)
    ensures |r| == if Count(rows, p) < limit then Count(rows, p) else limit
    ensures forall k :: 0 <= k < |r| ==> r[k] in rows && p(r[k])
    ensures SortedByKeys(r, HelpOrderKeys)
    ensures forall x, k :: x in rows && p(x) && x !in r && 0 <= k < |r| ==> KeysFirst(HelpOrderKeys(r[k]), HelpOrderKeys(x))
    ensures Count(rows, p) <= limit ==> forall x :: x in rows && p(x) ==> x in r
  {
    var kept := SelectByKeys(rows, p, HelpOrderKeys);
    var r := Take(kept, limit);
    assert forall k :: 0 <= k < |r| ==> r[k] == kept[k];
    TakeSelectByKeysKeepsFirst(rows, p, HelpOrderKeys, limit);
    r
  }

  /** The responses for rows that pass the listing's filter show only what the filter lets through. */
  lemma ViewsShowOnly(ts: seq<Task>, clients: seq<Client>, users: seq<Account>, org: Option<Id>, scope: Scope,
                      status: Option<TaskStatus>)
    requires forall k :: 0 <= k < |ts| ==> Listed(org, scope, status)(ts[k])
    ensures Views(ts, clients, users).Ok? ==> ShowsOnly(Views(ts, clients, users).value, status, scope)
  {
    if Views(ts, clients, users).Err? {
      return;
    }
    var v := Views(ts, clients, users).value;
    forall k | 0 <= k < |v|
      ensures (status.Some? ==> v[k].status == TaskStatusValue(status.value))
              && (scope.ClientsOf? ==> Some(v[k].clientId) in scope.ids)
    {
      assert v[k] == HelpView(ts[k], clients, users).value;
      assert Listed(org, scope, status)(ts[k]);
      assert Visible(org, scope)(ts[k]);
      assert InScope(ts[k], scope) && v[k].clientId == ts[k].clientId;
    }
  }

  /**
   * `get_help_requests`: nothing for a staff member without active
   * clients; otherwise at most `limit` of the visible requests that pass
   * the status filter, each shown as a response. A negative limit is
   * refused by the database with a 500.
   */
  function ListHelpRequests(rows: seq<Task>, clients: seq<Client>, users: seq<Account>, staff: seq<Staff>,
                            assignments: seq<StaffAssignment>, c: Account, role: Option<Role>,
                            statusText: Option<string>, limit: int): (r: Result<seq<HelpRequestView>>)
    ensures StaffGate(role).Err? ==> r == Err(FORBIDDEN, CLIENTS_REFUSED)
    ensures StaffGate(role).Ok? && ListScope(c, role, staff, assignments).NoOne? ==> r == Ok([])
    ensures StaffGate(role).Ok? && !ListScope(c, role, staff, assignments).NoOne? && limit < 0 ==>
              r == Err(INTERNAL_ERROR, UNHANDLED)
    ensures r.Ok? && limit >= 0 ==> |r.value| <= limit
    ensures r.Ok? ==> ShowsOnly(r.value, StatusFilter(statusText), ListScope(c, role, staff, assignments))
    ensures StaffGate(role).Ok? && !ListScope(c, role, staff, assignments).NoOne? && limit >= 0 ==>
              r == Views(Chosen(rows, Listed(c.organizationId, ListScope(c, role, staff, assignments), StatusFilter(statusText)),
                                limit), clients, users)
  {
    if StaffGate(role).Err? then Err(FORBIDDEN, CLIENTS_REFUSED)
    else
      var scope := ListScope(c, role, staff, assignments);
      if scope.NoOne? then Ok([])
      else if limit < 0 then Err(INTERNAL_ERROR, UNHANDLED)
      else
        var status := StatusFilter(statusText);
        var chosen := Chosen(rows, Listed(c.organizationId, scope, status), limit);
        var r := Views(chosen, clients, users);
        ViewsShowOnly(chosen, clients, users, c.organizationId, scope, status);
        r
  }

  /** A status filter that is not a status value lists what no filter lists. */
  lemma UnknownStatusIsIgnored(rows: seq<Task>, clients: seq<Client>, users: seq<Account>, staff: seq<Staff>,
                               assignments: seq<StaffAssignment>, c: Account, role: Option<Role>, text: string,
                               limit: int)
    requires ParseTaskStatus(text).None? || text == ALL
    ensures ListHelpRequests(rows, clients, users, staff, assignments, c, role, Some(text), limit)
            == ListHelpRequests(rows, clients, users, staff, assignments, c, role, None, limit)
  {
    assert StatusFilter(Some(text)) == StatusFilter(None);
  }

  /**
   * A staff member with a staff row and no active clients sees a badge
   * for a pending request assigned to it, and an empty list.
   */
  lemma BadgeWithoutList(rows: seq<Task>, clients: seq<Client>, users: seq<Account>, staff: seq<Staff>,
                         assignments: seq<StaffAssignment>, c: Account, role: Option<Role>, statusText: Option<string>,
                         limit: int, k: nat)
    requires StaffGate(role).Ok? && !IsManager(role)
    requires StaffRecord(staff, c.id).Some? && ActiveClientIds(assignments, StaffRecord(staff, c.id).value.id) == []
    requires k < |rows| && HelpRequestOf(rows[k], c.organizationId) && rows[k].assignedTo == Some(c.id)
    requires rows[k].status == TaskStatus.PENDING
    ensures Counts(rows, staff, assignments, c, role).Ok?
    ensures Counts(rows, staff, assignments, c, role).value.pending >= 1
    ensures ListHelpRequests(rows, clients, users, staff, assignments, c, role, statusText, limit) == Ok([])
  {
    var scope := CountScope(c, role, staff, assignments);
    assert scope == AssignedTo(c.id);
    assert Visible(c.organizationId, scope)(rows[k]);
    CountWitness(rows, VisibleWithStatus(c.organizationId, scope, TaskStatus.PENDING), k);
  }

  /** The organization's help request with that id. */
  function HelpWithId(id: Id, org: Option<Id>): Task -> bool
  {
    (t: Task) => t.id == id && HelpRequestOf(t, org)
  }

  /**
   * `get_help_request`: any help request of the organization, whatever the
   * caller's narrowing; 404 when there is none with that id.
   */
  function GetHelpRequest(rows: seq<Task>, clients: seq<Client>, users: seq<Account>, c: Account, role: Option<Role>,
                          id: Id): (r: Result<HelpRequestView>)
    ensures StaffGate(role).Err? ==> r == Err(FORBIDDEN, CLIENTS_REFUSED)
    ensures StaffGate(role).Ok? && FirstMatch(rows, HelpWithId(id, c.organizationId)).None? ==>
              r == Err(NOT_FOUND, HELP_NOT_FOUND)
    ensures r.Ok? ==> r.value.id == id && exists k :: 0 <= k < |rows| && HelpWithId(id, c.organizationId)(rows[k])
  {
    if StaffGate(role).Err? then Err(FORBIDDEN, CLIENTS_REFUSED)
    else
      var i := FirstMatch(rows, HelpWithId(id, c.organizationId));
      if i.None? then Err(NOT_FOUND, HELP_NOT_FOUND) else HelpView(rows[i.value], clients, users)
  }

  // ---------------------------------------------------------------------
  // Answering
  // ---------------------------------------------------------------------

  datatype HelpRequestUpdate = HelpRequestUpdate(status: Option<string>, response: Option<string>, assignedTo: Option<Id>)

  /**
   * The checks of `update_help_request`, in order: the request must be of
   * the caller's organization (404), a given status must be a status value
   * (400), a given assignee must be a user of the organization (400). On
   * success, the position of the request and the status to set.
   */
  function HelpUpdateChecks(rows: seq<Task>, users: seq<Account>, c: Account, id: Id, u: HelpRequestUpdate)
    : (r: Result<(nat, Option<TaskStatus>)>)
    ensures FirstMatch(rows, HelpWithId(id, c.organizationId)).None? ==> r == Err(NOT_FOUND, HELP_NOT_FOUND)
    ensures (FirstMatch(rows, HelpWithId(id, c.organizationId)).Some? && Truthy(u.status)
             && ParseTaskStatus(u.status.value).None?) ==> r == Err(BAD_REQUEST, "Invalid status: " + u.status.value)
    ensures r.Ok? <==> FirstMatch(rows, HelpWithId(id, c.organizationId)).Some?
                       && (!Truthy(u.status) || ParseTaskStatus(u.status.value).Some?)
                       && (u.assignedTo.None? ||
                           FirstMatch(users, UserInOrganization(u.assignedTo.value, c.organizationId)).Some?)
    ensures r.Ok? ==> r.value.0 == FirstMatch(rows, HelpWithId(id, c.organizationId)).value
    ensures r.Ok? ==> (r.value.1.Some? <==> Truthy(u.status))
                      && (r.value.1.Some? ==> TaskStatusValue(r.value.1.value) == u.status.value)
  {
    var i := FirstMatch(rows, HelpWithId(id, c.organizationId));
    if i.None? then Err(NOT_FOUND, HELP_NOT_FOUND)
    else
      var s := if Truthy(u.status) then ParseTaskStatus(u.status.value) else None;
      if Truthy(u.status) && s.None? then Err(BAD_REQUEST, "Invalid status: " + u.status.value)
      else if u.assignedTo.Some? && FirstMatch(users, UserInOrganization(u.assignedTo.value, c.organizationId)).None? then
        Err(BAD_REQUEST, ASSIGNEE_NOT_IN_ORGANIZATION)
      else Ok((i.value, s))
  }

  /**
   * An answered request: the status when given, stamped resolved whenever
   * it is set to completed (again or not), the response as its notes, the
   * assignee when given, and `updated_at` always.
   */
  function ApplyHelpUpdate(t: Task, status: Option<TaskStatus>, u: HelpRequestUpdate, now: Moment): (r: Task)
    ensures r.id == t.id && r.clientId == t.clientId && r.organizationId == t.organizationId
    ensures r.taskType == t.taskType && r.title == t.title && r.priority == t.priority && r.dueDate == t.dueDate
    ensures r.createdAt == t.createdAt && r.createdBy == t.createdBy && r.additionalData == t.additionalData
    ensures r.updatedAt == Some(now)
    ensures status == Some(COMPLETED) ==> r.status == COMPLETED && r.completedAt == Some(now)
    ensures status != Some(COMPLETED) ==> r.completedAt == t.completedAt
    ensures u.response.None? ==> r.notes == t.notes
  {
    t.(status := if status.Some? then status.value else t.status,
       completedAt := if status == Some(COMPLETED) then Some(now) else t.completedAt,
       notes := if u.response.Some? then u.response else t.notes,
       assignedTo := if u.assignedTo.Some? then u.assignedTo else t.assignedTo,
       updatedAt := Some(now))
  }

  /**
   * Unlike a task update, answering a completed request with another
   * status keeps its resolution time, so status and completion time fall
   * out of step; and completing it again moves the resolution time.
   */
  lemma ReopeningKeepsResolution(t: Task, s: TaskStatus, u: HelpRequestUpdate, now: Moment)
    requires CompletionConsistent(t) && t.status == COMPLETED && s != COMPLETED
    ensures !CompletionConsistent(ApplyHelpUpdate(t, Some(s), u, now))
    ensures ApplyHelpUpdate(t, Some(COMPLETED), u, now).completedAt == Some(now)
  {
  }

  /** Completing a request from any status leaves it consistent. */
  lemma CompletingIsConsistent(t: Task, u: HelpRequestUpdate, now: Moment)
    ensures CompletionConsistent(ApplyHelpUpdate(t, Some(COMPLETED), u, now))
  {
  }

  /**
   * `update_help_request`. Past the staff gate and the checks, only the
   * request found changes, to its answered form, and the response is built
   * from it. No narrowing applies: any staff member of the organization may
   * answer any of its requests.
   */
  method UpdateHelpRequest(board: TaskBoard, c: Account, role: Option<Role>, id: Id, u: HelpRequestUpdate,
                           clients: seq<Client>, users: seq<Account>, now: Moment) returns (r: Result<HelpRequestView>)
    modifies board
    ensures StaffGate(role).Err? ==> r == Err(FORBIDDEN, CLIENTS_REFUSED) && board.tasks == old(board.tasks)
    ensures StaffGate(role).Ok? ==>
              var chk := HelpUpdateChecks(old(board.tasks), users, c, id, u);
              (chk.Err? ==> r == Err(chk.status, chk.detail) && board.tasks == old(board.tasks))
              && (chk.Ok? ==>
                    var t := ApplyHelpUpdate(old(board.tasks)[chk.value.0], chk.value.1, u, now);
                    board.tasks == old(board.tasks)[chk.value.0 := t] && r == HelpView(t, clients, users))
  {
    if StaffGate(role).Err? {
      return Err(FORBIDDEN, CLIENTS_REFUSED);
    }
    var chk := HelpUpdateChecks(board.tasks, users, c, id, u);
    if chk.Err? {
      return Err(chk.status, chk.detail);
    }
    var t := ApplyHelpUpdate(board.tasks[chk.value.0], chk.value.1, u, now);
    board.tasks := board.tasks[chk.value.0 := t];
    r := HelpView(t, clients, users);
  }

  // ---------------------------------------------------------------------
  // As written
  // ---------------------------------------------------------------------

  /**
   * Every help-request endpoint as written: past the staff gate, its query
   * names `Task.task_type`, which the task model does not define, and the
   * request ends in an unhandled 500 before any row is read or written.
   */
  function EndpointAsWritten<T>(role: Option<Role>): (r: Result<T>)
    ensures r.Err?
    ensures StaffGate(role).Err? ==> r == Err(FORBIDDEN, CLIENTS_REFUSED)
    ensures StaffGate(role).Ok? ==> r == Err(INTERNAL_ERROR, UNHANDLED)
  {
    if StaffGate(role).Err? then Err(FORBIDDEN, CLIENTS_REFUSED) else Err(INTERNAL_ERROR, UNHANDLED)
  }

  /**
   * A manager whose organization has a pending help request is told of it
   * by the corrected counts, while every endpoint as written answers 500.
   */
  lemma PendingRequestUnseenAsWritten(rows: seq<Task>, staff: seq<Staff>, assignments: seq<StaffAssignment>,
                                      c: Account, role: Option<Role>, k: nat)
    requires IsManager(role)
    requires k < |rows| && HelpRequestOf(rows[k], c.organizationId) && rows[k].status == TaskStatus.PENDING
    ensures EndpointAsWritten<HelpRequestCounts>(role) == Err(INTERNAL_ERROR, UNHANDLED)
    ensures Counts(rows, staff, assignments, c, role).Ok?
    ensures Counts(rows, staff, assignments, c, role).value.pending >= 1
  {
    ManagersAreNotClients(role);
    var scope := CountScope(c, role, staff, assignments);
    assert scope == Everyone;
    assert Visible(c.organizationId, scope)(rows[k]);
    CountWitness(rows, VisibleWithStatus(c.organizationId, scope, TaskStatus.PENDING), k);
  }
}
