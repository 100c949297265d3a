/**
 * Care tasks: creating one for a client of the caller's organization,
 * listing them with filters, reading, updating (with the rule that keeps
 * `completed_at` in step with the status), deleting, and the summary
 * counts with the completion rate. Every handler runs inside a catch-all,
 * so its own 400s and 404s reach the client as 500s.
 */
module Tasks {
  import opened Common
  import opened DocumentationSchemas
  import opened Handlers
  import opened IdentityModel
  import opened ClientModel
  import SchedulingDb

  /**
   * A row of `tasks`. `taskType` is not a column of the table: it is the
   * column the help-request handlers query, kept here so that their
   * corrected model has somewhere to look; the handlers of this module
   * leave it empty.
   */
  datatype Task = Task(
    id: Id,
    clientId: Id,
    organizationId: Id,
    assignedTo: Option<Id>,
    createdBy: Id,
    title: string,
    description: Option<string>,
    priority: TaskPriority,
    status: TaskStatus,
    dueDate: Option<Moment>,
    completedAt: Option<Moment>,
    notes: Option<string>,
    additionalData: Option<Value>,
    createdAt: Moment,
    updatedAt: Option<Moment>,
    taskType: Option<string>)

  function TaskIdOf(t: Task): Id { t.id }

  /** The invariant the status rule keeps: a completion time exactly when the task is completed. */
  predicate CompletionConsistent(t: Task)
  {
    t.status == COMPLETED <==> t.completedAt.Some?
  }

  /** Overdue as the handlers count it: due before `now` and still pending or in progress. */
  predicate Overdue(t: Task, now: Moment)
  {
    t.dueDate.Some? && Stamp(t.dueDate.value) < Stamp(now) && (t.status == TaskStatus.PENDING || t.status == IN_PROGRESS)
  }

  /** A task whose status is OVERDUE is not counted overdue, and a completed one never is. */
  lemma OverdueIgnoresOverdueStatus(t: Task, now: Moment)
    ensures t.status == OVERDUE ==> !Overdue(t, now)
    ensures t.status == COMPLETED ==> !Overdue(t, now)
  {
  }

  // ---------------------------------------------------------------------
  // What a handler answers
  // ---------------------------------------------------------------------

  const UNKNOWN: string := "Unknown"

  /** A task with the names of its client, its assignee and its creator. */
  datatype TaskView = TaskView(task: Task, clientName: string, assignedToName: Option<string>, createdByName: string)

  function ClientWithId(id: Id): Client -> bool { (k: Client) => k.id == id }
  function UserWithId(id: Id): Account -> bool { (u: Account) => u.id == id }

  /** The client's full name, or "Unknown" when there is no client with that id. */
  function ClientName(clients: seq<Client>, id: Id): (r: string)
    ensures r == UNKNOWN <==> FirstMatch(clients, ClientWithId(id)).None?
  {
    var i := FirstMatch(clients, ClientWithId(id));
    if i.None? then UNKNOWN
    else
      var name := FullName(clients[i.value]);
      assert name[|clients[i.value].firstName|] == ' ';
      assert ' ' !in UNKNOWN;
      name
  }

  /** The user's full name, when there is a user with that id. */
  function UserName(users: seq<Account>, id: Option<Id>): (r: Option<string>)
    ensures r.Some? <==> id.Some? && FirstMatch(users, UserWithId(id.value)).Some?
  {
    if id.None? then None
    else
      var i := FirstMatch(users, UserWithId(id.value));
      if i.None? then None else Some(AccountName(users[i.value]))
  }

  /** The response of the read, update and list handlers for one task. */
  function ViewOf(t: Task, clients: seq<Client>, users: seq<Account>): (r: TaskView)
    ensures r.task == t
    ensures r.assignedToName.Some? ==> t.assignedTo.Some?
  {
    var creator := UserName(users, Some(t.createdBy));
    TaskView(t, ClientName(clients, t.clientId), UserName(users, t.assignedTo),
             if creator.Some? then creator.value else UNKNOWN)
  }

  // ---------------------------------------------------------------------
  // Creating
  // ---------------------------------------------------------------------

  const CREATE_FAILED: string := "Failed to create task"
  const LIST_FAILED: string := "Failed to retrieve tasks"
  const GET_FAILED: string := "Failed to retrieve task"
  const UPDATE_FAILED: string := "Failed to update task"
  const DELETE_FAILED: string := "Failed to delete task"
  const TASK_NOT_FOUND: string := "Task not found"
  const CLIENT_NOT_FOUND: string := "Client not found"
  const ASSIGNEE_NOT_FOUND: string := "Assigned user not found"
  const TASK_DELETED: string := "Task deleted successfully"

  /** A client of the caller's organization (a caller without one matches none: the column is NOT NULL). */
  function ClientInOrganization(id: Id, org: Option<Id>): Client -> bool
  {
    (k: Client) => k.id == id && org == Some(k.organizationId)
  }

  /** A user of the caller's organization. */
  function UserInOrganization(id: Id, org: Option<Id>): Account -> bool
  {
    (u: Account) => u.id == id && u.organizationId == org
  }

  /**
   * The checks of `create_task`, in order: the client must belong to the
   * caller's organization, then a named assignee must too. An empty
   * assignee skips its check and fails at the commit. The found client and
   * assignee are handed on.
   */
  function CreateChecks(c: Account, body: TaskCreate, clients: seq<Client>, users: seq<Account>, dbMessage: string)
    : (r: Result<(Client, Option<Account>)>)
    ensures r.Ok? <==> FirstMatch(clients, ClientInOrganization(body.clientId, c.organizationId)).Some?
                       && !body.assignedTo.Blank?
                       && (body.assignedTo.UserId? ==>
                             FirstMatch(users, UserInOrganization(body.assignedTo.id, c.organizationId)).Some?)
    ensures FirstMatch(clients, ClientInOrganization(body.clientId, c.organizationId)).None? ==>
              r == Caught(CREATE_FAILED, NOT_FOUND, CLIENT_NOT_FOUND)
    ensures r.Err? ==> r.status == INTERNAL_ERROR
    ensures r.Ok? ==> r.value.0.id == body.clientId && c.organizationId == Some(r.value.0.organizationId)
    ensures r.Ok? ==> (r.value.1.Some? <==> body.assignedTo.UserId?)
    ensures r.Ok? && r.value.1.Some? ==> r.value.1.value.id == body.assignedTo.id
                                         && r.value.1.value.organizationId == c.organizationId
  {
    var k := FirstMatch(clients, ClientInOrganization(body.clientId, c.organizationId));
    if k.None? then Caught(CREATE_FAILED, NOT_FOUND, CLIENT_NOT_FOUND)
    else if body.assignedTo.UserId? then
      var u := FirstMatch(users, UserInOrganization(body.assignedTo.id, c.organizationId));
      if u.None? then Caught(CREATE_FAILED, NOT_FOUND, ASSIGNEE_NOT_FOUND)
      else Ok((clients[k.value], Some(users[u.value])))
    else if body.assignedTo.Blank? then Err(INTERNAL_ERROR, CREATE_FAILED + ": " + dbMessage)
    else Ok((clients[k.value], None))
  }

  /** The row `create_task` adds: pending, not completed, created now by the caller. */
  function NewTask(id: Id, organizationId: Id, c: Account, body: TaskCreate, now: Moment): (r: Task)
    requires !body.assignedTo.Blank?
    ensures r.status == TaskStatus.PENDING && r.completedAt.None? && CompletionConsistent(r)
    ensures r.createdBy == c.id && r.createdAt == now && r.updatedAt.None? && r.taskType.None?
    ensures r.assignedTo == if body.assignedTo.UserId? then Some(body.assignedTo.id) else None
  {
    Task(id, body.clientId, organizationId, if body.assignedTo.UserId? then Some(body.assignedTo.id) else None,
         c.id, body.title, body.description, body.priority, TaskStatus.PENDING, body.dueDate, None, None, None,
         now, None, None)
  }

  // ---------------------------------------------------------------------
  // Listing
  // ---------------------------------------------------------------------

  /** The query parameters of `get_tasks`. */
  datatype TaskQuery = TaskQuery(
    clientId: Option<Id>,
    assignedTo: Option<Id>,
    status: Option<string>,
    priority: Option<string>,
    dueFrom: Option<Day>,
    dueTo: Option<Day>,
    overdueOnly: bool,
    limit: int,
    offset: int)

  /** The `status` and `priority` parameters read as filters; the first bad one raises a 400 naming it. */
  function TaskFilters(status: Option<string>, priority: Option<string>)
    : (r: Result<(Option<TaskStatus>, Option<TaskPriority>)>)
    ensures r.Ok? <==> (!Truthy(status) || ParseTaskStatus(status.value).Some?)
                       && (!Truthy(priority) || ParseTaskPriority(priority.value).Some?)
    ensures Truthy(status) && ParseTaskStatus(status.value).None? ==>
              r == Err(BAD_REQUEST, "Invalid task status: " + status.value)
    ensures r.Err? && !(Truthy(status) && ParseTaskStatus(status.value).None?) ==>
              r == Err(BAD_REQUEST, "Invalid task priority: " + priority.value)
    ensures r.Ok? ==> (r.value.0.Some? <==> Truthy(status))
                      && (r.value.0.Some? ==> TaskStatusValue(r.value.0.value) == status.value)
    ensures r.Ok? ==> (r.value.1.Some? <==> Truthy(priority))
                      && (r.value.1.Some? ==> TaskPriorityValue(r.value.1.value) == priority.value)
  {
    var s := if Truthy(status) then ParseTaskStatus(status.value) else None;
    var p := if Truthy(priority) then ParseTaskPriority(priority.value) else None;
    if Truthy(status) && s.None? then Err(BAD_REQUEST, "Invalid task status: " + status.value)
    else if Truthy(priority) && p.None? then Err(BAD_REQUEST, "Invalid task priority: " + priority.value)
    else Ok((s, p))
  }

  /** The tasks of the caller's organization, narrowed by a client and an assignee when given. */
  function Scoped(c: Account, clientId: Option<Id>, assignedTo: Option<Id>): Task -> bool
  {
    (t: Task) => Some(t.organizationId) == c.organizationId
                 && (clientId.None? || t.clientId == clientId.value)
                 && (assignedTo.None? || t.assignedTo == assignedTo)
  }

  /** `func.date(due_date)` between the bounds given; a task without a due date passes no bound. */
  predicate DueWithin(t: Task, from: Option<Day>, to: Option<Day>)
  {
    (from.None? || (t.dueDate.Some? && DayNumber(t.dueDate.value.date) >= DayNumber(from.value)))
    && (to.None? || (t.dueDate.Some? && DayNumber(t.dueDate.value.date) <= DayNumber(to.value)))
  }

  /** The rows `get_tasks` selects. */
  function Selected(c: Account, q: TaskQuery, status: Option<TaskStatus>, priority: Option<TaskPriority>, now: Moment)
    : Task -> bool
  {
    (t: Task) => Scoped(c, q.clientId, q.assignedTo)(t)
                 && (status.None? || t.status == status.value)
                 && (priority.None? || t.priority == priority.value)
                 && DueWithin(t, q.dueFrom, q.dueTo)
                 && (!q.overdueOnly || Overdue(t, now))
  }

  /** The place of a priority in the database enum, which follows the declaration: LOW first, URGENT last. */
  function PriorityRank(p: TaskPriority): (r: int)
    ensures 0 <= r <= 3
    ensures p == TaskPriority.URGENT <==> r == 3
    ensures p == TaskPriority.LOW <==> r == 0
  {
    match p
    case LOW => 0
    case MEDIUM => 1
    case HIGH => 2
    case URGENT => 3
  }

  /**
   * The sort keys of `order_by(priority.desc(), due_date.asc(),
   * created_at.desc())`, each written so that the larger sorts first. An
   * ascending PostgreSQL sort puts a missing due date after every date.
   */
  function ListOrderKeys(t: Task): seq<int>
  {
    [PriorityRank(t.priority),
     if t.dueDate.Some? then 1 else 0,
     if t.dueDate.Some? then -Stamp(t.dueDate.value) else 0,
     Stamp(t.createdAt)]
  }

  /** Four sort keys compared column by column. */
  lemma KeysFirstOfFour(a: seq<int>, b: seq<int>)
    requires |a| == 4 && |b| == 4
    ensures KeysFirst(a, b) <==>
              a[0] > b[0] || (a[0] == b[0] && (a[1] > b[1] || (a[1] == b[1] && (a[2] > b[2] || (a[2] == b[2] && a[3] >= b[3])))))
  {
    var a1, b1 := a[1..], b[1..];
    var a2, b2 := a1[1..], b1[1..];
    var a3, b3 := a2[1..], b2[1..];
    assert a3[1..] == [] && b3[1..] == [];
    assert KeysFirst(a3, b3) <==> a[3] >= b[3];
    assert KeysFirst(a2, b2) <==> a[2] > b[2] || (a[2] == b[2] && a[3] >= b[3]);
    assert KeysFirst(a1, b1) <==> a[1] > b[1] || (a[1] == b[1] && (a[2] > b[2] || (a[2] == b[2] && a[3] >= b[3])));
  }

  /**
   * The list order: a higher priority comes first; at equal priority an
   * earlier due date comes first and a task without one comes last; at
   * equal priority and due date the newer task comes first.
   */
  lemma ListOrder(a: Task, b: Task)
    ensures PriorityRank(a.priority) > PriorityRank(b.priority) ==>
              KeysFirst(ListOrderKeys(a), ListOrderKeys(b)) && !KeysFirst(ListOrderKeys(b), ListOrderKeys(a))
    ensures a.priority == b.priority && a.dueDate.Some? && b.dueDate.None? ==>
              KeysFirst(ListOrderKeys(a), ListOrderKeys(b)) && !KeysFirst(ListOrderKeys(b), ListOrderKeys(a))
    ensures a.priority == b.priority && a.dueDate.Some? && b.dueDate.Some?
            && Stamp(a.dueDate.value) < Stamp(b.dueDate.value) ==>
              KeysFirst(ListOrderKeys(a), ListOrderKeys(b)) && !KeysFirst(ListOrderKeys(b), ListOrderKeys(a))
    ensures a.priority == b.priority && a.dueDate == b.dueDate ==>
              (KeysFirst(ListOrderKeys(a), ListOrderKeys(b)) <==> Stamp(a.createdAt) >= Stamp(b.createdAt))
  {
    KeysFirstOfFour(ListOrderKeys(a), ListOrderKeys(b));
    KeysFirstOfFour(ListOrderKeys(b), ListOrderKeys(a));
  }

  /**
   * `get_tasks`: a bad status or priority reaches the client as a 500, and
   * so does a negative limit or offset, which the database refuses.
   * Otherwise the window asked for of the selected tasks, each with its
   * names; every one is of the caller's organization and passes every
   * filter given.
   */
  function ListTasks(rows: seq<Task>, clients: seq<Client>, users: seq<Account>, c: Account, q: TaskQuery,
                     dbMessage: string, now: Moment): (r: Result<seq<TaskView>>)
    requires q.limit <= 100
    ensures TaskFilters(q.status, q.priority).Err? ==>
              var f := TaskFilters(q.status, q.priority); r == Caught(LIST_FAILED, f.status, f.detail)
    ensures TaskFilters(q.status, q.priority).Ok? && (q.limit < 0 || q.offset < 0) ==>
              r == Err(INTERNAL_ERROR, LIST_FAILED + ": " + dbMessage)
    ensures r.Ok? <==> TaskFilters(q.status, q.priority).Ok? && q.limit >= 0 && q.offset >= 0
    ensures r.Ok? ==> |r.value| <= q.limit
    ensures r.Ok? ==> var f := TaskFilters(q.status, q.priority).value;
                      forall k :: 0 <= k < |r.value| ==>
                        Selected(c, q, f.0, f.1, now)(r.value[k].task) && r.value[k].task in rows
    ensures r.Ok? ==> var f := TaskFilters(q.status, q.priority).value;
                      r.value == MapSeq(Window(SelectByKeys(rows, Selected(c, q, f.0, f.1, now), ListOrderKeys),
                                               q.offset, q.limit), (t: Task) => ViewOf(t, clients, users))
    ensures r.Ok? ==> forall i, j :: 0 <= i < j < |r.value| ==>
                        KeysFirst(ListOrderKeys(r.value[i].task), ListOrderKeys(r.value[j].task))
  {
    var f := TaskFilters(q.status, q.priority);
    if f.Err? then Caught(LIST_FAILED, f.status, f.detail)
    else if q.limit < 0 || q.offset < 0 then Err(INTERNAL_ERROR, LIST_FAILED + ": " + dbMessage)
    else
      var p := Selected(c, q, f.value.0, f.value.1, now);
      var window := Window(SelectByKeys(rows, p, ListOrderKeys), q.offset, q.limit);
      Ok(MapSeq(window, (t: Task) => ViewOf(t, clients, users)))
  }

  /** With `overdue_only` every listed task is overdue, so none of them is completed. */
  lemma OverdueOnlyListsOpenTasks(rows: seq<Task>, clients: seq<Client>, users: seq<Account>, c: Account,
                                  q: TaskQuery, dbMessage: string, now: Moment)
    requires q.limit <= 100 && q.overdueOnly
    requires ListTasks(rows, clients, users, c, q, dbMessage, now).Ok?
    ensures var r := ListTasks(rows, clients, users, c, q, dbMessage, now).value;
            forall k :: 0 <= k < |r| ==> Overdue(r[k].task, now) && r[k].task.status != COMPLETED
  {
  }

  // ---------------------------------------------------------------------
  // Reading
  // ---------------------------------------------------------------------

  /** The caller's organization's task with that id. */
  function TaskInOrganization(id: Id, org: Option<Id>): Task -> bool
  {
    (t: Task) => t.id == id && Some(t.organizationId) == org
  }

  /** `get_task`: the task with its names, or a 404 reported as a 500. */
  function GetTask(rows: seq<Task>, clients: seq<Client>, users: seq<Account>, c: Account, id: Id)
    : (r: Result<TaskView>)
    ensures r.Ok? <==> FirstMatch(rows, TaskInOrganization(id, c.organizationId)).Some?
    ensures r.Err? ==> r == Caught(GET_FAILED, NOT_FOUND, TASK_NOT_FOUND)
    ensures r.Ok? ==> r.value.task in rows && r.value.task.id == id && Some(r.value.task.organizationId) == c.organizationId
  {
    var i := FirstMatch(rows, TaskInOrganization(id, c.organizationId));
    if i.None? then Caught(GET_FAILED, NOT_FOUND, TASK_NOT_FOUND) else Ok(ViewOf(rows[i.value], clients, users))
  }

  // ---------------------------------------------------------------------
  // Updating
  // ---------------------------------------------------------------------

  /**
   * `completed_at` after a status update: stamped `now` on the move into
   * COMPLETED, kept when the task was already completed, cleared by any
   * other status.
   */
  function CompletedAtAfter(before: TaskStatus, completedAt: Option<Moment>, after: TaskStatus, now: Moment)
    : (r: Option<Moment>)
  {
    if after == COMPLETED && before != COMPLETED then Some(now)
    else if after != COMPLETED then None
    else completedAt
  }

  /** The fields an update sets, when its assignee is not empty; `updated_at` is always stamped. */
  function ApplyUpdate(t: Task, u: TaskUpdate, now: Moment): (r: Task)
    requires !u.assignedTo.Blank?
    ensures r.id == t.id && r.clientId == t.clientId && r.organizationId == t.organizationId
    ensures r.createdBy == t.createdBy && r.createdAt == t.createdAt && r.taskType == t.taskType
    ensures r.updatedAt == Some(now)
    ensures u.status.None? ==> r.status == t.status && r.completedAt == t.completedAt
    ensures u.status.Some? ==> r.status == u.status.value
  {
    var status := if u.status.Some? then u.status.value else t.status;
    t.(title := if u.title.Some? then u.title.value else t.title,
       description := if u.description.Some? then u.description else t.description,
       priority := if u.priority.Some? then u.priority.value else t.priority,
       status := status,
       completedAt := if u.status.Some? then CompletedAtAfter(t.status, t.completedAt, status, now) else t.completedAt,
       dueDate := if u.dueDate.Some? then u.dueDate else t.dueDate,
       assignedTo := if u.assignedTo.UserId? then Some(u.assignedTo.id) else t.assignedTo,
       notes := if u.notes.Some? then u.notes else t.notes,
       updatedAt := Some(now))
  }

  /** Every update keeps a task's completion time in step with its status. */
  lemma UpdateKeepsCompletionConsistent(t: Task, u: TaskUpdate, now: Moment)
    requires !u.assignedTo.Blank? && CompletionConsistent(t)
    ensures CompletionConsistent(ApplyUpdate(t, u, now))
  {
  }

  /**
   * Completing a task stamps the moment of its first completion; completing
   * it again keeps that stamp, and reopening it clears the stamp.
   */
  lemma CompletionStampedOnce(t: Task, u: TaskUpdate, now: Moment, later: Moment)
    requires !u.assignedTo.Blank? && u.status == Some(COMPLETED)
    ensures t.status != COMPLETED ==> ApplyUpdate(t, u, now).completedAt == Some(now)
    ensures ApplyUpdate(ApplyUpdate(t, u, now), u, later).completedAt == ApplyUpdate(t, u, now).completedAt
    ensures forall s :: s != COMPLETED ==>
              ApplyUpdate(t, u.(status := Some(s)), later).completedAt.None?
  {
  }

  /**
   * The checks of `update_task`, in order: the task must be of the
   * caller's organization, then a named assignee must be too; an empty
   * assignee is written to the UUID column and fails at the commit. On
   * success, the position of the task.
   */
  function UpdateChecks(rows: seq<Task>, users: seq<Account>, c: Account, id: Id, u: TaskUpdate, dbMessage: string)
    : (r: Result<nat>)
    ensures r.Ok? <==> FirstMatch(rows, TaskInOrganization(id, c.organizationId)).Some?
                       && !u.assignedTo.Blank?
                       && (u.assignedTo.UserId? ==>
                             FirstMatch(users, UserInOrganization(u.assignedTo.id, c.organizationId)).Some?)
    ensures FirstMatch(rows, TaskInOrganization(id, c.organizationId)).None? ==>
              r == Caught(UPDATE_FAILED, NOT_FOUND, TASK_NOT_FOUND)
    ensures r.Err? ==> r.status == INTERNAL_ERROR
    ensures r.Ok? ==> r == Ok(FirstMatch(rows, TaskInOrganization(id, c.organizationId)).value)
  {
    var i := FirstMatch(rows, TaskInOrganization(id, c.organizationId));
    if i.None? then Caught(UPDATE_FAILED, NOT_FOUND, TASK_NOT_FOUND)
    else if u.assignedTo.UserId? && FirstMatch(users, UserInOrganization(u.assignedTo.id, c.organizationId)).None? then
      Caught(UPDATE_FAILED, NOT_FOUND, ASSIGNEE_NOT_FOUND)
    else if u.assignedTo.Blank? then Err(INTERNAL_ERROR, UPDATE_FAILED + ": " + dbMessage)
    else Ok(i.value)
  }

  // ---------------------------------------------------------------------
  // Summary
  // ---------------------------------------------------------------------

  datatype TaskSummary = TaskSummary(total: nat, completed: nat, pending: nat, overdue: nat, completionRate: real)

  function WithStatus(scope: Task -> bool, s: TaskStatus): Task -> bool
  {
    (t: Task) => scope(t) && t.status == s
  }

  function OverdueIn(scope: Task -> bool, now: Moment): Task -> bool
  {
    (t: Task) => scope(t) && Overdue(t, now)
  }

  /** The completion rate as a percentage, 0 for no tasks (as a real, not a float). */
  function CompletionRate(completed: nat, total: nat): (r: real)
    requires completed <= total
    ensures 0.0 <= r <= 100.0
    ensures r == 100.0 <==> total > 0 && completed == total
    ensures r == 0.0 <==> completed == 0
  {
    if total == 0 then 0.0 else (completed as real / total as real) * 100.0
  }

  /**
   * `get_task_summary` over the caller's organization, narrowed by a client
   * and an assignee when given: the counts, and the rate of completed tasks.
   */
  function Summary(rows: seq<Task>, c: Account, clientId: Option<Id>, assignedTo: Option<Id>, now: Moment)
    : (r: TaskSummary)
    ensures var scope := Scoped(c, clientId, assignedTo);
            r.total == Count(rows, scope) && r.completed == Count(rows, WithStatus(scope, COMPLETED))
            && r.pending == Count(rows, WithStatus(scope, TaskStatus.PENDING))
            && r.overdue == Count(rows, OverdueIn(scope, now))
    ensures r.completed + r.pending <= r.total && r.overdue + r.completed <= r.total
    ensures r.completionRate == CompletionRate(r.completed, r.total)
  {
    var scope := Scoped(c, clientId, assignedTo);
    SummaryCountsNest(rows, scope, now);
    var total := Count(rows, scope);
    var completed := Count(rows, WithStatus(scope, COMPLETED));
    TaskSummary(total, completed, Count(rows, WithStatus(scope, TaskStatus.PENDING)),
                Count(rows, OverdueIn(scope, now)), CompletionRate(completed, total))
  }

  /** Completed, pending and overdue tasks are parts of the total, and no overdue task is completed. */
  lemma SummaryCountsNest(rows: seq<Task>, scope: Task -> bool, now: Moment)
    ensures Count(rows, WithStatus(scope, COMPLETED)) + Count(rows, WithStatus(scope, TaskStatus.PENDING))
            <= Count(rows, scope)
    ensures Count(rows, OverdueIn(scope, now)) + Count(rows, WithStatus(scope, COMPLETED)) <= Count(rows, scope)
  {
    var done := WithStatus(scope, COMPLETED);
    var pending := WithStatus(scope, TaskStatus.PENDING);
    var late := OverdueIn(scope, now);
    var donePending := (t: Task) => done(t) || pending(t);
    var lateDone := (t: Task) => late(t) || done(t);
    CountDisjoint(rows, done, pending, donePending);
    CountNarrower(rows, scope, donePending);
    CountDisjoint(rows, late, done, lateDone);
    CountNarrower(rows, scope, lateDone);
  }

  // ---------------------------------------------------------------------
  // The table and its handlers
  // ---------------------------------------------------------------------

  /** The answer of `delete_task`. */
  datatype Deleted = Deleted(message: string, id: Id)

  class TaskBoard {
    var tasks: seq<Task>

    constructor(rows: seq<Task>)
      ensures tasks == rows
    {
      tasks := rows;
    }

    /**
     * `create_task`: after the checks, a pending task keyed above every
     * existing key, answered with the client's, the assignee's and the
     * caller's names.
     */
    method CreateTask(c: Account, body: TaskCreate, clients: seq<Client>, users: seq<Account>, dbMessage: string,
                      now: Moment) returns (r: Result<TaskView>)
      requires TaskCreateViolations(body) == []
      modifies this
      ensures var chk := CreateChecks(c, body, clients, users, dbMessage);
              (chk.Err? ==> r == Err(chk.status, chk.detail) && tasks == old(tasks))
              && (chk.Ok? ==>
                    var t := NewTask(SchedulingDb.NextKey(old(tasks), TaskIdOf), chk.value.0.organizationId, c, body, now);
                    tasks == old(tasks) + [t]
                    && r == Ok(TaskView(t, FullName(chk.value.0),
                                        if chk.value.1.Some? then Some(AccountName(chk.value.1.value)) else None,
                                        AccountName(c))))
    {
      var chk := CreateChecks(c, body, clients, users, dbMessage);
      if chk.Err? {
        return Err(chk.status, chk.detail);
      }
      var (client, assignee) := chk.value;
      var t := NewTask(SchedulingDb.NextKey(tasks, TaskIdOf), client.organizationId, c, body, now);
      tasks := tasks + [t];
      r := Ok(TaskView(t, FullName(client), if assignee.Some? then Some(AccountName(assignee.value)) else None,
                       AccountName(c)));
    }

    /**
     * `update_task`: after the checks, only the task found changes, to its
     * updated form, and is answered with its names.
     */
    method UpdateTask(c: Account, id: Id, u: TaskUpdate, clients: seq<Client>, users: seq<Account>, dbMessage: string,
                      now: Moment) returns (r: Result<TaskView>)
      requires TaskUpdateViolations(u) == []
      modifies this
      ensures var chk := UpdateChecks(old(tasks), users, c, id, u, dbMessage);
              (chk.Err? ==> r == Err(chk.status, chk.detail) && tasks == old(tasks))
              && (chk.Ok? ==>
                    var t := ApplyUpdate(old(tasks)[chk.value], u, now);
                    tasks == old(tasks)[chk.value := t] && r == Ok(ViewOf(t, clients, users)))
    {
      var chk := UpdateChecks(tasks, users, c, id, u, dbMessage);
      if chk.Err? {
        return Err(chk.status, chk.detail);
      }
      var t := ApplyUpdate(tasks[chk.value], u, now);
      tasks := tasks[chk.value := t];
      r := Ok(ViewOf(t, clients, users));
    }

    /** `delete_task`: the organization's task with that id is removed; a 404 otherwise, reported as a 500. */
    method DeleteTask(c: Account, id: Id) returns (r: Result<Deleted>)
      modifies this
      ensures var i := FirstMatch(old(tasks), TaskInOrganization(id, c.organizationId));
              (i.None? ==> r == Caught(DELETE_FAILED, NOT_FOUND, TASK_NOT_FOUND) && tasks == old(tasks))
              && (i.Some? ==> r == Ok(Deleted(TASK_DELETED, id))
                              && tasks == old(tasks)[..i.value] + old(tasks)[i.value + 1..])
    {
      var i := FirstMatch(tasks, TaskInOrganization(id, c.organizationId));
      if i.None? {
        return Caught(DELETE_FAILED, NOT_FOUND, TASK_NOT_FOUND);
      }
      tasks := tasks[..i.value] + tasks[i.value + 1..];
      r := Ok(Deleted(TASK_DELETED, id));
    }
  }
}
