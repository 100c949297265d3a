/**
 * The "current shift" view a direct-support staff member opens
 * (`get_current_shift`): today's scheduled or running shift of the
 * caller's staff record, its client, and how long the staff member has been
 * clocked in. Once an active shift is found, the handler as written first
 * imports `TaskStatus` from the task model (router.py:100), which defines
 * only `TaskStatusEnum` and `TaskPriorityEnum`, so the import fails; past
 * it, the answer would also read a `client` relationship that the shift
 * record does not declare (router.py:144-147). Every active shift therefore
 * ends in a server error; `CurrentShiftAsWritten` keeps that behaviour, and
 * `CurrentShift`, the corrected route, counts tasks by the task model's own
 * status enum and reads the client through the shift's first client
 * assignment.
 */
module CurrentShiftView {
  import opened Common
  import opened StaffModel
  import ClientModel
  import opened SchedulingModel
  import Tasks
  import DocumentationSchemas

  /** The `shift` object of the response. */
  datatype ShiftSummary = ShiftSummary(id: Id, shiftDate: string, startTime: string, endTime: string,
                                       status: string, notes: Option<string>)

  /** The `client` object of the response. */
  datatype ClientSummary = ClientSummary(id: Option<Id>, fullName: string, clientId: Option<string>,
                                         specialNeeds: Option<string>)

  /** The `time_tracking` object of the response. */
  datatype TimeTracking = TimeTracking(timeOnShift: Option<string>, clockInTime: Option<string>, isClockedIn: bool)

  /** The `tasks` object of the response. */
  datatype TaskCounts = TaskCounts(total: int, completed: int, pending: int)

  datatype View =
    | NoActiveShift(message: string)
    | ActiveShift(shift: ShiftSummary, client: ClientSummary, timeTracking: TimeTracking, tasks: TaskCounts)

  const NO_ACTIVE_SHIFT: string := "No active shift found for today"
  const UNKNOWN_CLIENT: string := "Unknown Client"

  function StaffOfUser(c: Caller): Staff -> bool
  {
    (s: Staff) => s.userId == c.id && Some(s.organizationId) == c.organizationId
  }

  /** Whether the caller has a staff record in their own organisation. */
  predicate HasStaffRecord(staff: seq<Staff>, c: Caller)
  {
    exists k :: 0 <= k < |staff| && StaffOfUser(c)(staff[k])
  }

  /** The shifts that count as active: the staff member's, dated today, SCHEDULED or IN_PROGRESS. */
  function ActiveToday(staffId: Id, today: Day): Shift -> bool
  {
    (s: Shift) => s.staffId == staffId && s.shiftDate == today && (s.status == SCHEDULED || s.status == IN_PROGRESS)
  }

  function OfShift(shiftId: Id): ShiftAssignment -> bool
  {
    (a: ShiftAssignment) => a.shiftId == shiftId
  }

  function ClientKey(id: Id): ClientModel.Client -> bool
  {
    (x: ClientModel.Client) => x.id == id
  }

  function ClockInOf(staffId: Id, shiftId: Id): TimeClockEntry -> bool
  {
    (e: TimeClockEntry) => e.staffId == staffId && e.shiftId == Some(shiftId) && e.entryType == CLOCK_IN
  }

  /**
   * `int(elapsed // 3600)` and `int(elapsed % 3600 // 60)` with Python's
   * floor division: whole hours, then the whole minutes left over. For a
   * negative elapsed time (a clock-in stamped in the future) the hours are
   * negative and the minutes still lie in 0..59.
   */
  function ElapsedParts(elapsed: int): (r: (int, int))
    ensures 0 <= r.1 < 60
    ensures r.0 * 3600 + r.1 * 60 <= elapsed < r.0 * 3600 + r.1 * 60 + 60
  {
    (elapsed / 3600, elapsed % 3600 / 60)
  }

  /** `f"{hours}h {minutes}m"`. */
  function TimeOnShift(elapsed: int): (r: string)
  {
    var parts := ElapsedParts(elapsed);
    IntToString(parts.0) + "h " + IntToString(parts.1) + "m"
  }

  function Summarize(s: Shift): ShiftSummary
  {
    ShiftSummary(s.id, DateIso(s.shiftDate), ClockTime(s.startTime), ClockTime(s.endTime), ShiftStatusValue(s.status), s.notes)
  }

  /** The client of the shift's first client assignment, `.first()`, if it has one. */
  function FirstAssignedClient(assignments: seq<ShiftAssignment>, shiftId: Id): (r: Option<Id>)
    ensures r.None? <==> forall k :: 0 <= k < |assignments| ==> !OfShift(shiftId)(assignments[k])
    ensures r.Some? ==> exists k :: 0 <= k < |assignments| && assignments[k].shiftId == shiftId
                                    && assignments[k].clientId == r.value
                                    && forall j :: 0 <= j < k ==> assignments[j].shiftId != shiftId
  {
    var a := FirstMatch(assignments, OfShift(shiftId));
    if a.None? then None else Some(assignments[a.value].clientId)
  }

  /**
   * The tasks counted for the shift: the caller's tasks for the client
   * whose `due_date` equals today. The column holds a timestamp, so the
   * day is compared as its midnight and only tasks due exactly then count.
   */
  function DueToday(userId: Id, clientId: Id, today: Day): Tasks.Task -> bool
  {
    (t: Tasks.Task) => t.assignedTo == Some(userId) && t.clientId == clientId && t.dueDate.Some?
                       && Stamp(t.dueDate.value) == DayNumber(today) * SECONDS_PER_DAY
  }

  function DoneToday(userId: Id, clientId: Id, today: Day): Tasks.Task -> bool
  {
    (t: Tasks.Task) => DueToday(userId, clientId, today)(t) && t.status == DocumentationSchemas.TaskStatus.COMPLETED
  }

  /**
   * The tasks block: without a client every count is zero (the empty
   * query); otherwise the tasks due today, those of them completed, and the
   * difference as pending.
   */
  function TaskBlock(tasks: seq<Tasks.Task>, userId: Id, clientId: Option<Id>, today: Day): (r: TaskCounts)
    ensures clientId.None? ==> r == TaskCounts(0, 0, 0)
    ensures clientId.Some? ==> r.total == Count(tasks, DueToday(userId, clientId.value, today))
                               && r.completed == Count(tasks, DoneToday(userId, clientId.value, today))
    ensures 0 <= r.completed <= r.total && r.pending == r.total - r.completed
  {
    if clientId.None? then TaskCounts(0, 0, 0)
    else
      var due := DueToday(userId, clientId.value, today);
      var done := DoneToday(userId, clientId.value, today);
      CountNarrower(tasks, due, done);
      TaskCounts(Count(tasks, due), Count(tasks, done), Count(tasks, due) - Count(tasks, done))
  }

  /** The client block: the client of the shift's first assignment, or "Unknown Client" when there is none. */
  function ClientBlock(assignments: seq<ShiftAssignment>, clients: seq<ClientModel.Client>, shiftId: Id): (r: ClientSummary)
    ensures r.id.None? <==> r.clientId.None?
    ensures r.id.None? ==> r.fullName == UNKNOWN_CLIENT && r.specialNeeds.None?
    ensures r.id.None? <==> (forall k :: 0 <= k < |assignments| ==> !OfShift(shiftId)(assignments[k]))
                            || (forall k :: 0 <= k < |clients| ==>
                                  !ClientKey(assignments[FirstMatch(assignments, OfShift(shiftId)).value].clientId)(clients[k]))
    ensures r.id.Some? ==> exists a, x :: a in assignments && a.shiftId == shiftId && x in clients && x.id == a.clientId
                                         && r.id == Some(x.id)
    ensures r.id.Some? ==> r.id == FirstAssignedClient(assignments, shiftId)
  {
    var a := FirstMatch(assignments, OfShift(shiftId));
    if a.None? then ClientSummary(None, UNKNOWN_CLIENT, None, None)
    else
      var x := FirstMatch(clients, ClientKey(assignments[a.value].clientId));
      if x.None? then ClientSummary(None, UNKNOWN_CLIENT, None, None)
      else
        var client := clients[x.value];
        ClientSummary(Some(client.id), ClientModel.FullName(client), Some(client.clientId), client.primaryDiagnosis)
  }

  /** The time-tracking block, from the latest clock-in of the staff member on the shift. */
  function Tracking(entries: seq<TimeClockEntry>, staffId: Id, shiftId: Id, now: Moment): (r: TimeTracking)
    ensures r.isClockedIn <==> exists k :: 0 <= k < |entries| && ClockInOf(staffId, shiftId)(entries[k])
    ensures r.isClockedIn <==> r.timeOnShift.Some? && r.clockInTime.Some?
  {
    var i := LatestIndex(entries, ClockInOf(staffId, shiftId), EntryStamp);
    if i.None? then TimeTracking(None, None, false)
    else
      var at := entries[i.value].entryAt;
      TimeTracking(Some(TimeOnShift(Stamp(now) - Stamp(at))), Some(ClockTime(at.second)), true)
  }

  /**
   * `get_current_shift` with the client read through the shift's first
   * client assignment. The staff lookup fails with 404; without an active
   * shift the view says so; otherwise it shows the first active shift in
   * table order.
   */
  function CurrentShift(staff: seq<Staff>, shifts: seq<Shift>, assignments: seq<ShiftAssignment>,
                        clients: seq<ClientModel.Client>, entries: seq<TimeClockEntry>, tasks: seq<Tasks.Task>, c: Caller,
                        today: Day, now: Moment)
    : (r: Result<View>)
    ensures r.Err? <==> !HasStaffRecord(staff, c)
    ensures r.Err? ==> r == Err(NOT_FOUND, "Staff record not found for current user")
    ensures r.Ok? ==> var me := staff[FirstMatch(staff, StaffOfUser(c)).value];
      (r.value.NoActiveShift? <==> forall k :: 0 <= k < |shifts| ==> !ActiveToday(me.id, today)(shifts[k]))
      && (r.value.NoActiveShift? ==> r.value.message == NO_ACTIVE_SHIFT)
      && (r.value.ActiveShift? ==> exists k :: 0 <= k < |shifts| && ActiveToday(me.id, today)(shifts[k])
                                              && r.value.shift.id == shifts[k].id
                                              && r.value.tasks
                                                 == TaskBlock(tasks, c.id, FirstAssignedClient(assignments, shifts[k].id), today))
  {
    var m := FirstMatch(staff, StaffOfUser(c));
    if m.None? then Err(NOT_FOUND, "Staff record not found for current user")
    else
      var me := staff[m.value];
      var i := FirstMatch(shifts, ActiveToday(me.id, today));
      if i.None? then Ok(NoActiveShift(NO_ACTIVE_SHIFT))
      else
        var s := shifts[i.value];
        Ok(ActiveShift(Summarize(s), ClientBlock(assignments, clients, s.id), Tracking(entries, me.id, s.id, now),
                       TaskBlock(tasks, c.id, FirstAssignedClient(assignments, s.id), today)))
  }

  /**
   * The handler as written: up to the active-shift lookup it agrees with
   * `CurrentShift`; past it, the import of `TaskStatus` at router.py:100
   * fails (the task model has no such name), and even without it reading
   * `current_shift.client` at router.py:144-147 would raise; the server
   * reports either as a bare 500.
   */
  function CurrentShiftAsWritten(staff: seq<Staff>, shifts: seq<Shift>, c: Caller, today: Day): (r: Result<View>)
    ensures r.Err? && r.status == NOT_FOUND <==> !HasStaffRecord(staff, c)
  {
    var m := FirstMatch(staff, StaffOfUser(c));
    if m.None? then Err(NOT_FOUND, "Staff record not found for current user")
    else if FirstMatch(shifts, ActiveToday(staff[m.value].id, today)).None? then Ok(NoActiveShift(NO_ACTIVE_SHIFT))
    else Err(INTERNAL_ERROR, UNHANDLED)
  }

  /**
   * Every time the corrected view would show an active shift, the handler
   * as written fails instead; otherwise the two agree.
   */
  lemma ActiveShiftFailsAsWritten(staff: seq<Staff>, shifts: seq<Shift>, assignments: seq<ShiftAssignment>,
                                  clients: seq<ClientModel.Client>, entries: seq<TimeClockEntry>, tasks: seq<Tasks.Task>,
                                  c: Caller, today: Day, now: Moment)
    ensures var fixed := CurrentShift(staff, shifts, assignments, clients, entries, tasks, c, today, now);
            fixed.Ok? && fixed.value.ActiveShift?
            ==> CurrentShiftAsWritten(staff, shifts, c, today) == Err(INTERNAL_ERROR, UNHANDLED)
    ensures var fixed := CurrentShift(staff, shifts, assignments, clients, entries, tasks, c, today, now);
            !(fixed.Ok? && fixed.value.ActiveShift?) ==> CurrentShiftAsWritten(staff, shifts, c, today) == fixed
  {
  }

  /** A concrete case: one staff record, one shift of theirs today, and the handler as written answers 500. */
  lemma OneShiftTodayFailsAsWritten(me: Staff, s: Shift, c: Caller, today: Day)
    requires me.userId == c.id && Some(me.organizationId) == c.organizationId
    requires s.staffId == me.id && s.shiftDate == today && s.status == SCHEDULED
    ensures CurrentShiftAsWritten([me], [s], c, today) == Err(INTERNAL_ERROR, UNHANDLED)
  {
    assert StaffOfUser(c)(me);
    assert ActiveToday(me.id, today)(s);
  }
}
