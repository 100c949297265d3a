/**
 * The schedule and shift handlers of the scheduling API: schedules are
 * created, listed, updated, published and copied; shifts are created one by
 * one or in bulk, listed, updated and cancelled; every created or updated
 * shift is checked for double bookings and for clashes with the staff
 * member's declared unavailability, and the conflicts found are recorded.
 * Every lookup is scoped to the caller's organisation; a caller without an
 * organisation matches no row.
 */
module SchedulingRouter {
  import opened Common
  import opened StaffModel
  import opened ClientModel
  import opened SchedulingModel
  import opened SchedulingSchemas
  import opened SchedulingDb
  import opened ShiftConflicts

  // ---------------------------------------------------------------------
  // Lookups
  // ---------------------------------------------------------------------

  function ScheduleMatch(id: Id, org: Option<Id>): Schedule -> bool
  {
    (s: Schedule) => s.id == id && Some(s.organizationId) == org
  }

  /** Whether schedule `id` belongs to organisation `org`. */
  predicate ScheduleInOrg(rows: seq<Schedule>, id: Id, org: Option<Id>)
  {
    exists k :: 0 <= k < |rows| && rows[k].id == id && Some(rows[k].organizationId) == org
  }

  /** `filter(Schedule.id == id, Schedule.organization_id == org).first()`, as a position. */
  function FindSchedule(rows: seq<Schedule>, id: Id, org: Option<Id>): (r: Option<nat>)
    ensures r.Some? ==> r.value < |rows| && rows[r.value].id == id && Some(rows[r.value].organizationId) == org
    ensures r.None? <==> !ScheduleInOrg(rows, id, org)
  {
    FirstMatch(rows, ScheduleMatch(id, org))
  }

  /** Whether the shift's schedule belongs to `org` (`join(Schedule)` filtered on the organisation). */
  predicate ShiftInOrg(schedules: seq<Schedule>, s: Shift, org: Option<Id>)
  {
    ScheduleInOrg(schedules, s.scheduleId, org)
  }

  function ShiftMatch(schedules: seq<Schedule>, id: Id, org: Option<Id>): Shift -> bool
  {
    (s: Shift) => s.id == id && ShiftInOrg(schedules, s, org)
  }

  /** The shift `id` of organisation `org`, as a position. */
  function FindShift(schedules: seq<Schedule>, shifts: seq<Shift>, id: Id, org: Option<Id>): (r: Option<nat>)
    ensures r.Some? ==> r.value < |shifts| && shifts[r.value].id == id && ShiftInOrg(schedules, shifts[r.value], org)
    ensures r.None? <==> !exists k :: 0 <= k < |shifts| && shifts[k].id == id && ShiftInOrg(schedules, shifts[k], org)
  {
    FirstMatch(shifts, ShiftMatch(schedules, id, org))
  }

  // ---------------------------------------------------------------------
  // Schedules
  // ---------------------------------------------------------------------

  /** The row `create_schedule` inserts: the column defaults leave it a DRAFT with no approver. */
  function NewSchedule(id: Id, body: ScheduleCreate, createdBy: Id, now: Moment): Schedule
  {
    Schedule(id, body.organizationId, body.scheduleName, body.scheduleType, body.startDate, body.endDate,
             DRAFT, createdBy, None, None, body.notes, now)
  }

  /**
   * `create_schedule`: the organisation of the new row is the one named in
   * the body, not the caller's.
   */
  method CreateSchedule(db: Db, c: Caller, body: ScheduleCreate, now: Moment) returns (s: Schedule)
    modifies db`schedules
    ensures s == NewSchedule(NextKey(old(db.schedules), ScheduleIdOf), body, c.id, now)
    ensures db.schedules == old(db.schedules) + [s]
  {
    s := NewSchedule(NextKey(db.schedules, ScheduleIdOf), body, c.id, now);
    db.schedules := db.schedules + [s];
  }

  /** `get_schedule`. */
  function GetSchedule(rows: seq<Schedule>, c: Caller, id: Id): (r: Result<Schedule>)
    ensures r.Ok? <==> ScheduleInOrg(rows, id, c.organizationId)
    ensures r.Ok? ==> r.value in rows && r.value.id == id && Some(r.value.organizationId) == c.organizationId
    ensures r.Err? ==> r == Err(NOT_FOUND, "Schedule not found")
  {
    var i := FindSchedule(rows, id, c.organizationId);
    if i.None? then Err(NOT_FOUND, "Schedule not found") else Ok(rows[i.value])
  }

  /**
   * A schedule just created can be read back by its creator exactly when
   * the body named the creator's own organisation; a body naming another
   * organisation writes a row into that organisation that the creator
   * cannot see.
   */
  lemma CreatedScheduleReadBack(rows: seq<Schedule>, c: Caller, body: ScheduleCreate, id: Id, now: Moment)
    requires forall k :: 0 <= k < |rows| ==> rows[k].id < id
    ensures GetSchedule(rows + [NewSchedule(id, body, c.id, now)], c, id).Ok?
            <==> Some(body.organizationId) == c.organizationId
    ensures Some(body.organizationId) == c.organizationId
            ==> GetSchedule(rows + [NewSchedule(id, body, c.id, now)], c, id)
                == Ok(NewSchedule(id, body, c.id, now))
  {
    var all := rows + [NewSchedule(id, body, c.id, now)];
    assert forall k :: 0 <= k < |rows| ==> all[k] == rows[k];
    if Some(body.organizationId) == c.organizationId {
      assert all[|rows|].id == id;
      assert ScheduleInOrg(all, id, c.organizationId);
    }
  }

  function ScheduleListed(org: Option<Id>, statusFilter: Option<ScheduleStatus>,
                          startDate: Option<Day>, endDate: Option<Day>): Schedule -> bool
  {
    (s: Schedule) =>
      Some(s.organizationId) == org
      && (statusFilter.None? || s.status == statusFilter.value)
      && (startDate.None? || DayNumber(s.startDate) >= DayNumber(startDate.value))
      && (endDate.None? || DayNumber(s.endDate) <= DayNumber(endDate.value))
  }

  /** The two query parameters of every paged list: `skip >= 0` and `1 <= limit <= 100`. */
  predicate PagingValid(skip: int, limit: int)
  {
    skip >= 0 && 1 <= limit <= 100
  }

  /**
   * `get_schedules`: the caller's schedules with the given status, starting
   * on or after `startDate` and ending on or before `endDate`, one page of
   * them.
   */
  function ListSchedules(rows: seq<Schedule>, c: Caller, skip: int, limit: int, statusFilter: Option<ScheduleStatus>,
                         startDate: Option<Day>, endDate: Option<Day>): (r: Result<Page<Schedule>>)
    ensures r.Err? <==> !PagingValid(skip, limit)
    ensures r.Err? ==> r.status == UNPROCESSABLE
    ensures r.Ok? ==> r.value.total == Count(rows, ScheduleListed(c.organizationId, statusFilter, startDate, endDate))
    ensures r.Ok? ==> r.value.page == PageOf(skip, limit) && r.value.pages == PageCount(r.value.total, limit)
    ensures r.Ok? ==> |r.value.items| <= limit
    ensures r.Ok? ==> forall k :: 0 <= k < |r.value.items| ==>
      (r.value.items[k] in rows && Some(r.value.items[k].organizationId) == c.organizationId
       && (statusFilter.None? || r.value.items[k].status == statusFilter.value))
    ensures r.Ok? ==> r.value.items == Window(Filter(rows, ScheduleListed(c.organizationId, statusFilter, startDate, endDate)),
                                              skip, limit)
  {
    if !PagingValid(skip, limit) then Err(UNPROCESSABLE, "Input should be within the allowed range")
    else
      var matching := Filter(rows, ScheduleListed(c.organizationId, statusFilter, startDate, endDate));
      var page := Paginate(matching, skip, limit);
      assert forall k :: 0 <= k < |page.items| ==> page.items[k] == matching[skip + k];
      Ok(page)
  }

  /**
   * `setattr` of every field sent in a `ScheduleUpdate`; `updated_at` is
   * stamped. The key, organisation, creator and approval columns cannot be
   * sent and stay as they were.
   */
  function ApplyScheduleUpdate(s: Schedule, u: ScheduleUpdate, now: Moment): (r: Schedule)
    ensures r.id == s.id && r.organizationId == s.organizationId && r.createdBy == s.createdBy
    ensures r.approvedBy == s.approvedBy && r.approvedAt == s.approvedAt && r.updatedAt == now
  {
    s.(scheduleName := if u.scheduleName.Some? then u.scheduleName.value else s.scheduleName,
       scheduleType := if u.scheduleType.Some? then u.scheduleType.value else s.scheduleType,
       startDate := if u.startDate.Some? then u.startDate.value else s.startDate,
       endDate := if u.endDate.Some? then u.endDate.value else s.endDate,
       notes := if u.notes.Some? then u.notes else s.notes,
       status := if u.status.Some? then u.status.value else s.status,
       updatedAt := now)
  }

  /**
   * `ScheduleResponse` re-runs the date-range validator of the schedule
   * schemas on the stored row: an end date before the start date cannot be
   * answered.
   */
  predicate ScheduleAnswerable(s: Schedule)
  {
    DayNumber(s.endDate) >= DayNumber(s.startDate)
  }

  /** `ShiftResponse` re-runs the shift validator: the end time must come after the start time. */
  predicate ShiftAnswerable(s: Shift)
  {
    s.endTime > s.startTime
  }

  /**
   * Applying the same update twice is applying it once; an update that
   * sends nothing only stamps `updated_at`; an update sending only an end
   * date before the stored start leaves a row no response can carry; and since the update body may
   * carry a status, it can mark a schedule PUBLISHED while leaving it
   * without an approver, which `publish_schedule` would have recorded.
   */
  lemma ScheduleUpdateProperties(s: Schedule, u: ScheduleUpdate, now: Moment, later: Moment)
    ensures ApplyScheduleUpdate(ApplyScheduleUpdate(s, u, now), u, later) == ApplyScheduleUpdate(s, u, later)
    ensures u == ScheduleUpdate(None, None, None, None, None, None) ==> ApplyScheduleUpdate(s, u, now) == s.(updatedAt := now)
    ensures u.status == Some(PUBLISHED) && s.approvedBy.None?
            ==> ApplyScheduleUpdate(s, u, now).status == PUBLISHED && ApplyScheduleUpdate(s, u, now).approvedBy.None?
    ensures u.endDate.Some? && u.startDate.None? && DayNumber(u.endDate.value) < DayNumber(s.startDate)
            ==> !ScheduleAnswerable(ApplyScheduleUpdate(s, u, now))
    ensures ScheduleAnswerable(s) && u.startDate.None? && u.endDate.None? ==> ScheduleAnswerable(ApplyScheduleUpdate(s, u, now))
  {
  }

  /**
   * `update_schedule`: the updated row is committed, and only then is the
   * response built, so a row left with its dates reversed is stored and
   * answered with a 500.
   */
  method UpdateSchedule(db: Db, c: Caller, id: Id, u: ScheduleUpdate, now: Moment) returns (r: Result<Schedule>)
    modifies db`schedules
    ensures !ScheduleInOrg(old(db.schedules), id, c.organizationId)
            ==> r == Err(NOT_FOUND, "Schedule not found") && db.schedules == old(db.schedules)
    ensures ScheduleInOrg(old(db.schedules), id, c.organizationId) ==>
      var i := FindSchedule(old(db.schedules), id, c.organizationId).value;
      var s := ApplyScheduleUpdate(old(db.schedules)[i], u, now);
      db.schedules == old(db.schedules)[i := s]
      && r == if ScheduleAnswerable(s) then Ok(s) else Err(INTERNAL_ERROR, UNHANDLED)
  {
    var i := FindSchedule(db.schedules, id, c.organizationId);
    if i.None? {
      return Err(NOT_FOUND, "Schedule not found");
    }
    var s := ApplyScheduleUpdate(db.schedules[i.value], u, now);
    db.schedules := db.schedules[i.value := s];
    if !ScheduleAnswerable(s) {
      return Err(INTERNAL_ERROR, UNHANDLED);
    }
    r := Ok(s);
  }

  /**
   * The effect of `publish_schedule` on the row: refused when it is already
   * PUBLISHED, otherwise (from DRAFT, LOCKED or ARCHIVED alike) it becomes
   * PUBLISHED with the caller as approver; nothing else changes.
   */
  function Publish(s: Schedule, approver: Id, now: Moment): (r: Result<Schedule>)
    ensures r.Err? <==> s.status == PUBLISHED
    ensures r.Err? ==> r == Err(BAD_REQUEST, "Schedule is already published")
    ensures r.Ok? ==> r.value.status == PUBLISHED && r.value.approvedBy == Some(approver)
                      && r.value.approvedAt == Some(now) && r.value.updatedAt == now
    ensures r.Ok? ==> r.value.(status := s.status, approvedBy := s.approvedBy, approvedAt := s.approvedAt,
                               updatedAt := s.updatedAt) == s
  {
    if s.status == PUBLISHED then Err(BAD_REQUEST, "Schedule is already published")
    else Ok(s.(status := PUBLISHED, approvedBy := Some(approver), approvedAt := Some(now), updatedAt := now))
  }

  /** `publish_schedule`. */
  method PublishSchedule(db: Db, c: Caller, id: Id, now: Moment) returns (r: Result<string>)
    modifies db`schedules
    ensures !ScheduleInOrg(old(db.schedules), id, c.organizationId)
            ==> r == Err(NOT_FOUND, "Schedule not found") && db.schedules == old(db.schedules)
    ensures ScheduleInOrg(old(db.schedules), id, c.organizationId) ==>
      var i := FindSchedule(old(db.schedules), id, c.organizationId).value;
      var p := Publish(old(db.schedules)[i], c.id, now);
      (p.Err? ==> r == Err(p.status, p.detail) && db.schedules == old(db.schedules))
      && (p.Ok? ==> r == Ok("Schedule published successfully") && db.schedules == old(db.schedules)[i := p.value])
  {
    var i := FindSchedule(db.schedules, id, c.organizationId);
    if i.None? {
      return Err(NOT_FOUND, "Schedule not found");
    }
    var p := Publish(db.schedules[i.value], c.id, now);
    if p.Err? {
      return Err(p.status, p.detail);
    }
    db.schedules := db.schedules[i.value := p.value];
    r := Ok("Schedule published successfully");
  }

  // ---------------------------------------------------------------------
  // Copying a schedule
  // ---------------------------------------------------------------------

  /** What a copy needs to know: the new schedule, the day offset and the new date range. */
  datatype CopyPlan = CopyPlan(newScheduleId: Id, offset: int, newStart: Day, newEnd: Day, now: Moment)

  /** The new schedule: "<name> (Copy)", same organisation, type and notes, created by the caller, a DRAFT. */
  function CopiedSchedule(orig: Schedule, id: Id, newStart: Day, newEnd: Day, createdBy: Id, now: Moment): (r: Schedule)
    ensures r.scheduleName == orig.scheduleName + " (Copy)" && r.organizationId == orig.organizationId
    ensures r.createdBy == createdBy && r.status == DRAFT && r.approvedBy.None?
  {
    Schedule(id, orig.organizationId, orig.scheduleName + " (Copy)", orig.scheduleType, newStart, newEnd,
             DRAFT, createdBy, None, None, orig.notes, now)
  }

  function InSchedule(scheduleId: Id): Shift -> bool
  {
    (s: Shift) => s.scheduleId == scheduleId
  }

  /** Whether the shift, moved by the offset, falls within the new range. */
  function MovesInto(plan: CopyPlan): Shift -> bool
  {
    (s: Shift) => DayNumber(plan.newStart) <= DayNumber(AddDays(s.shiftDate, plan.offset)) <= DayNumber(plan.newEnd)
  }

  /**
   * The copy of one shift: moved by the offset into the new schedule, with
   * the same staff, location, times, type, flag and notes. The status is
   * not copied, so the column default SCHEDULED applies.
   */
  function CopyShift(plan: CopyPlan): (Shift, Id) -> Shift
  {
    (s: Shift, id: Id) =>
      Shift(id, plan.newScheduleId, s.staffId, s.locationId, AddDays(s.shiftDate, plan.offset), s.startTime, s.endTime,
            s.breakStart, s.breakEnd, s.mealStart, s.mealEnd, SCHEDULED, s.shiftType, s.isMandatory, s.notes, plan.now)
  }

  /** The shifts the copy loop inserts, in the order of the original's shifts. */
  function CopiedShifts(originals: seq<Shift>, plan: CopyPlan, firstId: Id): seq<Shift>
  {
    Inserted(originals, MovesInto(plan), CopyShift(plan), firstId)
  }

  /**
   * What the copy contains: for every original shift whose moved date lies
   * in `[newStart, newEnd]`, in order, a shift dated exactly `offset` days
   * later carrying the same staff, times and flags, a fresh key and status
   * SCHEDULED (a cancelled original comes back scheduled); no other shift.
   */
  lemma {:induction false} CopiedShiftsContent(originals: seq<Shift>, plan: CopyPlan, firstId: Id)
    ensures |CopiedShifts(originals, plan, firstId)| == Count(originals, MovesInto(plan))
    ensures forall k :: 0 <= k < |CopiedShifts(originals, plan, firstId)| ==>
      var copy := CopiedShifts(originals, plan, firstId)[k];
      var orig := Filter(originals, MovesInto(plan))[k];
      orig in originals && copy.id == firstId + k && copy.scheduleId == plan.newScheduleId
      && DayNumber(copy.shiftDate) == DayNumber(orig.shiftDate) + plan.offset
      && DayNumber(plan.newStart) <= DayNumber(copy.shiftDate) <= DayNumber(plan.newEnd)
      && copy.staffId == orig.staffId && copy.startTime == orig.startTime && copy.endTime == orig.endTime
      && copy.shiftType == orig.shiftType && copy.isMandatory == orig.isMandatory && copy.status == SCHEDULED
    ensures forall k :: 0 <= k < |originals| && MovesInto(plan)(originals[k]) ==>
      originals[k] in Filter(originals, MovesInto(plan))
  {
    InsertedIsFilterThenNumber(originals, MovesInto(plan), CopyShift(plan), firstId);
  }

  /** The new end date is not checked against the new start: a reversed range copies no shift at all. */
  lemma {:induction false} ReversedRangeCopiesNothing(originals: seq<Shift>, plan: CopyPlan, firstId: Id)
    requires DayNumber(plan.newEnd) < DayNumber(plan.newStart)
    ensures CopiedShifts(originals, plan, firstId) == []
  {
    FilterNone(originals, MovesInto(plan));
    InsertedIsFilterThenNumber(originals, MovesInto(plan), CopyShift(plan), firstId);
  }

  /** The schedule a copy creates under key `scheduleId` and the shifts it inserts, keyed from `firstId`. */
  function CopyOutcome(orig: Schedule, shifts: seq<Shift>, createdBy: Id, newStart: Day, newEnd: Day,
                       scheduleId: Id, firstId: Id, now: Moment): (Schedule, seq<Shift>)
  {
    var plan := CopyPlan(scheduleId, DaysBetween(orig.startDate, newStart), newStart, newEnd, now);
    (CopiedSchedule(orig, scheduleId, newStart, newEnd, createdBy, now),
     CopiedShifts(Filter(shifts, InSchedule(orig.id)), plan, firstId))
  }

  /**
   * `copy_schedule`: the copy under a fresh schedule key, and the copy loop
   * over the original's shifts, which draws fresh shift keys in order. No
   * conflict detection runs on the copied shifts.
   */
  method CopySchedule(db: Db, c: Caller, id: Id, newStart: Day, newEnd: Day, now: Moment) returns (r: Result<Schedule>)
    modifies db`schedules, db`shifts
    ensures !ScheduleInOrg(old(db.schedules), id, c.organizationId) ==>
      r == Err(NOT_FOUND, "Original schedule not found")
      && db.schedules == old(db.schedules) && db.shifts == old(db.shifts)
    ensures ScheduleInOrg(old(db.schedules), id, c.organizationId) ==>
      var out := CopyOutcome(old(db.schedules)[FindSchedule(old(db.schedules), id, c.organizationId).value],
                             old(db.shifts), c.id, newStart, newEnd, NextKey(old(db.schedules), ScheduleIdOf),
                             NextKey(old(db.shifts), ShiftIdOf), now);
      db.schedules == old(db.schedules) + [out.0] && db.shifts == old(db.shifts) + out.1
      && r == if ScheduleAnswerable(out.0) then Ok(out.0) else Err(INTERNAL_ERROR, UNHANDLED)
  {
    var i := FindSchedule(db.schedules, id, c.organizationId);
    if i.None? {
      return Err(NOT_FOUND, "Original schedule not found");
    }
    var orig := db.schedules[i.value];
    var copy := CopiedSchedule(orig, NextKey(db.schedules, ScheduleIdOf), newStart, newEnd, c.id, now);
    var originals := Filter(db.shifts, InSchedule(orig.id));
    var plan := CopyPlan(copy.id, DaysBetween(orig.startDate, newStart), newStart, newEnd, now);
    var copies, next := InsertLoop(originals, MovesInto(plan), CopyShift(plan), NextKey(db.shifts, ShiftIdOf));
    db.schedules := db.schedules + [copy];
    db.shifts := db.shifts + copies;
    if !ScheduleAnswerable(copy) {
      return Err(INTERNAL_ERROR, UNHANDLED);
    }
    r := Ok(copy);
  }

  // ---------------------------------------------------------------------
  // Shifts
  // ---------------------------------------------------------------------

  /** The row a shift body becomes: the column default leaves it SCHEDULED. */
  function NewShift(id: Id, body: ShiftCreate, now: Moment): (r: Shift)
    ensures r.id == id && r.status == SCHEDULED && r.updatedAt == now
    ensures r.scheduleId == body.scheduleId && r.staffId == body.staffId && r.shiftDate == body.shiftDate
    ensures r.startTime == body.startTime && r.endTime == body.endTime && r.notes == body.notes
  {
    Shift(id, body.scheduleId, body.staffId, body.locationId, body.shiftDate, body.startTime, body.endTime,
          body.breakStart, body.breakEnd, body.mealStart, body.mealEnd, SCHEDULED, body.shiftType, body.isMandatory,
          body.notes, now)
  }

  /**
   * `create_shift`: the schedule and then the staff member must belong to
   * the caller's organisation; the new shift is committed and then checked
   * for conflicts.
   */
  method CreateShift(db: Db, c: Caller, body: ShiftCreate, now: Moment) returns (r: Result<Shift>)
    modifies db`shifts, db`conflicts
    ensures !ScheduleInOrg(db.schedules, body.scheduleId, c.organizationId) ==>
      r == Err(NOT_FOUND, "Schedule not found") && db.shifts == old(db.shifts) && db.conflicts == old(db.conflicts)
    ensures ScheduleInOrg(db.schedules, body.scheduleId, c.organizationId) && !StaffInOrg(db.staff, body.staffId, c.organizationId) ==>
      r == Err(NOT_FOUND, "Staff member not found") && db.shifts == old(db.shifts) && db.conflicts == old(db.conflicts)
    ensures ScheduleInOrg(db.schedules, body.scheduleId, c.organizationId) && StaffInOrg(db.staff, body.staffId, c.organizationId) ==>
      var s := NewShift(NextKey(old(db.shifts), ShiftIdOf), body, now);
      r == Ok(s) && db.shifts == old(db.shifts) + [s]
      && db.conflicts == old(db.conflicts) + DetectionStep(db.shifts, db.availability)(old(db.conflicts), s.id)
  {
    if FindSchedule(db.schedules, body.scheduleId, c.organizationId).None? {
      return Err(NOT_FOUND, "Schedule not found");
    }
    FindStaffIffInOrg(db.staff, body.staffId, c.organizationId);
    if FindStaff(db.staff, body.staffId, c.organizationId).None? {
      return Err(NOT_FOUND, "Staff member not found");
    }
    var s := NewShift(NextKey(db.shifts, ShiftIdOf), body, now);
    db.shifts := db.shifts + [s];
    DetectShiftConflicts(db, s.id);
    r := Ok(s);
  }

  /**
   * The detection run by `create_shift` examines the new shift itself, as
   * the committed shifts now hold it: its double bookings among all shifts
   * (never itself) and its availability clash.
   */
  lemma CreatedShiftIsChecked(shifts: seq<Shift>, slots: seq<StaffAvailability>, committed: seq<ScheduleConflict>,
                              body: ShiftCreate, now: Moment)
    ensures var s := NewShift(NextKey(shifts, ShiftIdOf), body, now);
            Detection(shifts + [s], slots, committed, s.id, NextKey(committed, ConflictIdOf))
            == Inserted(ConflictDrafts(s, shifts + [s], slots), NotYetOpen(committed), ToConflict, NextKey(committed, ConflictIdOf))
            && !DoubleBookedWith(s)(s)
  {
    var s := NewShift(NextKey(shifts, ShiftIdOf), body, now);
    DetectionOfFreshShift(shifts, slots, committed, s, NextKey(committed, ConflictIdOf));
  }

  function StaffAccepted(staff: seq<Staff>, org: Option<Id>): ShiftCreate -> bool
  {
    (b: ShiftCreate) => FindStaff(staff, b.staffId, org).Some?
  }

  function MakeShift(now: Moment): (ShiftCreate, Id) -> Shift
  {
    (b: ShiftCreate, id: Id) => NewShift(id, b, now)
  }

  /** The shifts the bulk loop creates: one per item whose staff member is in the organisation, in order. */
  function BulkShifts(staff: seq<Staff>, org: Option<Id>, items: seq<ShiftCreate>, firstId: Id, now: Moment): seq<Shift>
  {
    Inserted(items, StaffAccepted(staff, org), MakeShift(now), firstId)
  }

  /**
   * What a bulk insert creates: for each item whose staff member belongs to
   * the organisation, in order, the shift of that item under the next key;
   * an item with any other staff member is skipped without an error.
   */
  lemma {:induction false} BulkShiftsContent(staff: seq<Staff>, org: Option<Id>, items: seq<ShiftCreate>, firstId: Id, now: Moment)
    ensures |BulkShifts(staff, org, items, firstId, now)| == Count(items, StaffAccepted(staff, org))
    ensures forall k :: 0 <= k < |BulkShifts(staff, org, items, firstId, now)| ==>
      var item := Filter(items, StaffAccepted(staff, org))[k];
      item in items && StaffInOrg(staff, item.staffId, org)
      && BulkShifts(staff, org, items, firstId, now)[k] == NewShift(firstId + k, item, now)
    ensures forall k :: 0 <= k < |items| && StaffInOrg(staff, items[k].staffId, org) ==>
      items[k] in Filter(items, StaffAccepted(staff, org))
  {
    InsertedIsFilterThenNumber(items, StaffAccepted(staff, org), MakeShift(now), firstId);
    forall b: ShiftCreate {
      FindStaffIffInOrg(staff, b.staffId, org);
    }
  }

  /**
   * Only the body's `schedule_id` is checked against the organisation; each
   * item is stored under its own `schedule_id`, which is never looked up,
   * so a bulk insert can place a shift into a schedule the caller's
   * organisation does not own.
   */
  lemma BulkItemKeepsItsOwnSchedule(staff: seq<Staff>, org: Option<Id>, item: ShiftCreate, firstId: Id, now: Moment)
    requires StaffInOrg(staff, item.staffId, org)
    ensures BulkShifts(staff, org, [item], firstId, now) == [NewShift(firstId, item, now)]
    ensures BulkShifts(staff, org, [item], firstId, now)[0].scheduleId == item.scheduleId
  {
    FindStaffIffInOrg(staff, item.staffId, org);
    assert [item][..0] == [];
  }

  /**
   * `create_shifts_bulk`: after the schedule check, the loop adds the
   * accepted items, commits them together, and then runs one conflict
   * detection per created shift, in order.
   */
  method CreateShiftsBulk(db: Db, c: Caller, body: ShiftBulkCreate, now: Moment) returns (r: Result<seq<Shift>>)
    modifies db`shifts, db`conflicts
    ensures !ScheduleInOrg(db.schedules, body.scheduleId, c.organizationId) ==>
      r == Err(NOT_FOUND, "Schedule not found") && db.shifts == old(db.shifts) && db.conflicts == old(db.conflicts)
    ensures ScheduleInOrg(db.schedules, body.scheduleId, c.organizationId) ==>
      var created := BulkShifts(db.staff, c.organizationId, body.shifts, NextKey(old(db.shifts), ShiftIdOf), now);
      r == Ok(created) && db.shifts == old(db.shifts) + created
      && db.conflicts == old(db.conflicts) + DetectAll(db.shifts, db.availability, old(db.conflicts), MapSeq(created, ShiftIdOf))
  {
    if FindSchedule(db.schedules, body.scheduleId, c.organizationId).None? {
      return Err(NOT_FOUND, "Schedule not found");
    }
    var created := InsertShifts(db, c.organizationId, body.shifts, now);
    r := Ok(created);
  }

  /**
   * The insert loop of `create_shifts_bulk` and the conflict detection run
   * over the new shifts once they are committed.
   */
  method InsertShifts(db: Db, org: Option<Id>, items: seq<ShiftCreate>, now: Moment) returns (created: seq<Shift>)
    modifies db`shifts, db`conflicts
    ensures created == BulkShifts(db.staff, org, items, NextKey(old(db.shifts), ShiftIdOf), now)
    ensures db.shifts == old(db.shifts) + created
    ensures db.conflicts == old(db.conflicts) + DetectAll(db.shifts, db.availability, old(db.conflicts), MapSeq(created, ShiftIdOf))
  {
    var next;
    created, next := InsertLoop(items, StaffAccepted(db.staff, org), MakeShift(now), NextKey(db.shifts, ShiftIdOf));
    db.shifts := db.shifts + created;
    DetectEach(db, MapSeq(created, ShiftIdOf));
  }

  function ShiftListed(schedules: seq<Schedule>, org: Option<Id>, scheduleId: Option<Id>, staffId: Option<Id>,
                       startDate: Option<Day>, endDate: Option<Day>, statusFilter: Option<ShiftStatus>): Shift -> bool
  {
    (s: Shift) =>
      ShiftInOrg(schedules, s, org)
      && (scheduleId.None? || s.scheduleId == scheduleId.value)
      && (staffId.None? || s.staffId == staffId.value)
      && (startDate.None? || DayNumber(s.shiftDate) >= DayNumber(startDate.value))
      && (endDate.None? || DayNumber(s.shiftDate) <= DayNumber(endDate.value))
      && (statusFilter.None? || s.status == statusFilter.value)
  }

  /**
   * `get_shifts`: the shifts of the caller's schedules that pass every
   * filter given, one page of them.
   */
  function ListShifts(schedules: seq<Schedule>, shifts: seq<Shift>, c: Caller, skip: int, limit: int,
                      scheduleId: Option<Id>, staffId: Option<Id>, startDate: Option<Day>, endDate: Option<Day>,
                      statusFilter: Option<ShiftStatus>): (r: Result<Page<Shift>>)
    ensures r.Err? <==> !PagingValid(skip, limit)
    ensures r.Err? ==> r.status == UNPROCESSABLE
    ensures r.Ok? ==> r.value.total == Count(shifts, ShiftListed(schedules, c.organizationId, scheduleId, staffId,
                                                                    startDate, endDate, statusFilter))
    ensures r.Ok? ==> r.value.page == PageOf(skip, limit) && r.value.pages == PageCount(r.value.total, limit)
    ensures r.Ok? ==> |r.value.items| <= limit
    ensures r.Ok? ==> forall k :: 0 <= k < |r.value.items| ==>
      var s := r.value.items[k];
      s in shifts && ShiftInOrg(schedules, s, c.organizationId)
      && (staffId.None? || s.staffId == staffId.value) && (statusFilter.None? || s.status == statusFilter.value)
    ensures r.Ok? ==> r.value.items == Window(Filter(shifts, ShiftListed(schedules, c.organizationId, scheduleId, staffId,
                                                                         startDate, endDate, statusFilter)), skip, limit)
  {
    if !PagingValid(skip, limit) then Err(UNPROCESSABLE, "Input should be within the allowed range")
    else
      var matching := Filter(shifts, ShiftListed(schedules, c.organizationId, scheduleId, staffId, startDate, endDate, statusFilter));
      var page := Paginate(matching, skip, limit);
      assert forall k :: 0 <= k < |page.items| ==> page.items[k] == matching[skip + k];
      Ok(page)
  }

  /** `get_shift`. */
  function GetShift(schedules: seq<Schedule>, shifts: seq<Shift>, c: Caller, id: Id): (r: Result<Shift>)
    ensures r.Err? <==> !exists k :: 0 <= k < |shifts| && shifts[k].id == id && ShiftInOrg(schedules, shifts[k], c.organizationId)
    ensures r.Err? ==> r == Err(NOT_FOUND, "Shift not found")
    ensures r.Ok? ==> r.value in shifts && r.value.id == id && ShiftInOrg(schedules, r.value, c.organizationId)
  {
    var i := FindShift(schedules, shifts, id, c.organizationId);
    if i.None? then Err(NOT_FOUND, "Shift not found") else Ok(shifts[i.value])
  }

  /**
   * `setattr` of every field sent in a `ShiftUpdate`; `updated_at` is
   * stamped. The key, schedule, staff member and location cannot be sent
   * and stay as they were.
   */
  function ApplyShiftUpdate(s: Shift, u: ShiftUpdate, now: Moment): (r: Shift)
    ensures r.id == s.id && r.scheduleId == s.scheduleId && r.staffId == s.staffId && r.locationId == s.locationId
    ensures r.updatedAt == now
  {
    Shift(s.id, s.scheduleId, s.staffId, s.locationId,
          if u.shiftDate.Some? then u.shiftDate.value else s.shiftDate,
          if u.startTime.Some? then u.startTime.value else s.startTime,
          if u.endTime.Some? then u.endTime.value else s.endTime,
          if u.breakStart.Some? then u.breakStart else s.breakStart,
          if u.breakEnd.Some? then u.breakEnd else s.breakEnd,
          if u.mealStart.Some? then u.mealStart else s.mealStart,
          if u.mealEnd.Some? then u.mealEnd else s.mealEnd,
          if u.status.Some? then u.status.value else s.status,
          if u.shiftType.Some? then u.shiftType.value else s.shiftType,
          if u.isMandatory.Some? then u.isMandatory.value else s.isMandatory,
          if u.notes.Some? then u.notes else s.notes,
          now)
  }

  /**
   * Applying the same update twice is applying it once; an update that
   * sends nothing only stamps `updated_at`; and, having no cross-field
   * rule, an update may leave a shift ending before it starts.
   */
  lemma ShiftUpdateProperties(s: Shift, u: ShiftUpdate, now: Moment, later: Moment)
    ensures ApplyShiftUpdate(ApplyShiftUpdate(s, u, now), u, later) == ApplyShiftUpdate(s, u, later)
    ensures u == ShiftUpdate(None, None, None, None, None, None, None, None, None, None, None)
            ==> ApplyShiftUpdate(s, u, now) == s.(updatedAt := now)
    ensures u.endTime.Some? && u.startTime.None? && u.endTime.value <= s.startTime
            ==> !ShiftAnswerable(ApplyShiftUpdate(s, u, now))
    ensures ShiftAnswerable(s) && u.startTime.None? && u.endTime.None? ==> ShiftAnswerable(ApplyShiftUpdate(s, u, now))
  {
  }

  /**
   * `update_shift`: the changed row is committed and then checked for
   * conflicts again; only then is the response built, so a shift left
   * ending at or before its start is stored, with its conflicts, and
   * answered with a 500.
   */
  method UpdateShift(db: Db, c: Caller, id: Id, u: ShiftUpdate, now: Moment) returns (r: Result<Shift>)
    modifies db`shifts, db`conflicts
    ensures FindShift(db.schedules, old(db.shifts), id, c.organizationId).None? ==>
      r == Err(NOT_FOUND, "Shift not found") && db.shifts == old(db.shifts) && db.conflicts == old(db.conflicts)
    ensures FindShift(db.schedules, old(db.shifts), id, c.organizationId).Some? ==>
      var i := FindShift(db.schedules, old(db.shifts), id, c.organizationId).value;
      var s := ApplyShiftUpdate(old(db.shifts)[i], u, now);
      db.shifts == old(db.shifts)[i := s]
      && db.conflicts == old(db.conflicts) + DetectionStep(db.shifts, db.availability)(old(db.conflicts), id)
      && r == if ShiftAnswerable(s) then Ok(s) else Err(INTERNAL_ERROR, UNHANDLED)
  {
    var i := FindShift(db.schedules, db.shifts, id, c.organizationId);
    if i.None? {
      return Err(NOT_FOUND, "Shift not found");
    }
    var s := ApplyShiftUpdate(db.shifts[i.value], u, now);
    db.shifts := db.shifts[i.value := s];
    DetectShiftConflicts(db, s.id);
    if !ShiftAnswerable(s) {
      return Err(INTERNAL_ERROR, UNHANDLED);
    }
    r := Ok(s);
  }

  /** The remark a cancellation with a reason appends to the notes. */
  function CancelRemark(reason: string): (r: string)
    ensures StartsWith(r, "Cancelled: ") && r[|"Cancelled: "|..] == reason
  {
    "Cancelled: " + reason
  }

  /**
   * The effect of `cancel_shift` on the row: CANCELLED from any status,
   * `updated_at` stamped, and, when a non-empty reason is given, the
   * remark appended to the notes; nothing else changes.
   */
  function CancelledShift(s: Shift, reason: Option<string>, now: Moment): (r: Shift)
    ensures r.status == CANCELLED && r.updatedAt == now
    ensures r.(status := s.status, notes := s.notes, updatedAt := s.updatedAt) == s
    ensures !Truthy(reason) ==> r.notes == s.notes
  {
    s.(status := CANCELLED,
       notes := if Truthy(reason) then Some(AppendNote(s.notes, CancelRemark(reason.value))) else s.notes,
       updatedAt := now)
  }

  /**
   * A reason with no whitespace at its end is recorded at the end of the
   * notes, and it is the whole of them when there were no notes.
   */
  lemma CancelRecordsReason(s: Shift, reason: string, now: Moment)
    requires reason != "" && !IsSpace(reason[|reason| - 1])
    ensures CancelledShift(s, Some(reason), now).notes == Some(AppendNote(s.notes, CancelRemark(reason)))
    ensures EndsWith(AppendNote(s.notes, CancelRemark(reason)), CancelRemark(reason))
    ensures Strip(OrEmpty(s.notes)) == "" ==> AppendNote(s.notes, CancelRemark(reason)) == CancelRemark(reason)
  {
    var line := CancelRemark(reason);
    assert line[0] == 'C' && line[|line| - 1] == reason[|reason| - 1];
    AppendNoteEndsWithLine(s.notes, line);
  }

  /** A cancelled shift is nobody's double booking any more. */
  lemma CancelledShiftIsNoRival(s: Shift, reason: Option<string>, now: Moment, o: Shift)
    ensures !DoubleBookedWith(o)(CancelledShift(s, reason, now))
  {
    assert !SameDayRival(o)(CancelledShift(s, reason, now));
  }

  /** `cancel_shift`: no conflict detection runs, and no conflict recorded for the shift is resolved. */
  method CancelShift(db: Db, c: Caller, id: Id, reason: Option<string>, now: Moment) returns (r: Result<string>)
    modifies db`shifts
    ensures FindShift(db.schedules, old(db.shifts), id, c.organizationId).None? ==>
      r == Err(NOT_FOUND, "Shift not found") && db.shifts == old(db.shifts)
    ensures FindShift(db.schedules, old(db.shifts), id, c.organizationId).Some? ==>
      var i := FindShift(db.schedules, old(db.shifts), id, c.organizationId).value;
      r == Ok("Shift cancelled successfully") && db.shifts == old(db.shifts)[i := CancelledShift(old(db.shifts)[i], reason, now)]
  {
    var i := FindShift(db.schedules, db.shifts, id, c.organizationId);
    if i.None? {
      return Err(NOT_FOUND, "Shift not found");
    }
    db.shifts := db.shifts[i.value := CancelledShift(db.shifts[i.value], reason, now)];
    r := Ok("Shift cancelled successfully");
  }

  // ---------------------------------------------------------------------
  // Listing conflicts
  // ---------------------------------------------------------------------

  /** Whether the conflict's shift exists and its date lies within the bounds given. */
  predicate ShiftDatedWithin(shifts: seq<Shift>, x: ScheduleConflict, startDate: Option<Day>, endDate: Option<Day>)
  {
    x.shiftId.Some?
    && exists k :: 0 <= k < |shifts| && shifts[k].id == x.shiftId.value
                   && (startDate.None? || DayNumber(shifts[k].shiftDate) >= DayNumber(startDate.value))
                   && (endDate.None? || DayNumber(shifts[k].shiftDate) <= DayNumber(endDate.value))
  }

  function ConflictListed(staff: seq<Staff>, shifts: seq<Shift>, org: Option<Id>, resolved: Option<bool>,
                          severity: Option<ConflictSeverity>, startDate: Option<Day>, endDate: Option<Day>): ScheduleConflict -> bool
  {
    (x: ScheduleConflict) =>
      StaffInOrg(staff, x.staffId, org)
      && (resolved.None? || x.resolved == resolved.value)
      && (severity.None? || x.severity == severity.value)
      && ((startDate.None? && endDate.None?) || ShiftDatedWithin(shifts, x, startDate, endDate))
  }

  /**
   * `get_schedule_conflicts`: the conflicts of the organisation's staff
   * that pass the filters given, in table order; the shift join is made
   * only when a date bound is given.
   */
  function ListConflicts(staff: seq<Staff>, shifts: seq<Shift>, conflicts: seq<ScheduleConflict>, c: Caller,
                         resolved: Option<bool>, severity: Option<ConflictSeverity>,
                         startDate: Option<Day>, endDate: Option<Day>): (r: seq<ScheduleConflict>)
    ensures forall k :: 0 <= k < |r| ==>
      r[k] in conflicts && StaffInOrg(staff, r[k].staffId, c.organizationId)
      && (resolved.None? || r[k].resolved == resolved.value) && (severity.None? || r[k].severity == severity.value)
    ensures forall k :: 0 <= k < |r| ==>
      ((startDate.None? && endDate.None?) || ShiftDatedWithin(shifts, r[k], startDate, endDate))
    ensures forall k :: 0 <= k < |conflicts| && ConflictListed(staff, shifts, c.organizationId, resolved, severity, startDate, endDate)(conflicts[k])
              ==> conflicts[k] in r
  {
    Filter(conflicts, ConflictListed(staff, shifts, c.organizationId, resolved, severity, startDate, endDate))
  }

  /**
   * The date test of `get_schedule_conflicts` as written: the second join
   * names no condition, and the one foreign key from the joined staff row to
   * `shifts` is the shift's `staff_id`, so a conflict passes when its staff
   * member has any shift within the bounds, whichever shift it is about.
   */
  predicate StaffShiftDatedWithin(shifts: seq<Shift>, x: ScheduleConflict, startDate: Option<Day>, endDate: Option<Day>)
  {
    exists k :: 0 <= k < |shifts| && shifts[k].staffId == x.staffId
                && (startDate.None? || DayNumber(shifts[k].shiftDate) >= DayNumber(startDate.value))
                && (endDate.None? || DayNumber(shifts[k].shiftDate) <= DayNumber(endDate.value))
  }

  function ConflictListedAsWritten(staff: seq<Staff>, shifts: seq<Shift>, org: Option<Id>, resolved: Option<bool>,
                                   severity: Option<ConflictSeverity>, startDate: Option<Day>, endDate: Option<Day>)
    : ScheduleConflict -> bool
  {
    (x: ScheduleConflict) =>
      StaffInOrg(staff, x.staffId, org)
      && (resolved.None? || x.resolved == resolved.value)
      && (severity.None? || x.severity == severity.value)
      && ((startDate.None? && endDate.None?) || StaffShiftDatedWithin(shifts, x, startDate, endDate))
  }

  /** `get_schedule_conflicts` as written: the date bounds test the staff member's shifts, not the conflict's own. */
  function ListConflictsAsWritten(staff: seq<Staff>, shifts: seq<Shift>, conflicts: seq<ScheduleConflict>, c: Caller,
                                  resolved: Option<bool>, severity: Option<ConflictSeverity>,
                                  startDate: Option<Day>, endDate: Option<Day>): (r: seq<ScheduleConflict>)
    ensures forall k :: 0 <= k < |r| ==>
      r[k] in conflicts && StaffInOrg(staff, r[k].staffId, c.organizationId)
      && (resolved.None? || r[k].resolved == resolved.value) && (severity.None? || r[k].severity == severity.value)
      && ((startDate.None? && endDate.None?) || StaffShiftDatedWithin(shifts, r[k], startDate, endDate))
    ensures forall k :: 0 <= k < |conflicts|
                        && ConflictListedAsWritten(staff, shifts, c.organizationId, resolved, severity, startDate, endDate)(conflicts[k])
              ==> conflicts[k] in r
  {
    Filter(conflicts, ConflictListedAsWritten(staff, shifts, c.organizationId, resolved, severity, startDate, endDate))
  }

  /**
   * The discrepancy: a conflict about shift `a`, dated before `from`, of a
   * staff member who also works shift `b` on or after `from`, is listed as
   * written and left out as intended.
   */
  lemma JoinOnStaffListsOffRangeConflict(staff: seq<Staff>, shifts: seq<Shift>, conflicts: seq<ScheduleConflict>,
                                         c: Caller, x: ScheduleConflict, a: Shift, b: Shift, from: Day)
    requires x in conflicts && StaffInOrg(staff, x.staffId, c.organizationId)
    requires x.shiftId == Some(a.id) && b in shifts && b.staffId == x.staffId
    requires forall k :: 0 <= k < |shifts| && shifts[k].id == a.id ==> shifts[k] == a
    requires DayNumber(a.shiftDate) < DayNumber(from) <= DayNumber(b.shiftDate)
    ensures x in ListConflictsAsWritten(staff, shifts, conflicts, c, None, None, Some(from), None)
    ensures x !in ListConflicts(staff, shifts, conflicts, c, None, None, Some(from), None)
  {
    var k :| 0 <= k < |shifts| && shifts[k] == b;
    assert StaffShiftDatedWithin(shifts, x, Some(from), None);
    var j :| 0 <= j < |conflicts| && conflicts[j] == x;
    assert ConflictListedAsWritten(staff, shifts, c.organizationId, None, None, Some(from), None)(conflicts[j]);
    assert !ShiftDatedWithin(shifts, x, Some(from), None);
  }

  /** As written, a date bound does not hide a conflict recorded without a shift when its staff member works in range. */
  lemma JoinOnStaffListsShiftlessConflict(staff: seq<Staff>, shifts: seq<Shift>, conflicts: seq<ScheduleConflict>,
                                          c: Caller, x: ScheduleConflict, b: Shift, from: Day)
    requires x in conflicts && StaffInOrg(staff, x.staffId, c.organizationId) && x.shiftId.None?
    requires b in shifts && b.staffId == x.staffId && DayNumber(from) <= DayNumber(b.shiftDate)
    ensures x in ListConflictsAsWritten(staff, shifts, conflicts, c, None, None, Some(from), None)
    ensures x !in ListConflicts(staff, shifts, conflicts, c, None, None, Some(from), None)
  {
    var k :| 0 <= k < |shifts| && shifts[k] == b;
    assert StaffShiftDatedWithin(shifts, x, Some(from), None);
    var j :| 0 <= j < |conflicts| && conflicts[j] == x;
    assert ConflictListedAsWritten(staff, shifts, c.organizationId, None, None, Some(from), None)(conflicts[j]);
  }

  /** With a date bound, a conflict recorded without a shift is never listed, whatever the bound. */
  lemma DateBoundHidesShiftlessConflicts(staff: seq<Staff>, shifts: seq<Shift>, conflicts: seq<ScheduleConflict>, c: Caller,
                                         resolved: Option<bool>, severity: Option<ConflictSeverity>,
                                         startDate: Option<Day>, endDate: Option<Day>)
    requires startDate.Some? || endDate.Some?
    ensures forall k :: 0 <= k < |ListConflicts(staff, shifts, conflicts, c, resolved, severity, startDate, endDate)| ==>
      ListConflicts(staff, shifts, conflicts, c, resolved, severity, startDate, endDate)[k].shiftId.Some?
  {
  }
}
