/**
 * The time clock: clocking in and out, breaks, the adjustment of an entry,
 * the entry and overtime lists, and the weekly split of worked time into
 * regular time and overtime. An entry's time is the moment the handler
 * runs (`now`); worked time is counted in whole seconds, so the weekly
 * limit of 40 hours is 144000 seconds.
 */
module TimeClock {
  import opened Common
  import opened StaffModel
  import opened SchedulingModel
  import opened SchedulingSchemas
  import opened SchedulingDb
  import opened SchedulingRouter
  import opened ShiftConflicts

  const STAFF_NOT_FOUND: string := "Staff member not found"
  const ALREADY_CLOCKED_IN: string := "Staff member is already clocked in"
  const NO_CLOCK_IN: string := "No active clock-in found"
  const ALREADY_CLOCKED_OUT: string := "Staff member is already clocked out"
  const ALREADY_ON_BREAK: string := "Staff member is already on break"
  const NO_BREAK: string := "No active break found"
  const BREAK_ENDED: string := "Break already ended"
  const ENTRY_NOT_FOUND: string := "Time entry not found"

  /** Forty hours, in seconds: worked time beyond it in one week is overtime. */
  const WEEK_LIMIT: int := 40 * 3600

  /** The body of a clock-in or clock-out request. */
  datatype ClockRequest = ClockRequest(staffId: Id, shiftId: Option<Id>, geolocation: Option<string>,
                                       photoUrl: Option<string>, notes: Option<string>)

  /** What the handler reads from the HTTP request itself. */
  datatype Origin = Origin(clientHost: Option<string>, userAgent: Option<string>, referer: Option<string>)

  /** The `device_info` recorded with a clock entry; a missing header is recorded as empty. */
  function Device(o: Origin): DeviceInfo
  {
    DeviceInfo(OrEmpty(o.userAgent), OrEmpty(o.referer))
  }

  // ---------------------------------------------------------------------
  // Clock state
  // ---------------------------------------------------------------------

  function OfKind(staffId: Id, kind: TimeEntryType): TimeClockEntry -> bool
  {
    (e: TimeClockEntry) => e.staffId == staffId && e.entryType == kind
  }

  function KindAfter(staffId: Id, kind: TimeEntryType, stamp: int): TimeClockEntry -> bool
  {
    (e: TimeClockEntry) => e.staffId == staffId && e.entryType == kind && EntryStamp(e) > stamp
  }

  /** Some entry of the staff member, of that kind, is stamped after `stamp`. */
  predicate HasKindAfter(entries: seq<TimeClockEntry>, staffId: Id, kind: TimeEntryType, stamp: int)
  {
    exists k :: 0 <= k < |entries| && KindAfter(staffId, kind, stamp)(entries[k])
  }

  /** The staff member's latest entry of that kind (`order_by(entry_datetime.desc()).first()`). */
  function Latest(entries: seq<TimeClockEntry>, staffId: Id, kind: TimeEntryType): (r: Option<nat>)
    ensures r.Some? ==> r.value < |entries| && OfKind(staffId, kind)(entries[r.value])
    ensures r.Some? ==> forall k :: 0 <= k < |entries| && OfKind(staffId, kind)(entries[k])
                          ==> EntryStamp(entries[k]) <= EntryStamp(entries[r.value])
    ensures r.None? <==> forall k :: 0 <= k < |entries| ==> !OfKind(staffId, kind)(entries[k])
  {
    LatestIndex(entries, OfKind(staffId, kind), EntryStamp)
  }

  /** Clocked in: the latest clock-in is followed by no clock-out. */
  predicate ClockedIn(entries: seq<TimeClockEntry>, staffId: Id)
  {
    var i := Latest(entries, staffId, CLOCK_IN);
    i.Some? && !HasKindAfter(entries, staffId, CLOCK_OUT, EntryStamp(entries[i.value]))
  }

  /**
   * The same state without reference to the lookup: some clock-in is as
   * late as every other and no clock-out comes after it. Which of several
   * equally late clock-ins the lookup returns does not matter.
   */
  lemma ClockedInMeansOpenClockIn(entries: seq<TimeClockEntry>, staffId: Id)
    ensures ClockedIn(entries, staffId) <==>
      exists k :: 0 <= k < |entries| && OfKind(staffId, CLOCK_IN)(entries[k])
                  && (forall j :: 0 <= j < |entries| && OfKind(staffId, CLOCK_IN)(entries[j])
                                  ==> EntryStamp(entries[j]) <= EntryStamp(entries[k]))
                  && !HasKindAfter(entries, staffId, CLOCK_OUT, EntryStamp(entries[k]))
  {
    var i := Latest(entries, staffId, CLOCK_IN);
    if exists k :: 0 <= k < |entries| && OfKind(staffId, CLOCK_IN)(entries[k])
                   && (forall j :: 0 <= j < |entries| && OfKind(staffId, CLOCK_IN)(entries[j])
                                   ==> EntryStamp(entries[j]) <= EntryStamp(entries[k]))
                   && !HasKindAfter(entries, staffId, CLOCK_OUT, EntryStamp(entries[k])) {
      var k :| 0 <= k < |entries| && OfKind(staffId, CLOCK_IN)(entries[k])
               && (forall j :: 0 <= j < |entries| && OfKind(staffId, CLOCK_IN)(entries[j])
                               ==> EntryStamp(entries[j]) <= EntryStamp(entries[k]))
               && !HasKindAfter(entries, staffId, CLOCK_OUT, EntryStamp(entries[k]));
      assert i.Some? && EntryStamp(entries[i.value]) == EntryStamp(entries[k]);
    }
  }

  /** On a break: the latest break entry is a break start. */
  predicate OnBreak(entries: seq<TimeClockEntry>, staffId: Id)
  {
    var i := LatestIndex(entries, BreakEntry(staffId), EntryStamp);
    i.Some? && entries[i.value].entryType == BREAK_START
  }

  function BreakEntry(staffId: Id): TimeClockEntry -> bool
  {
    (e: TimeClockEntry) => e.staffId == staffId && (e.entryType == BREAK_START || e.entryType == BREAK_END)
  }

  /** A break can be ended: the latest break start is followed by no break end. */
  predicate BreakOpen(entries: seq<TimeClockEntry>, staffId: Id)
  {
    var i := Latest(entries, staffId, BREAK_START);
    i.Some? && !HasKindAfter(entries, staffId, BREAK_END, EntryStamp(entries[i.value]))
  }

  /** An entry stamped after every other one is the latest of any kind that includes it. */
  lemma NewestIsLatest(entries: seq<TimeClockEntry>, e: TimeClockEntry, p: TimeClockEntry -> bool)
    requires p(e) && forall k :: 0 <= k < |entries| ==> EntryStamp(entries[k]) < EntryStamp(e)
    ensures LatestIndex(entries + [e], p, EntryStamp) == Some(|entries|)
  {
    var all := entries + [e];
    var r := LatestIndex(all, p, EntryStamp);
    assert all[|entries|] == e;
    assert forall k :: 0 <= k < |entries| ==> all[k] == entries[k];
  }

  /** Nothing is stamped after an entry stamped after every other one. */
  lemma NothingAfterNewest(entries: seq<TimeClockEntry>, e: TimeClockEntry, staffId: Id, kind: TimeEntryType)
    requires forall k :: 0 <= k < |entries| ==> EntryStamp(entries[k]) < EntryStamp(e)
    ensures !HasKindAfter(entries + [e], staffId, kind, EntryStamp(e))
  {
    var all := entries + [e];
    forall k | 0 <= k < |all|
      ensures !KindAfter(staffId, kind, EntryStamp(e))(all[k])
    {
      if k < |entries| {
        assert all[k] == entries[k];
      }
    }
  }

  // ---------------------------------------------------------------------
  // Shift status
  // ---------------------------------------------------------------------

  /**
   * The first shift with the given key (in any organisation) moves from
   * `from` to `to`, stamped; a shift in any other status, and every other
   * shift, stays as it is.
   */
  function Advance(shifts: seq<Shift>, shiftId: Option<Id>, from: ShiftStatus, to: ShiftStatus, now: Moment)
    : (r: seq<Shift>)
    ensures |r| == |shifts|
    ensures forall k :: 0 <= k < |shifts| && r[k] != shifts[k] ==>
      shiftId.Some? && shifts[k].id == shiftId.value && shifts[k].status == from
      && r[k] == shifts[k].(status := to, updatedAt := now)
    ensures forall k :: 0 <= k < |shifts| && shifts[k].status != from ==> r[k] == shifts[k]
    ensures shiftId.Some? && FindShiftById(shifts, shiftId.value).Some?
            && shifts[FindShiftById(shifts, shiftId.value).value].status == from
            ==> r[FindShiftById(shifts, shiftId.value).value].status == to
  {
    if shiftId.None? then shifts
    else
      var i := FindShiftById(shifts, shiftId.value);
      if i.None? || shifts[i.value].status != from then shifts
      else shifts[i.value := shifts[i.value].(status := to, updatedAt := now)]
  }

  // ---------------------------------------------------------------------
  // Clock in and out
  // ---------------------------------------------------------------------

  /** The clock-in entry: stamped now, location verified exactly when a geolocation was sent. */
  function ClockInEntry(id: Id, req: ClockRequest, origin: Origin, now: Moment): (r: TimeClockEntry)
    ensures r.entryType == CLOCK_IN && r.entryAt == now && r.staffId == req.staffId && r.shiftId == req.shiftId
    ensures r.locationVerified <==> Truthy(req.geolocation)
  {
    TimeClockEntry(id, req.staffId, req.shiftId, CLOCK_IN, now, Truthy(req.geolocation), req.geolocation,
                   origin.clientHost, Some(Device(origin)), req.photoUrl, req.notes)
  }

  /** `clock_in`. */
  method ClockIn(db: Db, c: Caller, req: ClockRequest, origin: Origin, now: Moment) returns (r: Result<TimeClockEntry>)
    modifies db`entries, db`shifts
    ensures !StaffInOrg(db.staff, req.staffId, c.organizationId)
            ==> r == Err(NOT_FOUND, STAFF_NOT_FOUND) && db.entries == old(db.entries) && db.shifts == old(db.shifts)
    ensures StaffInOrg(db.staff, req.staffId, c.organizationId) && ClockedIn(old(db.entries), req.staffId)
            ==> r == Err(BAD_REQUEST, ALREADY_CLOCKED_IN) && db.entries == old(db.entries) && db.shifts == old(db.shifts)
    ensures r.Ok? <==> StaffInOrg(db.staff, req.staffId, c.organizationId) && !ClockedIn(old(db.entries), req.staffId)
    ensures r.Ok? ==> r.value == ClockInEntry(NextKey(old(db.entries), EntryIdOf), req, origin, now)
                      && db.entries == old(db.entries) + [r.value]
                      && db.shifts == Advance(old(db.shifts), req.shiftId, SCHEDULED, IN_PROGRESS, now)
  {
    FindStaffIffInOrg(db.staff, req.staffId, c.organizationId);
    if FindStaff(db.staff, req.staffId, c.organizationId).None? {
      return Err(NOT_FOUND, STAFF_NOT_FOUND);
    }
    var latest := Latest(db.entries, req.staffId, CLOCK_IN);
    if latest.Some? {
      var out := FirstMatch(db.entries, KindAfter(req.staffId, CLOCK_OUT, EntryStamp(db.entries[latest.value])));
      if out.None? {
        return Err(BAD_REQUEST, ALREADY_CLOCKED_IN);
      }
      assert KindAfter(req.staffId, CLOCK_OUT, EntryStamp(db.entries[latest.value]))(db.entries[out.value]);
    }
    var e := ClockInEntry(NextKey(db.entries, EntryIdOf), req, origin, now);
    db.entries := db.entries + [e];
    db.shifts := Advance(db.shifts, req.shiftId, SCHEDULED, IN_PROGRESS, now);
    r := Ok(e);
  }

  /** The clock-out entry; the shift is the one sent, or else the clock-in's. */
  function ClockOutEntry(id: Id, req: ClockRequest, origin: Origin, shiftId: Option<Id>, now: Moment): (r: TimeClockEntry)
    ensures r.entryType == CLOCK_OUT && r.entryAt == now && r.staffId == req.staffId && r.shiftId == shiftId
    ensures r.locationVerified <==> Truthy(req.geolocation)
  {
    TimeClockEntry(id, req.staffId, shiftId, CLOCK_OUT, now, Truthy(req.geolocation), req.geolocation,
                   origin.clientHost, Some(Device(origin)), req.photoUrl, req.notes)
  }

  /** `clock_out_data.shift_id or clock_in_entry.shift_id`. */
  function ShiftOrClockIns(sent: Option<Id>, clockIn: TimeClockEntry): (r: Option<Id>)
    ensures sent.Some? ==> r == sent
    ensures sent.None? ==> r == clockIn.shiftId
  {
    if sent.Some? then sent else clockIn.shiftId
  }

  /** `clock_out`, including the overtime bookkeeping it runs before committing. */
  method ClockOut(db: Db, c: Caller, req: ClockRequest, origin: Origin, now: Moment) returns (r: Result<TimeClockEntry>)
    modifies db`entries, db`shifts, db`overtime
    ensures !StaffInOrg(db.staff, req.staffId, c.organizationId)
            ==> r == Err(NOT_FOUND, STAFF_NOT_FOUND) && db.entries == old(db.entries) && db.shifts == old(db.shifts)
                && db.overtime == old(db.overtime)
    ensures StaffInOrg(db.staff, req.staffId, c.organizationId) && Latest(old(db.entries), req.staffId, CLOCK_IN).None?
            ==> r == Err(BAD_REQUEST, NO_CLOCK_IN) && db.entries == old(db.entries) && db.shifts == old(db.shifts)
                && db.overtime == old(db.overtime)
    ensures StaffInOrg(db.staff, req.staffId, c.organizationId) && Latest(old(db.entries), req.staffId, CLOCK_IN).Some?
            && !ClockedIn(old(db.entries), req.staffId)
            ==> r == Err(BAD_REQUEST, ALREADY_CLOCKED_OUT) && db.entries == old(db.entries) && db.shifts == old(db.shifts)
                && db.overtime == old(db.overtime)
    ensures r.Ok? <==> StaffInOrg(db.staff, req.staffId, c.organizationId) && ClockedIn(old(db.entries), req.staffId)
    ensures r.Ok? ==>
      var clockIn := old(db.entries)[Latest(old(db.entries), req.staffId, CLOCK_IN).value];
      var shiftId := ShiftOrClockIns(req.shiftId, clockIn);
      r.value == ClockOutEntry(NextKey(old(db.entries), EntryIdOf), req, origin, shiftId, now)
      && db.entries == old(db.entries) + [r.value]
      && db.shifts == Advance(old(db.shifts), shiftId, IN_PROGRESS, COMPLETED, now)
      && db.overtime == WithOvertime(old(db.overtime), req.staffId, shiftId, clockIn.entryAt, now)
  {
    FindStaffIffInOrg(db.staff, req.staffId, c.organizationId);
    if FindStaff(db.staff, req.staffId, c.organizationId).None? {
      return Err(NOT_FOUND, STAFF_NOT_FOUND);
    }
    var latest := Latest(db.entries, req.staffId, CLOCK_IN);
    if latest.None? {
      return Err(BAD_REQUEST, NO_CLOCK_IN);
    }
    var clockIn := db.entries[latest.value];
    var out := FirstMatch(db.entries, KindAfter(req.staffId, CLOCK_OUT, EntryStamp(clockIn)));
    if out.Some? {
      assert KindAfter(req.staffId, CLOCK_OUT, EntryStamp(clockIn))(db.entries[out.value]);
      return Err(BAD_REQUEST, ALREADY_CLOCKED_OUT);
    }
    var shiftId := ShiftOrClockIns(req.shiftId, clockIn);
    var e := ClockOutEntry(NextKey(db.entries, EntryIdOf), req, origin, shiftId, now);
    db.entries := db.entries + [e];
    db.shifts := Advance(db.shifts, shiftId, IN_PROGRESS, COMPLETED, now);
    RecordOvertime(db, req.staffId, shiftId, clockIn.entryAt, now);
    r := Ok(e);
  }

  /**
   * Clocking in, at a moment after every entry so far, leaves the staff
   * member clocked in, so a second clock-in is refused and a clock-out is
   * accepted.
   */
  lemma ClockInThenClockedIn(entries: seq<TimeClockEntry>, e: TimeClockEntry)
    requires e.entryType == CLOCK_IN
    requires forall k :: 0 <= k < |entries| ==> EntryStamp(entries[k]) < EntryStamp(e)
    ensures ClockedIn(entries + [e], e.staffId)
  {
    NewestIsLatest(entries, e, OfKind(e.staffId, CLOCK_IN));
    NothingAfterNewest(entries, e, e.staffId, CLOCK_OUT);
  }

  /** Clocking out, at a moment after every entry so far, ends the clocked-in state. */
  lemma ClockOutThenClockedOut(entries: seq<TimeClockEntry>, e: TimeClockEntry)
    requires e.entryType == CLOCK_OUT && Latest(entries, e.staffId, CLOCK_IN).Some?
    requires forall k :: 0 <= k < |entries| ==> EntryStamp(entries[k]) < EntryStamp(e)
    ensures !ClockedIn(entries + [e], e.staffId)
  {
    var all := entries + [e];
    var i := Latest(all, e.staffId, CLOCK_IN);
    var j := Latest(entries, e.staffId, CLOCK_IN).value;
    assert all[j] == entries[j] && OfKind(e.staffId, CLOCK_IN)(all[j]);
    assert i.value < |entries| && all[i.value] == entries[i.value];
    assert KindAfter(e.staffId, CLOCK_OUT, EntryStamp(all[i.value]))(all[|entries|]);
  }

  // ---------------------------------------------------------------------
  // Breaks
  // ---------------------------------------------------------------------

  /** A break entry: no geolocation, device or photo; `location_verified` takes its default, false. */
  function BreakEntryRow(id: Id, staffId: Id, shiftId: Option<Id>, kind: TimeEntryType, origin: Origin, notes: Option<string>,
                         now: Moment): (r: TimeClockEntry)
    ensures r.entryType == kind && r.entryAt == now && r.staffId == staffId && r.shiftId == shiftId && !r.locationVerified
  {
    TimeClockEntry(id, staffId, shiftId, kind, now, false, None, origin.clientHost, None, None, notes)
  }

  /** `start_break`. Being clocked in is not required. */
  method StartBreak(db: Db, c: Caller, staffId: Id, shiftId: Option<Id>, notes: Option<string>, origin: Origin, now: Moment)
    returns (r: Result<TimeClockEntry>)
    modifies db`entries
    ensures !StaffInOrg(db.staff, staffId, c.organizationId) ==> r == Err(NOT_FOUND, STAFF_NOT_FOUND)
    ensures StaffInOrg(db.staff, staffId, c.organizationId) && OnBreak(old(db.entries), staffId)
            ==> r == Err(BAD_REQUEST, ALREADY_ON_BREAK)
    ensures r.Err? ==> db.entries == old(db.entries)
    ensures r.Ok? <==> StaffInOrg(db.staff, staffId, c.organizationId) && !OnBreak(old(db.entries), staffId)
    ensures r.Ok? ==> r.value == BreakEntryRow(NextKey(old(db.entries), EntryIdOf), staffId, shiftId, BREAK_START, origin, notes, now)
                      && db.entries == old(db.entries) + [r.value]
  {
    FindStaffIffInOrg(db.staff, staffId, c.organizationId);
    if FindStaff(db.staff, staffId, c.organizationId).None? {
      return Err(NOT_FOUND, STAFF_NOT_FOUND);
    }
    var latest := LatestIndex(db.entries, BreakEntry(staffId), EntryStamp);
    if latest.Some? && db.entries[latest.value].entryType == BREAK_START {
      return Err(BAD_REQUEST, ALREADY_ON_BREAK);
    }
    var e := BreakEntryRow(NextKey(db.entries, EntryIdOf), staffId, shiftId, BREAK_START, origin, notes, now);
    db.entries := db.entries + [e];
    r := Ok(e);
  }

  /** `end_break`; the shift is the one sent, or else the break start's. */
  method EndBreak(db: Db, c: Caller, staffId: Id, shiftId: Option<Id>, notes: Option<string>, origin: Origin, now: Moment)
    returns (r: Result<TimeClockEntry>)
    modifies db`entries
    ensures !StaffInOrg(db.staff, staffId, c.organizationId) ==> r == Err(NOT_FOUND, STAFF_NOT_FOUND)
    ensures StaffInOrg(db.staff, staffId, c.organizationId) && Latest(old(db.entries), staffId, BREAK_START).None?
            ==> r == Err(BAD_REQUEST, NO_BREAK)
    ensures StaffInOrg(db.staff, staffId, c.organizationId) && Latest(old(db.entries), staffId, BREAK_START).Some?
            && !BreakOpen(old(db.entries), staffId)
            ==> r == Err(BAD_REQUEST, BREAK_ENDED)
    ensures r.Err? ==> db.entries == old(db.entries)
    ensures r.Ok? <==> StaffInOrg(db.staff, staffId, c.organizationId) && BreakOpen(old(db.entries), staffId)
    ensures r.Ok? ==>
      var start := old(db.entries)[Latest(old(db.entries), staffId, BREAK_START).value];
      r.value == BreakEntryRow(NextKey(old(db.entries), EntryIdOf), staffId, ShiftOrClockIns(shiftId, start), BREAK_END,
                               origin, notes, now)
      && db.entries == old(db.entries) + [r.value]
  {
    FindStaffIffInOrg(db.staff, staffId, c.organizationId);
    if FindStaff(db.staff, staffId, c.organizationId).None? {
      return Err(NOT_FOUND, STAFF_NOT_FOUND);
    }
    var latest := Latest(db.entries, staffId, BREAK_START);
    if latest.None? {
      return Err(BAD_REQUEST, NO_BREAK);
    }
    var start := db.entries[latest.value];
    var ended := FirstMatch(db.entries, KindAfter(staffId, BREAK_END, EntryStamp(start)));
    if ended.Some? {
      assert KindAfter(staffId, BREAK_END, EntryStamp(start))(db.entries[ended.value]);
      return Err(BAD_REQUEST, BREAK_ENDED);
    }
    var e := BreakEntryRow(NextKey(db.entries, EntryIdOf), staffId, ShiftOrClockIns(shiftId, start), BREAK_END, origin,
                           notes, now);
    db.entries := db.entries + [e];
    r := Ok(e);
  }

  /** Starting a break after every entry so far puts the staff member on a break that can be ended. */
  lemma StartBreakThenOnBreak(entries: seq<TimeClockEntry>, e: TimeClockEntry)
    requires e.entryType == BREAK_START
    requires forall k :: 0 <= k < |entries| ==> EntryStamp(entries[k]) < EntryStamp(e)
    ensures OnBreak(entries + [e], e.staffId) && BreakOpen(entries + [e], e.staffId)
  {
    NewestIsLatest(entries, e, BreakEntry(e.staffId));
    NewestIsLatest(entries, e, OfKind(e.staffId, BREAK_START));
    NothingAfterNewest(entries, e, e.staffId, BREAK_END);
  }

  /** Ending a break after every entry so far ends it: a new one can start and this one cannot end twice. */
  lemma EndBreakThenOffBreak(entries: seq<TimeClockEntry>, e: TimeClockEntry)
    requires e.entryType == BREAK_END && Latest(entries, e.staffId, BREAK_START).Some?
    requires forall k :: 0 <= k < |entries| ==> EntryStamp(entries[k]) < EntryStamp(e)
    ensures !OnBreak(entries + [e], e.staffId) && !BreakOpen(entries + [e], e.staffId)
  {
    var all := entries + [e];
    NewestIsLatest(entries, e, BreakEntry(e.staffId));
    var i := Latest(all, e.staffId, BREAK_START);
    var j := Latest(entries, e.staffId, BREAK_START).value;
    assert all[j] == entries[j] && OfKind(e.staffId, BREAK_START)(all[j]);
    assert i.value < |entries| && all[i.value] == entries[i.value];
    assert KindAfter(e.staffId, BREAK_END, EntryStamp(all[i.value]))(all[|entries|]);
  }

  // ---------------------------------------------------------------------
  // Adjustment
  // ---------------------------------------------------------------------

  /** `str(datetime)` for whole seconds: `YYYY-MM-DD HH:MM:SS`. */
  function DateTimeText(t: DateTime): (r: string)
    ensures StartsWith(r, DateIso(t.date) + " ")
  {
    DateIso(t.date) + " " + TimeIso(t.second)
  }

  /** What an adjustment remark says before the reason: both times and who made the change. */
  function AdjustHead(original: DateTime, replacement: DateTime, who: string): (r: string)
    ensures |r| > 0 && r[0] == 'A'
  {
    "ADJUSTED: " + DateTimeText(original) + " -> " + DateTimeText(replacement) + " by " + who + ". Reason: "
  }

  /** The remark an adjustment leaves in the notes: it opens with the change and closes with the reason given. */
  function AdjustRemark(original: DateTime, replacement: DateTime, who: string, reason: string): (r: string)
    ensures StartsWith(r, AdjustHead(original, replacement, who))
    ensures EndsWith(r, reason)
  {
    var head := AdjustHead(original, replacement, who);
    assert (head + reason)[..|head|] == head;
    head + reason
  }

  /** The adjusted entry: the new time, and the remark appended to the notes; nothing else changes. */
  function Adjusted(e: TimeClockEntry, newAt: Moment, who: string, reason: string): (r: TimeClockEntry)
    ensures r.entryAt == newAt && r.(entryAt := e.entryAt, notes := e.notes) == e
    ensures r.notes == Some(AppendNote(e.notes, AdjustRemark(e.entryAt, newAt, who, reason)))
  {
    e.(entryAt := newAt, notes := Some(AppendNote(e.notes, AdjustRemark(e.entryAt, newAt, who, reason))))
  }

  /** With a reason that does not end in whitespace, the remark closes the notes and keeps the original time. */
  lemma AdjustRecordsOriginal(e: TimeClockEntry, newAt: Moment, who: string, reason: string)
    requires reason != "" && !IsSpace(reason[|reason| - 1])
    ensures EndsWith(Adjusted(e, newAt, who, reason).notes.value, AdjustRemark(e.entryAt, newAt, who, reason))
  {
    var line := AdjustRemark(e.entryAt, newAt, who, reason);
    var head := AdjustHead(e.entryAt, newAt, who);
    assert line == head + reason;
    assert line[0] == head[0] && line[|line| - 1] == reason[|reason| - 1];
    AppendNoteEndsWithLine(e.notes, line);
  }

  /** The entry as joined to its staff record: the staff member belongs to the caller's organisation. */
  function EntryInOrg(staff: seq<Staff>, id: Id, org: Option<Id>): TimeClockEntry -> bool
  {
    (e: TimeClockEntry) => e.id == id && StaffInOrg(staff, e.staffId, org)
  }

  /** `adjust_time_entry`. */
  method AdjustTimeEntry(db: Db, c: Caller, id: Id, newAt: Moment, reason: string) returns (r: Result<TimeClockEntry>)
    modifies db`entries
    ensures FirstMatch(old(db.entries), EntryInOrg(db.staff, id, c.organizationId)).None?
            ==> r == Err(NOT_FOUND, ENTRY_NOT_FOUND) && db.entries == old(db.entries)
    ensures FirstMatch(old(db.entries), EntryInOrg(db.staff, id, c.organizationId)).Some?
            ==> var i := FirstMatch(old(db.entries), EntryInOrg(db.staff, id, c.organizationId)).value;
                r == Ok(Adjusted(old(db.entries)[i], newAt, c.fullName, reason))
                && db.entries == old(db.entries)[i := r.value]
  {
    var i := FirstMatch(db.entries, EntryInOrg(db.staff, id, c.organizationId));
    if i.None? {
      return Err(NOT_FOUND, ENTRY_NOT_FOUND);
    }
    var e := Adjusted(db.entries[i.value], newAt, c.fullName, reason);
    db.entries := db.entries[i.value := e];
    r := Ok(e);
  }

  // ---------------------------------------------------------------------
  // Lists
  // ---------------------------------------------------------------------

  /** The staff member's entries from `start_date` at midnight through `end_date` at its last second. */
  function EntryListed(staffId: Id, startDate: Option<Day>, endDate: Option<Day>): TimeClockEntry -> bool
  {
    (e: TimeClockEntry) =>
      e.staffId == staffId
      && (startDate.None? || EntryStamp(e) >= Stamp(Combine(startDate.value, 0)))
      && (endDate.None? || EntryStamp(e) <= Stamp(Combine(endDate.value, SECONDS_PER_DAY - 1)))
  }

  /** `get_staff_time_entries`: one page of the staff member's entries, latest first. */
  function ListTimeEntries(staff: seq<Staff>, entries: seq<TimeClockEntry>, c: Caller, staffId: Id,
                           startDate: Option<Day>, endDate: Option<Day>, skip: int, limit: int)
    : (r: Result<Page<TimeClockEntry>>)
    ensures !PagingValid(skip, limit) ==> r.Err? && r.status == UNPROCESSABLE
    ensures PagingValid(skip, limit) && !StaffInOrg(staff, staffId, c.organizationId) ==> r == Err(NOT_FOUND, STAFF_NOT_FOUND)
    ensures r.Ok? <==> PagingValid(skip, limit) && StaffInOrg(staff, staffId, c.organizationId)
    ensures r.Ok? ==> r.value.total == Count(entries, EntryListed(staffId, startDate, endDate))
                      && r.value.page == PageOf(skip, limit) && r.value.pages == PageCount(r.value.total, limit)
    ensures r.Ok? ==> |r.value.items| <= limit && SortedDesc(r.value.items, EntryStamp)
    ensures r.Ok? ==> forall k :: 0 <= k < |r.value.items| ==>
      r.value.items[k] in entries && EntryListed(staffId, startDate, endDate)(r.value.items[k])
    ensures r.Ok? ==> r.value.items == Window(SelectDesc(entries, EntryListed(staffId, startDate, endDate), EntryStamp), skip, limit)
  {
    FindStaffIffInOrg(staff, staffId, c.organizationId);
    if !PagingValid(skip, limit) then Err(UNPROCESSABLE, "Input should be within the allowed range")
    else if FindStaff(staff, staffId, c.organizationId).None? then Err(NOT_FOUND, STAFF_NOT_FOUND)
    else
      var ordered := SelectDesc(entries, EntryListed(staffId, startDate, endDate), EntryStamp);
      var page := Paginate(ordered, skip, limit);
      assert forall k :: 0 <= k < |page.items| ==> page.items[k] == ordered[skip + k];
      Ok(page)
  }

  function WeekKey(o: OvertimeTracking): int
  {
    DayNumber(o.weekStartDate)
  }

  function OvertimeListed(staffId: Id, startDate: Option<Day>, endDate: Option<Day>): OvertimeTracking -> bool
  {
    (o: OvertimeTracking) =>
      o.staffId == staffId
      && (startDate.None? || DayNumber(o.weekStartDate) >= DayNumber(startDate.value))
      && (endDate.None? || DayNumber(o.weekStartDate) <= DayNumber(endDate.value))
  }

  /** `get_staff_overtime`: the staff member's weekly records, latest week first. */
  function StaffOvertime(staff: seq<Staff>, rows: seq<OvertimeTracking>, c: Caller, staffId: Id, startDate: Option<Day>,
                         endDate: Option<Day>): (r: Result<seq<OvertimeTracking>>)
    ensures r.Err? <==> !StaffInOrg(staff, staffId, c.organizationId)
    ensures r.Err? ==> r == Err(NOT_FOUND, STAFF_NOT_FOUND)
    ensures r.Ok? ==> multiset(r.value) == multiset(Filter(rows, OvertimeListed(staffId, startDate, endDate)))
    ensures r.Ok? ==> SortedDesc(r.value, WeekKey)
  {
    FindStaffIffInOrg(staff, staffId, c.organizationId);
    if FindStaff(staff, staffId, c.organizationId).None? then Err(NOT_FOUND, STAFF_NOT_FOUND)
    else Ok(SelectDesc(rows, OvertimeListed(staffId, startDate, endDate), WeekKey))
  }

  // ---------------------------------------------------------------------
  // Overtime
  // ---------------------------------------------------------------------

  /** The Monday of the week of `d`. */
  function WeekStart(d: Day): (r: Day)
    ensures Weekday(r) == 0
    ensures DayNumber(d) - 6 <= DayNumber(r) <= DayNumber(d)
  {
    var r := AddDays(d, -Weekday(d));
    RoundDownToSeven(DayNumber(d) + 3);
    r
  }

  /** Taking away the remainder leaves a multiple of seven. */
  lemma RoundDownToSeven(x: int)
    ensures (x - x % 7) % 7 == 0
  {
    assert x - x % 7 == 7 * (x / 7);
  }

  /** Two multiples of seven less than seven apart are equal. */
  lemma MultiplesOfSevenApart(x: int, y: int)
    requires x % 7 == 0 && y % 7 == 0 && -7 < x - y < 7
    ensures x == y
  {
    assert x == 7 * (x / 7) && y == 7 * (y / 7);
    assert x - y == 7 * (x / 7 - y / 7);
  }

  /** Days of the same week share their Monday. */
  lemma SameWeekSameStart(a: Day, b: Day)
    requires DayNumber(WeekStart(a)) <= DayNumber(b) < DayNumber(WeekStart(a)) + 7
    ensures DayNumber(WeekStart(b)) == DayNumber(WeekStart(a))
  {
    var wa := DayNumber(WeekStart(a));
    var wb := DayNumber(WeekStart(b));
    MultiplesOfSevenApart(wa + 3, wb + 3);
  }

  /**
   * Adds `worked` seconds to a weekly record: `total` grows by them; while
   * the week's total is under the limit they are regular time up to the
   * limit and overtime past it; once the total has reached the limit they
   * are all overtime.
   */
  function Split(row: OvertimeTracking, worked: int): (r: OvertimeTracking)
    ensures r.totalSeconds == row.totalSeconds + worked
    ensures (r.regularSeconds - row.regularSeconds) + (r.overtimeSeconds - row.overtimeSeconds) == worked
    ensures row.totalSeconds >= WEEK_LIMIT ==> r.regularSeconds == row.regularSeconds
    ensures row.totalSeconds < WEEK_LIMIT && row.totalSeconds + worked <= WEEK_LIMIT ==> r.overtimeSeconds == row.overtimeSeconds
    ensures row.totalSeconds < WEEK_LIMIT < row.totalSeconds + worked
            ==> row.totalSeconds + (r.regularSeconds - row.regularSeconds) == WEEK_LIMIT
    ensures r.(regularSeconds := row.regularSeconds, overtimeSeconds := row.overtimeSeconds,
               totalSeconds := row.totalSeconds) == row
  {
    var total := row.totalSeconds;
    var newTotal := total + worked;
    if total < WEEK_LIMIT then
      if newTotal <= WEEK_LIMIT then row.(regularSeconds := row.regularSeconds + worked, totalSeconds := newTotal)
      else
        var regular := WEEK_LIMIT - total;
        row.(regularSeconds := row.regularSeconds + regular,
             overtimeSeconds := row.overtimeSeconds + (worked - regular),
             totalSeconds := newTotal)
    else row.(overtimeSeconds := row.overtimeSeconds + worked, totalSeconds := newTotal)
  }

  /** A consistent week: regular and overtime add up to the total, overtime is not negative, regular time is within the limit. */
  predicate WeekConsistent(row: OvertimeTracking)
  {
    row.regularSeconds + row.overtimeSeconds == row.totalSeconds && row.overtimeSeconds >= 0
    && row.regularSeconds <= WEEK_LIMIT
  }

  /** Adding worked time keeps a week consistent: in particular regular time never passes 40 hours. */
  lemma SplitKeepsWeekConsistent(row: OvertimeTracking, worked: int)
    requires WeekConsistent(row) && worked >= 0
    ensures WeekConsistent(Split(row, worked))
  {
  }

  /** The record `calculate_overtime` creates when the week has none: all counters at zero. */
  function NewWeek(id: Id, staffId: Id, shiftId: Option<Id>, week: Day): (r: OvertimeTracking)
    ensures WeekConsistent(r) && r.totalSeconds == 0 && r.staffId == staffId && r.weekStartDate == week
  {
    OvertimeTracking(id, staffId, shiftId, week, 0, 0, 0, 0, 0)
  }

  function WeekOf(staffId: Id, week: Day): OvertimeTracking -> bool
  {
    (o: OvertimeTracking) => o.staffId == staffId && o.weekStartDate == week
  }

  /**
   * The overtime table once a shift from `clockIn` to `clockOut` is
   * booked: the staff member's record for the week of the clock-in (the
   * first one found, or a new one) has the worked seconds split onto it.
   */
  function WithOvertime(rows: seq<OvertimeTracking>, staffId: Id, shiftId: Option<Id>, clockIn: Moment, clockOut: Moment)
    : (r: seq<OvertimeTracking>)
    ensures var week := WeekStart(clockIn.date);
            var i := FirstMatch(rows, WeekOf(staffId, week));
            var worked := Stamp(clockOut) - Stamp(clockIn);
            (i.Some? ==> r == rows[i.value := Split(rows[i.value], worked)])
            && (i.None? ==> r == rows + [Split(NewWeek(NextKey(rows, OvertimeIdOf), staffId, shiftId, week), worked)])
  {
    var week := WeekStart(clockIn.date);
    var i := FirstMatch(rows, WeekOf(staffId, week));
    var worked := Stamp(clockOut) - Stamp(clockIn);
    if i.Some? then rows[i.value := Split(rows[i.value], worked)]
    else rows + [Split(NewWeek(NextKey(rows, OvertimeIdOf), staffId, shiftId, week), worked)]
  }

  /** Every week stays consistent when a shift of non-negative length is booked. */
  lemma WithOvertimeKeepsWeeksConsistent(rows: seq<OvertimeTracking>, staffId: Id, shiftId: Option<Id>, clockIn: Moment,
                                         clockOut: Moment)
    requires forall k :: 0 <= k < |rows| ==> WeekConsistent(rows[k])
    requires Stamp(clockIn) <= Stamp(clockOut)
    ensures var r := WithOvertime(rows, staffId, shiftId, clockIn, clockOut);
            forall k :: 0 <= k < |r| ==> WeekConsistent(r[k])
  {
    var week := WeekStart(clockIn.date);
    var i := FirstMatch(rows, WeekOf(staffId, week));
    var worked := Stamp(clockOut) - Stamp(clockIn);
    if i.Some? {
      SplitKeepsWeekConsistent(rows[i.value], worked);
    } else {
      SplitKeepsWeekConsistent(NewWeek(NextKey(rows, OvertimeIdOf), staffId, shiftId, week), worked);
    }
  }

  /** `calculate_overtime`: get or create the week's record and update its counters in place. */
  method RecordOvertime(db: Db, staffId: Id, shiftId: Option<Id>, clockIn: Moment, clockOut: Moment)
    modifies db`overtime
    ensures db.overtime == WithOvertime(old(db.overtime), staffId, shiftId, clockIn, clockOut)
  {
    var week := WeekStart(clockIn.date);
    var worked := Stamp(clockOut) - Stamp(clockIn);
    var i := FirstMatch(db.overtime, WeekOf(staffId, week));
    if i.None? {
      db.overtime := db.overtime + [NewWeek(NextKey(db.overtime, OvertimeIdOf), staffId, shiftId, week)];
      i := Some(|db.overtime| - 1);
    }
    db.overtime := db.overtime[i.value := Split(db.overtime[i.value], worked)];
  }
}
