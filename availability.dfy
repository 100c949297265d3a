/**
 * The availability router of the scheduling API: the weekly availability
 * slots of a staff member (listed, created, changed, deleted, or replaced
 * wholesale), time-off requests, shift coverage requests and shift swaps.
 * Every lookup of a staff member, shift or request is scoped to the
 * caller's organisation; a caller without an organisation matches no row.
 */
module AvailabilityApi {
  import opened Common
  import opened StaffModel
  import opened SchedulingModel
  import opened SchedulingSchemas
  import opened SchedulingDb
  import opened SchedulingRouter
  import opened Routing

  const STAFF_NOT_FOUND: string := "Staff member not found"
  const SLOT_NOT_FOUND: string := "Availability slot not found"
  const REQUEST_NOT_FOUND: string := "Coverage request not found"

  // ---------------------------------------------------------------------
  // Availability slots
  // ---------------------------------------------------------------------

  /**
   * The staff member's slots, and with a date given only those in effect
   * on it: effective on or before it and expiring on or after it, or never.
   */
  function SlotInEffect(staffId: Id, onDate: Option<Day>): StaffAvailability -> bool
  {
    (a: StaffAvailability) =>
      a.staffId == staffId
      && (onDate.None?
          || (DayNumber(a.effectiveDate) <= DayNumber(onDate.value)
              && (a.expiryDate.None? || DayNumber(a.expiryDate.value) >= DayNumber(onDate.value))))
  }

  /** `order_by(day_of_week, start_time)` folded into one integer key. */
  function SlotOrder(a: StaffAvailability): int
  {
    a.dayOfWeek * SECONDS_PER_DAY + a.startTime
  }

  /** The folded key orders slots by weekday first and by start time within a weekday. */
  lemma SlotOrderIsDayThenTime(a: StaffAvailability, b: StaffAvailability)
    ensures SlotOrder(a) <= SlotOrder(b)
            <==> a.dayOfWeek < b.dayOfWeek || (a.dayOfWeek == b.dayOfWeek && a.startTime <= b.startTime)
  {
    if a.dayOfWeek < b.dayOfWeek {
      var gap := b.dayOfWeek - a.dayOfWeek;
      assert gap * SECONDS_PER_DAY >= SECONDS_PER_DAY;
      assert SlotOrder(b) - SlotOrder(a) == gap * SECONDS_PER_DAY + b.startTime - a.startTime;
    } else if a.dayOfWeek > b.dayOfWeek {
      var gap := a.dayOfWeek - b.dayOfWeek;
      assert gap * SECONDS_PER_DAY >= SECONDS_PER_DAY;
      assert SlotOrder(a) - SlotOrder(b) == gap * SECONDS_PER_DAY + a.startTime - b.startTime;
    }
  }

  predicate ByDayThenTime(xs: seq<StaffAvailability>)
  {
    forall i, j :: 0 <= i < j < |xs| ==>
      xs[i].dayOfWeek < xs[j].dayOfWeek || (xs[i].dayOfWeek == xs[j].dayOfWeek && xs[i].startTime <= xs[j].startTime)
  }

  lemma SortedBySlotOrder(xs: seq<StaffAvailability>)
    requires SortedAsc(xs, SlotOrder)
    ensures ByDayThenTime(xs)
  {
    forall i, j | 0 <= i < j < |xs|
      ensures xs[i].dayOfWeek < xs[j].dayOfWeek || (xs[i].dayOfWeek == xs[j].dayOfWeek && xs[i].startTime <= xs[j].startTime)
    {
      SlotOrderIsDayThenTime(xs[i], xs[j]);
    }
  }

  /**
   * `get_staff_availability`: the staff member's slots (in effect on the
   * date, when one is given), by weekday and then start time.
   */
  function ListAvailability(staff: seq<Staff>, slots: seq<StaffAvailability>, c: Caller, staffId: Id,
                            onDate: Option<Day>): (r: Result<seq<StaffAvailability>>)
    ensures r.Err? <==> !StaffInOrg(staff, staffId, c.organizationId)
    ensures r.Err? ==> r == Err(NOT_FOUND, STAFF_NOT_FOUND)
    ensures r.Ok? ==> multiset(r.value) == multiset(Filter(slots, SlotInEffect(staffId, onDate)))
    ensures r.Ok? ==> ByDayThenTime(r.value)
  {
    FindStaffIffInOrg(staff, staffId, c.organizationId);
    if FindStaff(staff, staffId, c.organizationId).None? then Err(NOT_FOUND, STAFF_NOT_FOUND)
    else
      var listed := SelectAsc(slots, SlotInEffect(staffId, onDate), SlotOrder);
      SortedBySlotOrder(listed);
      Ok(listed)
  }

  /**
   * The overlap query of `create_staff_availability`: a slot of the same
   * staff member on the same weekday, effective on or before the new
   * slot's effective date, not expired before it, whose hours overlap the
   * new ones.
   */
  function Clashes(staffId: Id, body: AvailabilityCreate): StaffAvailability -> bool
  {
    (a: StaffAvailability) =>
      a.staffId == staffId
      && a.dayOfWeek == body.dayOfWeek
      && DayNumber(a.effectiveDate) <= DayNumber(body.effectiveDate)
      && Overlaps(a.startTime, a.endTime, body.startTime, body.endTime)
      && (a.expiryDate.None? || DayNumber(a.expiryDate.value) >= DayNumber(body.effectiveDate))
  }

  /**
   * A slot clashes exactly when it is one the list would show for the new
   * slot's effective date, on the same weekday, with overlapping hours.
   */
  lemma ClashMeansInEffectAndOverlapping(staffId: Id, body: AvailabilityCreate, a: StaffAvailability)
    ensures Clashes(staffId, body)(a)
            <==> SlotInEffect(staffId, Some(body.effectiveDate))(a) && a.dayOfWeek == body.dayOfWeek
                 && Overlaps(body.startTime, body.endTime, a.startTime, a.endTime)
  {
    OverlapsSymmetricAndStrict(a.startTime, a.endTime, body.startTime, body.endTime);
  }

  /** The row `create_staff_availability` stores: the staff member is the one of the path. */
  function NewSlot(id: Id, staffId: Id, body: AvailabilityCreate, now: Moment): StaffAvailability
  {
    StaffAvailability(id, staffId, body.dayOfWeek, body.startTime, body.endTime, body.availabilityType,
                      body.effectiveDate, body.expiryDate, body.notes, now)
  }

  predicate HasClash(slots: seq<StaffAvailability>, staffId: Id, body: AvailabilityCreate)
  {
    exists k :: 0 <= k < |slots| && Clashes(staffId, body)(slots[k])
  }

  /** `create_staff_availability`. */
  method CreateAvailability(db: Db, c: Caller, staffId: Id, body: AvailabilityCreate, now: Moment)
    returns (r: Result<StaffAvailability>)
    modifies db`availability
    ensures !StaffInOrg(db.staff, staffId, c.organizationId)
            ==> r == Err(NOT_FOUND, STAFF_NOT_FOUND) && db.availability == old(db.availability)
    ensures StaffInOrg(db.staff, staffId, c.organizationId) && HasClash(old(db.availability), staffId, body)
            ==> r == Err(BAD_REQUEST, "Overlapping availability slot exists") && db.availability == old(db.availability)
    ensures StaffInOrg(db.staff, staffId, c.organizationId) && !HasClash(old(db.availability), staffId, body)
            ==> r == Ok(NewSlot(NextKey(old(db.availability), AvailabilityIdOf), staffId, body, now))
                && db.availability == old(db.availability) + [r.value]
  {
    FindStaffIffInOrg(db.staff, staffId, c.organizationId);
    if FindStaff(db.staff, staffId, c.organizationId).None? {
      return Err(NOT_FOUND, STAFF_NOT_FOUND);
    }
    if FirstMatch(db.availability, Clashes(staffId, body)).Some? {
      return Err(BAD_REQUEST, "Overlapping availability slot exists");
    }
    var s := NewSlot(NextKey(db.availability, AvailabilityIdOf), staffId, body, now);
    db.availability := db.availability + [s];
    r := Ok(s);
  }

  /**
   * The overlap query looks back only: a slot that takes effect after the
   * new one is not checked, so a new slot effective earlier is stored even
   * though, from the later slot's effective date on, both are in effect
   * and their hours overlap on the same weekday.
   */
  lemma LaterSlotIsNotChecked(staffId: Id, body: AvailabilityCreate, later: StaffAvailability, id: Id, now: Moment)
    requires later.staffId == staffId && later.dayOfWeek == body.dayOfWeek
    requires Overlaps(later.startTime, later.endTime, body.startTime, body.endTime)
    requires DayNumber(body.effectiveDate) < DayNumber(later.effectiveDate)
    requires body.expiryDate.None? && later.expiryDate.None?
    ensures !Clashes(staffId, body)(later)
    ensures SlotInEffect(staffId, Some(later.effectiveDate))(later)
    ensures SlotInEffect(staffId, Some(later.effectiveDate))(NewSlot(id, staffId, body, now))
  {
  }

  /**
   * `setattr` of every field sent in a `StaffAvailabilityUpdate`;
   * `updated_at` is stamped. The key and the staff member stay.
   */
  function ApplyAvailabilityUpdate(a: StaffAvailability, u: AvailabilityUpdate, now: Moment): (r: StaffAvailability)
    ensures r.id == a.id && r.staffId == a.staffId && r.updatedAt == now
  {
    StaffAvailability(
      a.id, a.staffId,
      if u.dayOfWeek.Some? then u.dayOfWeek.value else a.dayOfWeek,
      if u.startTime.Some? then u.startTime.value else a.startTime,
      if u.endTime.Some? then u.endTime.value else a.endTime,
      if u.availabilityType.Some? then u.availabilityType.value else a.availabilityType,
      if u.effectiveDate.Some? then u.effectiveDate.value else a.effectiveDate,
      if u.expiryDate.Some? then u.expiryDate else a.expiryDate,
      if u.notes.Some? then u.notes else a.notes,
      now)
  }

  /**
   * Applying an update twice is applying it once; an update that sends
   * nothing only stamps `updated_at`; and since a sent start is compared
   * with neither the stored end nor any other slot, an update can leave a
   * slot that ends before it starts.
   */
  lemma AvailabilityUpdateProperties(a: StaffAvailability, u: AvailabilityUpdate, now: Moment, later: Moment)
    ensures ApplyAvailabilityUpdate(ApplyAvailabilityUpdate(a, u, now), u, later) == ApplyAvailabilityUpdate(a, u, later)
    ensures u == AvailabilityUpdate(None, None, None, None, None, None, None)
            ==> ApplyAvailabilityUpdate(a, u, now) == a.(updatedAt := now)
    ensures u.startTime.Some? && u.endTime.None? && u.startTime.value >= a.endTime
            ==> !AvailabilityAnswerable(ApplyAvailabilityUpdate(a, u, now))
    ensures AvailabilityAnswerable(a) && u.startTime.None? && u.endTime.None?
            ==> AvailabilityAnswerable(ApplyAvailabilityUpdate(a, u, now))
  {
  }

  /** `StaffAvailabilityResponse` re-runs the slot validator: the end time must come after the start time. */
  predicate AvailabilityAnswerable(a: StaffAvailability)
  {
    a.endTime > a.startTime
  }

  const UPDATE_SLOT_FAILED := "Failed to update availability slot"

  function SlotKey(id: Id, staffId: Id): StaffAvailability -> bool
  {
    (a: StaffAvailability) => a.id == id && a.staffId == staffId
  }

  /**
   * `update_staff_availability`: no overlap check is made. The slot is
   * committed before the response is built, so a slot left ending at or
   * before its start stays stored while the handler's catch-all answers a
   * 500; its rollback comes after the commit and undoes nothing.
   */
  method UpdateAvailability(db: Db, c: Caller, staffId: Id, slotId: Id, u: AvailabilityUpdate, now: Moment)
    returns (r: Result<StaffAvailability>)
    modifies db`availability
    ensures !StaffInOrg(db.staff, staffId, c.organizationId)
            ==> r == Err(NOT_FOUND, STAFF_NOT_FOUND) && db.availability == old(db.availability)
    ensures StaffInOrg(db.staff, staffId, c.organizationId)
            && FirstMatch(old(db.availability), SlotKey(slotId, staffId)).None?
            ==> r == Err(NOT_FOUND, SLOT_NOT_FOUND) && db.availability == old(db.availability)
    ensures StaffInOrg(db.staff, staffId, c.organizationId)
            && FirstMatch(old(db.availability), SlotKey(slotId, staffId)).Some?
            ==> var i := FirstMatch(old(db.availability), SlotKey(slotId, staffId)).value;
                var a := ApplyAvailabilityUpdate(old(db.availability)[i], u, now);
                db.availability == old(db.availability)[i := a]
                && r == if AvailabilityAnswerable(a) then Ok(a) else Err(INTERNAL_ERROR, UPDATE_SLOT_FAILED)
  {
    FindStaffIffInOrg(db.staff, staffId, c.organizationId);
    if FindStaff(db.staff, staffId, c.organizationId).None? {
      return Err(NOT_FOUND, STAFF_NOT_FOUND);
    }
    var i := FirstMatch(db.availability, SlotKey(slotId, staffId));
    if i.None? {
      return Err(NOT_FOUND, SLOT_NOT_FOUND);
    }
    var a := ApplyAvailabilityUpdate(db.availability[i.value], u, now);
    db.availability := db.availability[i.value := a];
    if !AvailabilityAnswerable(a) {
      return Err(INTERNAL_ERROR, UPDATE_SLOT_FAILED);
    }
    r := Ok(a);
  }

  /** `delete_staff_availability`. */
  method DeleteAvailability(db: Db, c: Caller, staffId: Id, slotId: Id) returns (r: Result<string>)
    modifies db`availability
    ensures !StaffInOrg(db.staff, staffId, c.organizationId)
            ==> r == Err(NOT_FOUND, STAFF_NOT_FOUND) && db.availability == old(db.availability)
    ensures StaffInOrg(db.staff, staffId, c.organizationId)
            && FirstMatch(old(db.availability), SlotKey(slotId, staffId)).None?
            ==> r == Err(NOT_FOUND, SLOT_NOT_FOUND) && db.availability == old(db.availability)
    ensures StaffInOrg(db.staff, staffId, c.organizationId)
            && FirstMatch(old(db.availability), SlotKey(slotId, staffId)).Some?
            ==> r == Ok("Availability slot deleted successfully")
                && db.availability == RemoveAt(old(db.availability), FirstMatch(old(db.availability), SlotKey(slotId, staffId)).value)
  {
    FindStaffIffInOrg(db.staff, staffId, c.organizationId);
    if FindStaff(db.staff, staffId, c.organizationId).None? {
      return Err(NOT_FOUND, STAFF_NOT_FOUND);
    }
    var i := FirstMatch(db.availability, SlotKey(slotId, staffId));
    if i.None? {
      return Err(NOT_FOUND, SLOT_NOT_FOUND);
    }
    db.availability := RemoveAt(db.availability, i.value);
    r := Ok("Availability slot deleted successfully");
  }

  /** With unique keys, a deleted slot can no longer be found, and every other slot stays. */
  lemma DeletedSlotIsGone(slots: seq<StaffAvailability>, slotId: Id, staffId: Id)
    requires KeysUnique(slots, AvailabilityIdOf)
    requires FirstMatch(slots, SlotKey(slotId, staffId)).Some?
    ensures var i := FirstMatch(slots, SlotKey(slotId, staffId)).value;
            FirstMatch(RemoveAt(slots, i), SlotKey(slotId, staffId)).None?
            && forall k :: 0 <= k < |slots| && k != i ==> slots[k] in RemoveAt(slots, i)
  {
    var i := FirstMatch(slots, SlotKey(slotId, staffId)).value;
    RemoveAtForgetsKey(slots, i, AvailabilityIdOf);
    var rest := RemoveAt(slots, i);
    forall k | 0 <= k < |rest|
      ensures !SlotKey(slotId, staffId)(rest[k])
    {
      assert AvailabilityIdOf(rest[k]) != AvailabilityIdOf(slots[i]);
    }
  }

  function OfStaff(staffId: Id): StaffAvailability -> bool
  {
    (a: StaffAvailability) => a.staffId == staffId
  }

  function NotOfStaff(staffId: Id): StaffAvailability -> bool
  {
    (a: StaffAvailability) => a.staffId != staffId
  }

  function EveryItem(): AvailabilityCreate -> bool
  {
    (x: AvailabilityCreate) => true
  }

  function BulkSlot(staffId: Id, now: Moment): (AvailabilityCreate, Id) -> StaffAvailability
  {
    (x: AvailabilityCreate, id: Id) => NewSlot(id, staffId, x, now)
  }

  /** The rows the bulk replacement inserts, one per listed slot, in order. */
  function ReplacementSlots(staffId: Id, items: seq<AvailabilityCreate>, firstId: Id, now: Moment): seq<StaffAvailability>
  {
    Inserted(items, EveryItem(), BulkSlot(staffId, now), firstId)
  }

  /** Every listed slot is stored, for the staff member of the path, with consecutive keys. */
  lemma ReplacementSlotsContent(staffId: Id, items: seq<AvailabilityCreate>, firstId: Id, now: Moment)
    ensures |ReplacementSlots(staffId, items, firstId, now)| == |items|
    ensures forall k :: 0 <= k < |items| ==>
      ReplacementSlots(staffId, items, firstId, now)[k] == NewSlot(firstId + k, staffId, items[k], now)
  {
    InsertedIsFilterThenNumber(items, EveryItem(), BulkSlot(staffId, now), firstId);
    FilterAll(items, EveryItem());
  }

  /**
   * `bulk_update_staff_availability`: every slot of the staff member is
   * deleted and the listed ones are stored instead, without any overlap
   * check; the `staff_id` of the body is not read.
   */
  method ReplaceAvailability(db: Db, c: Caller, staffId: Id, body: AvailabilityBulkUpdate, now: Moment)
    returns (r: Result<seq<StaffAvailability>>)
    modifies db`availability
    ensures !StaffInOrg(db.staff, staffId, c.organizationId)
            ==> r == Err(NOT_FOUND, STAFF_NOT_FOUND) && db.availability == old(db.availability)
    ensures StaffInOrg(db.staff, staffId, c.organizationId)
            ==> r == Ok(ReplacementSlots(staffId, body.slots, NextKey(old(db.availability), AvailabilityIdOf), now))
                && db.availability == Filter(old(db.availability), NotOfStaff(staffId)) + r.value
  {
    FindStaffIffInOrg(db.staff, staffId, c.organizationId);
    if FindStaff(db.staff, staffId, c.organizationId).None? {
      return Err(NOT_FOUND, STAFF_NOT_FOUND);
    }
    var kept := Filter(db.availability, NotOfStaff(staffId));
    var added, next := InsertLoop(body.slots, EveryItem(), BulkSlot(staffId, now), NextKey(db.availability, AvailabilityIdOf));
    db.availability := kept + added;
    r := Ok(added);
  }

  /**
   * After the replacement the staff member's slots are exactly the listed
   * ones, and every other staff member's slots are as they were.
   */
  lemma ReplacementIsExactlyTheList(slots: seq<StaffAvailability>, staffId: Id, items: seq<AvailabilityCreate>,
                                    firstId: Id, now: Moment)
    ensures var after := Filter(slots, NotOfStaff(staffId)) + ReplacementSlots(staffId, items, firstId, now);
            Filter(after, OfStaff(staffId)) == ReplacementSlots(staffId, items, firstId, now)
            && Filter(after, NotOfStaff(staffId)) == Filter(slots, NotOfStaff(staffId))
  {
    var kept := Filter(slots, NotOfStaff(staffId));
    var added := ReplacementSlots(staffId, items, firstId, now);
    ReplacementSlotsContent(staffId, items, firstId, now);
    FilterAppend(kept, added, OfStaff(staffId));
    FilterAppend(kept, added, NotOfStaff(staffId));
    FilterNone(kept, OfStaff(staffId));
    FilterAll(kept, NotOfStaff(staffId));
    FilterAll(added, OfStaff(staffId));
    FilterNone(added, NotOfStaff(staffId));
  }

  // ---------------------------------------------------------------------
  // Time off
  // ---------------------------------------------------------------------

  /** The row `create_time_off_request` stores: a PENDING request. */
  function NewTimeOff(id: Id, body: TimeOffCreate): (r: TimeOff)
    ensures r.status == PENDING && r.staffId == body.staffId
  {
    TimeOff(id, body.staffId, body.startAt, body.endAt, body.timeOffType, PENDING,
            body.affectsScheduling, body.replacementRequired, body.notes)
  }

  /** `create_time_off_request`. */
  method CreateTimeOff(db: Db, c: Caller, body: TimeOffCreate) returns (r: Result<TimeOff>)
    modifies db`timeOff
    ensures !StaffInOrg(db.staff, body.staffId, c.organizationId)
            ==> r == Err(NOT_FOUND, STAFF_NOT_FOUND) && db.timeOff == old(db.timeOff)
    ensures StaffInOrg(db.staff, body.staffId, c.organizationId)
            ==> r == Ok(NewTimeOff(NextKey(old(db.timeOff), TimeOffIdOf), body)) && db.timeOff == old(db.timeOff) + [r.value]
  {
    FindStaffIffInOrg(db.staff, body.staffId, c.organizationId);
    if FindStaff(db.staff, body.staffId, c.organizationId).None? {
      return Err(NOT_FOUND, STAFF_NOT_FOUND);
    }
    var t := NewTimeOff(NextKey(db.timeOff, TimeOffIdOf), body);
    db.timeOff := db.timeOff + [t];
    r := Ok(t);
  }

  /**
   * The filters of `get_time_off_requests`, written on stamps as the query
   * compares datetimes: the start no earlier than the first second of the
   * start date, the end no later than the last second of the end date.
   */
  function TimeOffListed(staff: seq<Staff>, org: Option<Id>, staffId: Option<Id>, startDate: Option<Day>,
                         endDate: Option<Day>, status: Option<RequestStatus>): TimeOff -> bool
  {
    (t: TimeOff) =>
      StaffInOrg(staff, t.staffId, org)
      && (staffId.None? || t.staffId == staffId.value)
      && (startDate.None? || Stamp(t.startAt) >= Stamp(Combine(startDate.value, 0)))
      && (endDate.None? || Stamp(t.endAt) <= Stamp(Combine(endDate.value, SECONDS_PER_DAY - 1)))
      && (status.None? || t.status == status.value)
  }

  function TimeOffStart(t: TimeOff): int
  {
    Stamp(t.startAt)
  }

  /** A datetime lies at or before the last second of a day exactly when its date is not later. */
  lemma EndOfDayBound(t: Moment, d: Day)
    ensures Stamp(t) <= Stamp(Combine(d, SECONDS_PER_DAY - 1)) <==> DayNumber(t.date) <= DayNumber(d)
  {
    var gap := DayNumber(t.date) - DayNumber(d);
    assert Stamp(t) - Stamp(Combine(d, SECONDS_PER_DAY - 1)) == gap * SECONDS_PER_DAY + t.second - (SECONDS_PER_DAY - 1);
    if gap > 0 {
      assert gap * SECONDS_PER_DAY >= SECONDS_PER_DAY;
    } else {
      assert gap * SECONDS_PER_DAY <= 0;
    }
  }

  /** A datetime lies at or after the first second of a day exactly when its date is not earlier. */
  lemma StartOfDayBound(t: Moment, d: Day)
    ensures Stamp(t) >= Stamp(Combine(d, 0)) <==> DayNumber(t.date) >= DayNumber(d)
  {
    var gap := DayNumber(t.date) - DayNumber(d);
    assert Stamp(t) - Stamp(Combine(d, 0)) == gap * SECONDS_PER_DAY + t.second;
    if gap < 0 {
      assert gap * SECONDS_PER_DAY <= -SECONDS_PER_DAY;
    } else {
      assert gap * SECONDS_PER_DAY >= 0;
    }
  }

  /**
   * The filters of `get_time_off_requests` in terms of dates: a request is
   * listed exactly when its staff member is in the organisation and it
   * passes the staff and status filters, starts on or after the start date
   * and ends on or before the end date.
   */
  lemma TimeOffListedByDates(staff: seq<Staff>, org: Option<Id>, staffId: Option<Id>, startDate: Option<Day>,
                             endDate: Option<Day>, status: Option<RequestStatus>, t: TimeOff)
    ensures TimeOffListed(staff, org, staffId, startDate, endDate, status)(t)
            <==> StaffInOrg(staff, t.staffId, org)
                 && (staffId.None? || t.staffId == staffId.value)
                 && (startDate.None? || DayNumber(t.startAt.date) >= DayNumber(startDate.value))
                 && (endDate.None? || DayNumber(t.endAt.date) <= DayNumber(endDate.value))
                 && (status.None? || t.status == status.value)
  {
    if startDate.Some? {
      StartOfDayBound(t.startAt, startDate.value);
    }
    if endDate.Some? {
      EndOfDayBound(t.endAt, endDate.value);
    }
  }

  /** `get_time_off_requests`: the requests that pass the filters, earliest start first. */
  function ListTimeOff(staff: seq<Staff>, rows: seq<TimeOff>, c: Caller, staffId: Option<Id>, startDate: Option<Day>,
                       endDate: Option<Day>, status: Option<RequestStatus>): (r: seq<TimeOff>)
    ensures multiset(r) == multiset(Filter(rows, TimeOffListed(staff, c.organizationId, staffId, startDate, endDate, status)))
    ensures SortedAsc(r, TimeOffStart)
    ensures forall k :: 0 <= k < |r| ==>
      r[k] in rows && TimeOffListed(staff, c.organizationId, staffId, startDate, endDate, status)(r[k])
  {
    SelectAsc(rows, TimeOffListed(staff, c.organizationId, staffId, startDate, endDate, status), TimeOffStart)
  }

  // ---------------------------------------------------------------------
  // Coverage requests
  // ---------------------------------------------------------------------

  /** The row `create_coverage_request` stores: PENDING, requested now, not yet answered. */
  function NewCoverage(id: Id, body: CoverageCreate, now: Moment): (r: CoverageRequest)
    ensures r.status == PENDING && r.requestedAt == now && r.respondedAt.None? && r.respondedBy.None?
  {
    CoverageRequest(id, body.originalShiftId, body.requestingStaffId, body.reason, body.requestType, PENDING,
                    now, None, None, body.notes)
  }

  function PendingFor(shiftId: Id): CoverageRequest -> bool
  {
    (q: CoverageRequest) => q.originalShiftId == shiftId && q.status == PENDING
  }

  /** A PENDING request exists for the shift, in any organisation. */
  predicate HasPending(rows: seq<CoverageRequest>, shiftId: Id)
  {
    exists k :: 0 <= k < |rows| && PendingFor(shiftId)(rows[k])
  }

  /** `create_coverage_request`. */
  method CreateCoverage(db: Db, c: Caller, body: CoverageCreate, now: Moment) returns (r: Result<CoverageRequest>)
    modifies db`coverage
    ensures FindShift(db.schedules, db.shifts, body.originalShiftId, c.organizationId).None?
            ==> r == Err(NOT_FOUND, "Shift not found") && db.coverage == old(db.coverage)
    ensures FindShift(db.schedules, db.shifts, body.originalShiftId, c.organizationId).Some?
            && !StaffInOrg(db.staff, body.requestingStaffId, c.organizationId)
            ==> r == Err(NOT_FOUND, STAFF_NOT_FOUND) && db.coverage == old(db.coverage)
    ensures FindShift(db.schedules, db.shifts, body.originalShiftId, c.organizationId).Some?
            && StaffInOrg(db.staff, body.requestingStaffId, c.organizationId)
            && HasPending(old(db.coverage), body.originalShiftId)
            ==> r == Err(BAD_REQUEST, "Coverage request already exists for this shift") && db.coverage == old(db.coverage)
    ensures FindShift(db.schedules, db.shifts, body.originalShiftId, c.organizationId).Some?
            && StaffInOrg(db.staff, body.requestingStaffId, c.organizationId)
            && !HasPending(old(db.coverage), body.originalShiftId)
            ==> r == Ok(NewCoverage(NextKey(old(db.coverage), CoverageIdOf), body, now))
                && db.coverage == old(db.coverage) + [r.value]
  {
    if FindShift(db.schedules, db.shifts, body.originalShiftId, c.organizationId).None? {
      return Err(NOT_FOUND, "Shift not found");
    }
    FindStaffIffInOrg(db.staff, body.requestingStaffId, c.organizationId);
    if FindStaff(db.staff, body.requestingStaffId, c.organizationId).None? {
      return Err(NOT_FOUND, STAFF_NOT_FOUND);
    }
    if FirstMatch(db.coverage, PendingFor(body.originalShiftId)).Some? {
      return Err(BAD_REQUEST, "Coverage request already exists for this shift");
    }
    var q := NewCoverage(NextKey(db.coverage, CoverageIdOf), body, now);
    db.coverage := db.coverage + [q];
    r := Ok(q);
  }

  /** What the duplicate check aims at: no shift has two PENDING requests. */
  predicate OnePendingPerShift(rows: seq<CoverageRequest>)
  {
    forall i, j :: 0 <= i < j < |rows| && rows[i].status == PENDING && rows[j].status == PENDING
      ==> rows[i].originalShiftId != rows[j].originalShiftId
  }

  /** A request the duplicate check lets through keeps at most one PENDING request per shift. */
  lemma CreateKeepsOnePending(rows: seq<CoverageRequest>, q: CoverageRequest)
    requires OnePendingPerShift(rows) && !HasPending(rows, q.originalShiftId)
    ensures OnePendingPerShift(rows + [q])
  {
    var after := rows + [q];
    forall i, j | 0 <= i < j < |after| && after[i].status == PENDING && after[j].status == PENDING
      ensures after[i].originalShiftId != after[j].originalShiftId
    {
      if j == |rows| {
        assert !PendingFor(q.originalShiftId)(rows[i]);
      }
    }
  }

  /** The requests the caller may see: made by a staff member of their organisation. */
  function CoverageVisible(staff: seq<Staff>, org: Option<Id>): CoverageRequest -> bool
  {
    (q: CoverageRequest) => StaffInOrg(staff, q.requestingStaffId, org)
  }

  function CoverageListed(staff: seq<Staff>, org: Option<Id>, status: Option<RequestStatus>,
                          requestType: Option<RequestType>, staffId: Option<Id>): CoverageRequest -> bool
  {
    (q: CoverageRequest) =>
      CoverageVisible(staff, org)(q)
      && (status.None? || q.status == status.value)
      && (requestType.None? || q.requestType == requestType.value)
      && (staffId.None? || q.requestingStaffId == staffId.value)
  }

  function RequestedStamp(q: CoverageRequest): int
  {
    Stamp(q.requestedAt)
  }

  /** `get_coverage_requests`: one page of the matching requests, latest request first. */
  function ListCoverage(staff: seq<Staff>, rows: seq<CoverageRequest>, c: Caller, skip: int, limit: int,
                        status: Option<RequestStatus>, requestType: Option<RequestType>, staffId: Option<Id>)
    : (r: Result<Page<CoverageRequest>>)
    ensures r.Err? <==> !PagingValid(skip, limit)
    ensures r.Err? ==> r.status == UNPROCESSABLE
    ensures r.Ok? ==> r.value.total == Count(rows, CoverageListed(staff, c.organizationId, status, requestType, staffId))
    ensures r.Ok? ==> r.value.page == PageOf(skip, limit) && r.value.pages == PageCount(r.value.total, limit)
    ensures r.Ok? ==> |r.value.items| <= limit && SortedDesc(r.value.items, RequestedStamp)
    ensures r.Ok? ==> forall k :: 0 <= k < |r.value.items| ==>
      r.value.items[k] in rows && CoverageListed(staff, c.organizationId, status, requestType, staffId)(r.value.items[k])
    ensures r.Ok? ==> r.value.items == Window(SelectDesc(rows, CoverageListed(staff, c.organizationId, status, requestType, staffId),
                                                        RequestedStamp), skip, limit)
  {
    if !PagingValid(skip, limit) then Err(UNPROCESSABLE, "Input should be within the allowed range")
    else
      var ordered := SelectDesc(rows, CoverageListed(staff, c.organizationId, status, requestType, staffId), RequestedStamp);
      var page := Paginate(ordered, skip, limit);
      assert forall k :: 0 <= k < |page.items| ==> page.items[k] == ordered[skip + k];
      Ok(page)
  }

  /**
   * `update_coverage_request`: the sent fields are set, and since the body
   * always carries a status (an enum member, never falsy), the caller and
   * the time are always recorded as the response.
   */
  function ApplyCoverageUpdate(q: CoverageRequest, u: CoverageUpdate, responder: Id, now: Moment): (r: CoverageRequest)
    ensures r.status == u.status && r.respondedAt == Some(now) && r.respondedBy == Some(responder)
    ensures u.notes.None? ==> r.notes == q.notes
    ensures r.(status := q.status, respondedAt := q.respondedAt, respondedBy := q.respondedBy, notes := q.notes) == q
  {
    CoverageRequest(q.id, q.originalShiftId, q.requestingStaffId, q.reason, q.requestType, u.status,
                    q.requestedAt, Some(now), Some(responder), if u.notes.Some? then u.notes else q.notes)
  }

  /**
   * The generic update is not held to the duplicate rule: it can set a
   * request back to PENDING for a shift that already has a pending one.
   */
  lemma UpdateCanDuplicatePending(p: CoverageRequest, q: CoverageRequest, responder: Id, now: Moment)
    requires p.status == PENDING && q.originalShiftId == p.originalShiftId
    ensures !OnePendingPerShift([p, ApplyCoverageUpdate(q, CoverageUpdate(PENDING, None), responder, now)])
  {
    var rows := [p, ApplyCoverageUpdate(q, CoverageUpdate(PENDING, None), responder, now)];
    assert rows[0].status == PENDING && rows[1].status == PENDING && rows[0].originalShiftId == rows[1].originalShiftId;
  }

  function RequestKey(id: Id, staff: seq<Staff>, org: Option<Id>): CoverageRequest -> bool
  {
    (q: CoverageRequest) => q.id == id && CoverageVisible(staff, org)(q)
  }

  /** `update_coverage_request`. */
  method UpdateCoverage(db: Db, c: Caller, id: Id, u: CoverageUpdate, now: Moment) returns (r: Result<CoverageRequest>)
    modifies db`coverage
    ensures FirstMatch(old(db.coverage), RequestKey(id, db.staff, c.organizationId)).None?
            ==> r == Err(NOT_FOUND, REQUEST_NOT_FOUND) && db.coverage == old(db.coverage)
    ensures FirstMatch(old(db.coverage), RequestKey(id, db.staff, c.organizationId)).Some?
            ==> var i := FirstMatch(old(db.coverage), RequestKey(id, db.staff, c.organizationId)).value;
                r == Ok(ApplyCoverageUpdate(old(db.coverage)[i], u, c.id, now))
                && db.coverage == old(db.coverage)[i := r.value]
  {
    var i := FirstMatch(db.coverage, RequestKey(id, db.staff, c.organizationId));
    if i.None? {
      return Err(NOT_FOUND, REQUEST_NOT_FOUND);
    }
    var q := ApplyCoverageUpdate(db.coverage[i.value], u, c.id, now);
    db.coverage := db.coverage[i.value := q];
    r := Ok(q);
  }

  /** The remark an approval with notes appends. */
  function ApprovalRemark(notes: string): (r: string)
    ensures StartsWith(r, "Approval Notes: ") && r[|"Approval Notes: "|..] == notes
  {
    "Approval Notes: " + notes
  }

  /**
   * The effect of `approve_coverage_request` on the row: refused unless
   * PENDING; otherwise APPROVED, answered now by the approver, and the
   * notes extended with the remark when notes are given.
   */
  function Approve(q: CoverageRequest, approver: Id, notes: Option<string>, now: Moment): (r: Result<CoverageRequest>)
    ensures r.Err? <==> q.status != PENDING
    ensures r.Err? ==> r == Err(BAD_REQUEST, "Coverage request is not pending")
    ensures r.Ok? ==> r.value.status == APPROVED && r.value.respondedAt == Some(now) && r.value.respondedBy == Some(approver)
    ensures r.Ok? && !Truthy(notes) ==> r.value.notes == q.notes
    ensures r.Ok? ==> r.value.(status := q.status, respondedAt := q.respondedAt, respondedBy := q.respondedBy,
                               notes := q.notes) == q
  {
    if q.status != PENDING then Err(BAD_REQUEST, "Coverage request is not pending")
    else
      Ok(CoverageRequest(q.id, q.originalShiftId, q.requestingStaffId, q.reason, q.requestType, APPROVED,
                         q.requestedAt, Some(now), Some(approver),
                         if Truthy(notes) then Some(AppendNote(q.notes, ApprovalRemark(notes.value))) else q.notes))
  }

  /** Notes without whitespace at their end are recorded at the end of the request's notes. */
  lemma ApprovalRecordsNotes(q: CoverageRequest, approver: Id, notes: string, now: Moment)
    requires q.status == PENDING && notes != "" && !IsSpace(notes[|notes| - 1])
    ensures Approve(q, approver, Some(notes), now).value.notes == Some(AppendNote(q.notes, ApprovalRemark(notes)))
    ensures EndsWith(AppendNote(q.notes, ApprovalRemark(notes)), ApprovalRemark(notes))
  {
    var line := ApprovalRemark(notes);
    assert line[0] == 'A' && line[|line| - 1] == notes[|notes| - 1];
    AppendNoteEndsWithLine(q.notes, line);
  }

  /**
   * A request is approved at most once, and approving the pending request
   * of a shift leaves the shift without one, so a new request for it can
   * be made again.
   */
  lemma ApprovalFreesTheShift(rows: seq<CoverageRequest>, i: nat, approver: Id, notes: Option<string>, now: Moment)
    requires i < |rows| && rows[i].status == PENDING && OnePendingPerShift(rows)
    ensures Approve(Approve(rows[i], approver, notes, now).value, approver, notes, now).Err?
    ensures !HasPending(rows[i := Approve(rows[i], approver, notes, now).value], rows[i].originalShiftId)
    ensures OnePendingPerShift(rows[i := Approve(rows[i], approver, notes, now).value])
  {
    var after := rows[i := Approve(rows[i], approver, notes, now).value];
    forall k | 0 <= k < |after|
      ensures !PendingFor(rows[i].originalShiftId)(after[k])
    {
      if k != i {
        assert after[k] == rows[k];
        if k < i {
          assert rows[k].status == PENDING ==> rows[k].originalShiftId != rows[i].originalShiftId;
        } else {
          assert rows[k].status == PENDING ==> rows[i].originalShiftId != rows[k].originalShiftId;
        }
      }
    }
    forall a, b | 0 <= a < b < |after| && after[a].status == PENDING && after[b].status == PENDING
      ensures after[a].originalShiftId != after[b].originalShiftId
    {
      assert a != i && b != i;
      assert after[a] == rows[a] && after[b] == rows[b];
    }
  }

  /** `approve_coverage_request`. */
  method ApproveCoverage(db: Db, c: Caller, id: Id, notes: Option<string>, now: Moment) returns (r: Result<string>)
    modifies db`coverage
    ensures FirstMatch(old(db.coverage), RequestKey(id, db.staff, c.organizationId)).None?
            ==> r == Err(NOT_FOUND, REQUEST_NOT_FOUND) && db.coverage == old(db.coverage)
    ensures FirstMatch(old(db.coverage), RequestKey(id, db.staff, c.organizationId)).Some?
            ==> var i := FirstMatch(old(db.coverage), RequestKey(id, db.staff, c.organizationId)).value;
                var a := Approve(old(db.coverage)[i], c.id, notes, now);
                (a.Err? ==> r == Err(a.status, a.detail) && db.coverage == old(db.coverage))
                && (a.Ok? ==> r == Ok("Coverage request approved successfully") && db.coverage == old(db.coverage)[i := a.value])
  {
    var i := FirstMatch(db.coverage, RequestKey(id, db.staff, c.organizationId));
    if i.None? {
      return Err(NOT_FOUND, REQUEST_NOT_FOUND);
    }
    var a := Approve(db.coverage[i.value], c.id, notes, now);
    if a.Err? {
      return Err(a.status, a.detail);
    }
    db.coverage := db.coverage[i.value := a.value];
    r := Ok("Coverage request approved successfully");
  }

  // ---------------------------------------------------------------------
  // Shift swaps
  // ---------------------------------------------------------------------

  /** The row `create_shift_swap` stores: pending, not yet approved. The coverage request is not looked up. */
  function NewSwap(id: Id, body: SwapCreate): (r: ShiftSwap)
    ensures r.status == SWAP_PENDING && r.approvedBy.None? && r.approvedAt.None?
  {
    ShiftSwap(id, body.coverageRequestId, body.shiftAId, body.shiftBId, body.staffAId, body.staffBId, body.swapDate,
              SWAP_PENDING, None, None)
  }

  /** `create_shift_swap`: both shifts, then both staff members, must belong to the caller's organisation. */
  method CreateSwap(db: Db, c: Caller, body: SwapCreate) returns (r: Result<ShiftSwap>)
    modifies db`swaps
    ensures (FindShift(db.schedules, db.shifts, body.shiftAId, c.organizationId).None?
             || FindShift(db.schedules, db.shifts, body.shiftBId, c.organizationId).None?)
            ==> r == Err(NOT_FOUND, "One or both shifts not found") && db.swaps == old(db.swaps)
    ensures FindShift(db.schedules, db.shifts, body.shiftAId, c.organizationId).Some?
            && FindShift(db.schedules, db.shifts, body.shiftBId, c.organizationId).Some?
            && !(StaffInOrg(db.staff, body.staffAId, c.organizationId) && StaffInOrg(db.staff, body.staffBId, c.organizationId))
            ==> r == Err(NOT_FOUND, "One or both staff members not found") && db.swaps == old(db.swaps)
    ensures r.Ok? <==> FindShift(db.schedules, db.shifts, body.shiftAId, c.organizationId).Some?
                       && FindShift(db.schedules, db.shifts, body.shiftBId, c.organizationId).Some?
                       && StaffInOrg(db.staff, body.staffAId, c.organizationId)
                       && StaffInOrg(db.staff, body.staffBId, c.organizationId)
    ensures r.Ok? ==> r.value == NewSwap(NextKey(old(db.swaps), SwapIdOf), body) && db.swaps == old(db.swaps) + [r.value]
  {
    if FindShift(db.schedules, db.shifts, body.shiftAId, c.organizationId).None?
       || FindShift(db.schedules, db.shifts, body.shiftBId, c.organizationId).None? {
      return Err(NOT_FOUND, "One or both shifts not found");
    }
    FindStaffIffInOrg(db.staff, body.staffAId, c.organizationId);
    FindStaffIffInOrg(db.staff, body.staffBId, c.organizationId);
    if FindStaff(db.staff, body.staffAId, c.organizationId).None?
       || FindStaff(db.staff, body.staffBId, c.organizationId).None? {
      return Err(NOT_FOUND, "One or both staff members not found");
    }
    var w := NewSwap(NextKey(db.swaps, SwapIdOf), body);
    db.swaps := db.swaps + [w];
    r := Ok(w);
  }

  /**
   * The swaps the caller may see: those with either staff member in their
   * organisation. The query joins on either side, and the ORM query
   * returns each swap once however many staff rows it joined.
   */
  function SwapVisible(staff: seq<Staff>, org: Option<Id>): ShiftSwap -> bool
  {
    (w: ShiftSwap) => StaffInOrg(staff, w.staffAId, org) || StaffInOrg(staff, w.staffBId, org)
  }

  function SwapListed(staff: seq<Staff>, org: Option<Id>, status: Option<SwapStatus>, staffId: Option<Id>,
                      startDate: Option<Day>, endDate: Option<Day>): ShiftSwap -> bool
  {
    (w: ShiftSwap) =>
      SwapVisible(staff, org)(w)
      && (status.None? || w.status == status.value)
      && (staffId.None? || w.staffAId == staffId.value || w.staffBId == staffId.value)
      && (startDate.None? || DayNumber(w.swapDate) >= DayNumber(startDate.value))
      && (endDate.None? || DayNumber(w.swapDate) <= DayNumber(endDate.value))
  }

  function SwapDay(w: ShiftSwap): int
  {
    DayNumber(w.swapDate)
  }

  /** `get_shift_swaps`: the matching swaps, latest swap date first. */
  function ListSwaps(staff: seq<Staff>, rows: seq<ShiftSwap>, c: Caller, status: Option<SwapStatus>, staffId: Option<Id>,
                     startDate: Option<Day>, endDate: Option<Day>): (r: seq<ShiftSwap>)
    ensures multiset(r) == multiset(Filter(rows, SwapListed(staff, c.organizationId, status, staffId, startDate, endDate)))
    ensures SortedDesc(r, SwapDay)
    ensures forall k :: 0 <= k < |r| ==> r[k] in rows && SwapVisible(staff, c.organizationId)(r[k])
  {
    SelectDesc(rows, SwapListed(staff, c.organizationId, status, staffId, startDate, endDate), SwapDay)
  }

  /**
   * A swap with one staff member inside the organisation and one outside
   * it is seen by the organisation, and so is the other organisation's
   * staff member and shift it names.
   */
  lemma CrossOrganisationSwapIsListed(staff: seq<Staff>, w: ShiftSwap, c: Caller)
    requires StaffInOrg(staff, w.staffAId, c.organizationId) && !StaffInOrg(staff, w.staffBId, c.organizationId)
    ensures w in ListSwaps(staff, [w], c, None, None, None, None)
  {
    var p := SwapListed(staff, c.organizationId, None, None, None, None);
    assert SwapVisible(staff, c.organizationId)(w);
    assert p(w) && [w][1..] == [];
    assert Filter([w][1..], p) == [];
    assert Filter([w], p) == [w];
  }

  // ---------------------------------------------------------------------
  // Routes
  // ---------------------------------------------------------------------

  datatype Handler =
    | ListSlots | CreateSlot | UpdateSlot | DeleteSlot | ReplaceSlots
    | CreateTimeOffRequest | ListTimeOffRequests
    | CreateCoverageRequest | ListCoverageRequests | UpdateCoverageRequest | ApproveCoverageRequest
    | CreateShiftSwap | ListShiftSwaps

  const SLOTS: seq<Segment> := [Literal("staff"), UuidParam, Literal("availability")]
  const ONE_SLOT: seq<Segment> := [Literal("staff"), UuidParam, Literal("availability"), UuidParam]
  const BULK: seq<Segment> := [Literal("staff"), UuidParam, Literal("availability"), Literal("bulk")]

  /** The slot routes in the order the router declares them: the bulk route comes after the single-slot ones. */
  const SLOT_ROUTES_AS_WRITTEN: seq<Route<Handler>> := [
    Route(GET, SLOTS, ListSlots),
    Route(POST, SLOTS, CreateSlot),
    Route(PUT, ONE_SLOT, UpdateSlot),
    Route(DELETE, ONE_SLOT, DeleteSlot),
    Route(PUT, BULK, ReplaceSlots)
  ]

  /** The routes declared after them. */
  const REQUEST_ROUTES: seq<Route<Handler>> := [
    Route(POST, [Literal("time-off")], CreateTimeOffRequest),
    Route(GET, [Literal("time-off")], ListTimeOffRequests),
    Route(POST, [Literal("coverage-requests")], CreateCoverageRequest),
    Route(GET, [Literal("coverage-requests")], ListCoverageRequests),
    Route(PUT, [Literal("coverage-requests"), UuidParam], UpdateCoverageRequest),
    Route(POST, [Literal("coverage-requests"), UuidParam, Literal("approve")], ApproveCoverageRequest),
    Route(POST, [Literal("shift-swaps")], CreateShiftSwap),
    Route(GET, [Literal("shift-swaps")], ListShiftSwaps)
  ]

  const ROUTES_AS_WRITTEN: seq<Route<Handler>> := SLOT_ROUTES_AS_WRITTEN + REQUEST_ROUTES

  /** The same routes with the bulk route declared before the single-slot ones. */
  function Routes(): (r: seq<Route<Handler>>)
    ensures |r| == |ROUTES_AS_WRITTEN| && r[2].handler == ReplaceSlots && r[3].handler == UpdateSlot
  {
    Swap(Swap(ROUTES_AS_WRITTEN, 3), 2)
  }

  function BulkPath(staffId: string): seq<string>
  {
    ["staff", staffId, "availability", "bulk"]
  }

  /**
   * As written, a bulk replacement never reaches its handler: the
   * single-slot update route matches first and "bulk" is no UUID, so the
   * request is refused with 422.
   */
  lemma BulkReplaceUnreachableAsWritten(staffId: string)
    requires staffId != ""
    ensures Resolve(ROUTES_AS_WRITTEN, PUT, BulkPath(staffId)) == Invalid(UpdateSlot)
  {
    var path := BulkPath(staffId);
    assert ROUTES_AS_WRITTEN[0] == Route(GET, SLOTS, ListSlots);
    assert ROUTES_AS_WRITTEN[1] == Route(POST, SLOTS, CreateSlot);
    assert ROUTES_AS_WRITTEN[2] == Route(PUT, ONE_SLOT, UpdateSlot);
    BulkPathMatchesOneSlot(staffId);
    FirstMatchingRouteAnswers(ROUTES_AS_WRITTEN, 2, PUT, path);
  }

  /** The bulk path fills the single-slot template, and "bulk" does not convert. */
  lemma BulkPathMatchesOneSlot(staffId: string)
    requires staffId != ""
    ensures PathMatches(ONE_SLOT, BulkPath(staffId))
    ensures Chosen(Route(PUT, ONE_SLOT, UpdateSlot), BulkPath(staffId)) == Invalid(UpdateSlot)
  {
    NotUuid("bulk", 1);
    assert ONE_SLOT[3].UuidParam? && BulkPath(staffId)[3] == "bulk";
  }

  /** With the bulk route declared first, a bulk replacement for a well-formed staff id reaches its handler. */
  lemma BulkReplaceReached(staffId: string)
    requires UuidText(staffId)
    ensures Resolve(Routes(), PUT, BulkPath(staffId)) == Handled(ReplaceSlots)
  {
    var path := BulkPath(staffId);
    var routes := Routes();
    assert routes[0] == Route(GET, SLOTS, ListSlots) && routes[1] == Route(POST, SLOTS, CreateSlot);
    assert routes[2] == Route(PUT, BULK, ReplaceSlots);
    BulkPathMatchesBulk(staffId);
    FirstMatchingRouteAnswers(routes, 2, PUT, path);
  }

  /** A bulk path with a well-formed staff id fills the bulk template and converts. */
  lemma BulkPathMatchesBulk(staffId: string)
    requires UuidText(staffId)
    ensures Matches(Route(PUT, BULK, ReplaceSlots), PUT, BulkPath(staffId))
    ensures Chosen(Route(PUT, BULK, ReplaceSlots), BulkPath(staffId)) == Handled(ReplaceSlots)
  {
    UuidTextNotEmpty(staffId);
    assert BULK[1].UuidParam? && BulkPath(staffId)[1] == staffId;
  }

  /** A request matching both PUT routes of a slot is a bulk replacement. */
  lemma OnlyBulkPathMatchesBoth(verb: Verb, path: seq<string>)
    requires Matches(Route(PUT, ONE_SLOT, UpdateSlot), verb, path) && Matches(Route(PUT, BULK, ReplaceSlots), verb, path)
    ensures verb == PUT && |path| == 4 && path[1] != "" && path == BulkPath(path[1])
  {
    assert SegmentMatches(BULK[3], path[3]) && SegmentMatches(BULK[1], path[1]);
  }

  /** Declaring the bulk route first changes the dispatch of no other request. */
  lemma ReorderOnlyAffectsBulk(verb: Verb, path: seq<string>)
    requires !(verb == PUT && |path| == 4 && path[1] != "" && path == BulkPath(path[1]))
    ensures Resolve(Routes(), verb, path) == Resolve(ROUTES_AS_WRITTEN, verb, path)
  {
    var once := Swap(ROUTES_AS_WRITTEN, 3);
    assert ROUTES_AS_WRITTEN[3] == Route(DELETE, ONE_SLOT, DeleteSlot);
    assert ROUTES_AS_WRITTEN[4] == Route(PUT, BULK, ReplaceSlots);
    SwapKeepsDispatch(ROUTES_AS_WRITTEN, 3, verb, path);
    assert once[2] == Route(PUT, ONE_SLOT, UpdateSlot) && once[3] == Route(PUT, BULK, ReplaceSlots);
    if Matches(once[2], verb, path) && Matches(once[3], verb, path) {
      OnlyBulkPathMatchesBoth(verb, path);
    }
    SwapKeepsDispatch(once, 2, verb, path);
  }
}
