/**
 * Conflict detection for one shift (`detect_shift_conflicts`): double
 * bookings with the same staff member's other shifts on the same date, and
 * a clash with a slot the staff member declared unavailable. A detected
 * conflict is stored unless an unresolved conflict of the same type is
 * already recorded for the shift. The session does not flush before a
 * query, so that check sees the conflicts committed before the detection
 * started and not the ones it has just added.
 */
module ShiftConflicts {
  import opened Common
  import opened SchedulingModel
  import opened SchedulingDb

  function ShiftKey(id: Id): Shift -> bool
  {
    (s: Shift) => s.id == id
  }

  /** `filter(Shift.id == id).first()`, with no organisation scope. */
  function FindShiftById(shifts: seq<Shift>, id: Id): (r: Option<nat>)
    ensures r.Some? ==> r.value < |shifts| && shifts[r.value].id == id
    ensures r.None? <==> forall k :: 0 <= k < |shifts| ==> shifts[k].id != id
  {
    FirstMatch(shifts, ShiftKey(id))
  }

  /** A row keyed by a fresh key, appended to a table, is the one a lookup by that key finds. */
  lemma FreshShiftFound(shifts: seq<Shift>, s: Shift)
    requires forall k :: 0 <= k < |shifts| ==> shifts[k].id < s.id
    ensures FindShiftById(shifts + [s], s.id) == Some(|shifts|)
  {
    var all := shifts + [s];
    assert forall k :: 0 <= k < |shifts| ==> all[k] == shifts[k];
    var r := FindShiftById(all, s.id);
    assert r.Some? by { assert all[|shifts|].id == s.id; }
  }

  /** The detection for a shift just appended under a fresh key examines that shift, which is no rival of itself. */
  lemma DetectionOfFreshShift(shifts: seq<Shift>, slots: seq<StaffAvailability>, committed: seq<ScheduleConflict>,
                              s: Shift, firstId: Id)
    requires forall k :: 0 <= k < |shifts| ==> shifts[k].id < s.id
    ensures Detection(shifts + [s], slots, committed, s.id, firstId)
            == Inserted(ConflictDrafts(s, shifts + [s], slots), NotYetOpen(committed), ToConflict, firstId)
    ensures !DoubleBookedWith(s)(s)
  {
    FreshShiftFound(shifts, s);
    assert (shifts + [s])[|shifts|] == s;
    assert !SameDayRival(s)(s);
  }

  // ---------------------------------------------------------------------
  // What the detection computes
  // ---------------------------------------------------------------------

  /** A conflict the detection has computed, before it is given a key. */
  datatype Draft = Draft(
    conflictType: ConflictType,
    shiftId: Id,
    staffId: Id,
    description: string,
    severity: ConflictSeverity)

  /** The double-booking query: the same staff member, the same date, another shift, not cancelled. */
  function SameDayRival(s: Shift): Shift -> bool
  {
    (o: Shift) => o.staffId == s.staffId && o.shiftDate == s.shiftDate && o.id != s.id && o.status != CANCELLED
  }

  /** The loop's time test: `start < other.end and end > other.start`. */
  function OverlapsShift(s: Shift): Shift -> bool
  {
    (o: Shift) => Overlaps(s.startTime, s.endTime, o.startTime, o.endTime)
  }

  /** Both tests together: the shifts `s` is double-booked with. */
  function DoubleBookedWith(s: Shift): Shift -> bool
  {
    (o: Shift) => SameDayRival(s)(o) && OverlapsShift(s)(o)
  }

  function DoubleBookingDescription(otherId: Id): string
  {
    "Double booking detected with shift " + NatToString(otherId)
  }

  function DoubleBookingDraft(s: Shift): Shift -> Draft
  {
    (o: Shift) => Draft(DOUBLE_BOOKING, s.id, s.staffId, DoubleBookingDescription(o.id), HIGH)
  }

  /** One HIGH double-booking conflict per rival, in table order. */
  function DoubleBookings(s: Shift, shifts: seq<Shift>): seq<Draft>
  {
    MapSeq(Filter(shifts, DoubleBookedWith(s)), DoubleBookingDraft(s))
  }

  /**
   * `day_of_week` as the column stores it (0 = Sunday … 6 = Saturday).
   * The handler looks slots up by `weekday() + 1` instead (`IsoWeekday`).
   */
  function ColumnWeekday(d: Day): (r: int)
    ensures 0 <= r < 7
    ensures Weekday(d) < 6 ==> r == IsoWeekday(d)
  {
    (Weekday(d) + 1) % 7
  }

  /** The availability query for weekday `day`: the staff member's slot in force on the shift's date. */
  function SlotApplies(s: Shift, day: int): StaffAvailability -> bool
  {
    (a: StaffAvailability) =>
      a.staffId == s.staffId && a.dayOfWeek == day && DayNumber(a.effectiveDate) <= DayNumber(s.shiftDate)
      && (a.expiryDate.None? || DayNumber(a.expiryDate.value) >= DayNumber(s.shiftDate))
  }

  const UNAVAILABLE_DESCRIPTION: string := "Shift scheduled during unavailable time"

  function AvailabilityDraft(s: Shift): Draft
  {
    Draft(AVAILABILITY_CONFLICT, s.id, s.staffId, UNAVAILABLE_DESCRIPTION, MEDIUM)
  }

  /**
   * The availability check: the first slot the query returns decides. It
   * raises a MEDIUM conflict only when that slot is UNAVAILABLE and its
   * times overlap the shift's; an available or preferred slot first in
   * table order hides an unavailable one after it.
   */
  function AvailabilityDrafts(s: Shift, slots: seq<StaffAvailability>, day: int): (r: seq<Draft>)
    ensures r == [] || r == [AvailabilityDraft(s)]
  {
    var i := FirstMatch(slots, SlotApplies(s, day));
    if i.Some? && slots[i.value].availabilityType == UNAVAILABLE
       && Overlaps(s.startTime, s.endTime, slots[i.value].startTime, slots[i.value].endTime)
    then [AvailabilityDraft(s)]
    else []
  }

  /** The lookup as the handler writes it: by `weekday() + 1`, Monday 1 … Sunday 7. */
  function AvailabilityDraftsAsWritten(s: Shift, slots: seq<StaffAvailability>): (r: seq<Draft>)
    ensures Weekday(s.shiftDate) < 6 ==> r == AvailabilityDrafts(s, slots, ColumnWeekday(s.shiftDate))
  {
    AvailabilityDrafts(s, slots, IsoWeekday(s.shiftDate))
  }

  /**
   * Slots are stored with `day_of_week` in 0..6, so the handler's day 7
   * never matches one: a Sunday shift inside a Sunday slot marked
   * unavailable raises no conflict as written, and raises it when the
   * lookup uses the column's own numbering.
   */
  lemma SundaySlotMissedAsWritten(s: Shift, slot: StaffAvailability)
    requires Weekday(s.shiftDate) == 6
    requires slot.staffId == s.staffId && slot.dayOfWeek == 0 && slot.availabilityType == UNAVAILABLE
    requires DayNumber(slot.effectiveDate) <= DayNumber(s.shiftDate) && slot.expiryDate.None?
    requires Overlaps(s.startTime, s.endTime, slot.startTime, slot.endTime)
    ensures AvailabilityDraftsAsWritten(s, [slot]) == []
    ensures AvailabilityDrafts(s, [slot], ColumnWeekday(s.shiftDate)) == [AvailabilityDraft(s)]
  {
    assert !SlotApplies(s, IsoWeekday(s.shiftDate))(slot);
    assert SlotApplies(s, ColumnWeekday(s.shiftDate))(slot);
  }

  /** With slots numbered 0..6 the handler's lookup finds nothing on a Sunday, whatever the slots say. */
  lemma SundayNeverCheckedAsWritten(s: Shift, slots: seq<StaffAvailability>)
    requires Weekday(s.shiftDate) == 6
    requires forall k :: 0 <= k < |slots| ==> 0 <= slots[k].dayOfWeek <= 6
    ensures AvailabilityDraftsAsWritten(s, slots) == []
  {
    assert forall k :: 0 <= k < |slots| ==> !SlotApplies(s, IsoWeekday(s.shiftDate))(slots[k]);
  }

  /** Every conflict the detection computes for `s`: double bookings first, then the availability clash. */
  function ConflictDrafts(s: Shift, shifts: seq<Shift>, slots: seq<StaffAvailability>): seq<Draft>
  {
    DoubleBookings(s, shifts) + AvailabilityDrafts(s, slots, ColumnWeekday(s.shiftDate))
  }

  /** The dedupe query: an unresolved conflict of the draft's type is recorded for the draft's shift. */
  function OpenMatch(d: Draft): ScheduleConflict -> bool
  {
    (c: ScheduleConflict) => c.shiftId == Some(d.shiftId) && c.conflictType == d.conflictType && !c.resolved
  }

  predicate HasOpenConflict(committed: seq<ScheduleConflict>, d: Draft)
  {
    exists k :: 0 <= k < |committed| && OpenMatch(d)(committed[k])
  }

  /** The drafts the dedupe lets through, judged against the committed conflicts only. */
  function NotYetOpen(committed: seq<ScheduleConflict>): Draft -> bool
  {
    (d: Draft) => FirstMatch(committed, OpenMatch(d)).None?
  }

  /** The stored row: the draft under its key, unresolved. */
  function ToConflict(d: Draft, id: Id): ScheduleConflict
  {
    ScheduleConflict(id, d.conflictType, Some(d.shiftId), d.staffId, d.description, d.severity, false)
  }

  /**
   * The conflicts the detection for `shiftId` stores, keyed from `firstId`:
   * none when no shift has that key.
   */
  function Detection(shifts: seq<Shift>, slots: seq<StaffAvailability>, committed: seq<ScheduleConflict>,
                     shiftId: Id, firstId: Id): seq<ScheduleConflict>
  {
    var i := FindShiftById(shifts, shiftId);
    if i.None? then []
    else Inserted(ConflictDrafts(shifts[i.value], shifts, slots), NotYetOpen(committed), ToConflict, firstId)
  }

  // ---------------------------------------------------------------------
  // Properties of the detection
  // ---------------------------------------------------------------------

  /**
   * Shifts that only touch (one ends as the other starts) are not
   * double-booked, and between two shifts that are not cancelled being
   * double-booked is mutual. The shift under detection is not itself
   * required to be active: a cancelled shift still finds its rivals.
   */
  lemma DoubleBookedMutualAndStrict(s: Shift, o: Shift)
    ensures s.endTime == o.startTime || o.endTime == s.startTime ==> !DoubleBookedWith(s)(o)
    ensures s.status != CANCELLED && o.status != CANCELLED ==> (DoubleBookedWith(s)(o) <==> DoubleBookedWith(o)(s))
    ensures s.status == CANCELLED && o.status != CANCELLED && o.staffId == s.staffId && o.shiftDate == s.shiftDate
            && o.id != s.id && Overlaps(s.startTime, s.endTime, o.startTime, o.endTime)
            ==> DoubleBookedWith(s)(o) && !DoubleBookedWith(o)(s)
  {
    OverlapsSymmetricAndStrict(s.startTime, s.endTime, o.startTime, o.endTime);
    assert DoubleBookedWith(s)(o) == (SameDayRival(s)(o) && Overlaps(s.startTime, s.endTime, o.startTime, o.endTime));
    assert DoubleBookedWith(o)(s) == (SameDayRival(o)(s) && Overlaps(o.startTime, o.endTime, s.startTime, s.endTime));
  }

  /** Each double-booking conflict is a HIGH conflict of `s` about a rival double-booked with it. */
  lemma DoubleBookingsShape(s: Shift, shifts: seq<Shift>)
    ensures forall k :: 0 <= k < |DoubleBookings(s, shifts)| ==>
      DoubleBookings(s, shifts)[k].conflictType == DOUBLE_BOOKING
      && DoubleBookings(s, shifts)[k].severity == HIGH
      && DoubleBookings(s, shifts)[k].shiftId == s.id && DoubleBookings(s, shifts)[k].staffId == s.staffId
  {
  }

  /** A rival is named by a double-booking conflict exactly when it is double-booked with `s`. */
  lemma DoubleBookingsNameRivals(s: Shift, shifts: seq<Shift>, otherId: Id)
    ensures (exists k :: 0 <= k < |DoubleBookings(s, shifts)|
                         && DoubleBookings(s, shifts)[k].description == DoubleBookingDescription(otherId))
            <==> exists j :: 0 <= j < |shifts| && shifts[j].id == otherId && DoubleBookedWith(s)(shifts[j])
  {
    var rivals := Filter(shifts, DoubleBookedWith(s));
    var drafts := DoubleBookings(s, shifts);
    if exists k :: 0 <= k < |drafts| && drafts[k].description == DoubleBookingDescription(otherId) {
      var k :| 0 <= k < |drafts| && drafts[k].description == DoubleBookingDescription(otherId);
      NamedRivalIsDoubleBooked(s, shifts, k, otherId);
    }
    if exists j :: 0 <= j < |shifts| && shifts[j].id == otherId && DoubleBookedWith(s)(shifts[j]) {
      var j :| 0 <= j < |shifts| && shifts[j].id == otherId && DoubleBookedWith(s)(shifts[j]);
      DoubleBookedRivalIsNamed(s, shifts, j);
    }
  }

  lemma DoubleBookedRivalIsNamed(s: Shift, shifts: seq<Shift>, j: nat)
    requires j < |shifts| && DoubleBookedWith(s)(shifts[j])
    ensures exists k :: 0 <= k < |DoubleBookings(s, shifts)|
                        && DoubleBookings(s, shifts)[k].description == DoubleBookingDescription(shifts[j].id)
  {
    var rivals := Filter(shifts, DoubleBookedWith(s));
    assert shifts[j] in rivals;
    var k :| 0 <= k < |rivals| && rivals[k] == shifts[j];
    assert DoubleBookings(s, shifts)[k] == DoubleBookingDraft(s)(rivals[k]);
  }

  lemma NamedRivalIsDoubleBooked(s: Shift, shifts: seq<Shift>, k: nat, otherId: Id)
    requires k < |DoubleBookings(s, shifts)|
    requires DoubleBookings(s, shifts)[k].description == DoubleBookingDescription(otherId)
    ensures exists j :: 0 <= j < |shifts| && shifts[j].id == otherId && DoubleBookedWith(s)(shifts[j])
  {
    var rivals := Filter(shifts, DoubleBookedWith(s));
    var o := rivals[k];
    assert DoubleBookings(s, shifts)[k] == DoubleBookingDraft(s)(o);
    DescriptionNamesOneShift(o.id, otherId);
    assert o in shifts && DoubleBookedWith(s)(o);
    var j :| 0 <= j < |shifts| && shifts[j] == o;
  }

  /** Different shifts are named by different descriptions. */
  lemma DescriptionNamesOneShift(a: Id, b: Id)
    requires DoubleBookingDescription(a) == DoubleBookingDescription(b)
    ensures a == b
  {
    var prefix := "Double booking detected with shift ";
    assert NatToString(a) == DoubleBookingDescription(a)[|prefix|..];
    assert NatToString(b) == DoubleBookingDescription(b)[|prefix|..];
    DigitsValueOfNatToString(a);
    DigitsValueOfNatToString(b);
  }

  /**
   * An unavailable slot that the lookup finds first and that overlaps the
   * shift raises the MEDIUM conflict; when no slot in force for that day is
   * UNAVAILABLE, or none overlaps, nothing is raised.
   */
  lemma AvailabilityConflictCases(s: Shift, slots: seq<StaffAvailability>, day: int)
    ensures AvailabilityDrafts(s, slots, day) != [] <==>
      exists k :: 0 <= k < |slots| && SlotApplies(s, day)(slots[k])
                  && (forall j :: 0 <= j < k ==> !SlotApplies(s, day)(slots[j]))
                  && slots[k].availabilityType == UNAVAILABLE
                  && Overlaps(s.startTime, s.endTime, slots[k].startTime, slots[k].endTime)
    ensures (forall k :: 0 <= k < |slots| && SlotApplies(s, day)(slots[k]) ==> slots[k].availabilityType != UNAVAILABLE)
            ==> AvailabilityDrafts(s, slots, day) == []
    ensures (forall k :: 0 <= k < |slots| && SlotApplies(s, day)(slots[k])
                         ==> !Overlaps(s.startTime, s.endTime, slots[k].startTime, slots[k].endTime))
            ==> AvailabilityDrafts(s, slots, day) == []
    ensures AvailabilityDrafts(s, slots, day) != [] ==> AvailabilityDrafts(s, slots, day)[0].severity == MEDIUM
  {
  }

  /**
   * The stored conflicts are the computed ones that have no unresolved
   * counterpart among the committed conflicts, in order, each unresolved
   * and under the next key. Two double bookings of one shift are both
   * stored, since the second is judged against the committed rows only.
   */
  lemma {:induction false} DetectionStoresUnmatched(shifts: seq<Shift>, slots: seq<StaffAvailability>,
                                                    committed: seq<ScheduleConflict>, shiftId: Id, firstId: Id)
    requires FindShiftById(shifts, shiftId).Some?
    ensures var s := shifts[FindShiftById(shifts, shiftId).value];
            var stored := Detection(shifts, slots, committed, shiftId, firstId);
            var kept := Filter(ConflictDrafts(s, shifts, slots), NotYetOpen(committed));
            |stored| == |kept|
            && forall k :: 0 <= k < |stored| ==>
                 stored[k] == ToConflict(kept[k], firstId + k) && !HasOpenConflict(committed, kept[k])
  {
    var s := shifts[FindShiftById(shifts, shiftId).value];
    var drafts := ConflictDrafts(s, shifts, slots);
    InsertedIsFilterThenNumber(drafts, NotYetOpen(committed), ToConflict, firstId);
  }

  /**
   * Running the detection again, once its conflicts are committed and while
   * the shifts and slots are unchanged, stores nothing more.
   */
  lemma {:induction false} DetectionSettles(shifts: seq<Shift>, slots: seq<StaffAvailability>,
                                            committed: seq<ScheduleConflict>, shiftId: Id, firstId: Id, laterId: Id)
    ensures var stored := Detection(shifts, slots, committed, shiftId, firstId);
            Detection(shifts, slots, committed + stored, shiftId, laterId) == []
  {
    var i := FindShiftById(shifts, shiftId);
    if i.Some? {
      var drafts := ConflictDrafts(shifts[i.value], shifts, slots);
      var p := NotYetOpen(committed);
      var stored := Detection(shifts, slots, committed, shiftId, firstId);
      var after := committed + stored;
      InsertedIsFilterThenNumber(drafts, p, ToConflict, firstId);
      forall k | 0 <= k < |drafts| ensures !NotYetOpen(after)(drafts[k]) {
        var d := drafts[k];
        if p(d) {
          assert d in Filter(drafts, p);
          var j :| 0 <= j < |Filter(drafts, p)| && Filter(drafts, p)[j] == d;
          assert after[|committed| + j] == stored[j];
          assert OpenMatch(d)(after[|committed| + j]);
        } else {
          var j := FirstMatch(committed, OpenMatch(d)).value;
          assert after[j] == committed[j];
          assert OpenMatch(d)(after[j]);
        }
      }
      FilterNone(drafts, NotYetOpen(after));
      InsertedIsFilterThenNumber(drafts, NotYetOpen(after), ToConflict, laterId);
    }
  }

  // ---------------------------------------------------------------------
  // The detection as the handler runs it
  // ---------------------------------------------------------------------

  /** One more rival either adds its conflict or nothing. */
  lemma DoubleBookingStep(s: Shift, rivals: seq<Shift>, j: nat)
    requires j < |rivals|
    ensures MapSeq(Filter(rivals[..j + 1], OverlapsShift(s)), DoubleBookingDraft(s))
            == MapSeq(Filter(rivals[..j], OverlapsShift(s)), DoubleBookingDraft(s))
               + (if OverlapsShift(s)(rivals[j]) then [DoubleBookingDraft(s)(rivals[j])] else [])
  {
    assert rivals[..j + 1] == rivals[..j] + [rivals[j]];
    FilterAppend(rivals[..j], [rivals[j]], OverlapsShift(s));
    assert [rivals[j]][1..] == [];
  }

  /** The double-booking loop over the rivals the query returns. */
  method FindDoubleBookings(s: Shift, shifts: seq<Shift>) returns (drafts: seq<Draft>)
    ensures drafts == DoubleBookings(s, shifts)
  {
    var rivals := Filter(shifts, SameDayRival(s));
    drafts := [];
    var j := 0;
    while j < |rivals|
      invariant 0 <= j <= |rivals|
      invariant drafts == MapSeq(Filter(rivals[..j], OverlapsShift(s)), DoubleBookingDraft(s))
    {
      DoubleBookingStep(s, rivals, j);
      if Overlaps(s.startTime, s.endTime, rivals[j].startTime, rivals[j].endTime) {
        drafts := drafts + [DoubleBookingDraft(s)(rivals[j])];
      }
      j := j + 1;
    }
    assert rivals[..j] == rivals;
    FilterFilter(shifts, SameDayRival(s), OverlapsShift(s), DoubleBookedWith(s));
  }

  /** Both checks of the detection for the shift `s`. */
  method ComputeDrafts(s: Shift, shifts: seq<Shift>, slots: seq<StaffAvailability>) returns (drafts: seq<Draft>)
    ensures drafts == ConflictDrafts(s, shifts, slots)
  {
    drafts := FindDoubleBookings(s, shifts);
    var slot := FirstMatch(slots, SlotApplies(s, ColumnWeekday(s.shiftDate)));
    if slot.Some? && slots[slot.value].availabilityType == UNAVAILABLE
       && Overlaps(s.startTime, s.endTime, slots[slot.value].startTime, slots[slot.value].endTime) {
      drafts := drafts + [AvailabilityDraft(s)];
    }
  }

  /**
   * The handler's steps up to the commit: the shift lookup, both checks,
   * and the dedupe loop, which draws a key for each conflict it adds.
   */
  method DetectedConflicts(shifts: seq<Shift>, slots: seq<StaffAvailability>, committed: seq<ScheduleConflict>,
                           shiftId: Id, firstId: Id) returns (stored: seq<ScheduleConflict>)
    ensures stored == Detection(shifts, slots, committed, shiftId, firstId)
    ensures forall k :: 0 <= k < |stored| ==> stored[k].id == firstId + k
  {
    var i := FindShiftById(shifts, shiftId);
    if i.None? {
      return [];
    }
    var drafts := ComputeDrafts(shifts[i.value], shifts, slots);
    var next;
    stored, next := InsertLoop(drafts, NotYetOpen(committed), ToConflict, firstId);
    InsertedIsFilterThenNumber(drafts, NotYetOpen(committed), ToConflict, firstId);
  }

  /**
   * `detect_shift_conflicts`: computes the conflicts of shift `shiftId`
   * against the committed shifts and slots, and stores those without an
   * unresolved counterpart among the committed conflicts under fresh keys.
   */
  method DetectShiftConflicts(db: Db, shiftId: Id)
    modifies db`conflicts
    ensures db.conflicts == old(db.conflicts) + DetectionStep(db.shifts, db.availability)(old(db.conflicts), shiftId)
  {
    var stored := DetectedConflicts(db.shifts, db.availability, db.conflicts, shiftId, NextKey(db.conflicts, ConflictIdOf));
    db.conflicts := db.conflicts + stored;
  }

  /** One detection run, keyed above the conflicts it is run against, as a step of a chain of runs. */
  function DetectionStep(shifts: seq<Shift>, slots: seq<StaffAvailability>): (seq<ScheduleConflict>, Id) -> seq<ScheduleConflict>
  {
    (committed: seq<ScheduleConflict>, shiftId: Id) =>
      Detection(shifts, slots, committed, shiftId, NextKey(committed, ConflictIdOf))
  }

  /**
   * The detections a bulk insert runs, one per new shift in order; each
   * commits before the next starts, so each sees the conflicts the earlier
   * ones stored.
   */
  function DetectAll(shifts: seq<Shift>, slots: seq<StaffAvailability>, committed: seq<ScheduleConflict>,
                     shiftIds: seq<Id>): seq<ScheduleConflict>
  {
    Chain(shiftIds, DetectionStep(shifts, slots), committed)
  }

  /** The detection loop after a bulk insert. */
  method DetectEach(db: Db, shiftIds: seq<Id>)
    modifies db`conflicts
    ensures db.conflicts == old(db.conflicts) + DetectAll(db.shifts, db.availability, old(db.conflicts), shiftIds)
  {
    ghost var committed := db.conflicts;
    var j := 0;
    while j < |shiftIds|
      invariant 0 <= j <= |shiftIds|
      invariant db.conflicts == committed + DetectAll(db.shifts, db.availability, committed, shiftIds[..j])
    {
      ghost var before := db.conflicts;
      DetectShiftConflicts(db, shiftIds[j]);
      ChainStep(shiftIds, j, DetectionStep(db.shifts, db.availability), committed, before, db.conflicts);
      j := j + 1;
    }
    assert shiftIds[..j] == shiftIds;
  }
}
