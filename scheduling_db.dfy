/**
 * The tables the scheduling handlers read and write, held by one session
 * object. Each handler is a method over a `Db`: it queries the tables as
 * they were committed, adds or changes rows, and commits. Primary keys are
 * `uuid4()` values; here a new row of a table is keyed above every key the
 * table holds (`NextKey`), so a freshly drawn key never names an existing
 * row of that table.
 */
module SchedulingDb {
  import opened Common
  import opened StaffModel
  import opened ClientModel
  import opened SchedulingModel

  class Db {
    var staff: seq<Staff>
    var users: seq<UserRecord>
    var clients: seq<Client>
    var schedules: seq<Schedule>
    var shifts: seq<Shift>
    var assignments: seq<ShiftAssignment>
    var availability: seq<StaffAvailability>
    var timeOff: seq<TimeOff>
    var coverage: seq<CoverageRequest>
    var swaps: seq<ShiftSwap>
    var appointments: seq<Appointment>
    var recurring: seq<RecurringAppointment>
    var entries: seq<TimeClockEntry>
    var overtime: seq<OvertimeTracking>
    var conflicts: seq<ScheduleConflict>
    var events: seq<CalendarEvent>

    /** A session over the given staff, users and clients and otherwise empty tables. */
    constructor (staff0: seq<Staff>, users0: seq<UserRecord>, clients0: seq<Client>)
      ensures staff == staff0 && users == users0 && clients == clients0
      ensures schedules == [] && shifts == [] && assignments == [] && availability == [] && timeOff == []
      ensures coverage == [] && swaps == [] && appointments == [] && recurring == [] && entries == []
      ensures overtime == [] && conflicts == [] && events == []
    {
      staff, users, clients := staff0, users0, clients0;
      schedules, shifts, assignments, availability, timeOff := [], [], [], [], [];
      coverage, swaps, appointments, recurring, entries := [], [], [], [], [];
      overtime, conflicts, events := [], [], [];
    }
  }

  /** `uuid.uuid4()` for a row of `rows`: a key above every key the table holds. */
  function NextKey<T>(rows: seq<T>, key: T -> Id): (r: Id)
    ensures forall k :: 0 <= k < |rows| ==> key(rows[k]) < r
    decreases |rows|
  {
    if rows == [] then 0
    else
      var prev := NextKey(rows[..|rows| - 1], key);
      assert forall k :: 0 <= k < |rows| - 1 ==> rows[k] == rows[..|rows| - 1][k];
      var last := key(rows[|rows| - 1]) + 1;
      if prev < last then last else prev
  }

  function StaffIdOf(s: Staff): Id { s.id }
  function ScheduleIdOf(s: Schedule): Id { s.id }
  function ShiftIdOf(s: Shift): Id { s.id }
  function ConflictIdOf(c: ScheduleConflict): Id { c.id }
  function AvailabilityIdOf(a: StaffAvailability): Id { a.id }
  function TimeOffIdOf(t: TimeOff): Id { t.id }
  function CoverageIdOf(q: CoverageRequest): Id { q.id }
  function SwapIdOf(w: ShiftSwap): Id { w.id }
  function AppointmentIdOf(a: Appointment): Id { a.id }
  function RecurringIdOf(r: RecurringAppointment): Id { r.id }
  function EntryIdOf(e: TimeClockEntry): Id { e.id }
  function OvertimeIdOf(o: OvertimeTracking): Id { o.id }
  function EventIdOf(e: CalendarEvent): Id { e.id }

  /** No two rows of the table share a key. */
  predicate KeysUnique<T>(rows: seq<T>, key: T -> Id)
  {
    forall i, j :: 0 <= i < j < |rows| ==> key(rows[i]) != key(rows[j])
  }

  /** A row keyed with `NextKey` keeps the keys of the table unique. */
  lemma FreshKeyKeepsKeysUnique<T>(rows: seq<T>, x: T, key: T -> Id)
    requires KeysUnique(rows, key) && key(x) == NextKey(rows, key)
    ensures KeysUnique(rows + [x], key)
  {
    var after := rows + [x];
    forall i, j | 0 <= i < j < |after|
      ensures key(after[i]) != key(after[j])
    {
      if j == |rows| {
        assert after[i] == rows[i] && key(rows[i]) < NextKey(rows, key);
      } else {
        assert after[i] == rows[i] && after[j] == rows[j];
      }
    }
  }

  /** The rows `db.delete(row)` leaves: all but the one at `i`, in order. */
  function RemoveAt<T>(rows: seq<T>, i: nat): (r: seq<T>)
    requires i < |rows|
    ensures |r| == |rows| - 1
    ensures forall k :: 0 <= k < i ==> r[k] == rows[k]
    ensures forall k :: i <= k < |r| ==> r[k] == rows[k + 1]
  {
    rows[..i] + rows[i + 1..]
  }

  /** With unique keys, the deleted row's key is gone and every other row stays. */
  lemma RemoveAtForgetsKey<T>(rows: seq<T>, i: nat, key: T -> Id)
    requires i < |rows| && KeysUnique(rows, key)
    ensures forall k :: 0 <= k < |RemoveAt(rows, i)| ==> key(RemoveAt(rows, i)[k]) != key(rows[i])
    ensures forall k :: 0 <= k < |rows| && k != i ==> rows[k] in RemoveAt(rows, i)
  {
    var r := RemoveAt(rows, i);
    forall k | 0 <= k < |rows| && k != i
      ensures rows[k] in r
    {
      if k < i { assert r[k] == rows[k]; } else { assert r[k - 1] == rows[k]; }
    }
  }

  /**
   * The rows a loop inserts: each element of `xs` that passes `p` becomes
   * `make(x, key)`, with keys drawn in order starting at `firstId`.
   */
  function Inserted<A, B>(xs: seq<A>, p: A -> bool, make: (A, Id) -> B, firstId: Id): (r: seq<B>)
    ensures |r| <= |xs|
    decreases |xs|
  {
    if xs == [] then []
    else
      var prev := Inserted(xs[..|xs| - 1], p, make, firstId);
      if p(xs[|xs| - 1]) then prev + [make(xs[|xs| - 1], firstId + |prev|)] else prev
  }

  /**
   * The insert loop of a handler: walks `xs` in order and, for each element
   * passing `p`, adds `make(x, key)` to the session's pending rows under a
   * fresh key. The pending rows reach the table on commit.
   */
  method InsertLoop<A, B>(xs: seq<A>, p: A -> bool, make: (A, Id) -> B, firstId: Id) returns (pending: seq<B>, next: Id)
    ensures pending == Inserted(xs, p, make, firstId)
    ensures next == firstId + |pending|
  {
    pending, next := [], firstId;
    var j := 0;
    while j < |xs|
      invariant 0 <= j <= |xs|
      invariant pending == Inserted(xs[..j], p, make, firstId)
      invariant next == firstId + |pending|
    {
      InsertedStep(xs, j, p, make, firstId);
      if p(xs[j]) {
        pending := pending + [make(xs[j], next)];
        next := next + 1;
      }
      j := j + 1;
    }
    assert xs[..|xs|] == xs;
  }

  /** One more turn of the loop inserts at most the next element. */
  lemma InsertedStep<A, B>(xs: seq<A>, i: nat, p: A -> bool, make: (A, Id) -> B, firstId: Id)
    requires i < |xs|
    ensures Inserted(xs[..i + 1], p, make, firstId)
            == Inserted(xs[..i], p, make, firstId)
               + (if p(xs[i]) then [make(xs[i], firstId + |Inserted(xs[..i], p, make, firstId)|)] else [])
  {
    assert xs[..i + 1][..i] == xs[..i];
  }

  /** The inserted rows are the elements passing `p`, in order, keyed consecutively from `firstId`. */
  lemma {:induction false} InsertedIsFilterThenNumber<A, B>(xs: seq<A>, p: A -> bool, make: (A, Id) -> B, firstId: Id)
    ensures |Inserted(xs, p, make, firstId)| == |Filter(xs, p)|
    ensures forall k :: 0 <= k < |Filter(xs, p)| ==> Inserted(xs, p, make, firstId)[k] == make(Filter(xs, p)[k], firstId + k)
    decreases |xs|
  {
    if xs != [] {
      var n := |xs| - 1;
      InsertedIsFilterThenNumber(xs[..n], p, make, firstId);
      assert xs == xs[..n] + [xs[n]];
      FilterAppend(xs[..n], [xs[n]], p);
      assert [xs[n]][1..] == [];
      assert Filter([xs[n]], p) == if p(xs[n]) then [xs[n]] else [];
    }
  }

  /** A filter that no element passes is empty. */
  lemma {:induction false} FilterNone<T>(xs: seq<T>, p: T -> bool)
    requires forall k :: 0 <= k < |xs| ==> !p(xs[k])
    ensures Filter(xs, p) == []
  {
    if xs != [] {
      FilterNone(xs[1..], p);
    }
  }

  /** A filter that every element passes keeps the whole sequence. */
  lemma {:induction false} FilterAll<T>(xs: seq<T>, p: T -> bool)
    requires forall k :: 0 <= k < |xs| ==> p(xs[k])
    ensures Filter(xs, p) == xs
  {
    if xs != [] {
      FilterAll(xs[1..], p);
    }
  }

  /**
   * A handler step run once per key in `keys`, each run committing before
   * the next: `step(rows, key)` is what one run adds when `rows` are
   * committed.
   */
  function Chain<C>(keys: seq<Id>, step: (seq<C>, Id) -> seq<C>, committed: seq<C>): seq<C>
    decreases |keys|
  {
    if keys == [] then []
    else
      var prev := Chain(keys[..|keys| - 1], step, committed);
      prev + step(committed + prev, keys[|keys| - 1])
  }

  /** One more run extends what the chain has added by what that run adds. */
  lemma ChainStep<C>(keys: seq<Id>, j: nat, step: (seq<C>, Id) -> seq<C>, committed: seq<C>, before: seq<C>, after: seq<C>)
    requires j < |keys|
    requires before == committed + Chain(keys[..j], step, committed)
    requires after == before + step(before, keys[j])
    ensures after == committed + Chain(keys[..j + 1], step, committed)
  {
    var prefix := keys[..j + 1];
    assert prefix[..|prefix| - 1] == keys[..j] && prefix[|prefix| - 1] == keys[j];
  }
}
