/**
 * Calendar events and the calendar views: the event handlers, who may see
 * an event, the unified view of shifts, appointments, events and time off
 * over a range of dates, and the iCalendar export.
 */
module Calendar {
  import opened Common
  import opened StaffModel
  import opened SchedulingModel
  import opened SchedulingSchemas
  import opened SchedulingDb
  import opened SchedulingRouter

  const EVENT_NOT_FOUND: string := "Calendar event not found"
  const INVALID_ATTENDEES: string := "Some attendees are not valid staff members"
  const EVENT_DELETED: string := "Calendar event deleted successfully"

  // ---------------------------------------------------------------------
  // Attendees
  // ---------------------------------------------------------------------

  /** No value occurs twice in the list. */
  predicate Distinct(xs: seq<Id>)
  {
    forall i, j :: 0 <= i < j < |xs| ==> xs[i] != xs[j]
  }

  /** A staff row the attendee query counts: its key is listed and it belongs to the organisation. */
  function AttendeeRow(attendees: seq<Id>, org: Option<Id>): Staff -> bool
  {
    (s: Staff) => s.id in attendees && Some(s.organizationId) == org
  }

  /**
   * The attendee check: a missing or empty list is not checked; otherwise
   * the number of the organisation's staff rows whose key is listed must
   * equal the length of the list.
   */
  predicate AttendeesAccepted(staff: seq<Staff>, attendees: Option<seq<Id>>, org: Option<Id>)
  {
    attendees.None? || attendees.value == [] || Count(staff, AttendeeRow(attendees.value, org)) == |attendees.value|
  }

  /** The set of keys of the rows that satisfy `p`. */
  function KeysWhere(staff: seq<Staff>, p: Staff -> bool): (r: set<Id>)
    ensures forall x :: x in r <==> exists k :: 0 <= k < |staff| && p(staff[k]) && staff[k].id == x
  {
    if staff == [] then {}
    else
      var rest := KeysWhere(staff[1..], p);
      assert forall k :: 1 <= k < |staff| ==> staff[1..][k - 1] == staff[k];
      (if p(staff[0]) then {staff[0].id} else {}) + rest
  }

  /** Dropping the first row keeps the keys unique. */
  lemma TailKeysUnique(staff: seq<Staff>)
    requires staff != [] && KeysUnique(staff, StaffIdOf)
    ensures KeysUnique(staff[1..], StaffIdOf)
  {
    var tail := staff[1..];
    forall i, j | 0 <= i < j < |tail| ensures StaffIdOf(tail[i]) != StaffIdOf(tail[j]) {
      assert tail[i] == staff[i + 1] && tail[j] == staff[j + 1];
    }
  }

  /** With unique keys, the first row's key is not among the keys of the others. */
  lemma HeadKeyNotInTail(staff: seq<Staff>, p: Staff -> bool)
    requires staff != [] && KeysUnique(staff, StaffIdOf)
    ensures staff[0].id !in KeysWhere(staff[1..], p)
  {
    var tail := staff[1..];
    forall k | 0 <= k < |tail| ensures tail[k].id != staff[0].id {
      assert tail[k] == staff[k + 1] && StaffIdOf(staff[0]) != StaffIdOf(staff[k + 1]);
    }
  }

  /** With unique keys, counting rows counts their keys. */
  lemma {:induction false} CountIsKeyCount(staff: seq<Staff>, p: Staff -> bool)
    requires KeysUnique(staff, StaffIdOf)
    ensures Count(staff, p) == |KeysWhere(staff, p)|
  {
    if staff != [] {
      var tail := staff[1..];
      TailKeysUnique(staff);
      CountIsKeyCount(tail, p);
      HeadKeyNotInTail(staff, p);
    }
  }

  /** The set of the values of a list. */
  function Elements(xs: seq<Id>): (r: set<Id>)
    ensures forall x :: x in r <==> x in xs
  {
    set x | x in xs
  }

  /** A list has at least as many entries as distinct values, and exactly as many when it has no repeats. */
  lemma {:induction false} ElementsCount(xs: seq<Id>)
    ensures |Elements(xs)| <= |xs|
    ensures |Elements(xs)| == |xs| <==> Distinct(xs)
  {
    if xs != [] {
      var tail := xs[1..];
      ElementsCount(tail);
      assert Elements(xs) == {xs[0]} + Elements(tail);
      if xs[0] in tail {
        assert Elements(xs) == Elements(tail);
        var j :| 0 <= j < |tail| && tail[j] == xs[0];
        assert xs[j + 1] == xs[0];
      } else {
        if Distinct(tail) {
          forall i, j | 0 <= i < j < |xs| ensures xs[i] != xs[j] {
            if i > 0 {
              assert xs[i] == tail[i - 1] && xs[j] == tail[j - 1];
            } else {
              assert xs[j] == tail[j - 1];
            }
          }
        } else {
          var i, j :| 0 <= i < j < |tail| && tail[i] == tail[j];
          assert xs[i + 1] == xs[j + 1];
        }
      }
    }
  }

  /** A subset is no larger than its superset, and one as large is the whole of it. */
  lemma SubsetCount(x: set<Id>, y: set<Id>)
    requires x <= y
    ensures |x| <= |y|
    ensures |x| == |y| ==> x == y
  {
    assert y == x + (y - x);
    assert |y| == |x| + |y - x|;
    if |x| == |y| {
      assert |y - x| == 0;
      assert y - x == {};
    }
  }

  /** The keys the attendee query finds are the listed keys that name a staff member of the organisation. */
  lemma FoundAttendees(staff: seq<Staff>, attendees: seq<Id>, org: Option<Id>)
    ensures forall x :: x in KeysWhere(staff, AttendeeRow(attendees, org)) <==> x in attendees && StaffInOrg(staff, x, org)
  {
    var p := AttendeeRow(attendees, org);
    forall x | x in attendees && StaffInOrg(staff, x, org)
      ensures x in KeysWhere(staff, p)
    {
      var j :| 0 <= j < |staff| && staff[j].id == x && Some(staff[j].organizationId) == org;
      assert p(staff[j]);
    }
  }

  /**
   * With unique staff keys, a non-empty attendee list is accepted exactly
   * when it has no repeats and every listed key is a staff member of the
   * organisation: a list naming one staff member twice is refused.
   */
  lemma AttendeesAcceptedIff(staff: seq<Staff>, attendees: seq<Id>, org: Option<Id>)
    requires KeysUnique(staff, StaffIdOf)
    ensures AttendeesAccepted(staff, Some(attendees), org) <==>
            Distinct(attendees) && forall k :: 0 <= k < |attendees| ==> StaffInOrg(staff, attendees[k], org)
  {
    var p := AttendeeRow(attendees, org);
    var found := KeysWhere(staff, p);
    var listed := Elements(attendees);
    CountIsKeyCount(staff, p);
    ElementsCount(attendees);
    FoundAttendees(staff, attendees, org);
    SubsetCount(found, listed);
    if attendees != [] && Count(staff, p) == |attendees| {
      forall k | 0 <= k < |attendees| ensures StaffInOrg(staff, attendees[k], org) {
        assert attendees[k] in found;
      }
    }
    if Distinct(attendees) && forall k :: 0 <= k < |attendees| ==> StaffInOrg(staff, attendees[k], org) {
      assert listed <= found;
      SubsetCount(listed, found);
    }
  }

  // ---------------------------------------------------------------------
  // Event handlers
  // ---------------------------------------------------------------------

  /** The event `create_calendar_event` adds: the body's fields, the caller as creator. */
  function NewEvent(id: Id, body: EventCreate, c: Caller, now: Moment): (r: CalendarEvent)
    ensures r.id == id && r.organizationId == body.organizationId && r.createdBy == c.id
    ensures r.visibility == body.visibility && r.attendees == body.attendees
    ensures r.startAt == body.startAt && r.endAt == body.endAt && r.title == body.title
  {
    CalendarEvent(id, body.organizationId, body.eventType, body.title, body.description, body.startAt, body.endAt,
                  body.location, body.allDay, body.isRecurring, body.recurrenceRule, body.attendees, body.color,
                  body.visibility, c.id, now)
  }

  /** `create_calendar_event`. The event is filed under the organisation the body names. */
  method CreateEvent(db: Db, c: Caller, body: EventCreate, now: Moment) returns (r: Result<CalendarEvent>)
    modifies db`events
    ensures r.Err? <==> !AttendeesAccepted(db.staff, body.attendees, c.organizationId)
    ensures r.Err? ==> r == Err(BAD_REQUEST, INVALID_ATTENDEES) && db.events == old(db.events)
    ensures r.Ok? ==> r.value == NewEvent(NextKey(old(db.events), EventIdOf), body, c, now)
                      && db.events == old(db.events) + [r.value]
  {
    if !AttendeesAccepted(db.staff, body.attendees, c.organizationId) {
      return Err(BAD_REQUEST, INVALID_ATTENDEES);
    }
    var e := NewEvent(NextKey(db.events, EventIdOf), body, c, now);
    db.events := db.events + [e];
    r := Ok(e);
  }

  /** The lookup of every event handler: the key within the caller's organisation. */
  function EventKey(id: Id, org: Option<Id>): CalendarEvent -> bool
  {
    (e: CalendarEvent) => e.id == id && Some(e.organizationId) == org
  }

  /** `get_calendar_event`. */
  function GetEvent(rows: seq<CalendarEvent>, c: Caller, id: Id): (r: Result<CalendarEvent>)
    ensures r.Err? <==> forall k :: 0 <= k < |rows| ==> !EventKey(id, c.organizationId)(rows[k])
    ensures r.Err? ==> r == Err(NOT_FOUND, EVENT_NOT_FOUND)
    ensures r.Ok? ==> r.value in rows && r.value.id == id && Some(r.value.organizationId) == c.organizationId
  {
    var i := FirstMatch(rows, EventKey(id, c.organizationId));
    if i.None? then Err(NOT_FOUND, EVENT_NOT_FOUND) else Ok(rows[i.value])
  }

  function Sent<T>(sent: Option<T>, stored: T): (r: T)
    ensures sent.Some? ==> r == sent.value
    ensures sent.None? ==> r == stored
  {
    if sent.Some? then sent.value else stored
  }

  /** The fields the update sent replace the stored ones; `updated_at` is stamped. */
  function ApplyEventUpdate(e: CalendarEvent, u: EventUpdate, now: Moment): (r: CalendarEvent)
    ensures r.id == e.id && r.organizationId == e.organizationId && r.createdBy == e.createdBy && r.updatedAt == now
    ensures u.visibility.None? ==> r.visibility == e.visibility
    ensures u.visibility.Some? ==> r.visibility == u.visibility.value
    ensures u.attendees.None? ==> r.attendees == e.attendees
    ensures u.attendees.Some? ==> r.attendees == u.attendees
  {
    e.(eventType := Sent(u.eventType, e.eventType),
       title := Sent(u.title, e.title),
       description := if u.description.Some? then u.description else e.description,
       startAt := Sent(u.startAt, e.startAt),
       endAt := Sent(u.endAt, e.endAt),
       location := if u.location.Some? then u.location else e.location,
       allDay := Sent(u.allDay, e.allDay),
       isRecurring := Sent(u.isRecurring, e.isRecurring),
       recurrenceRule := if u.recurrenceRule.Some? then u.recurrenceRule else e.recurrenceRule,
       attendees := if u.attendees.Some? then u.attendees else e.attendees,
       color := Sent(u.color, e.color),
       visibility := Sent(u.visibility, e.visibility),
       updatedAt := now)
  }

  /** `CalendarEventResponse` re-runs the event validator: the end must come after the start. */
  predicate EventAnswerable(e: CalendarEvent)
  {
    Stamp(e.endAt) > Stamp(e.startAt)
  }

  /**
   * The update compares no times: sending only an end at or before the
   * stored start leaves an event no response can carry, while an update
   * that sends neither time keeps an answerable event answerable.
   */
  lemma EventUpdateAnswerable(e: CalendarEvent, u: EventUpdate, now: Moment)
    ensures u.endAt.Some? && u.startAt.None? && Stamp(u.endAt.value) <= Stamp(e.startAt)
            ==> !EventAnswerable(ApplyEventUpdate(e, u, now))
    ensures EventAnswerable(e) && u.startAt.None? && u.endAt.None? ==> EventAnswerable(ApplyEventUpdate(e, u, now))
  {
  }

  const UPDATE_EVENT_FAILED := "Failed to update calendar event"

  /**
   * `update_calendar_event`: the event is committed before the response is
   * built, so an event left ending at or before its start stays stored while
   * the handler's catch-all answers a 500 (its rollback comes too late).
   */
  method UpdateEvent(db: Db, c: Caller, id: Id, u: EventUpdate, now: Moment) returns (r: Result<CalendarEvent>)
    modifies db`events
    ensures FirstMatch(old(db.events), EventKey(id, c.organizationId)).None?
            ==> r == Err(NOT_FOUND, EVENT_NOT_FOUND) && db.events == old(db.events)
    ensures FirstMatch(old(db.events), EventKey(id, c.organizationId)).Some?
            && !AttendeesAccepted(db.staff, u.attendees, c.organizationId)
            ==> r == Err(BAD_REQUEST, INVALID_ATTENDEES) && db.events == old(db.events)
    ensures FirstMatch(old(db.events), EventKey(id, c.organizationId)).Some?
            && AttendeesAccepted(db.staff, u.attendees, c.organizationId)
            ==> var i := FirstMatch(old(db.events), EventKey(id, c.organizationId)).value;
                var e := ApplyEventUpdate(old(db.events)[i], u, now);
                db.events == old(db.events)[i := e]
                && r == if EventAnswerable(e) then Ok(e) else Err(INTERNAL_ERROR, UPDATE_EVENT_FAILED)
  {
    var i := FirstMatch(db.events, EventKey(id, c.organizationId));
    if i.None? {
      return Err(NOT_FOUND, EVENT_NOT_FOUND);
    }
    if !AttendeesAccepted(db.staff, u.attendees, c.organizationId) {
      return Err(BAD_REQUEST, INVALID_ATTENDEES);
    }
    var e := ApplyEventUpdate(db.events[i.value], u, now);
    db.events := db.events[i.value := e];
    if !EventAnswerable(e) {
      return Err(INTERNAL_ERROR, UPDATE_EVENT_FAILED);
    }
    r := Ok(e);
  }

  /** `delete_calendar_event`. */
  method DeleteEvent(db: Db, c: Caller, id: Id) returns (r: Result<string>)
    modifies db`events
    ensures FirstMatch(old(db.events), EventKey(id, c.organizationId)).None?
            ==> r == Err(NOT_FOUND, EVENT_NOT_FOUND) && db.events == old(db.events)
    ensures FirstMatch(old(db.events), EventKey(id, c.organizationId)).Some?
            ==> r == Ok(EVENT_DELETED)
                && db.events == RemoveAt(old(db.events), FirstMatch(old(db.events), EventKey(id, c.organizationId)).value)
  {
    var i := FirstMatch(db.events, EventKey(id, c.organizationId));
    if i.None? {
      return Err(NOT_FOUND, EVENT_NOT_FOUND);
    }
    db.events := RemoveAt(db.events, i.value);
    r := Ok(EVENT_DELETED);
  }

  /** With unique keys, a deleted event can no longer be fetched. */
  lemma DeletedEventIsGone(rows: seq<CalendarEvent>, c: Caller, id: Id)
    requires KeysUnique(rows, EventIdOf)
    requires FirstMatch(rows, EventKey(id, c.organizationId)).Some?
    ensures GetEvent(RemoveAt(rows, FirstMatch(rows, EventKey(id, c.organizationId)).value), c, id).Err?
  {
    var i := FirstMatch(rows, EventKey(id, c.organizationId)).value;
    RemoveAtForgetsKey(rows, i, EventIdOf);
    var rest := RemoveAt(rows, i);
    forall k | 0 <= k < |rest|
      ensures !EventKey(id, c.organizationId)(rest[k])
    {
      assert EventIdOf(rest[k]) != EventIdOf(rows[i]);
    }
  }

  // ---------------------------------------------------------------------
  // The event list
  // ---------------------------------------------------------------------

  function StartStamp(e: CalendarEvent): int
  {
    Stamp(e.startAt)
  }

  /** The first second of a day: `datetime.combine(d, time.min)`. */
  function DayStart(d: Day): int
  {
    Stamp(Combine(d, 0))
  }

  /**
   * The last second of a day. `time.max` is 23:59:59.999999; on stamps of
   * whole seconds, being at or before it is being at or before 23:59:59.
   */
  function DayEnd(d: Day): int
  {
    Stamp(Combine(d, SECONDS_PER_DAY - 1))
  }

  /** The filters of `get_calendar_events`; without a visibility filter only PUBLIC and PRIVATE events qualify. */
  function EventListed(org: Option<Id>, eventType: Option<EventType>, startDate: Option<Day>, endDate: Option<Day>,
                       attendee: Option<Id>, visibility: Option<EventVisibility>): CalendarEvent -> bool
  {
    (e: CalendarEvent) =>
      Some(e.organizationId) == org
      && (eventType.None? || e.eventType == eventType.value)
      && (startDate.None? || Stamp(e.startAt) >= DayStart(startDate.value))
      && (endDate.None? || Stamp(e.endAt) <= DayEnd(endDate.value))
      && (attendee.None? || (e.attendees.Some? && attendee.value in e.attendees.value))
      && (if visibility.Some? then e.visibility == visibility.value else e.visibility == PUBLIC || e.visibility == PRIVATE)
  }

  /** `get_calendar_events`: one page of the matching events, earliest start first. */
  function ListEvents(rows: seq<CalendarEvent>, c: Caller, skip: int, limit: int, eventType: Option<EventType>,
                      startDate: Option<Day>, endDate: Option<Day>, attendee: Option<Id>,
                      visibility: Option<EventVisibility>): (r: Result<Page<CalendarEvent>>)
    ensures r.Err? <==> !PagingValid(skip, limit)
    ensures r.Err? ==> r.status == UNPROCESSABLE
    ensures r.Ok? ==>
      var p := EventListed(c.organizationId, eventType, startDate, endDate, attendee, visibility);
      r.value.total == Count(rows, p) && r.value.page == PageOf(skip, limit)
      && r.value.pages == PageCount(r.value.total, limit) && |r.value.items| <= limit
      && SortedAsc(r.value.items, StartStamp)
      && forall k :: 0 <= k < |r.value.items| ==> r.value.items[k] in rows && p(r.value.items[k])
    ensures r.Ok? ==> r.value.items == Window(SelectAsc(rows, EventListed(c.organizationId, eventType, startDate, endDate, attendee,
                                                                          visibility), StartStamp), skip, limit)
  {
    if !PagingValid(skip, limit) then Err(UNPROCESSABLE, "Input should be within the allowed range")
    else
      var ordered := SelectAsc(rows, EventListed(c.organizationId, eventType, startDate, endDate, attendee, visibility),
                               StartStamp);
      var page := Paginate(ordered, skip, limit);
      assert forall k :: 0 <= k < |page.items| ==> page.items[k] == ordered[skip + k];
      Ok(page)
  }

  /** Unless CONFIDENTIAL events are asked for by name, the list never shows one. */
  lemma DefaultListHidesConfidential(rows: seq<CalendarEvent>, c: Caller, skip: int, limit: int,
                                     eventType: Option<EventType>, startDate: Option<Day>, endDate: Option<Day>,
                                     attendee: Option<Id>, visibility: Option<EventVisibility>)
    requires visibility != Some(CONFIDENTIAL)
    ensures var r := ListEvents(rows, c, skip, limit, eventType, startDate, endDate, attendee, visibility);
            r.Ok? ==> forall k :: 0 <= k < |r.value.items| ==> r.value.items[k].visibility != CONFIDENTIAL
  {
  }

  // ---------------------------------------------------------------------
  // The unified view
  // ---------------------------------------------------------------------

  /**
   * Who sees an event in the unified view: everyone a PUBLIC one; a PRIVATE
   * one its creator, or a caller whose staff record is listed among a
   * non-empty attendee list; a CONFIDENTIAL one nobody.
   */
  predicate Visible(e: CalendarEvent, c: Caller)
  {
    match e.visibility
    case PUBLIC => true
    case PRIVATE =>
      e.createdBy == c.id
      || (e.attendees.Some? && e.attendees.value != [] && c.staffProfileId.Some?
          && c.staffProfileId.value in e.attendees.value)
    case CONFIDENTIAL => false
  }

  /** The body of `get_calendar_view`. */
  datatype ViewRequest = ViewRequest(startDate: Day, endDate: Day, staffIds: Option<seq<Id>>, includeShifts: bool,
                                     includeAppointments: bool, includeEvents: bool, includeTimeOff: bool)

  /** The four lists of the view and the period it covers. */
  datatype View = View(shifts: seq<Shift>, appointments: seq<Appointment>, events: seq<CalendarEvent>,
                       timeOff: seq<TimeOff>, periodStart: string, periodEnd: string)

  /** The `staff_ids` filter applies only when the list is non-empty. */
  predicate StaffChosen(staffIds: Option<seq<Id>>, staffId: Id)
  {
    staffIds.None? || staffIds.value == [] || staffId in staffIds.value
  }

  /** Shifts of the organisation's schedules dated within the period. */
  function ShiftInView(schedules: seq<Schedule>, org: Option<Id>, req: ViewRequest): Shift -> bool
  {
    (s: Shift) =>
      ShiftInOrg(schedules, s, org) && DayNumber(req.startDate) <= DayNumber(s.shiftDate) <= DayNumber(req.endDate)
      && StaffChosen(req.staffIds, s.staffId)
  }

  /** Appointments lying entirely within the period. */
  function AppointmentInView(org: Option<Id>, req: ViewRequest): Appointment -> bool
  {
    (a: Appointment) =>
      Some(a.organizationId) == org && Stamp(a.startAt) >= DayStart(req.startDate) && Stamp(a.endAt) <= DayEnd(req.endDate)
      && StaffChosen(req.staffIds, a.staffId)
  }

  /** Events lying entirely within the period that the caller may see; the staff filter does not apply to them. */
  function EventInView(c: Caller, req: ViewRequest): CalendarEvent -> bool
  {
    (e: CalendarEvent) =>
      Some(e.organizationId) == c.organizationId && Stamp(e.startAt) >= DayStart(req.startDate)
      && Stamp(e.endAt) <= DayEnd(req.endDate) && Visible(e, c)
  }

  /** Time off of the organisation's staff that meets the period at any point. */
  function TimeOffInView(staff: seq<Staff>, org: Option<Id>, req: ViewRequest): TimeOff -> bool
  {
    (t: TimeOff) =>
      StaffInOrg(staff, t.staffId, org) && Stamp(t.startAt) <= DayEnd(req.endDate) && Stamp(t.endAt) >= DayStart(req.startDate)
      && StaffChosen(req.staffIds, t.staffId)
  }

  /** One section of the view: the rows of a query, appended one by one in table order. */
  method Collect<T>(rows: seq<T>, p: T -> bool) returns (out: seq<T>)
    ensures out == Filter(rows, p)
  {
    out := [];
    var i := 0;
    while i < |rows|
      invariant 0 <= i <= |rows|
      invariant out == Filter(rows[..i], p)
    {
      FilterAppend(rows[..i], [rows[i]], p);
      assert rows[..i + 1] == rows[..i] + [rows[i]];
      if p(rows[i]) {
        out := out + [rows[i]];
      }
      i := i + 1;
    }
    assert rows[..i] == rows;
  }

  /** `get_calendar_view`: each section requested holds exactly the rows its filter keeps. */
  method CalendarView(db: Db, c: Caller, req: ViewRequest) returns (v: View)
    ensures v.shifts == if req.includeShifts then Filter(db.shifts, ShiftInView(db.schedules, c.organizationId, req)) else []
    ensures v.appointments == if req.includeAppointments then Filter(db.appointments, AppointmentInView(c.organizationId, req))
                              else []
    ensures v.events == if req.includeEvents then Filter(db.events, EventInView(c, req)) else []
    ensures v.timeOff == if req.includeTimeOff then Filter(db.timeOff, TimeOffInView(db.staff, c.organizationId, req)) else []
    ensures v.periodStart == DateIso(req.startDate) && v.periodEnd == DateIso(req.endDate)
  {
    var shifts, appointments, events, timeOff := [], [], [], [];
    if req.includeShifts {
      shifts := Collect(db.shifts, ShiftInView(db.schedules, c.organizationId, req));
    }
    if req.includeAppointments {
      appointments := Collect(db.appointments, AppointmentInView(c.organizationId, req));
    }
    if req.includeEvents {
      events := Collect(db.events, EventInView(c, req));
    }
    if req.includeTimeOff {
      timeOff := Collect(db.timeOff, TimeOffInView(db.staff, c.organizationId, req));
    }
    v := View(shifts, appointments, events, timeOff, DateIso(req.startDate), DateIso(req.endDate));
  }

  /**
   * The events of a view: never a CONFIDENTIAL one, a PRIVATE one only for
   * its creator or a listed attendee, and every PUBLIC event of the
   * organisation that lies within the period.
   */
  lemma ViewEventsAreVisible(rows: seq<CalendarEvent>, c: Caller, req: ViewRequest)
    ensures var shown := Filter(rows, EventInView(c, req));
            forall k :: 0 <= k < |shown| ==>
              shown[k].visibility != CONFIDENTIAL
              && (shown[k].visibility == PRIVATE ==>
                    shown[k].createdBy == c.id
                    || (c.staffProfileId.Some? && shown[k].attendees.Some? && c.staffProfileId.value in shown[k].attendees.value))
    ensures var shown := Filter(rows, EventInView(c, req));
            forall k :: 0 <= k < |rows| && rows[k].visibility == PUBLIC && Some(rows[k].organizationId) == c.organizationId
                        && Stamp(rows[k].startAt) >= DayStart(req.startDate) && Stamp(rows[k].endAt) <= DayEnd(req.endDate)
                        ==> rows[k] in shown
  {
    var shown := Filter(rows, EventInView(c, req));
    forall k | 0 <= k < |shown|
      ensures Visible(shown[k], c)
    {
      assert EventInView(c, req)(shown[k]);
    }
    forall k | 0 <= k < |rows| && rows[k].visibility == PUBLIC && Some(rows[k].organizationId) == c.organizationId
               && Stamp(rows[k].startAt) >= DayStart(req.startDate) && Stamp(rows[k].endAt) <= DayEnd(req.endDate)
      ensures rows[k] in shown
    {
      assert EventInView(c, req)(rows[k]);
    }
  }

  /**
   * The two window rules differ: an appointment and a time off over the
   * same interval that starts before the period and ends after it — the
   * time off is shown, the appointment is not.
   */
  lemma SpanningTimeOffShownAppointmentNot(staff: seq<Staff>, a: Appointment, t: TimeOff, c: Caller, req: ViewRequest)
    requires StaffInOrg(staff, t.staffId, c.organizationId) && Some(a.organizationId) == c.organizationId
    requires req.staffIds.None?
    requires a.startAt == t.startAt && a.endAt == t.endAt
    requires Stamp(a.startAt) < DayStart(req.startDate) && DayEnd(req.endDate) < Stamp(a.endAt)
    requires DayNumber(req.startDate) <= DayNumber(req.endDate)
    ensures TimeOffInView(staff, c.organizationId, req)(t)
    ensures !AppointmentInView(c.organizationId, req)(a)
  {
  }

  // ---------------------------------------------------------------------
  // iCalendar export
  // ---------------------------------------------------------------------

  /** The calendar's opening lines (RFC 5545 sections 3.4 and 3.7). */
  const ICAL_HEADER: seq<string> :=
    ["BEGIN:VCALENDAR", "VERSION:2.0", "PRODID:-//Starline//Scheduling Calendar//EN", "CALSCALE:GREGORIAN",
     "METHOD:PUBLISH"]

  const ICAL_FOOTER: string := "END:VCALENDAR"

  /** The line separator of RFC 5545 section 3.1. */
  const CRLF: string := "\r\n"

  /** `%Y%m%d`. */
  function DatePart(d: Date): string
  {
    PaddedInt(d.year, 4) + PaddedInt(d.month, 2) + PaddedInt(d.day, 2)
  }

  /** `%H%M%S` of a second of the day. */
  function TimePart(second: int): string
  {
    PaddedInt(second / 3600, 2) + PaddedInt(second % 3600 / 60, 2) + PaddedInt(second % 60, 2)
  }

  /** `strftime("%Y%m%dT%H%M%SZ")`: the naive time written as a UTC DATE-TIME (RFC 5545 section 3.3.5). */
  function IcsStamp(t: Moment): string
  {
    DatePart(t.date) + "T" + TimePart(t.second) + "Z"
  }

  predicate AllDigits(s: string)
  {
    forall k :: 0 <= k < |s| ==> IsDigit(s[k])
  }

  /** Reads `YYYYMMDD`. */
  function ReadDate(s: string): Date
    requires |s| == 8 && AllDigits(s)
  {
    Date(DigitsValue(s[..4]), DigitsValue(s[4..6]), DigitsValue(s[6..]))
  }

  /** Reads `HHMMSS` as a second of the day. */
  function ReadTime(s: string): int
    requires |s| == 6 && AllDigits(s)
  {
    DigitsValue(s[..2]) * 3600 + DigitsValue(s[2..4]) * 60 + DigitsValue(s[4..])
  }

  /** Reads a UTC DATE-TIME of the form `YYYYMMDDTHHMMSSZ`. */
  function ReadIcsStamp(s: string): Option<DateTime>
  {
    if |s| == 16 && s[8] == 'T' && s[15] == 'Z' && AllDigits(s[..8]) && AllDigits(s[9..15])
    then Some(DateTime(ReadDate(s[..8]), ReadTime(s[9..15])))
    else None
  }

  /** Leading zeros do not change the value of a string of digits. */
  lemma {:induction false} LeadingZerosValue(z: string, s: string)
    requires forall k :: 0 <= k < |z| ==> z[k] == '0'
    requires AllDigits(s)
    ensures AllDigits(z + s) && DigitsValue(z + s) == DigitsValue(s)
    decreases |z| + |s|
  {
    var zs := z + s;
    if s == [] {
      assert zs == z;
      if z != [] {
        LeadingZerosValue(z[..|z| - 1], []);
        assert z[..|z| - 1] + [] == z[..|z| - 1];
      }
    } else {
      LeadingZerosValue(z, s[..|s| - 1]);
      assert zs[..|zs| - 1] == z + s[..|s| - 1];
    }
  }

  /** `str(n)` of a number below 10000 has at most four digits. */
  lemma ShortNumber(n: nat)
    requires n < 10000
    ensures |NatToString(n)| <= 4
  {
    if n >= 10 {
      assert NatToString(n) == NatToString(n / 10) + [DigitChar(n % 10)];
      if n / 10 >= 10 {
        assert NatToString(n / 10) == NatToString(n / 100) + [DigitChar(n / 10 % 10)];
      }
    }
  }

  /** A number padded to a width it fits reads back as itself. */
  lemma PaddedReadsBack(n: int, w: nat)
    requires n >= 0 && |NatToString(n)| <= w
    ensures |PaddedInt(n, w)| == w && AllDigits(PaddedInt(n, w)) && DigitsValue(PaddedInt(n, w)) == n
  {
    var s := NatToString(n);
    var z := seq(w - |s|, _ => '0');
    if |s| < w {
      assert PaddedInt(n, w) == z + s;
      LeadingZerosValue(z, s);
    }
    DigitsValueOfNatToString(n);
  }

  lemma DatePartReadsBack(d: Date)
    requires 1 <= d.year <= 9999 && ValidDate(d)
    ensures |DatePart(d)| == 8 && AllDigits(DatePart(d)) && ReadDate(DatePart(d)) == d
  {
    ShortNumber(d.year);
    PaddedReadsBack(d.year, 4);
    PaddedReadsBack(d.month, 2);
    PaddedReadsBack(d.day, 2);
    var s := DatePart(d);
    assert s[..4] == PaddedInt(d.year, 4);
    assert s[4..6] == PaddedInt(d.month, 2);
    assert s[6..] == PaddedInt(d.day, 2);
  }

  lemma TimePartReadsBack(second: int)
    requires 0 <= second < SECONDS_PER_DAY
    ensures |TimePart(second)| == 6 && AllDigits(TimePart(second)) && ReadTime(TimePart(second)) == second
  {
    PaddedReadsBack(second / 3600, 2);
    PaddedReadsBack(second % 3600 / 60, 2);
    PaddedReadsBack(second % 60, 2);
    var s := TimePart(second);
    assert s[..2] == PaddedInt(second / 3600, 2);
    assert s[2..4] == PaddedInt(second % 3600 / 60, 2);
    assert s[4..] == PaddedInt(second % 60, 2);
  }

  /**
   * DTSTART and DTEND read back as the event's times: for every year
   * Python's dates allow, the stamp is 16 characters, `T` at position 8 and
   * `Z` at the end, and its fields give back the moment.
   */
  lemma IcsStampRoundTrip(t: Moment)
    requires 1 <= t.date.year <= 9999
    ensures |IcsStamp(t)| == 16 && IcsStamp(t)[8] == 'T' && IcsStamp(t)[15] == 'Z'
    ensures var u: DateTime := t; ReadIcsStamp(IcsStamp(t)) == Some(u)
  {
    DatePartReadsBack(t.date);
    TimePartReadsBack(t.second);
    var s := IcsStamp(t);
    assert s[..8] == DatePart(t.date);
    assert s[9..15] == TimePart(t.second);
  }

  /** The nine lines of one event (RFC 5545 section 3.6.1); texts go out as stored, neither escaped nor folded. */
  function EventLines(e: CalendarEvent): (r: seq<string>)
    ensures |r| == 9
  {
    ["BEGIN:VEVENT", "UID:" + IdText(e.id) + "@starline.local", "DTSTART:" + IcsStamp(e.startAt),
     "DTEND:" + IcsStamp(e.endAt), "SUMMARY:" + e.title, "DESCRIPTION:" + OrEmpty(e.description),
     "LOCATION:" + OrEmpty(e.location), "STATUS:CONFIRMED", "END:VEVENT"]
  }

  /** The blocks `block(x)` of the items, one after the other in the order given. */
  function Blocks<T>(items: seq<T>, block: T -> seq<string>): seq<string>
  {
    if items == [] then [] else Blocks(items[..|items| - 1], block) + block(items[|items| - 1])
  }

  /** With blocks of nine lines, item `k`'s line `j` is line `9 * k + j` of the blocks. */
  lemma {:induction false} BlocksLayout<T>(items: seq<T>, block: T -> seq<string>)
    requires forall x :: |block(x)| == 9
    ensures |Blocks(items, block)| == 9 * |items|
    ensures forall k, j :: 0 <= k < |items| && 0 <= j < 9 ==> Blocks(items, block)[9 * k + j] == block(items[k])[j]
  {
    if items != [] {
      var front := items[..|items| - 1];
      BlocksLayout(front, block);
      forall k, j | 0 <= k < |items| && 0 <= j < 9
        ensures Blocks(items, block)[9 * k + j] == block(items[k])[j]
      {
        if k < |front| {
          assert items[k] == front[k];
          assert 9 * k + j < 9 * |front|;
        } else {
          assert 9 * k + j == 9 * |front| + j;
        }
      }
    }
  }

  /** The lines of the calendar: the header, the event blocks, the closing line. */
  function CalendarLines(events: seq<CalendarEvent>): seq<string>
  {
    ICAL_HEADER + Blocks(events, EventLines) + [ICAL_FOOTER]
  }

  /** A header, nine-line blocks and a closing line: where each block's lines fall. */
  lemma FramedLayout<T>(header: seq<string>, items: seq<T>, block: T -> seq<string>, footer: string)
    requires forall x :: |block(x)| == 9
    ensures var lines := header + Blocks(items, block) + [footer];
            |lines| == |header| + 9 * |items| + 1 && lines[..|header|] == header && lines[|lines| - 1] == footer
            && forall k, j :: 0 <= k < |items| && 0 <= j < 9 ==> lines[|header| + 9 * k + j] == block(items[k])[j]
  {
    BlocksLayout(items, block);
    var lines := header + Blocks(items, block) + [footer];
    forall k, j | 0 <= k < |items| && 0 <= j < 9
      ensures lines[|header| + 9 * k + j] == block(items[k])[j]
    {
      assert lines[|header| + 9 * k + j] == Blocks(items, block)[9 * k + j];
    }
  }

  /**
   * The layout the file follows: it opens with the five header lines,
   * closes with END:VCALENDAR, and event `k` takes lines `5 + 9 * k` to
   * `13 + 9 * k`.
   */
  lemma CalendarLayout(events: seq<CalendarEvent>)
    ensures var lines := CalendarLines(events);
            |lines| == 6 + 9 * |events| && lines[..5] == ICAL_HEADER && lines[|lines| - 1] == ICAL_FOOTER
            && forall k, j :: 0 <= k < |events| && 0 <= j < 9 ==> lines[5 + 9 * k + j] == EventLines(events[k])[j]
  {
    FramedLayout(ICAL_HEADER, events, EventLines, ICAL_FOOTER);
  }

  /** Cuts a text at every CRLF: the reading of RFC 5545 section 3.1 for a file without folded lines. */
  function SplitLines(s: string): (r: seq<string>)
    ensures |r| >= 1
  {
    if s == [] then [""]
    else if |s| >= 2 && s[0] == '\r' && s[1] == '\n' then [""] + SplitLines(s[2..])
    else
      var rest := SplitLines(s[1..]);
      [[s[0]] + rest[0]] + rest[1..]
  }

  /** A line without a carriage return is one line. */
  lemma {:induction false} OneLine(a: string)
    requires '\r' !in a
    ensures SplitLines(a) == [a]
  {
    if a != [] {
      OneLine(a[1..]);
      assert [a[0]] + a[1..] == a;
    }
  }

  /** A line without a carriage return, a CRLF, and the rest: the line comes off first. */
  lemma {:induction false} FirstLine(a: string, b: string)
    requires '\r' !in a
    ensures SplitLines(a + CRLF + b) == [a] + SplitLines(b)
  {
    var s := a + CRLF + b;
    if a == [] {
      assert s == CRLF + b && s[2..] == b;
    } else {
      FirstLine(a[1..], b);
      assert s[1..] == a[1..] + CRLF + b;
      assert s[0] == a[0] && s[0] != '\r';
      assert [a[0]] + a[1..] == a;
    }
  }

  /** Lines without carriage returns, joined by CRLF, split back into themselves. */
  lemma {:induction false} JoinSplitRoundTrip(lines: seq<string>)
    requires lines != [] && forall k :: 0 <= k < |lines| ==> '\r' !in lines[k]
    ensures SplitLines(Join(lines, CRLF)) == lines
  {
    if |lines| == 1 {
      OneLine(lines[0]);
    } else {
      JoinSplitRoundTrip(lines[1..]);
      FirstLine(lines[0], Join(lines[1..], CRLF));
      assert lines == [lines[0]] + lines[1..];
    }
  }

  /** An event's free texts, title, description and location, hold no carriage return. */
  predicate PlainTexts(e: CalendarEvent)
  {
    '\r' !in e.title && '\r' !in OrEmpty(e.description) && '\r' !in OrEmpty(e.location)
  }

  lemma PaddedHasNoBreak(i: int, w: nat)
    ensures '\r' !in PaddedInt(i, w)
  {
    var s := PaddedInt(i, w);
    if i < 0 {
      assert s == "-" + NatToString(-i);
    }
    assert forall k :: 0 <= k < |s| ==> s[k] != '\r';
  }

  lemma StampHasNoBreak(t: Moment)
    ensures '\r' !in IcsStamp(t)
  {
    PaddedHasNoBreak(t.date.year, 4);
    PaddedHasNoBreak(t.date.month, 2);
    PaddedHasNoBreak(t.date.day, 2);
    PaddedHasNoBreak(t.second / 3600, 2);
    PaddedHasNoBreak(t.second % 3600 / 60, 2);
    PaddedHasNoBreak(t.second % 60, 2);
  }

  /** No line holds a carriage return. */
  predicate NoBreak(lines: seq<string>)
  {
    forall k :: 0 <= k < |lines| ==> '\r' !in lines[k]
  }

  lemma NineLinesPlain(l0: string, l1: string, l2: string, l3: string, l4: string, l5: string, l6: string,
                       l7: string, l8: string)
    requires '\r' !in l0 && '\r' !in l1 && '\r' !in l2 && '\r' !in l3 && '\r' !in l4
    requires '\r' !in l5 && '\r' !in l6 && '\r' !in l7 && '\r' !in l8
    ensures NoBreak([l0, l1, l2, l3, l4, l5, l6, l7, l8])
  {
  }

  /** The fixed lines of a block hold no carriage return. */
  lemma FixedLinesPlain()
    ensures '\r' !in "BEGIN:VEVENT" && '\r' !in "STATUS:CONFIRMED" && '\r' !in "END:VEVENT"
  {
  }

  /** Nor does the UID line. */
  lemma UidLinePlain(id: Id)
    ensures '\r' !in "UID:" + IdText(id) + "@starline.local"
  {
    var text := IdText(id);
    assert '\r' !in text by {
      assert forall k :: 0 <= k < |text| ==> text[k] != '\r';
    }
  }

  /** Nor do the time lines. */
  lemma TimeLinesPlain(e: CalendarEvent)
    ensures '\r' !in "DTSTART:" + IcsStamp(e.startAt) && '\r' !in "DTEND:" + IcsStamp(e.endAt)
  {
    StampHasNoBreak(e.startAt);
    StampHasNoBreak(e.endAt);
  }

  /** The text lines hold a carriage return only where the texts do. */
  lemma TextLinesPlain(e: CalendarEvent)
    requires PlainTexts(e)
    ensures '\r' !in "SUMMARY:" + e.title && '\r' !in "DESCRIPTION:" + OrEmpty(e.description)
    ensures '\r' !in "LOCATION:" + OrEmpty(e.location)
  {
  }

  /** An event's block holds a carriage return only where its free texts do. */
  lemma EventLinesPlain(e: CalendarEvent)
    requires PlainTexts(e)
    ensures NoBreak(EventLines(e))
  {
    FixedLinesPlain();
    UidLinePlain(e.id);
    TimeLinesPlain(e);
    TextLinesPlain(e);
    NineLinesPlain("BEGIN:VEVENT", "UID:" + IdText(e.id) + "@starline.local", "DTSTART:" + IcsStamp(e.startAt),
                   "DTEND:" + IcsStamp(e.endAt), "SUMMARY:" + e.title, "DESCRIPTION:" + OrEmpty(e.description),
                   "LOCATION:" + OrEmpty(e.location), "STATUS:CONFIRMED", "END:VEVENT");
  }

  /** Blocks without carriage returns make lines without carriage returns. */
  lemma {:induction false} BlocksPlain<T>(items: seq<T>, block: T -> seq<string>)
    requires forall k :: 0 <= k < |items| ==> NoBreak(block(items[k]))
    ensures NoBreak(Blocks(items, block))
  {
    if items != [] {
      BlocksPlain(items[..|items| - 1], block);
    }
  }

  /** The opening and closing lines hold no carriage return. */
  lemma FrameLinesPlain()
    ensures NoBreak(ICAL_HEADER) && '\r' !in ICAL_FOOTER
  {
    assert '\r' !in "BEGIN:VCALENDAR" && '\r' !in "VERSION:2.0";
    assert '\r' !in "PRODID:-//Starline//Scheduling Calendar//EN";
    assert '\r' !in "CALSCALE:GREGORIAN" && '\r' !in "METHOD:PUBLISH";
    NineLinesPlain("BEGIN:VCALENDAR", "VERSION:2.0", "PRODID:-//Starline//Scheduling Calendar//EN",
                   "CALSCALE:GREGORIAN", "METHOD:PUBLISH", "", "", "", "");
    assert ICAL_HEADER == ["BEGIN:VCALENDAR", "VERSION:2.0", "PRODID:-//Starline//Scheduling Calendar//EN",
                           "CALSCALE:GREGORIAN", "METHOD:PUBLISH", "", "", "", ""][..5];
  }

  lemma FramedPlain(header: seq<string>, body: seq<string>, footer: string)
    requires NoBreak(header) && NoBreak(body) && '\r' !in footer
    ensures NoBreak(header + body + [footer])
  {
  }

  /**
   * Texts are neither escaped nor folded (RFC 5545 sections 3.3.11 and
   * 3.1). When no event's free text holds a carriage return, the file cut
   * at every CRLF gives back exactly the lines of the layout.
   */
  lemma CalendarRoundTrip(events: seq<CalendarEvent>)
    requires forall k :: 0 <= k < |events| ==> PlainTexts(events[k])
    ensures SplitLines(Join(CalendarLines(events), CRLF)) == CalendarLines(events)
  {
    forall k | 0 <= k < |events|
      ensures NoBreak(EventLines(events[k]))
    {
      EventLinesPlain(events[k]);
    }
    BlocksPlain(events, EventLines);
    FrameLinesPlain();
    FramedPlain(ICAL_HEADER, Blocks(events, EventLines), ICAL_FOOTER);
    JoinSplitRoundTrip(CalendarLines(events));
  }

  /** The events the export takes: the organisation's, within the dates given, in table order. */
  function Exported(org: Option<Id>, startDate: Option<Day>, endDate: Option<Day>): CalendarEvent -> bool
  {
    (e: CalendarEvent) =>
      Some(e.organizationId) == org
      && (startDate.None? || Stamp(e.startAt) >= DayStart(startDate.value))
      && (endDate.None? || Stamp(e.endAt) <= DayEnd(endDate.value))
  }

  /** `lines.extend(block(x))` for each item in turn. */
  method ExtendWithBlocks<T>(lines0: seq<string>, items: seq<T>, block: T -> seq<string>) returns (lines: seq<string>)
    ensures lines == lines0 + Blocks(items, block)
  {
    lines := lines0;
    var i := 0;
    while i < |items|
      invariant 0 <= i <= |items|
      invariant lines == lines0 + Blocks(items[..i], block)
    {
      assert items[..i + 1][..i] == items[..i];
      lines := lines + block(items[i]);
      i := i + 1;
    }
    assert items[..i] == items;
  }

  /** `generate_ical_calendar`: the header, each event's lines added in a loop, the closing line, joined by CRLF. */
  method GenerateCalendar(rows: seq<CalendarEvent>, org: Option<Id>, startDate: Option<Day>, endDate: Option<Day>)
    returns (text: string)
    ensures text == Join(CalendarLines(Filter(rows, Exported(org, startDate, endDate))), CRLF)
  {
    var events := Filter(rows, Exported(org, startDate, endDate));
    var lines := ExtendWithBlocks(ICAL_HEADER, events, EventLines);
    lines := lines + [ICAL_FOOTER];
    text := Join(lines, CRLF);
  }

  /**
   * Unlike the list and the unified view, the export filters on nothing but
   * organisation and dates: a CONFIDENTIAL event goes out like any other.
   */
  lemma ExportIncludesConfidential(rows: seq<CalendarEvent>, k: nat, org: Option<Id>)
    requires k < |rows| && rows[k].visibility == CONFIDENTIAL && Some(rows[k].organizationId) == org
    ensures rows[k] in Filter(rows, Exported(org, None, None))
    ensures !Visible(rows[k], Caller(0, org, None, "", None))
  {
    assert Exported(org, None, None)(rows[k]);
  }

  /** The response of `export_calendar_ical`. */
  datatype Download = Download(content: string, mediaType: string, disposition: string)

  /** `export_calendar_ical`: the calendar key only names the file; the content is the organisation's. */
  method ExportCalendar(db: Db, c: Caller, calendarId: Id, startDate: Option<Day>, endDate: Option<Day>)
    returns (r: Download)
    ensures r.content == Join(CalendarLines(Filter(db.events, Exported(c.organizationId, startDate, endDate))), CRLF)
    ensures r.mediaType == "text/calendar"
    ensures r.disposition == "attachment; filename=calendar_" + IdText(calendarId) + ".ics"
  {
    var text := GenerateCalendar(db.events, c.organizationId, startDate, endDate);
    r := Download(text, "text/calendar", "attachment; filename=calendar_" + IdText(calendarId) + ".ics");
  }

  /** `sync_external_calendar`: a placeholder that never syncs. */
  function SyncExternalCalendar(calendarUrl: string): (r: (string, bool))
    ensures !r.1
  {
    ("External calendar sync feature is not yet implemented", false)
  }
}
