/**
 * Client appointments and their recurrences: creation with the staff
 * member's double-booking check, the paged list (with the "Support Staff"
 * restriction to one's own appointments), update, cancellation, the
 * per-client list, the recurrence records, and the generation of
 * appointments from a recurrence over a window of dates.
 *
 * Paths are relative to the router's prefix (`/appointments` under the
 * scheduling router).
 */
module Appointments {
  import opened Common
  import opened StaffModel
  import opened ClientModel
  import opened SchedulingModel
  import opened SchedulingSchemas
  import opened SchedulingDb
  import opened SchedulingRouter
  import opened Routing

  const CLIENT_NOT_FOUND: string := "Client not found"
  const STAFF_NOT_FOUND: string := "Staff member not found"
  const TRANSPORT_NOT_FOUND: string := "Transport staff not found"
  const CONFLICTING: string := "Staff member has a conflicting appointment"
  const APPOINTMENT_NOT_FOUND: string := "Appointment not found"
  const RECURRING_NOT_FOUND: string := "Recurring appointment not found"
  const GENERATION_FAILED: string := "Failed to generate appointment instances"
  const GENERATED_NOTE: string := "Generated from recurring appointment: "
  const SUPPORT_STAFF: string := "Support Staff"

  // ---------------------------------------------------------------------
  // Double booking
  // ---------------------------------------------------------------------

  /**
   * The conflict query: an appointment of the staff member that is not
   * cancelled, other than `except`, overlapping `[start, end)`.
   */
  function ConflictsWith(staffId: Id, start: Moment, end: Moment, except: Option<Id>): Appointment -> bool
  {
    (a: Appointment) =>
      a.staffId == staffId && (except.None? || a.id != except.value) && a.status != APPT_CANCELLED
      && Overlaps(Stamp(a.startAt), Stamp(a.endAt), Stamp(start), Stamp(end))
  }

  predicate HasConflict(rows: seq<Appointment>, staffId: Id, start: Moment, end: Moment, except: Option<Id>)
  {
    exists k :: 0 <= k < |rows| && ConflictsWith(staffId, start, end, except)(rows[k])
  }

  /** What the check protects: no staff member has two live appointments that overlap. */
  predicate NoDoubleBooking(rows: seq<Appointment>)
  {
    forall i, j :: 0 <= i < j < |rows| && rows[i].staffId == rows[j].staffId
                   && rows[i].status != APPT_CANCELLED && rows[j].status != APPT_CANCELLED
      ==> !Overlaps(Stamp(rows[i].startAt), Stamp(rows[i].endAt), Stamp(rows[j].startAt), Stamp(rows[j].endAt))
  }

  /** An appointment the check lets through keeps the table free of double bookings. */
  lemma AddingUnconflictedKeepsNoDoubleBooking(rows: seq<Appointment>, a: Appointment)
    requires NoDoubleBooking(rows) && !HasConflict(rows, a.staffId, a.startAt, a.endAt, None)
    ensures NoDoubleBooking(rows + [a])
  {
    var after := rows + [a];
    forall i, j | 0 <= i < j < |after| && after[i].staffId == after[j].staffId
                  && after[i].status != APPT_CANCELLED && after[j].status != APPT_CANCELLED
      ensures !Overlaps(Stamp(after[i].startAt), Stamp(after[i].endAt), Stamp(after[j].startAt), Stamp(after[j].endAt))
    {
      if j == |rows| {
        assert after[i] == rows[i] && after[j] == a;
        assert !ConflictsWith(a.staffId, a.startAt, a.endAt, None)(rows[i]);
      } else {
        assert after[i] == rows[i] && after[j] == rows[j];
      }
    }
  }

  // ---------------------------------------------------------------------
  // Create, get, cancel
  // ---------------------------------------------------------------------

  /**
   * The row `create_appointment` adds: the body's fields, with the status
   * and the reminder flag at their column defaults. The organisation is the
   * one named in the body, not the caller's.
   */
  function NewAppointment(id: Id, body: AppointmentCreate, now: Moment): (r: Appointment)
    ensures r.id == id && r.organizationId == body.organizationId && r.status == APPT_SCHEDULED
    ensures r.clientId == body.clientId && r.staffId == body.staffId && r.transportStaffId == body.transportStaffId
    ensures r.startAt == body.startAt && r.endAt == body.endAt && r.notes == body.notes
  {
    Appointment(id, body.organizationId, body.clientId, body.staffId, body.appointmentType, body.title,
                body.description, body.location, body.startAt, body.endAt, APPT_SCHEDULED, body.requiresTransport,
                body.transportStaffId, body.notes, now)
  }

  /** `create_appointment`. */
  method CreateAppointment(db: Db, c: Caller, body: AppointmentCreate, now: Moment) returns (r: Result<Appointment>)
    modifies db`appointments
    ensures !ClientInOrg(db.clients, body.clientId, c.organizationId)
            ==> r == Err(NOT_FOUND, CLIENT_NOT_FOUND) && db.appointments == old(db.appointments)
    ensures ClientInOrg(db.clients, body.clientId, c.organizationId) && !StaffInOrg(db.staff, body.staffId, c.organizationId)
            ==> r == Err(NOT_FOUND, STAFF_NOT_FOUND) && db.appointments == old(db.appointments)
    ensures ClientInOrg(db.clients, body.clientId, c.organizationId) && StaffInOrg(db.staff, body.staffId, c.organizationId)
            && body.transportStaffId.Some? && !StaffInOrg(db.staff, body.transportStaffId.value, c.organizationId)
            ==> r == Err(NOT_FOUND, TRANSPORT_NOT_FOUND) && db.appointments == old(db.appointments)
    ensures r.Err? && r.status == BAD_REQUEST
            <==> ClientInOrg(db.clients, body.clientId, c.organizationId) && StaffInOrg(db.staff, body.staffId, c.organizationId)
                 && (body.transportStaffId.None? || StaffInOrg(db.staff, body.transportStaffId.value, c.organizationId))
                 && HasConflict(old(db.appointments), body.staffId, body.startAt, body.endAt, None)
    ensures r.Err? && r.status == BAD_REQUEST ==> r.detail == CONFLICTING && db.appointments == old(db.appointments)
    ensures r.Ok? ==> r.value == NewAppointment(NextKey(old(db.appointments), AppointmentIdOf), body, now)
                      && db.appointments == old(db.appointments) + [r.value]
                      && !HasConflict(old(db.appointments), body.staffId, body.startAt, body.endAt, None)
  {
    if FindClient(db.clients, body.clientId, c.organizationId).None? {
      return Err(NOT_FOUND, CLIENT_NOT_FOUND);
    }
    FindStaffIffInOrg(db.staff, body.staffId, c.organizationId);
    if FindStaff(db.staff, body.staffId, c.organizationId).None? {
      return Err(NOT_FOUND, STAFF_NOT_FOUND);
    }
    if body.transportStaffId.Some? {
      FindStaffIffInOrg(db.staff, body.transportStaffId.value, c.organizationId);
      if FindStaff(db.staff, body.transportStaffId.value, c.organizationId).None? {
        return Err(NOT_FOUND, TRANSPORT_NOT_FOUND);
      }
    }
    if FirstMatch(db.appointments, ConflictsWith(body.staffId, body.startAt, body.endAt, None)).Some? {
      return Err(BAD_REQUEST, CONFLICTING);
    }
    var a := NewAppointment(NextKey(db.appointments, AppointmentIdOf), body, now);
    db.appointments := db.appointments + [a];
    r := Ok(a);
  }

  /**
   * The body names the organisation the appointment is filed under, and
   * nothing compares it with the caller's: with the client and staff
   * member in the caller's organisation, the new appointment can belong to
   * another one, where the caller's own lists never show it.
   */
  lemma CreatedUnderBodyOrganisation(id: Id, body: AppointmentCreate, now: Moment, c: Caller)
    requires Some(body.organizationId) != c.organizationId
    ensures Some(NewAppointment(id, body, now).organizationId) != c.organizationId
  {
  }

  function AppointmentKey(id: Id, org: Option<Id>): Appointment -> bool
  {
    (a: Appointment) => a.id == id && Some(a.organizationId) == org
  }

  /** `get_appointment`. */
  function GetAppointment(rows: seq<Appointment>, c: Caller, id: Id): (r: Result<Appointment>)
    ensures r.Err? <==> forall k :: 0 <= k < |rows| ==> !AppointmentKey(id, c.organizationId)(rows[k])
    ensures r.Err? ==> r == Err(NOT_FOUND, APPOINTMENT_NOT_FOUND)
    ensures r.Ok? ==> r.value in rows && r.value.id == id && Some(r.value.organizationId) == c.organizationId
  {
    var i := FirstMatch(rows, AppointmentKey(id, c.organizationId));
    if i.None? then Err(NOT_FOUND, APPOINTMENT_NOT_FOUND) else Ok(rows[i.value])
  }

  /**
   * The cancelled appointment: CANCELLED, `updated_at` stamped and, when a
   * non-empty reason is given, the remark appended to the notes; nothing
   * else changes.
   */
  function Cancelled(a: Appointment, reason: Option<string>, now: Moment): (r: Appointment)
    ensures r.status == APPT_CANCELLED && r.updatedAt == now
    ensures r.(status := a.status, notes := a.notes, updatedAt := a.updatedAt) == a
    ensures !Truthy(reason) ==> r.notes == a.notes
  {
    a.(status := APPT_CANCELLED,
       notes := if Truthy(reason) then Some(AppendNote(a.notes, CancelRemark(reason.value))) else a.notes,
       updatedAt := now)
  }

  /** A reason with no whitespace at its end is recorded at the end of the notes. */
  lemma CancelRecordsReason(a: Appointment, reason: string, now: Moment)
    requires reason != "" && !IsSpace(reason[|reason| - 1])
    ensures Cancelled(a, Some(reason), now).notes.Some?
    ensures EndsWith(Cancelled(a, Some(reason), now).notes.value, CancelRemark(reason))
  {
    var line := CancelRemark(reason);
    assert line[0] == 'C' && line[|line| - 1] == reason[|reason| - 1];
    AppendNoteEndsWithLine(a.notes, line);
  }

  /** A cancelled appointment no longer blocks its staff member's time. */
  lemma CancelledNeverConflicts(a: Appointment, reason: Option<string>, now: Moment, staffId: Id, start: Moment,
                                end: Moment, except: Option<Id>)
    ensures !ConflictsWith(staffId, start, end, except)(Cancelled(a, reason, now))
  {
  }

  /** `cancel_appointment`. */
  method CancelAppointment(db: Db, c: Caller, id: Id, reason: Option<string>, now: Moment) returns (r: Result<string>)
    modifies db`appointments
    ensures FirstMatch(old(db.appointments), AppointmentKey(id, c.organizationId)).None?
            ==> r == Err(NOT_FOUND, APPOINTMENT_NOT_FOUND) && db.appointments == old(db.appointments)
    ensures FirstMatch(old(db.appointments), AppointmentKey(id, c.organizationId)).Some?
            ==> var i := FirstMatch(old(db.appointments), AppointmentKey(id, c.organizationId)).value;
                (old(db.appointments)[i].status == APPT_CANCELLED
                 ==> r == Err(BAD_REQUEST, "Appointment is already cancelled") && db.appointments == old(db.appointments))
                && (old(db.appointments)[i].status != APPT_CANCELLED
                    ==> r == Ok("Appointment cancelled successfully")
                        && db.appointments == old(db.appointments)[i := Cancelled(old(db.appointments)[i], reason, now)])
  {
    var i := FirstMatch(db.appointments, AppointmentKey(id, c.organizationId));
    if i.None? {
      return Err(NOT_FOUND, APPOINTMENT_NOT_FOUND);
    }
    if db.appointments[i.value].status == APPT_CANCELLED {
      return Err(BAD_REQUEST, "Appointment is already cancelled");
    }
    db.appointments := db.appointments[i.value := Cancelled(db.appointments[i.value], reason, now)];
    r := Ok("Appointment cancelled successfully");
  }

  /** A second cancellation of the same appointment is refused. */
  lemma CancelTwiceRefused(rows: seq<Appointment>, c: Caller, id: Id, reason: Option<string>, now: Moment)
    requires FirstMatch(rows, AppointmentKey(id, c.organizationId)).Some?
    ensures var i := FirstMatch(rows, AppointmentKey(id, c.organizationId)).value;
            var after := rows[i := Cancelled(rows[i], reason, now)];
            FirstMatch(after, AppointmentKey(id, c.organizationId)) == Some(i)
            && after[i].status == APPT_CANCELLED
  {
    var i := FirstMatch(rows, AppointmentKey(id, c.organizationId)).value;
    var after := rows[i := Cancelled(rows[i], reason, now)];
    assert AppointmentKey(id, c.organizationId)(after[i]);
    assert forall k :: 0 <= k < i ==> after[k] == rows[k];
  }

  // ---------------------------------------------------------------------
  // Update
  // ---------------------------------------------------------------------

  /** The value of a field after an update: the one sent, or the stored one. */
  function Sent<T>(sent: Option<T>, stored: T): (r: T)
    ensures sent.Some? ==> r == sent.value
    ensures sent.None? ==> r == stored
  {
    if sent.Some? then sent.value else stored
  }

  /** `setattr` of every field sent; `updated_at` is stamped; the keys and the parties stay. */
  function ApplyAppointmentUpdate(a: Appointment, u: AppointmentUpdate, now: Moment): (r: Appointment)
    ensures r.id == a.id && r.organizationId == a.organizationId && r.clientId == a.clientId && r.staffId == a.staffId
    ensures r.startAt == Sent(u.startAt, a.startAt) && r.endAt == Sent(u.endAt, a.endAt)
    ensures r.status == Sent(u.status, a.status) && r.updatedAt == now
  {
    a.(appointmentType := Sent(u.appointmentType, a.appointmentType),
       title := Sent(u.title, a.title),
       description := if u.description.Some? then u.description else a.description,
       location := if u.location.Some? then u.location else a.location,
       startAt := Sent(u.startAt, a.startAt),
       endAt := Sent(u.endAt, a.endAt),
       status := Sent(u.status, a.status),
       requiresTransport := Sent(u.requiresTransport, a.requiresTransport),
       transportStaffId := if u.transportStaffId.Some? then u.transportStaffId else a.transportStaffId,
       notes := if u.notes.Some? then u.notes else a.notes,
       updatedAt := now)
  }

  /**
   * The update as written: the handler reads `staff_id` from the update
   * body, which declares no such field, so every update of an appointment
   * that was found raises before anything is written and the catch-all
   * handler answers 500.
   */
  function UpdateAppointmentAsWritten(rows: seq<Appointment>, c: Caller, id: Id): (r: Result<Appointment>)
    ensures r.Err? && r.status == NOT_FOUND <==> forall k :: 0 <= k < |rows| ==> !AppointmentKey(id, c.organizationId)(rows[k])
  {
    var i := FirstMatch(rows, AppointmentKey(id, c.organizationId));
    if i.None? then Err(NOT_FOUND, APPOINTMENT_NOT_FOUND) else Err(INTERNAL_ERROR, UNHANDLED)
  }

  /** As written, no update ever succeeds: a found appointment always ends in 500. */
  lemma NoUpdateSucceedsAsWritten(rows: seq<Appointment>, c: Caller, id: Id, k: nat)
    requires k < |rows| && rows[k].id == id && Some(rows[k].organizationId) == c.organizationId
    ensures UpdateAppointmentAsWritten(rows, c, id) == Err(INTERNAL_ERROR, UNHANDLED)
  {
    assert AppointmentKey(id, c.organizationId)(rows[k]);
  }

  /**
   * `update_appointment` with the staff member read from the appointment
   * (the body cannot change it): when a start or an end is sent, the merged
   * times are checked against the staff member's other live appointments.
   */
  method UpdateAppointment(db: Db, c: Caller, id: Id, u: AppointmentUpdate, now: Moment) returns (r: Result<Appointment>)
    modifies db`appointments
    ensures FirstMatch(old(db.appointments), AppointmentKey(id, c.organizationId)).None?
            ==> r == Err(NOT_FOUND, APPOINTMENT_NOT_FOUND) && db.appointments == old(db.appointments)
    ensures FirstMatch(old(db.appointments), AppointmentKey(id, c.organizationId)).Some?
            ==> var i := FirstMatch(old(db.appointments), AppointmentKey(id, c.organizationId)).value;
                var a := old(db.appointments)[i];
                var merged := ApplyAppointmentUpdate(a, u, now);
                var checked := (u.startAt.Some? || u.endAt.Some?)
                               && HasConflict(old(db.appointments), a.staffId, merged.startAt, merged.endAt, Some(id));
                (checked ==> r == Err(BAD_REQUEST, CONFLICTING) && db.appointments == old(db.appointments))
                && (!checked ==> r == Ok(merged) && db.appointments == old(db.appointments)[i := merged])
  {
    var i := FirstMatch(db.appointments, AppointmentKey(id, c.organizationId));
    if i.None? {
      return Err(NOT_FOUND, APPOINTMENT_NOT_FOUND);
    }
    var a := db.appointments[i.value];
    var merged := ApplyAppointmentUpdate(a, u, now);
    if u.startAt.Some? || u.endAt.Some? {
      if FirstMatch(db.appointments, ConflictsWith(a.staffId, merged.startAt, merged.endAt, Some(id))).Some? {
        return Err(BAD_REQUEST, CONFLICTING);
      }
    }
    db.appointments := db.appointments[i.value := merged];
    r := Ok(merged);
  }

  /**
   * A time change the check lets through keeps the table free of double
   * bookings: the appointment itself is the only row excluded, and keys
   * are unique.
   */
  lemma TimeChangeKeepsNoDoubleBooking(rows: seq<Appointment>, i: nat, b: Appointment)
    requires i < |rows| && NoDoubleBooking(rows) && KeysUnique(rows, AppointmentIdOf)
    requires b.id == rows[i].id && b.staffId == rows[i].staffId
    requires !HasConflict(rows, b.staffId, b.startAt, b.endAt, Some(b.id))
    ensures NoDoubleBooking(rows[i := b])
  {
    var after := rows[i := b];
    forall p, q | 0 <= p < q < |after| && after[p].staffId == after[q].staffId
                  && after[p].status != APPT_CANCELLED && after[q].status != APPT_CANCELLED
      ensures !Overlaps(Stamp(after[p].startAt), Stamp(after[p].endAt), Stamp(after[q].startAt), Stamp(after[q].endAt))
    {
      if p == i {
        assert AppointmentIdOf(rows[q]) != AppointmentIdOf(rows[i]);
        assert !ConflictsWith(b.staffId, b.startAt, b.endAt, Some(b.id))(rows[q]);
      } else if q == i {
        assert AppointmentIdOf(rows[p]) != AppointmentIdOf(rows[i]);
        assert !ConflictsWith(b.staffId, b.startAt, b.endAt, Some(b.id))(rows[p]);
      } else {
        assert after[p] == rows[p] && after[q] == rows[q];
      }
    }
  }

  // ---------------------------------------------------------------------
  // Lists
  // ---------------------------------------------------------------------

  predicate IsSupportStaff(c: Caller)
  {
    c.roleName == Some(SUPPORT_STAFF)
  }

  function StaffOfUser(userId: Id): Staff -> bool
  {
    (s: Staff) => s.userId == userId
  }

  /** The caller's own staff record: the first one linked to their user, in any organisation. */
  function OwnStaffId(staff: seq<Staff>, c: Caller): (r: Option<Id>)
    ensures r.Some? <==> exists k :: 0 <= k < |staff| && staff[k].userId == c.id
  {
    var i := FirstMatch(staff, StaffOfUser(c.id));
    if i.None? then None
    else
      assert StaffOfUser(c.id)(staff[i.value]);
      Some(staff[i.value].id)
  }

  /** From `start_date` at midnight through `end_date` at its last second. */
  predicate WithinDates(a: Appointment, startDate: Option<Day>, endDate: Option<Day>)
  {
    (startDate.None? || Stamp(a.startAt) >= Stamp(Combine(startDate.value, 0)))
    && (endDate.None? || Stamp(a.endAt) <= Stamp(Combine(endDate.value, SECONDS_PER_DAY - 1)))
  }

  /** The filters of `get_appointments`; a Support Staff caller's `staff_id` filter is ignored. */
  function AppointmentListed(staff: seq<Staff>, c: Caller, clientId: Option<Id>, staffId: Option<Id>,
                             kind: Option<AppointmentType>, status: Option<AppointmentStatus>,
                             startDate: Option<Day>, endDate: Option<Day>): Appointment -> bool
  {
    var own := OwnStaffId(staff, c);
    (a: Appointment) =>
      Some(a.organizationId) == c.organizationId
      && (IsSupportStaff(c) ==> own.Some? && a.staffId == own.value)
      && (clientId.None? || a.clientId == clientId.value)
      && (IsSupportStaff(c) || staffId.None? || a.staffId == staffId.value)
      && (kind.None? || a.appointmentType == kind.value)
      && (status.None? || a.status == status.value)
      && WithinDates(a, startDate, endDate)
  }

  function StartStamp(a: Appointment): int
  {
    Stamp(a.startAt)
  }

  /** A listed appointment with the names shown beside it. */
  datatype ListedAppointment = ListedAppointment(appointment: Appointment, clientName: string, staffName: string)

  function ClientById(id: Id): Client -> bool
  {
    (x: Client) => x.id == id
  }

  function ClientName(clients: seq<Client>, id: Id): (r: string)
    ensures (forall k :: 0 <= k < |clients| ==> clients[k].id != id) ==> r == "Unknown"
  {
    var i := FirstMatch(clients, ClientById(id));
    if i.None? then "Unknown" else ClientModel.FullName(clients[i.value])
  }

  function UserNamed(id: Id): UserRecord -> bool
  {
    (u: UserRecord) => u.id == id
  }

  function NameOfUser(users: seq<UserRecord>, userId: Id): string
  {
    var i := FirstMatch(users, UserNamed(userId));
    if i.None? then "Unknown" else users[i.value].name.firstName + " " + users[i.value].name.lastName
  }

  /**
   * The staff name as written: the user whose key equals the appointment's
   * staff key, a key of another table.
   */
  function StaffNameAsWritten(users: seq<UserRecord>, a: Appointment): (r: string)
    ensures (forall k :: 0 <= k < |users| ==> users[k].id != a.staffId) ==> r == "Unknown"
  {
    NameOfUser(users, a.staffId)
  }

  function StaffById(id: Id): Staff -> bool
  {
    (s: Staff) => s.id == id
  }

  /** The staff name through the staff record's user. */
  function StaffName(staff: seq<Staff>, users: seq<UserRecord>, a: Appointment): (r: string)
    ensures (forall k :: 0 <= k < |staff| ==> staff[k].id != a.staffId) ==> r == "Unknown"
  {
    var i := FirstMatch(staff, StaffById(a.staffId));
    if i.None? then "Unknown" else NameOfUser(users, staff[i.value].userId)
  }

  /**
   * A staff member whose user has another key is shown as "Unknown" as
   * written, and by name through the staff record.
   */
  lemma StaffNameLookup(s: Staff, u: UserRecord, a: Appointment)
    requires a.staffId == s.id && s.userId == u.id && u.id != s.id
    ensures StaffNameAsWritten([u], a) == "Unknown"
    ensures StaffName([s], [u], a) == u.name.firstName + " " + u.name.lastName
  {
    assert StaffById(a.staffId)(s);
    assert UserNamed(s.userId)(u);
  }

  function Listed(clients: seq<Client>, staff: seq<Staff>, users: seq<UserRecord>): Appointment -> ListedAppointment
  {
    (a: Appointment) => ListedAppointment(a, ClientName(clients, a.clientId), StaffName(staff, users, a))
  }

  /** One page of the rows satisfying `p`, earliest start first. */
  function EarliestFirstPage(rows: seq<Appointment>, p: Appointment -> bool, skip: nat, limit: nat): (r: Page<Appointment>)
    requires limit > 0
    ensures r.total == Count(rows, p) && r.page == PageOf(skip, limit) && r.pages == PageCount(r.total, limit)
    ensures r.size == limit && |r.items| <= limit
    ensures forall k :: 0 <= k < |r.items| ==> r.items[k] in rows && p(r.items[k])
    ensures forall k :: 0 < k < |r.items| ==> Stamp(r.items[k - 1].startAt) <= Stamp(r.items[k].startAt)
    ensures r.items == Window(SelectAsc(rows, p, StartStamp), skip, limit)
  {
    SortedPage(rows, p, StartStamp, skip, limit);
    Paginate(SelectAsc(rows, p, StartStamp), skip, limit)
  }

  /** `get_appointments`: one page of the matching appointments, earliest start first. */
  function ListAppointments(db_staff: seq<Staff>, users: seq<UserRecord>, clients: seq<Client>, rows: seq<Appointment>,
                            c: Caller, skip: int, limit: int, clientId: Option<Id>, staffId: Option<Id>,
                            kind: Option<AppointmentType>, status: Option<AppointmentStatus>,
                            startDate: Option<Day>, endDate: Option<Day>): (r: Result<Page<ListedAppointment>>)
    ensures r.Err? <==> !PagingValid(skip, limit)
    ensures r.Err? ==> r.status == UNPROCESSABLE
    ensures r.Ok? ==> r.value.total == Count(rows, AppointmentListed(db_staff, c, clientId, staffId, kind, status, startDate, endDate))
    ensures r.Ok? ==> r.value.page == PageOf(skip, limit) && r.value.pages == PageCount(r.value.total, limit)
    ensures r.Ok? ==> |r.value.items| <= limit
    ensures r.Ok? ==> forall k :: 0 <= k < |r.value.items| ==>
      r.value.items[k].appointment in rows
      && AppointmentListed(db_staff, c, clientId, staffId, kind, status, startDate, endDate)(r.value.items[k].appointment)
    ensures r.Ok? ==> forall k :: 0 < k < |r.value.items| ==>
      Stamp(r.value.items[k - 1].appointment.startAt) <= Stamp(r.value.items[k].appointment.startAt)
    ensures r.Ok? ==> r.value.items == MapSeq(Window(SelectAsc(rows, AppointmentListed(db_staff, c, clientId, staffId, kind, status,
                                                                                 startDate, endDate), StartStamp),
                                                     skip, limit), Listed(clients, db_staff, users))
  {
    if !PagingValid(skip, limit) then Err(UNPROCESSABLE, "Input should be within the allowed range")
    else
      var page := EarliestFirstPage(rows, AppointmentListed(db_staff, c, clientId, staffId, kind, status, startDate, endDate),
                                    skip, limit);
      Ok(Page(MapSeq(page.items, Listed(clients, db_staff, users)), page.total, page.page, page.size, page.pages))
  }

  /**
   * A Support Staff caller sees only appointments of their own staff
   * record, none without one, and whatever `staff_id` they pass.
   */
  lemma SupportStaffSeesOnlyTheirOwn(staff: seq<Staff>, c: Caller, clientId: Option<Id>, staffId: Option<Id>,
                                     kind: Option<AppointmentType>, status: Option<AppointmentStatus>,
                                     startDate: Option<Day>, endDate: Option<Day>, a: Appointment)
    requires IsSupportStaff(c)
    ensures AppointmentListed(staff, c, clientId, staffId, kind, status, startDate, endDate)(a)
            ==> OwnStaffId(staff, c).Some? && a.staffId == OwnStaffId(staff, c).value
    ensures OwnStaffId(staff, c).None? ==> !AppointmentListed(staff, c, clientId, staffId, kind, status, startDate, endDate)(a)
    ensures AppointmentListed(staff, c, clientId, staffId, kind, status, startDate, endDate)(a)
            == AppointmentListed(staff, c, clientId, None, kind, status, startDate, endDate)(a)
  {
  }

  /** Any other caller's `staff_id` filter keeps only that staff member's appointments. */
  lemma OtherCallersFilterByStaff(staff: seq<Staff>, c: Caller, clientId: Option<Id>, staffId: Id,
                                  kind: Option<AppointmentType>, status: Option<AppointmentStatus>,
                                  startDate: Option<Day>, endDate: Option<Day>, a: Appointment)
    requires !IsSupportStaff(c)
    ensures AppointmentListed(staff, c, clientId, Some(staffId), kind, status, startDate, endDate)(a)
            <==> AppointmentListed(staff, c, clientId, None, kind, status, startDate, endDate)(a) && a.staffId == staffId
  {
  }

  function ClientAppointmentListed(clientId: Id, org: Option<Id>, startDate: Option<Day>, endDate: Option<Day>,
                                   status: Option<AppointmentStatus>): Appointment -> bool
  {
    (a: Appointment) =>
      a.clientId == clientId && Some(a.organizationId) == org && WithinDates(a, startDate, endDate)
      && (status.None? || a.status == status.value)
  }

  /** `get_client_appointments`: at most `limit` (1 to 100, default 50) of the client's appointments, earliest first. */
  function ListClientAppointments(clients: seq<Client>, rows: seq<Appointment>, c: Caller, clientId: Id,
                                  startDate: Option<Day>, endDate: Option<Day>, status: Option<AppointmentStatus>,
                                  limit: int): (r: Result<seq<Appointment>>)
    ensures r.Err? <==> !(1 <= limit <= 100) || !ClientInOrg(clients, clientId, c.organizationId)
    ensures r.Err? && 1 <= limit <= 100 ==> r == Err(NOT_FOUND, CLIENT_NOT_FOUND)
    ensures r.Ok? ==> |r.value| == if Count(rows, ClientAppointmentListed(clientId, c.organizationId, startDate, endDate, status)) < limit
                                   then Count(rows, ClientAppointmentListed(clientId, c.organizationId, startDate, endDate, status))
                                   else limit
    ensures r.Ok? ==> SortedAsc(r.value, StartStamp)
    ensures r.Ok? ==> forall k :: 0 <= k < |r.value| ==>
      r.value[k] in rows && ClientAppointmentListed(clientId, c.organizationId, startDate, endDate, status)(r.value[k])
    ensures r.Ok? ==> forall x, k ::
              x in rows && ClientAppointmentListed(clientId, c.organizationId, startDate, endDate, status)(x)
                && x !in r.value && 0 <= k < |r.value|
              ==> StartStamp(r.value[k]) <= StartStamp(x)
    ensures r.Ok? && |r.value| < limit ==>
              forall x :: x in rows && ClientAppointmentListed(clientId, c.organizationId, startDate, endDate, status)(x) ==> x in r.value
  {
    if !(1 <= limit <= 100) then Err(UNPROCESSABLE, "Input should be within the allowed range")
    else if FindClient(clients, clientId, c.organizationId).None? then Err(NOT_FOUND, CLIENT_NOT_FOUND)
    else
      var ordered := SelectAsc(rows, ClientAppointmentListed(clientId, c.organizationId, startDate, endDate, status), StartStamp);
      LeadOfSelectAsc(rows, ClientAppointmentListed(clientId, c.organizationId, startDate, endDate, status), StartStamp, limit);
      TakeSelectAscKeepsEarliest(rows, ClientAppointmentListed(clientId, c.organizationId, startDate, endDate, status),
                                 StartStamp, limit);
      Ok(Take(ordered, limit))
  }

  // ---------------------------------------------------------------------
  // Recurrences
  // ---------------------------------------------------------------------

  /** The row `create_recurring_appointment` adds; `is_active` takes its default, true. */
  function NewRecurring(id: Id, body: RecurringCreate, now: Moment): (r: RecurringAppointment)
    ensures r.id == id && r.isActive && r.organizationId == body.organizationId
    ensures r.pattern == body.pattern && r.startDate == body.startDate && r.endDate == body.endDate
    ensures r.maxOccurrences == body.maxOccurrences && r.durationMinutes == body.durationMinutes
  {
    RecurringAppointment(id, body.organizationId, body.clientId, body.staffId, body.appointmentType, body.title,
                         body.description, body.location, body.startTime, body.durationMinutes, body.pattern,
                         body.recurrenceDays, body.startDate, body.endDate, body.maxOccurrences, true, now)
  }

  /** `create_recurring_appointment`. */
  method CreateRecurring(db: Db, c: Caller, body: RecurringCreate, now: Moment) returns (r: Result<RecurringAppointment>)
    modifies db`recurring
    ensures !ClientInOrg(db.clients, body.clientId, c.organizationId)
            ==> r == Err(NOT_FOUND, CLIENT_NOT_FOUND) && db.recurring == old(db.recurring)
    ensures ClientInOrg(db.clients, body.clientId, c.organizationId) && !StaffInOrg(db.staff, body.staffId, c.organizationId)
            ==> r == Err(NOT_FOUND, STAFF_NOT_FOUND) && db.recurring == old(db.recurring)
    ensures r.Ok? <==> ClientInOrg(db.clients, body.clientId, c.organizationId) && StaffInOrg(db.staff, body.staffId, c.organizationId)
    ensures r.Ok? ==> r.value == NewRecurring(NextKey(old(db.recurring), RecurringIdOf), body, now)
                      && db.recurring == old(db.recurring) + [r.value]
  {
    if FindClient(db.clients, body.clientId, c.organizationId).None? {
      return Err(NOT_FOUND, CLIENT_NOT_FOUND);
    }
    FindStaffIffInOrg(db.staff, body.staffId, c.organizationId);
    if FindStaff(db.staff, body.staffId, c.organizationId).None? {
      return Err(NOT_FOUND, STAFF_NOT_FOUND);
    }
    var x := NewRecurring(NextKey(db.recurring, RecurringIdOf), body, now);
    db.recurring := db.recurring + [x];
    r := Ok(x);
  }

  function RecurringListed(org: Option<Id>, clientId: Option<Id>, staffId: Option<Id>, activeOnly: bool)
    : RecurringAppointment -> bool
  {
    (x: RecurringAppointment) =>
      Some(x.organizationId) == org && (clientId.None? || x.clientId == clientId.value)
      && (staffId.None? || x.staffId == staffId.value) && (!activeOnly || x.isActive)
  }

  /** `get_recurring_appointments` (`active_only` defaults to true), in table order. */
  function ListRecurring(rows: seq<RecurringAppointment>, c: Caller, clientId: Option<Id>, staffId: Option<Id>,
                         activeOnly: bool): (r: seq<RecurringAppointment>)
    ensures forall x :: x in r <==> x in rows && RecurringListed(c.organizationId, clientId, staffId, activeOnly)(x)
  {
    Filter(rows, RecurringListed(c.organizationId, clientId, staffId, activeOnly))
  }

  /** `setattr` of every field sent; `updated_at` is stamped; the keys and the parties stay. */
  function ApplyRecurringUpdate(x: RecurringAppointment, u: RecurringUpdate, now: Moment): (r: RecurringAppointment)
    ensures r.id == x.id && r.organizationId == x.organizationId && r.clientId == x.clientId && r.staffId == x.staffId
    ensures r.isActive == Sent(u.isActive, x.isActive) && r.pattern == Sent(u.pattern, x.pattern)
    ensures r.startDate == Sent(u.startDate, x.startDate) && r.updatedAt == now
  {
    x.(appointmentType := Sent(u.appointmentType, x.appointmentType),
       title := Sent(u.title, x.title),
       description := if u.description.Some? then u.description else x.description,
       location := if u.location.Some? then u.location else x.location,
       startTime := Sent(u.startTime, x.startTime),
       durationMinutes := Sent(u.durationMinutes, x.durationMinutes),
       pattern := Sent(u.pattern, x.pattern),
       recurrenceDays := if u.recurrenceDays.Some? then u.recurrenceDays else x.recurrenceDays,
       startDate := Sent(u.startDate, x.startDate),
       endDate := if u.endDate.Some? then u.endDate else x.endDate,
       maxOccurrences := if u.maxOccurrences.Some? then u.maxOccurrences else x.maxOccurrences,
       isActive := Sent(u.isActive, x.isActive),
       updatedAt := now)
  }

  function RecurringKey(id: Id, org: Option<Id>): RecurringAppointment -> bool
  {
    (x: RecurringAppointment) => x.id == id && Some(x.organizationId) == org
  }

  /** `update_recurring_appointment`. */
  method UpdateRecurring(db: Db, c: Caller, id: Id, u: RecurringUpdate, now: Moment) returns (r: Result<RecurringAppointment>)
    modifies db`recurring
    ensures FirstMatch(old(db.recurring), RecurringKey(id, c.organizationId)).None?
            ==> r == Err(NOT_FOUND, RECURRING_NOT_FOUND) && db.recurring == old(db.recurring)
    ensures FirstMatch(old(db.recurring), RecurringKey(id, c.organizationId)).Some?
            ==> var i := FirstMatch(old(db.recurring), RecurringKey(id, c.organizationId)).value;
                r == Ok(ApplyRecurringUpdate(old(db.recurring)[i], u, now))
                && db.recurring == old(db.recurring)[i := r.value]
  {
    var i := FirstMatch(db.recurring, RecurringKey(id, c.organizationId));
    if i.None? {
      return Err(NOT_FOUND, RECURRING_NOT_FOUND);
    }
    var x := ApplyRecurringUpdate(db.recurring[i.value], u, now);
    db.recurring := db.recurring[i.value := x];
    r := Ok(x);
  }

  // ---------------------------------------------------------------------
  // Generating appointments from a recurrence
  // ---------------------------------------------------------------------

  /** `recurring.max_occurrences or 1000`: an unset (or zero) cap means 1000. */
  function Cap(rec: RecurringAppointment): (r: int)
    ensures rec.maxOccurrences.None? ==> r == 1000
    ensures rec.maxOccurrences.Some? && rec.maxOccurrences.value > 0 ==> r == rec.maxOccurrences.value
  {
    if rec.maxOccurrences.Some? && rec.maxOccurrences.value != 0 then rec.maxOccurrences.value else 1000
  }

  function LaterDay(a: Day, b: Day): (r: Day)
    ensures DayNumber(r) >= DayNumber(a) && DayNumber(r) >= DayNumber(b) && (r == a || r == b)
  {
    if DayNumber(a) >= DayNumber(b) then a else b
  }

  function EarlierDay(a: Day, b: Day): (r: Day)
    ensures DayNumber(r) <= DayNumber(a) && DayNumber(r) <= DayNumber(b) && (r == a || r == b)
  {
    if DayNumber(a) <= DayNumber(b) then a else b
  }

  /** The first day generated from: the later of the requested start and the recurrence's start. */
  function WindowStart(rec: RecurringAppointment, startDate: Day): Day
  {
    LaterDay(startDate, rec.startDate)
  }

  /** The last day: the requested end, or the recurrence's end when it is set and earlier. */
  function WindowEnd(rec: RecurringAppointment, endDate: Day): Day
  {
    if rec.endDate.Some? then EarlierDay(endDate, rec.endDate.value) else endDate
  }

  /**
   * Whether the pattern asks for an appointment on day `d`: DAILY always,
   * WEEKLY on the listed ISO weekdays (none when the list is empty or
   * unset), MONTHLY on the day of the month the recurrence started on,
   * CUSTOM never.
   */
  predicate Due(rec: RecurringAppointment, d: Day)
  {
    match rec.pattern
    case DAILY => true
    case WEEKLY => rec.recurrenceDays.Some? && IsoWeekday(d) in rec.recurrenceDays.value
    case MONTHLY => d.day == rec.startDate.day
    case CUSTOM => false
  }

  /** The start of the occurrence on day `d`: the recurrence's time of day on that date. */
  function OccurrenceStart(rec: RecurringAppointment, d: Day): Moment
  {
    Combine(d, rec.startTime)
  }

  /** The existence check: an appointment of the same client and staff member starting at that moment. */
  function SameSlot(rec: RecurringAppointment, start: Moment): Appointment -> bool
  {
    (a: Appointment) => a.clientId == rec.clientId && a.staffId == rec.staffId && a.startAt == start
  }

  predicate AlreadyBooked(committed: seq<Appointment>, rec: RecurringAppointment, d: Day)
  {
    exists k :: 0 <= k < |committed| && SameSlot(rec, OccurrenceStart(rec, d))(committed[k])
  }

  /**
   * The appointment generated for day `d`: MEDICAL, the recurrence's title,
   * description and location, lasting `duration_minutes`, with a note
   * naming the recurrence.
   */
  function Occurrence(rec: RecurringAppointment, d: Day, id: Id, now: Moment): (r: Appointment)
    ensures r.startAt == OccurrenceStart(rec, d) && r.startAt.date == d
    ensures Stamp(r.endAt) == Stamp(r.startAt) + 60 * rec.durationMinutes
    ensures r.id == id && r.clientId == rec.clientId && r.staffId == rec.staffId && r.organizationId == rec.organizationId
    ensures r.appointmentType == MEDICAL && r.status == APPT_SCHEDULED && r.notes == Some(GENERATED_NOTE + rec.title)
  {
    var start := OccurrenceStart(rec, d);
    Appointment(id, rec.organizationId, rec.clientId, rec.staffId, MEDICAL, rec.title, rec.description, rec.location,
                start, AddSeconds(start, 60 * rec.durationMinutes), APPT_SCHEDULED, false, None,
                Some(GENERATED_NOTE + rec.title), now)
  }

  /** The same day one calendar month later (`d.replace(month=...)`); None where that month lacks the day. */
  function NextMonthSameDay(d: Day): (r: Option<Day>)
    ensures r.Some? ==> DayNumber(r.value) > DayNumber(d) && r.value.day == d.day
    ensures r.None? <==> (if d.month == 12 then d.day > DaysInMonth(d.year + 1, 1) else d.day > DaysInMonth(d.year, d.month + 1))
  {
    if d.month == 12 then
      DaysBeforeNextYear(d.year);
      DecemberEndsYear(d.year);
      var r: Day := Date(d.year + 1, 1, d.day);
      Some(r)
    else if d.day <= DaysInMonth(d.year, d.month + 1) then
      var r: Day := Date(d.year, d.month + 1, d.day);
      Some(r)
    else None
  }

  /** How the loop moves to its next date. */
  datatype Stepping =
    | MonthByMonth   // as written: MONTHLY moves one calendar month, the other patterns one day
    | DayByDay       // every pattern moves one day

  /** The loop's next date, or None where computing it raises. */
  function Next(rec: RecurringAppointment, d: Day, stepping: Stepping): (r: Option<Day>)
    ensures r.Some? ==> DayNumber(r.value) > DayNumber(d)
    ensures stepping == DayByDay ==> var n: Day := NextDay(d); r == Some(n)
  {
    if stepping == MonthByMonth && rec.pattern == MONTHLY then NextMonthSameDay(d)
    else
      var n: Day := NextDay(d);
      Some(n)
  }

  /**
   * The generation loop from day `d` on, having created `made` so far:
   * it stops past the window's last day, once the cap is reached, or at
   * once for CUSTOM; on a due day not already booked it creates the
   * occurrence under the next key; a step that raises fails the whole
   * generation.
   */
  function Run(rec: RecurringAppointment, committed: seq<Appointment>, d: Day, end: Day, stepping: Stepping,
               made: seq<Appointment>, firstId: Id, now: Moment): (r: Result<seq<Appointment>>)
    ensures r.Ok? ==> made <= r.value
    ensures r.Err? ==> r == Err(INTERNAL_ERROR, GENERATION_FAILED)
    decreases DayNumber(end) - DayNumber(d) + 1
  {
    if Stops(rec, d, end, made) then Ok(made)
    else
      var next := Next(rec, d, stepping);
      if next.None? then Err(INTERNAL_ERROR, GENERATION_FAILED)
      else Run(rec, committed, next.value, end, stepping, Visit(rec, committed, d, made, firstId, now), firstId, now)
  }

  /** The loop's condition fails, or the pattern breaks out of it at once. */
  predicate Stops(rec: RecurringAppointment, d: Day, end: Day, made: seq<Appointment>)
  {
    DayNumber(d) > DayNumber(end) || |made| >= Cap(rec) || rec.pattern == CUSTOM
  }

  /** What has been created once day `d` is visited. */
  function Visit(rec: RecurringAppointment, committed: seq<Appointment>, d: Day, made: seq<Appointment>, firstId: Id,
                 now: Moment): (r: seq<Appointment>)
    ensures Due(rec, d) && !AlreadyBooked(committed, rec, d) ==> r == made + [Occurrence(rec, d, firstId + |made|, now)]
    ensures !(Due(rec, d) && !AlreadyBooked(committed, rec, d)) ==> r == made
  {
    if Due(rec, d) && !AlreadyBooked(committed, rec, d) then made + [Occurrence(rec, d, firstId + |made|, now)] else made
  }

  /**
   * Every appointment a run creates is the occurrence of a due day of the
   * window that was not already booked, keyed in creation order, and the
   * days strictly increase, so no two created appointments share a start.
   */
  lemma {:induction false} RunCreatesDueOccurrences(rec: RecurringAppointment, committed: seq<Appointment>, d: Day,
                                                    end: Day, stepping: Stepping, made: seq<Appointment>, firstId: Id,
                                                    now: Moment)
    ensures var r := Run(rec, committed, d, end, stepping, made, firstId, now);
            r.Ok? ==> forall k :: |made| <= k < |r.value| ==>
              var day := r.value[k].startAt.date;
              DayNumber(d) <= DayNumber(day) <= DayNumber(end) && Due(rec, day) && !AlreadyBooked(committed, rec, day)
              && r.value[k] == Occurrence(rec, day, firstId + k, now)
    decreases DayNumber(end) - DayNumber(d) + 1
  {
    if !Stops(rec, d, end, made) {
      var made' := Visit(rec, committed, d, made, firstId, now);
      var next := Next(rec, d, stepping);
      if next.Some? {
        RunCreatesDueOccurrences(rec, committed, next.value, end, stepping, made', firstId, now);
        var r := Run(rec, committed, next.value, end, stepping, made', firstId, now);
        if r.Ok? && made' != made {
          assert r.value[|made|] == made'[|made|];
        }
      }
    }
  }

  /** The days of the appointments a run creates strictly increase, so no two share a start. */
  lemma {:induction false} RunDaysIncrease(rec: RecurringAppointment, committed: seq<Appointment>, d: Day, end: Day,
                                           stepping: Stepping, made: seq<Appointment>, firstId: Id, now: Moment)
    ensures var r := Run(rec, committed, d, end, stepping, made, firstId, now);
            r.Ok? ==> forall i, j :: |made| <= i < j < |r.value| ==>
              DayNumber(r.value[i].startAt.date) < DayNumber(r.value[j].startAt.date)
    decreases DayNumber(end) - DayNumber(d) + 1
  {
    if !Stops(rec, d, end, made) {
      var made' := Visit(rec, committed, d, made, firstId, now);
      var next := Next(rec, d, stepping);
      if next.Some? {
        RunDaysIncrease(rec, committed, next.value, end, stepping, made', firstId, now);
        RunCreatesDueOccurrences(rec, committed, next.value, end, stepping, made', firstId, now);
        var r := Run(rec, committed, next.value, end, stepping, made', firstId, now);
        if r.Ok? && made' != made {
          assert r.value[|made|] == made'[|made|];
          assert r.value[|made|].startAt.date == d;
        }
      }
    }
  }

  /**
   * A run creates at most one appointment per day of the window and never
   * goes past the cap.
   */
  lemma {:induction false} RunIsBounded(rec: RecurringAppointment, committed: seq<Appointment>, d: Day, end: Day,
                                        stepping: Stepping, made: seq<Appointment>, firstId: Id, now: Moment)
    ensures var r := Run(rec, committed, d, end, stepping, made, firstId, now);
            r.Ok? ==> |r.value| - |made| <= if DayNumber(end) < DayNumber(d) then 0 else DayNumber(end) - DayNumber(d) + 1
    ensures var r := Run(rec, committed, d, end, stepping, made, firstId, now);
            r.Ok? && |made| <= Cap(rec) ==> |r.value| <= Cap(rec)
    decreases DayNumber(end) - DayNumber(d) + 1
  {
    if !Stops(rec, d, end, made) {
      var made' := Visit(rec, committed, d, made, firstId, now);
      var next := Next(rec, d, stepping);
      if next.Some? {
        RunIsBounded(rec, committed, next.value, end, stepping, made', firstId, now);
      }
    }
  }

  /**
   * Stepping day by day, a run that stops short of the cap has created the
   * occurrence of every due day of the window that was not already booked.
   */
  lemma {:induction false} DailyRunIsComplete(rec: RecurringAppointment, committed: seq<Appointment>, d: Day, end: Day,
                                              made: seq<Appointment>, firstId: Id, now: Moment)
    ensures var r := Run(rec, committed, d, end, DayByDay, made, firstId, now);
            r.Ok? && |r.value| < Cap(rec) ==>
              forall n :: 0 <= n <= DayNumber(end) - DayNumber(d) && Due(rec, AddDays(d, n))
                          && !AlreadyBooked(committed, rec, AddDays(d, n))
                ==> exists k :: |made| <= k < |r.value| && r.value[k].startAt.date == AddDays(d, n)
    decreases DayNumber(end) - DayNumber(d) + 1
  {
    if !Stops(rec, d, end, made) {
      var made' := Visit(rec, committed, d, made, firstId, now);
      var next := NextDay(d);
      DailyRunIsComplete(rec, committed, next, end, made', firstId, now);
      var r := Run(rec, committed, next, end, DayByDay, made', firstId, now);
      assert r == Run(rec, committed, d, end, DayByDay, made, firstId, now);
      if r.Ok? && |r.value| < Cap(rec) {
        forall n | 0 <= n <= DayNumber(end) - DayNumber(d) && Due(rec, AddDays(d, n))
                   && !AlreadyBooked(committed, rec, AddDays(d, n))
          ensures exists k :: |made| <= k < |r.value| && r.value[k].startAt.date == AddDays(d, n)
        {
          if n == 0 {
            assert r.value[|made|] == made'[|made|];
          } else {
            assert AddDays(d, n) == AddDays(next, n - 1);
          }
        }
      }
    }
  }

  /** Stepping day by day never raises. */
  lemma {:induction false} DailyRunNeverFails(rec: RecurringAppointment, committed: seq<Appointment>, d: Day, end: Day,
                                              made: seq<Appointment>, firstId: Id, now: Moment)
    ensures Run(rec, committed, d, end, DayByDay, made, firstId, now).Ok?
    decreases DayNumber(end) - DayNumber(d) + 1
  {
    if !Stops(rec, d, end, made) {
      DailyRunNeverFails(rec, committed, NextDay(d), end, Visit(rec, committed, d, made, firstId, now), firstId, now);
    }
  }

  /**
   * As written, a MONTHLY run that starts on another day of the month than
   * the recurrence keeps that day at every step, so it never creates
   * anything.
   */
  lemma {:induction false} MonthlyRunOffTheDayCreatesNothing(rec: RecurringAppointment, committed: seq<Appointment>,
                                                            d: Day, end: Day, made: seq<Appointment>, firstId: Id,
                                                            now: Moment)
    requires rec.pattern == MONTHLY && d.day != rec.startDate.day
    ensures var r := Run(rec, committed, d, end, MonthByMonth, made, firstId, now);
            r.Ok? ==> r.value == made
    decreases DayNumber(end) - DayNumber(d) + 1
  {
    if DayNumber(d) > DayNumber(end) || |made| >= Cap(rec) {
    } else {
      var next := NextMonthSameDay(d);
      if next.Some? {
        MonthlyRunOffTheDayCreatesNothing(rec, committed, next.value, end, made, firstId, now);
      }
    }
  }

  /** The loop of `generate_appointment_instances`, from the window's first day to its last. */
  method GenerationLoop(rec: RecurringAppointment, committed: seq<Appointment>, start: Day, end: Day,
                        stepping: Stepping, firstId: Id, now: Moment) returns (r: Result<seq<Appointment>>)
    ensures r == Run(rec, committed, start, end, stepping, [], firstId, now)
  {
    var current := start;
    var created: seq<Appointment> := [];
    var cap := Cap(rec);
    while DayNumber(current) <= DayNumber(end) && |created| < cap
      invariant Run(rec, committed, current, end, stepping, created, firstId, now)
                == Run(rec, committed, start, end, stepping, [], firstId, now)
      decreases DayNumber(end) - DayNumber(current) + 1
    {
      if rec.pattern == CUSTOM {
        break;
      }
      var shouldCreate := Due(rec, current);
      var next := Next(rec, current, stepping);
      if next.None? {
        return Err(INTERNAL_ERROR, GENERATION_FAILED);
      }
      if shouldCreate && FirstMatch(committed, SameSlot(rec, OccurrenceStart(rec, current))).None? {
        created := created + [Occurrence(rec, current, firstId + |created|, now)];
      }
      current := next.value;
    }
    r := Ok(created);
  }

  /**
   * `generate_appointment_instances`, with every pattern walked day by day
   * (MONTHLY creating on the recurrence's day of the month): the
   * recurrence must be found and active; the created appointments are
   * committed together and returned.
   */
  method GenerateInstances(db: Db, c: Caller, recurringId: Id, startDate: Day, endDate: Day, now: Moment)
    returns (r: Result<seq<Appointment>>)
    modifies db`appointments
    ensures FirstMatch(db.recurring, RecurringKey(recurringId, c.organizationId)).None?
            ==> r == Err(NOT_FOUND, RECURRING_NOT_FOUND) && db.appointments == old(db.appointments)
    ensures FirstMatch(db.recurring, RecurringKey(recurringId, c.organizationId)).Some?
            ==> var rec := db.recurring[FirstMatch(db.recurring, RecurringKey(recurringId, c.organizationId)).value];
                (!rec.isActive ==> r == Err(BAD_REQUEST, "Recurring appointment is not active")
                                   && db.appointments == old(db.appointments))
                && (rec.isActive ==>
                      r == Run(rec, old(db.appointments), WindowStart(rec, startDate), WindowEnd(rec, endDate), DayByDay, [],
                               NextKey(old(db.appointments), AppointmentIdOf), now)
                      && db.appointments == old(db.appointments) + (if r.Ok? then r.value else []))
  {
    var i := FirstMatch(db.recurring, RecurringKey(recurringId, c.organizationId));
    if i.None? {
      return Err(NOT_FOUND, RECURRING_NOT_FOUND);
    }
    var rec := db.recurring[i.value];
    if !rec.isActive {
      return Err(BAD_REQUEST, "Recurring appointment is not active");
    }
    r := GenerationLoop(rec, db.appointments, WindowStart(rec, startDate), WindowEnd(rec, endDate), DayByDay,
                        NextKey(db.appointments, AppointmentIdOf), now);
    if r.Ok? {
      db.appointments := db.appointments + r.value;
    }
  }

  /**
   * A concrete case of the monthly stepping as written: a recurrence
   * started on 15 January and generated for February yields nothing.
   */
  lemma MonthlyFromOtherDayAsWritten(rec: RecurringAppointment, now: Moment)
    requires rec.pattern == MONTHLY && rec.startDate == Date(2024, 1, 15) && rec.maxOccurrences.None?
    ensures Run(rec, [], Date(2024, 2, 1), Date(2024, 2, 29), MonthByMonth, [], 0, now) == Ok([])
  {
    var feb1: Day := Date(2024, 2, 1);
    var mar1: Day := Date(2024, 3, 1);
    assert NextMonthSameDay(feb1) == Some(mar1);
  }

  /** Walking day by day, the same recurrence and window yield the appointment of 15 February. */
  lemma MonthlyFromOtherDay(rec: RecurringAppointment, now: Moment)
    requires rec.pattern == MONTHLY && rec.startDate == Date(2024, 1, 15) && rec.maxOccurrences.None?
    ensures var r := Run(rec, [], Date(2024, 2, 1), Date(2024, 2, 29), DayByDay, [], 0, now);
            r.Ok? && exists k :: 0 <= k < |r.value| && r.value[k].startAt.date == Date(2024, 2, 15)
  {
    var feb1: Day := Date(2024, 2, 1);
    var feb29: Day := Date(2024, 2, 29);
    DailyRunNeverFails(rec, [], feb1, feb29, [], 0, now);
    RunIsBounded(rec, [], feb1, feb29, DayByDay, [], 0, now);
    DailyRunIsComplete(rec, [], feb1, feb29, [], 0, now);
    assert AddDays(feb1, 14) == Date(2024, 2, 15);
  }

  /**
   * A concrete case of the month step raising: a recurrence started on
   * 31 January, generated from that day, fails as a whole because
   * February has no 31st.
   */
  lemma MonthlyOnThe31stFailsAsWritten(rec: RecurringAppointment, committed: seq<Appointment>, end: Day, now: Moment)
    requires rec.pattern == MONTHLY && rec.startDate == Date(2024, 1, 31) && rec.maxOccurrences.None?
    requires DayNumber(end) >= DayNumber(Date(2024, 1, 31))
    ensures Run(rec, committed, Date(2024, 1, 31), end, MonthByMonth, [], 0, now) == Err(INTERNAL_ERROR, GENERATION_FAILED)
  {
    assert NextMonthSameDay(Date(2024, 1, 31)).None?;
  }

  // ---------------------------------------------------------------------
  // Routes
  // ---------------------------------------------------------------------

  datatype Handler =
    | CreateAppointmentRoute | ListAppointmentsRoute | GetAppointmentRoute | UpdateAppointmentRoute
    | CancelAppointmentRoute | ClientAppointmentsRoute | CreateRecurringRoute | ListRecurringRoute
    | UpdateRecurringRoute | GenerateRoute

  const RECURRING: seq<Segment> := [Literal("recurring")]

  /** The routes in the order the router declares them. */
  const ROUTES_AS_WRITTEN: seq<Route<Handler>> := [
    Route(POST, [], CreateAppointmentRoute),
    Route(GET, [], ListAppointmentsRoute),
    Route(GET, [UuidParam], GetAppointmentRoute),
    Route(PUT, [UuidParam], UpdateAppointmentRoute),
    Route(DELETE, [UuidParam], CancelAppointmentRoute),
    Route(GET, [Literal("clients"), UuidParam, Literal("appointments")], ClientAppointmentsRoute),
    Route(POST, RECURRING, CreateRecurringRoute),
    Route(GET, RECURRING, ListRecurringRoute),
    Route(PUT, [Literal("recurring"), UuidParam], UpdateRecurringRoute),
    Route(POST, [Literal("recurring"), UuidParam, Literal("generate")], GenerateRoute)
  ]

  /** The same routes with the recurrence list declared before the single-appointment routes. */
  function Routes(): seq<Route<Handler>>
  {
    MoveBack(ROUTES_AS_WRITTEN, 7, 2)
  }

  /**
   * As written, `GET /recurring` is taken by `GET /{appointment_id}`,
   * whose parameter "recurring" is no UUID: the answer is 422 and the
   * recurrence list is never reached.
   */
  lemma RecurringListUnreachableAsWritten()
    ensures Resolve(ROUTES_AS_WRITTEN, GET, ["recurring"]) == Invalid(GetAppointmentRoute)
  {
    NotUuid("recurring", 0);
    NonUuidSegmentTakenByParameter("recurring");
  }

  /** Any single segment that is no UUID is answered by the single-appointment route with 422. */
  lemma NonUuidSegmentTakenByParameter(segment: string)
    requires segment != "" && !UuidText(segment)
    ensures Resolve(ROUTES_AS_WRITTEN, GET, [segment]) == Invalid(GetAppointmentRoute)
  {
    var path := [segment];
    assert ROUTES_AS_WRITTEN[0] == Route(POST, [], CreateAppointmentRoute);
    assert ROUTES_AS_WRITTEN[1] == Route(GET, [], ListAppointmentsRoute);
    assert ROUTES_AS_WRITTEN[2] == Route(GET, [UuidParam], GetAppointmentRoute);
    assert Matches(ROUTES_AS_WRITTEN[2], GET, path);
    assert ROUTES_AS_WRITTEN[2].template[0].UuidParam? && path[0] == segment;
    FirstMatchingRouteAnswers(ROUTES_AS_WRITTEN, 2, GET, path);
  }

  /** With the list declared first, `GET /recurring` reaches it. */
  lemma RecurringListReached()
    ensures Resolve(Routes(), GET, ["recurring"]) == Handled(ListRecurringRoute)
  {
    var path := ["recurring"];
    var routes := Routes();
    assert routes[0] == Route(POST, [], CreateAppointmentRoute);
    assert routes[1] == Route(GET, [], ListAppointmentsRoute);
    assert routes[2] == Route(GET, RECURRING, ListRecurringRoute);
    assert Matches(routes[2], GET, path);
    FirstMatchingRouteAnswers(routes, 2, GET, path);
  }

  /** Declaring the recurrence list earlier changes the dispatch of no other request. */
  lemma ReorderOnlyAffectsRecurringList(verb: Verb, path: seq<string>)
    requires !(verb == GET && |path| == 1 && path[0] == "recurring")
    ensures Resolve(Routes(), verb, path) == Resolve(ROUTES_AS_WRITTEN, verb, path)
  {
    assert ROUTES_AS_WRITTEN[7] == Route(GET, RECURRING, ListRecurringRoute);
    MoveKeepsDispatch(ROUTES_AS_WRITTEN, 7, 2, verb, path);
  }
}
