/**
 * Request bodies of the scheduling API and the checks applied to them before
 * a handler runs: field bounds, the end-after-start rules of the create
 * bodies, and the colour pattern of calendar events. A rejected body is
 * answered with status 422. Update bodies have every field optional (`None`
 * meaning "not sent") and carry field bounds only.
 */
module SchedulingSchemas {
  import opened Common
  import opened SchedulingModel

  const MAX_NAME_LENGTH: nat := 255

  // ---------------------------------------------------------------------
  // Shift templates
  // ---------------------------------------------------------------------

  datatype TemplateCreate = TemplateCreate(
    templateName: string,
    startTime: TimeOfDay,
    endTime: TimeOfDay,
    durationMinutes: int,
    breakDurationMinutes: int,
    mealBreakMinutes: int,
    daysOfWeek: seq<int>,
    isActive: bool)

  /** `days_of_week`: one to seven entries, each a weekday number 1..7. */
  predicate DaysOfWeekValid(days: seq<int>)
  {
    1 <= |days| <= 7 && forall k :: 0 <= k < |days| ==> 1 <= days[k] <= 7
  }

  function ValidateTemplate(t: TemplateCreate): (r: Result<TemplateCreate>)
    ensures r.Ok? <==> |t.templateName| <= MAX_NAME_LENGTH && t.durationMinutes > 0
                       && t.breakDurationMinutes >= 0 && t.mealBreakMinutes >= 0
                       && DaysOfWeekValid(t.daysOfWeek) && t.endTime > t.startTime
    ensures r.Ok? ==> r.value == t
    ensures r.Err? ==> r.status == UNPROCESSABLE
  {
    if |t.templateName| > MAX_NAME_LENGTH || t.durationMinutes <= 0
       || t.breakDurationMinutes < 0 || t.mealBreakMinutes < 0 then
      Err(UNPROCESSABLE, "Input should satisfy the field constraints")
    else if !(1 <= |t.daysOfWeek| <= 7) then Err(UNPROCESSABLE, "List should have between 1 and 7 items")
    else if !DaysOfWeekValid(t.daysOfWeek) then Err(UNPROCESSABLE, "Days of week must be between 1 and 7")
    else if t.endTime <= t.startTime then Err(UNPROCESSABLE, "End time must be after start time")
    else Ok(t)
  }

  // ---------------------------------------------------------------------
  // Schedules
  // ---------------------------------------------------------------------

  datatype ScheduleCreate = ScheduleCreate(
    organizationId: Id,
    scheduleName: string,
    scheduleType: ScheduleType,
    startDate: Day,
    endDate: Day,
    notes: Option<string>)

  /** A schedule may start and end on the same day; only a reversed range is refused. */
  function ValidateSchedule(s: ScheduleCreate): (r: Result<ScheduleCreate>)
    ensures r.Ok? <==> |s.scheduleName| <= MAX_NAME_LENGTH && DayNumber(s.startDate) <= DayNumber(s.endDate)
    ensures r.Ok? ==> r.value == s
    ensures r.Err? ==> r.status == UNPROCESSABLE
    ensures |s.scheduleName| <= MAX_NAME_LENGTH && DayNumber(s.endDate) < DayNumber(s.startDate)
            ==> r == Err(UNPROCESSABLE, "End date must be after start date")
  {
    if |s.scheduleName| > MAX_NAME_LENGTH then Err(UNPROCESSABLE, "String should have at most 255 characters")
    else if DayNumber(s.endDate) < DayNumber(s.startDate) then Err(UNPROCESSABLE, "End date must be after start date")
    else Ok(s)
  }

  datatype ScheduleUpdate = ScheduleUpdate(
    scheduleName: Option<string>,
    scheduleType: Option<ScheduleType>,
    startDate: Option<Day>,
    endDate: Option<Day>,
    notes: Option<string>,
    status: Option<ScheduleStatus>)

  // ---------------------------------------------------------------------
  // Shifts
  // ---------------------------------------------------------------------

  datatype ShiftCreate = ShiftCreate(
    scheduleId: Id,
    staffId: Id,
    locationId: Option<Id>,
    shiftDate: Day,
    startTime: TimeOfDay,
    endTime: TimeOfDay,
    breakStart: Option<TimeOfDay>,
    breakEnd: Option<TimeOfDay>,
    mealStart: Option<TimeOfDay>,
    mealEnd: Option<TimeOfDay>,
    shiftType: ShiftType,
    isMandatory: bool,
    notes: Option<string>)

  /** Only the end-after-start rule; break and meal times are not checked against the shift. */
  function ValidateShift(s: ShiftCreate): (r: Result<ShiftCreate>)
    ensures r.Ok? <==> s.endTime > s.startTime
    ensures r.Ok? ==> r.value == s
    ensures r.Err? ==> r == Err(UNPROCESSABLE, "End time must be after start time")
  {
    if s.endTime <= s.startTime then Err(UNPROCESSABLE, "End time must be after start time") else Ok(s)
  }

  /** `ShiftBulkCreate`: a schedule and a list of shifts, each a `ShiftCreate` of its own. */
  datatype ShiftBulkCreate = ShiftBulkCreate(scheduleId: Id, shifts: seq<ShiftCreate>)

  /** The body is refused when any one of its shifts is. */
  function ValidateBulk(b: ShiftBulkCreate): (r: Result<ShiftBulkCreate>)
    ensures r.Ok? <==> forall k :: 0 <= k < |b.shifts| ==> ValidateShift(b.shifts[k]).Ok?
    ensures r.Ok? ==> r.value == b
    ensures r.Err? ==> r == Err(UNPROCESSABLE, "End time must be after start time")
  {
    if forall k :: 0 <= k < |b.shifts| ==> ValidateShift(b.shifts[k]).Ok? then Ok(b)
    else Err(UNPROCESSABLE, "End time must be after start time")
  }

  /** `ShiftUpdate`: no cross-field rule at all. */
  datatype ShiftUpdate = ShiftUpdate(
    shiftDate: Option<Day>,
    startTime: Option<TimeOfDay>,
    endTime: Option<TimeOfDay>,
    breakStart: Option<TimeOfDay>,
    breakEnd: Option<TimeOfDay>,
    mealStart: Option<TimeOfDay>,
    mealEnd: Option<TimeOfDay>,
    status: Option<ShiftStatus>,
    shiftType: Option<ShiftType>,
    isMandatory: Option<bool>,
    notes: Option<string>)

  // ---------------------------------------------------------------------
  // Staff availability
  // ---------------------------------------------------------------------

  datatype AvailabilityCreate = AvailabilityCreate(
    dayOfWeek: int,
    startTime: TimeOfDay,
    endTime: TimeOfDay,
    availabilityType: AvailabilityType,
    effectiveDate: Day,
    expiryDate: Option<Day>,
    notes: Option<string>)

  /** `day_of_week` must lie in 0..6 and the slot must end after it starts. */
  function ValidateAvailability(a: AvailabilityCreate): (r: Result<AvailabilityCreate>)
    ensures r.Ok? <==> 0 <= a.dayOfWeek <= 6 && a.endTime > a.startTime
    ensures r.Ok? ==> r.value == a
    ensures r.Err? ==> r.status == UNPROCESSABLE
  {
    if !(0 <= a.dayOfWeek <= 6) then Err(UNPROCESSABLE, "Input should be less than or equal to 6")
    else if a.endTime <= a.startTime then Err(UNPROCESSABLE, "End time must be after start time")
    else Ok(a)
  }

  /** `StaffAvailabilityUpdate`: only the bound on `day_of_week`. */
  datatype AvailabilityUpdate = AvailabilityUpdate(
    dayOfWeek: Option<int>,
    startTime: Option<TimeOfDay>,
    endTime: Option<TimeOfDay>,
    availabilityType: Option<AvailabilityType>,
    effectiveDate: Option<Day>,
    expiryDate: Option<Day>,
    notes: Option<string>)

  function ValidateAvailabilityUpdate(u: AvailabilityUpdate): (r: Result<AvailabilityUpdate>)
    ensures r.Ok? <==> u.dayOfWeek.None? || 0 <= u.dayOfWeek.value <= 6
    ensures r.Ok? ==> r.value == u
    ensures r.Err? ==> r.status == UNPROCESSABLE
  {
    if u.dayOfWeek.Some? && !(0 <= u.dayOfWeek.value <= 6) then
      Err(UNPROCESSABLE, "Input should be less than or equal to 6")
    else Ok(u)
  }

  /**
   * `StaffAvailabilityBulkUpdate`: a staff id and the list of slots, each
   * validated like a created slot.
   */
  datatype AvailabilityBulkUpdate = AvailabilityBulkUpdate(staffId: Id, slots: seq<AvailabilityCreate>)

  // ---------------------------------------------------------------------
  // Time off, appointments, recurrences
  // ---------------------------------------------------------------------

  datatype TimeOffCreate = TimeOffCreate(
    staffId: Id,
    startAt: Moment,
    endAt: Moment,
    timeOffType: TimeOffType,
    affectsScheduling: bool,
    replacementRequired: bool,
    notes: Option<string>)

  function ValidateTimeOff(t: TimeOffCreate): (r: Result<TimeOffCreate>)
    ensures r.Ok? <==> Stamp(t.endAt) > Stamp(t.startAt)
    ensures r.Ok? ==> r.value == t
    ensures r.Err? ==> r == Err(UNPROCESSABLE, "End datetime must be after start datetime")
  {
    if Stamp(t.endAt) <= Stamp(t.startAt) then Err(UNPROCESSABLE, "End datetime must be after start datetime")
    else Ok(t)
  }

  // ---------------------------------------------------------------------
  // Coverage requests and shift swaps
  // ---------------------------------------------------------------------

  datatype CoverageCreate = CoverageCreate(
    originalShiftId: Id,
    requestingStaffId: Id,
    reason: string,
    requestType: RequestType,
    notes: Option<string>)

  /** `CoverageRequestUpdate`: the status must be sent; the notes may be. */
  datatype CoverageUpdate = CoverageUpdate(status: RequestStatus, notes: Option<string>)

  datatype SwapCreate = SwapCreate(
    coverageRequestId: Id,
    shiftAId: Id,
    shiftBId: Id,
    staffAId: Id,
    staffBId: Id,
    swapDate: Day)

  datatype AppointmentCreate = AppointmentCreate(
    organizationId: Id,
    clientId: Id,
    staffId: Id,
    transportStaffId: Option<Id>,
    appointmentType: AppointmentType,
    title: string,
    description: Option<string>,
    location: Option<string>,
    startAt: Moment,
    endAt: Moment,
    requiresTransport: bool,
    notes: Option<string>)

  function ValidateAppointment(a: AppointmentCreate): (r: Result<AppointmentCreate>)
    ensures r.Ok? <==> |a.title| <= MAX_NAME_LENGTH && Stamp(a.endAt) > Stamp(a.startAt)
    ensures r.Ok? ==> r.value == a
    ensures r.Err? ==> r.status == UNPROCESSABLE
  {
    if |a.title| > MAX_NAME_LENGTH then Err(UNPROCESSABLE, "String should have at most 255 characters")
    else if Stamp(a.endAt) <= Stamp(a.startAt) then Err(UNPROCESSABLE, "End datetime must be after start datetime")
    else Ok(a)
  }

  /** `AppointmentUpdate`; it has no `staff_id` field. */
  datatype AppointmentUpdate = AppointmentUpdate(
    appointmentType: Option<AppointmentType>,
    title: Option<string>,
    description: Option<string>,
    location: Option<string>,
    startAt: Option<Moment>,
    endAt: Option<Moment>,
    status: Option<AppointmentStatus>,
    requiresTransport: Option<bool>,
    transportStaffId: Option<Id>,
    notes: Option<string>)

  datatype RecurringCreate = RecurringCreate(
    organizationId: Id,
    clientId: Id,
    staffId: Id,
    appointmentType: string,
    title: string,
    description: Option<string>,
    location: Option<string>,
    startTime: TimeOfDay,
    durationMinutes: int,
    pattern: RecurrencePattern,
    recurrenceDays: Option<seq<int>>,
    startDate: Day,
    endDate: Option<Day>,
    maxOccurrences: Option<int>)

  /** Positive duration and cap; no rule relates `end_date` to `start_date`. */
  function ValidateRecurring(r0: RecurringCreate): (r: Result<RecurringCreate>)
    ensures r.Ok? <==> |r0.appointmentType| <= 100 && |r0.title| <= MAX_NAME_LENGTH && r0.durationMinutes > 0
                       && (r0.maxOccurrences.None? || r0.maxOccurrences.value > 0)
    ensures r.Ok? ==> r.value == r0
    ensures r.Err? ==> r.status == UNPROCESSABLE
  {
    if |r0.appointmentType| > 100 || |r0.title| > MAX_NAME_LENGTH then
      Err(UNPROCESSABLE, "String should have at most the allowed characters")
    else if r0.durationMinutes <= 0 then Err(UNPROCESSABLE, "Input should be greater than 0")
    else if r0.maxOccurrences.Some? && r0.maxOccurrences.value <= 0 then Err(UNPROCESSABLE, "Input should be greater than 0")
    else Ok(r0)
  }

  datatype RecurringUpdate = RecurringUpdate(
    appointmentType: Option<string>,
    title: Option<string>,
    description: Option<string>,
    location: Option<string>,
    startTime: Option<TimeOfDay>,
    durationMinutes: Option<int>,
    pattern: Option<RecurrencePattern>,
    recurrenceDays: Option<seq<int>>,
    startDate: Option<Day>,
    endDate: Option<Day>,
    maxOccurrences: Option<int>,
    isActive: Option<bool>)

  // ---------------------------------------------------------------------
  // Calendar events
  // ---------------------------------------------------------------------

  /** `^#[0-9A-Fa-f]{6}$`. */
  predicate ColourMatches(s: string)
  {
    |s| == 7 && s[0] == '#' && forall k :: 1 <= k < 7 ==> HexDigit(s[k])
  }

  datatype EventCreate = EventCreate(
    organizationId: Id,
    eventType: EventType,
    title: string,
    description: Option<string>,
    startAt: Moment,
    endAt: Moment,
    location: Option<string>,
    allDay: bool,
    isRecurring: bool,
    recurrenceRule: Option<string>,
    attendees: Option<seq<Id>>,
    color: string,
    visibility: EventVisibility)

  function ValidateEvent(e: EventCreate): (r: Result<EventCreate>)
    ensures r.Ok? <==> |e.title| <= MAX_NAME_LENGTH && ColourMatches(e.color) && Stamp(e.endAt) > Stamp(e.startAt)
    ensures r.Ok? ==> r.value == e
    ensures r.Err? ==> r.status == UNPROCESSABLE
  {
    if |e.title| > MAX_NAME_LENGTH then Err(UNPROCESSABLE, "String should have at most 255 characters")
    else if !ColourMatches(e.color) then Err(UNPROCESSABLE, "String should match pattern '^#[0-9A-Fa-f]{6}$'")
    else if Stamp(e.endAt) <= Stamp(e.startAt) then Err(UNPROCESSABLE, "End datetime must be after start datetime")
    else Ok(e)
  }

  /** The default colour satisfies the pattern. */
  lemma DefaultColourMatches(c: string)
    requires c == DEFAULT_EVENT_COLOR
    ensures ColourMatches(c)
  {
    assert forall k :: 1 <= k < 7 ==> HexDigit(c[k]);
  }

  datatype EventUpdate = EventUpdate(
    eventType: Option<EventType>,
    title: Option<string>,
    description: Option<string>,
    startAt: Option<Moment>,
    endAt: Option<Moment>,
    location: Option<string>,
    allDay: Option<bool>,
    isRecurring: Option<bool>,
    recurrenceRule: Option<string>,
    attendees: Option<seq<Id>>,
    color: Option<string>,
    visibility: Option<EventVisibility>)

  /** The colour pattern applies to an update too; times are not compared. */
  function ValidateEventUpdate(u: EventUpdate): (r: Result<EventUpdate>)
    ensures r.Ok? <==> (u.title.None? || |u.title.value| <= MAX_NAME_LENGTH) && (u.color.None? || ColourMatches(u.color.value))
    ensures r.Ok? ==> r.value == u
    ensures r.Err? ==> r.status == UNPROCESSABLE
  {
    if u.title.Some? && |u.title.value| > MAX_NAME_LENGTH then Err(UNPROCESSABLE, "String should have at most 255 characters")
    else if u.color.Some? && !ColourMatches(u.color.value) then
      Err(UNPROCESSABLE, "String should match pattern '^#[0-9A-Fa-f]{6}$'")
    else Ok(u)
  }
}
