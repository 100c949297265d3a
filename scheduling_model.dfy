/**
 * The scheduling tables: schedules and their shifts, staff availability,
 * time off, coverage requests and swaps, appointments and their recurrences,
 * time-clock entries, weekly overtime, conflicts and calendar events.
 * Times of day are whole seconds after midnight (Python `time` without
 * microseconds); `updatedAt` columns are stamped by the handlers.
 */
module SchedulingModel {
  import opened Common

  datatype ScheduleType = WEEKLY_SCHEDULE | MONTHLY_SCHEDULE | CUSTOM_SCHEDULE
  datatype ScheduleStatus = DRAFT | PUBLISHED | LOCKED | ARCHIVED
  datatype ShiftStatus = SCHEDULED | CONFIRMED | IN_PROGRESS | COMPLETED | CANCELLED | NO_SHOW
  datatype ShiftType = REGULAR | OVERTIME | HOLIDAY | ON_CALL | SPLIT
  datatype AvailabilityType = AVAILABLE | PREFERRED | UNAVAILABLE
  datatype TimeOffType = VACATION | SICK | PERSONAL | BEREAVEMENT | JURY_DUTY | FMLA
  datatype RequestType = SWAP | PICKUP | DROP
  datatype RequestStatus = PENDING | APPROVED | DENIED | REQUEST_CANCELLED
  datatype SwapStatus = SWAP_PENDING | SWAP_APPROVED | SWAP_COMPLETED | SWAP_CANCELLED
  datatype AppointmentType = MEDICAL | THERAPY | SOCIAL | LEGAL | FAMILY_VISIT | OUTING
  datatype AppointmentStatus =
    APPT_SCHEDULED | APPT_CONFIRMED | APPT_IN_PROGRESS | APPT_COMPLETED | APPT_CANCELLED | APPT_NO_SHOW
  datatype RecurrencePattern = DAILY | WEEKLY | MONTHLY | CUSTOM
  datatype TimeEntryType = CLOCK_IN | CLOCK_OUT | BREAK_START | BREAK_END | MEAL_START | MEAL_END
  datatype ConflictType = DOUBLE_BOOKING | OVERTIME_VIOLATION | AVAILABILITY_CONFLICT | SKILL_MISMATCH
  datatype ConflictSeverity = LOW | MEDIUM | HIGH | CRITICAL
  datatype EventType = MEETING | TRAINING | HOLIDAY_EVENT | MAINTENANCE | INSPECTION | OTHER
  datatype EventVisibility = PUBLIC | PRIVATE | CONFIDENTIAL

  /** `ShiftStatus.value`. */
  function ShiftStatusValue(s: ShiftStatus): string
  {
    match s
    case SCHEDULED => "scheduled"
    case CONFIRMED => "confirmed"
    case IN_PROGRESS => "in_progress"
    case COMPLETED => "completed"
    case CANCELLED => "cancelled"
    case NO_SHOW => "no_show"
  }

  /** `AvailabilityType.value`. */
  function AvailabilityTypeValue(t: AvailabilityType): string
  {
    match t
    case AVAILABLE => "available"
    case PREFERRED => "preferred"
    case UNAVAILABLE => "unavailable"
  }

  /** A time of day in whole seconds. */
  type TimeOfDay = s: int | 0 <= s < SECONDS_PER_DAY

  /** The user a handler runs for, as the scheduling handlers read it. */
  datatype Caller = Caller(
    id: Id,
    organizationId: Option<Id>,
    roleName: Option<string>,
    fullName: string,
    staffProfileId: Option<Id>)

  datatype Schedule = Schedule(
    id: Id,
    organizationId: Id,
    scheduleName: string,
    scheduleType: ScheduleType,
    startDate: Day,
    endDate: Day,
    status: ScheduleStatus,
    createdBy: Id,
    approvedBy: Option<Id>,
    approvedAt: Option<Moment>,
    notes: Option<string>,
    updatedAt: Moment)

  datatype Shift = Shift(
    id: Id,
    scheduleId: Id,
    staffId: Id,
    locationId: Option<Id>,
    shiftDate: Day,
    startTime: TimeOfDay,
    endTime: TimeOfDay,
    breakStart: Option<TimeOfDay>,
    breakEnd: Option<TimeOfDay>,
    mealStart: Option<TimeOfDay>,
    mealEnd: Option<TimeOfDay>,
    status: ShiftStatus,
    shiftType: ShiftType,
    isMandatory: bool,
    notes: Option<string>,
    updatedAt: Moment)

  /** A client assigned to a shift (`shift_assignments`). */
  datatype ShiftAssignment = ShiftAssignment(id: Id, shiftId: Id, clientId: Id)

  /** `day_of_week` is documented on the column as 0 = Sunday … 6 = Saturday. */
  datatype StaffAvailability = StaffAvailability(
    id: Id,
    staffId: Id,
    dayOfWeek: int,
    startTime: TimeOfDay,
    endTime: TimeOfDay,
    availabilityType: AvailabilityType,
    effectiveDate: Day,
    expiryDate: Option<Day>,
    notes: Option<string>,
    updatedAt: Moment)

  datatype TimeOff = TimeOff(
    id: Id,
    staffId: Id,
    startAt: Moment,
    endAt: Moment,
    timeOffType: TimeOffType,
    status: RequestStatus,
    affectsScheduling: bool,
    replacementRequired: bool,
    notes: Option<string>)

  datatype CoverageRequest = CoverageRequest(
    id: Id,
    originalShiftId: Id,
    requestingStaffId: Id,
    reason: string,
    requestType: RequestType,
    status: RequestStatus,
    requestedAt: Moment,
    respondedAt: Option<Moment>,
    respondedBy: Option<Id>,
    notes: Option<string>)

  datatype ShiftSwap = ShiftSwap(
    id: Id,
    coverageRequestId: Id,
    shiftAId: Id,
    shiftBId: Id,
    staffAId: Id,
    staffBId: Id,
    swapDate: Day,
    status: SwapStatus,
    approvedBy: Option<Id>,
    approvedAt: Option<Moment>)

  datatype Appointment = Appointment(
    id: Id,
    organizationId: Id,
    clientId: Id,
    staffId: Id,
    appointmentType: AppointmentType,
    title: string,
    description: Option<string>,
    location: Option<string>,
    startAt: Moment,
    endAt: Moment,
    status: AppointmentStatus,
    requiresTransport: bool,
    transportStaffId: Option<Id>,
    notes: Option<string>,
    updatedAt: Moment)

  datatype RecurringAppointment = RecurringAppointment(
    id: Id,
    organizationId: Id,
    clientId: Id,
    staffId: Id,
    appointmentType: string,
    title: string,
    description: Option<string>,
    location: Option<string>,
    startTime: TimeOfDay,
    durationMinutes: int,
    pattern: RecurrencePattern,
    recurrenceDays: Option<seq<int>>,
    startDate: Day,
    endDate: Option<Day>,
    maxOccurrences: Option<int>,
    isActive: bool,
    updatedAt: Moment)

  datatype DeviceInfo = DeviceInfo(userAgent: string, referer: string)

  datatype TimeClockEntry = TimeClockEntry(
    id: Id,
    staffId: Id,
    shiftId: Option<Id>,
    entryType: TimeEntryType,
    entryAt: Moment,
    locationVerified: bool,
    geolocation: Option<string>,
    ipAddress: Option<string>,
    deviceInfo: Option<DeviceInfo>,
    photoUrl: Option<string>,
    notes: Option<string>)

  /** The order of time-clock entries: by `entry_datetime`. */
  function EntryStamp(e: TimeClockEntry): int
  {
    Stamp(e.entryAt)
  }

  /** Weekly hours, kept here in whole seconds. */
  datatype OvertimeTracking = OvertimeTracking(
    id: Id,
    staffId: Id,
    shiftId: Option<Id>,
    weekStartDate: Day,
    regularSeconds: int,
    overtimeSeconds: int,
    doubleTimeSeconds: int,
    holidaySeconds: int,
    totalSeconds: int)

  datatype ScheduleConflict = ScheduleConflict(
    id: Id,
    conflictType: ConflictType,
    shiftId: Option<Id>,
    staffId: Id,
    description: string,
    severity: ConflictSeverity,
    resolved: bool)

  const DEFAULT_EVENT_COLOR: string := "#4F46E5"

  datatype CalendarEvent = CalendarEvent(
    id: Id,
    organizationId: Id,
    eventType: EventType,
    title: string,
    description: Option<string>,
    startAt: Moment,
    endAt: Moment,
    location: Option<string>,
    allDay: bool,
    isRecurring: bool,
    recurrenceRule: Option<string>,
    attendees: Option<seq<Id>>,
    color: string,
    visibility: EventVisibility,
    createdBy: Id,
    updatedAt: Moment)

  /**
   * The overlap test of every conflict query: `start < other_end and
   * end > other_start`, on any ordered quantity (seconds of a day, stamps).
   */
  predicate Overlaps(start: int, end: int, otherStart: int, otherEnd: int)
  {
    start < otherEnd && end > otherStart
  }

  /** The half-open interval `[start, end)` contains `t`. */
  predicate Covers(start: int, end: int, t: int)
  {
    start <= t < end
  }

  /**
   * The test is symmetric, intervals that only touch do not overlap, and on
   * non-empty intervals it holds exactly when some instant lies in both.
   */
  lemma OverlapsSymmetricAndStrict(s1: int, e1: int, s2: int, e2: int)
    ensures Overlaps(s1, e1, s2, e2) <==> Overlaps(s2, e2, s1, e1)
    ensures e1 == s2 ==> !Overlaps(s1, e1, s2, e2)
    ensures s1 < e1 && s2 < e2 ==> (Overlaps(s1, e1, s2, e2) <==> exists t :: Covers(s1, e1, t) && Covers(s2, e2, t))
  {
    if s1 < e1 && s2 < e2 && Overlaps(s1, e1, s2, e2) {
      var t := if s1 < s2 then s2 else s1;
      assert Covers(s1, e1, t) && Covers(s2, e2, t);
    }
  }

  /** `date.weekday() + 1`: Monday is 1 and Sunday is 7. */
  function IsoWeekday(d: Day): (r: int)
    ensures 1 <= r <= 7
  {
    Weekday(d) + 1
  }

  /** `%I:%M %p`: the hour on a 12-hour clock, minutes, and AM or PM. */
  function ClockTime(t: TimeOfDay): (r: string)
    ensures |r| == 8 && r[2] == ':' && r[5] == ' '
    ensures r[6..] == (if t < 12 * 3600 then "AM" else "PM")
  {
    var h := t / 3600;
    var h12 := if h % 12 == 0 then 12 else h % 12;
    ZeroPad(h12, 2) + ":" + ZeroPad(t % 3600 / 60, 2) + " " + (if h < 12 then "AM" else "PM")
  }
}
