/**
 * The request bodies of the care-documentation endpoints: vital signs with
 * their ranges and the blood-pressure rule, shift notes, incident reports,
 * and the task bodies together with the task status and priority values.
 *
 * The integer vital signs are modelled; the floating-point ones
 * (temperature, blood sugar, weight, oxygen saturation) are not.
 */
module DocumentationSchemas {
  import opened Common
  import opened UserSchemas

  // ---------------------------------------------------------------------
  // Vital signs
  // ---------------------------------------------------------------------

  const SYSTOLIC_MIN: int := 60
  const SYSTOLIC_MAX: int := 300
  const DIASTOLIC_MIN: int := 40
  const DIASTOLIC_MAX: int := 200
  const HEART_RATE_MIN: int := 30
  const HEART_RATE_MAX: int := 300
  const PRESSURE_MESSAGE: string := "Diastolic pressure must be less than systolic pressure"

  datatype VitalsLogCreate = VitalsLogCreate(
    clientId: Id,
    systolic: Option<int>,
    diastolic: Option<int>,
    heartRate: Option<int>,
    notes: Option<string>,
    recordedAt: Option<Moment>)

  /** Python truthiness of an optional number: present and not zero. */
  predicate NumberTruthy(v: Option<int>)
  {
    v.Some? && v.value != 0
  }

  /**
   * The diastolic validator. It runs only once the diastolic value passed
   * its own range, and it sees the systolic value only when that one passed
   * its range too; it refuses a truthy diastolic value that is not below a
   * truthy systolic value.
   */
  function PressureViolation(systolic: Option<int>, diastolic: Option<int>): (r: Option<Violation>)
    ensures r.Some? ==> r.value == Invalid("blood_pressure_diastolic", PRESSURE_MESSAGE)
  {
    if Range("blood_pressure_diastolic", diastolic, DIASTOLIC_MIN, DIASTOLIC_MAX).Some? then None
    else
      var seen := if Range("blood_pressure_systolic", systolic, SYSTOLIC_MIN, SYSTOLIC_MAX).None? then systolic else None;
      if NumberTruthy(seen) && NumberTruthy(diastolic) && diastolic.value >= seen.value then
        Some(Invalid("blood_pressure_diastolic", PRESSURE_MESSAGE))
      else None
  }

  /** The diastolic field's one violation: its range, else its validator. */
  function DiastolicViolation(systolic: Option<int>, diastolic: Option<int>): (r: Option<Violation>)
  {
    var range := Range("blood_pressure_diastolic", diastolic, DIASTOLIC_MIN, DIASTOLIC_MAX);
    if range.Some? then range else PressureViolation(systolic, diastolic)
  }

  function VitalsViolations(v: VitalsLogCreate): (r: seq<Violation>)
  {
    Then(Range("blood_pressure_systolic", v.systolic, SYSTOLIC_MIN, SYSTOLIC_MAX),
    Then(DiastolicViolation(v.systolic, v.diastolic),
    Then(Range("heart_rate", v.heartRate, HEART_RATE_MIN, HEART_RATE_MAX),
    Then(OptionalBounds("notes", v.notes, 0, 1000), []))))
  }

  /**
   * A vitals body is accepted exactly when every present number lies in its
   * range, the notes fit, and a diastolic value given with a systolic one is
   * strictly below it. The truthiness tests of the validator never matter,
   * since no range admits zero.
   */
  lemma VitalsAcceptedExactly(v: VitalsLogCreate)
    ensures VitalsViolations(v) == [] <==>
              (v.systolic.None? || SYSTOLIC_MIN <= v.systolic.value <= SYSTOLIC_MAX)
              && (v.diastolic.None? || DIASTOLIC_MIN <= v.diastolic.value <= DIASTOLIC_MAX)
              && (v.heartRate.None? || HEART_RATE_MIN <= v.heartRate.value <= HEART_RATE_MAX)
              && (v.notes.None? || |v.notes.value| <= 1000)
              && (v.systolic.Some? && v.diastolic.Some? ==> v.diastolic.value < v.systolic.value)
  {
  }

  /** A diastolic reading equal to the systolic one is refused with the pressure message alone. */
  lemma EqualPressuresRefused(clientId: Id, p: int)
    requires DIASTOLIC_MIN <= p <= DIASTOLIC_MAX && SYSTOLIC_MIN <= p
    ensures VitalsViolations(VitalsLogCreate(clientId, Some(p), Some(p), None, None, None))
              == [Invalid("blood_pressure_diastolic", PRESSURE_MESSAGE)]
  {
  }

  /** With the systolic value out of range only its own violation is reported: the pressure rule is skipped. */
  lemma InvalidSystolicSkipsPressureRule(v: VitalsLogCreate)
    requires v.systolic.Some? && v.systolic.value > SYSTOLIC_MAX
    requires v.diastolic.Some? && DIASTOLIC_MIN <= v.diastolic.value <= DIASTOLIC_MAX
    ensures PressureViolation(v.systolic, v.diastolic).None?
    ensures DiastolicViolation(v.systolic, v.diastolic).None?
  {
  }

  // ---------------------------------------------------------------------
  // Shift notes and incident reports
  // ---------------------------------------------------------------------

  datatype ShiftNoteCreate = ShiftNoteCreate(
    clientId: Id,
    shiftDate: Day,
    shiftTime: string,
    narrative: string,
    challengesFaced: Option<string>,
    supportRequired: Option<string>,
    observations: Option<string>)

  function ShiftNoteViolations(n: ShiftNoteCreate): (r: seq<Violation>)
    ensures r == [] <==> 10 <= |n.narrative| <= 2000
                         && (n.challengesFaced.None? || |n.challengesFaced.value| <= 1000)
                         && (n.supportRequired.None? || |n.supportRequired.value| <= 1000)
                         && (n.observations.None? || |n.observations.value| <= 1000)
  {
    Then(Bounds("narrative", n.narrative, 10, 2000),
    Then(OptionalBounds("challenges_faced", n.challengesFaced, 0, 1000),
    Then(OptionalBounds("support_required", n.supportRequired, 0, 1000),
    Then(OptionalBounds("observations", n.observations, 0, 1000), []))))
  }

  datatype IncidentSeverity = LOW | MEDIUM | HIGH | CRITICAL
  datatype IncidentType = FALL | MEDICATION_ERROR | INJURY | BEHAVIORAL | EMERGENCY | PROPERTY_DAMAGE | OTHER
  datatype IncidentStatus = PENDING | UNDER_REVIEW | RESOLVED | REQUIRES_FOLLOW_UP

  datatype IncidentReportCreate = IncidentReportCreate(
    clientId: Id,
    incidentType: IncidentType,
    description: string,
    actionTaken: string,
    severity: IncidentSeverity,
    incidentDate: Day,
    incidentTime: string,
    location: Option<string>,
    witnesses: Option<string>,
    followUpRequired: bool)

  /** A report that leaves out the optional fields: no location, no witnesses, no follow-up. */
  function PlainIncident(clientId: Id, kind: IncidentType, description: string, actionTaken: string,
                         severity: IncidentSeverity, day: Day, time: string): (r: IncidentReportCreate)
    ensures !r.followUpRequired && r.location.None? && r.witnesses.None?
  {
    IncidentReportCreate(clientId, kind, description, actionTaken, severity, day, time, None, None, false)
  }

  function IncidentViolations(n: IncidentReportCreate): (r: seq<Violation>)
    ensures r == [] <==> 10 <= |n.description| <= 2000 && 5 <= |n.actionTaken| <= 1000
                         && (n.location.None? || |n.location.value| <= 200)
                         && (n.witnesses.None? || |n.witnesses.value| <= 500)
  {
    Then(Bounds("description", n.description, 10, 2000),
    Then(Bounds("action_taken", n.actionTaken, 5, 1000),
    Then(OptionalBounds("location", n.location, 0, 200),
    Then(OptionalBounds("witnesses", n.witnesses, 0, 500), []))))
  }

  // ---------------------------------------------------------------------
  // Tasks
  // ---------------------------------------------------------------------

  datatype TaskStatus = PENDING | IN_PROGRESS | COMPLETED | CANCELLED | OVERDUE
  datatype TaskPriority = LOW | MEDIUM | HIGH | URGENT

  function TaskStatusValue(s: TaskStatus): string
  {
    match s
    case PENDING => "pending"
    case IN_PROGRESS => "in_progress"
    case COMPLETED => "completed"
    case CANCELLED => "cancelled"
    case OVERDUE => "overdue"
  }

  function TaskPriorityValue(p: TaskPriority): string
  {
    match p
    case LOW => "low"
    case MEDIUM => "medium"
    case HIGH => "high"
    case URGENT => "urgent"
  }

  /** `TaskStatusEnum(text)`: the status whose value is the text, or `ValueError`. */
  function ParseTaskStatus(text: string): (r: Option<TaskStatus>)
    ensures r.Some? ==> TaskStatusValue(r.value) == text
    ensures r.None? ==> forall s: TaskStatus :: TaskStatusValue(s) != text
  {
    if text == "pending" then Some(TaskStatus.PENDING)
    else if text == "in_progress" then Some(IN_PROGRESS)
    else if text == "completed" then Some(COMPLETED)
    else if text == "cancelled" then Some(CANCELLED)
    else if text == "overdue" then Some(OVERDUE)
    else None
  }

  /** `TaskPriorityEnum(text)`: the priority whose value is the text, or `ValueError`. */
  function ParseTaskPriority(text: string): (r: Option<TaskPriority>)
    ensures r.Some? ==> TaskPriorityValue(r.value) == text
    ensures r.None? ==> forall p: TaskPriority :: TaskPriorityValue(p) != text
  {
    if text == "low" then Some(TaskPriority.LOW)
    else if text == "medium" then Some(TaskPriority.MEDIUM)
    else if text == "high" then Some(TaskPriority.HIGH)
    else if text == "urgent" then Some(URGENT)
    else None
  }

  /** Every status and priority value reads back as itself. */
  lemma TaskValuesParse(s: TaskStatus, p: TaskPriority)
    ensures ParseTaskStatus(TaskStatusValue(s)) == Some(s)
    ensures ParseTaskPriority(TaskPriorityValue(p)) == Some(p)
  {
  }

  /**
   * How a body names the assignee: not at all, by an empty string (which
   * skips the membership check and is then written to the UUID column), or
   * by a user id.
   */
  datatype UserRef = NotGiven | Blank | UserId(id: Id)

  datatype TaskCreate = TaskCreate(
    clientId: Id,
    title: string,
    description: Option<string>,
    priority: TaskPriority,
    dueDate: Option<Moment>,
    assignedTo: UserRef)

  /** A body that names only the client and the title: a medium-priority task, unassigned. */
  function MinimalTask(clientId: Id, title: string): (r: TaskCreate)
    ensures r.priority == TaskPriority.MEDIUM && r.assignedTo.NotGiven? && r.dueDate.None?
  {
    TaskCreate(clientId, title, None, TaskPriority.MEDIUM, None, NotGiven)
  }

  function TaskCreateViolations(t: TaskCreate): (r: seq<Violation>)
    ensures r == [] <==> 5 <= |t.title| <= 200 && (t.description.None? || |t.description.value| <= 1000)
  {
    Then(Bounds("title", t.title, 5, 200),
    Then(OptionalBounds("description", t.description, 0, 1000), []))
  }

  datatype TaskUpdate = TaskUpdate(
    title: Option<string>,
    description: Option<string>,
    priority: Option<TaskPriority>,
    status: Option<TaskStatus>,
    dueDate: Option<Moment>,
    assignedTo: UserRef,
    notes: Option<string>)

  function TaskUpdateViolations(t: TaskUpdate): (r: seq<Violation>)
    ensures r == [] <==> (t.title.None? || 5 <= |t.title.value| <= 200)
                         && (t.description.None? || |t.description.value| <= 1000)
                         && (t.notes.None? || |t.notes.value| <= 500)
  {
    Then(OptionalBounds("title", t.title, 5, 200),
    Then(OptionalBounds("description", t.description, 0, 1000),
    Then(OptionalBounds("notes", t.notes, 0, 500), [])))
  }
}
