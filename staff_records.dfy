/**
 * The staff-side tables a manager reviews: time-off requests, staff
 * certifications, training programs and the training records that enrol a
 * staff member in a program.
 */
module StaffRecords {
  import opened Common

  datatype TimeOffType = VACATION | SICK | PERSONAL | BEREAVEMENT | JURY_DUTY | FMLA

  datatype TimeOffStatus = PENDING | APPROVED | DENIED | CANCELLED

  /** `TimeOffStatus.value`. */
  function TimeOffStatusValue(s: TimeOffStatus): (r: string)
    ensures TimeOffStatusFromValue(r) == Some(s)
  {
    match s
    case PENDING => "pending"
    case APPROVED => "approved"
    case DENIED => "denied"
    case CANCELLED => "cancelled"
  }

  /** `TimeOffStatus(text)`: the status of that value, if any. */
  function TimeOffStatusFromValue(s: string): (r: Option<TimeOffStatus>)
    ensures r.None? <==> s !in {"pending", "approved", "denied", "cancelled"}
  {
    if s == "pending" then Some(PENDING)
    else if s == "approved" then Some(APPROVED)
    else if s == "denied" then Some(DENIED)
    else if s == "cancelled" then Some(CANCELLED)
    else None
  }

  /**
   * A row of `time_off_requests`. `totalHoursHundredths` is `total_hours`
   * (`DECIMAL(5,2)`) in hundredths of an hour; `approvedBy` is the key of
   * the reviewing user, whatever the decision.
   */
  datatype TimeOffRequest = TimeOffRequest(
    id: Id,
    staffId: Id,
    requestType: TimeOffType,
    startDate: Day,
    endDate: Day,
    totalHoursHundredths: int,
    reason: Option<string>,
    status: TimeOffStatus,
    requestedDate: Moment,
    approvedBy: Option<Id>,
    approvedDate: Option<Moment>,
    denialReason: Option<string>,
    updatedAt: Moment)

  datatype CertificationStatus = ACTIVE | EXPIRED | PENDING_RENEWAL | SUSPENDED

  /** A row of `staff_certifications`, with the columns the manager's alerts read. */
  datatype StaffCertification = StaffCertification(
    id: Id,
    staffId: Id,
    certificationType: string,
    certificationName: string,
    issuingOrganization: string,
    issueDate: Day,
    expiryDate: Option<Day>,
    status: CertificationStatus)

  /** A row of `training_programs`; it has a `program_name` and no `title`. */
  datatype TrainingProgram = TrainingProgram(
    id: Id,
    organizationId: Id,
    programName: string,
    description: Option<string>,
    category: Option<string>,
    isMandatory: bool,
    isActive: bool)

  datatype TrainingStatus = NOT_STARTED | IN_PROGRESS | COMPLETED | OVERDUE | EXEMPTED

  /** `TrainingStatus.value`. */
  function TrainingStatusValue(s: TrainingStatus): string
  {
    match s
    case NOT_STARTED => "not_started"
    case IN_PROGRESS => "in_progress"
    case COMPLETED => "completed"
    case OVERDUE => "overdue"
    case EXEMPTED => "exempted"
  }

  /** `TrainingStatus[name]`: the member of that name, if any (a missing name raises `KeyError`). */
  function TrainingStatusByName(s: string): (r: Option<TrainingStatus>)
    ensures r.None? <==> s !in {"NOT_STARTED", "IN_PROGRESS", "COMPLETED", "OVERDUE", "EXEMPTED"}
  {
    if s == "NOT_STARTED" then Some(NOT_STARTED)
    else if s == "IN_PROGRESS" then Some(IN_PROGRESS)
    else if s == "COMPLETED" then Some(COMPLETED)
    else if s == "OVERDUE" then Some(OVERDUE)
    else if s == "EXEMPTED" then Some(EXEMPTED)
    else None
  }

  /** A row of `training_records`: one staff member enrolled in one program. */
  datatype TrainingRecord = TrainingRecord(
    id: Id,
    staffId: Id,
    trainingProgramId: Id,
    enrollmentDate: Day,
    startDate: Option<Day>,
    completionDate: Option<Day>,
    dueDate: Option<Day>,
    status: TrainingStatus,
    notes: Option<string>)

  function TrainingRecordIdOf(r: TrainingRecord): Id
  {
    r.id
  }

  function EnrollmentDay(r: TrainingRecord): int
  {
    DayNumber(r.enrollmentDate)
  }
}
