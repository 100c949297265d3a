/**
 * The manager's console (`/manager`): reviewing time-off requests, the
 * certification alerts, the training assignments and the recent training
 * activity, assigning a training program to staff, the completion rates of
 * the dashboards, and the default week of the shift and appointment lists.
 */
module Manager {
  import opened Common
  import opened UserSchemas
  import opened StaffModel
  import opened StaffRecords
  import SchedulingDb
  import Tasks
  import DocumentationSchemas

  // ---------------------------------------------------------------------
  // Time off
  // ---------------------------------------------------------------------

  /**
   * `(end_date - start_date).days + 1`: both ends count, so a request for a
   * single day asks for 1 day, and one whose end precedes its start asks
   * for none or fewer.
   */
  function DaysRequested(start: Day, end: Day): (r: int)
    ensures start == end ==> r == 1
    ensures r >= 1 <==> DayNumber(start) <= DayNumber(end)
  {
    DaysBetween(start, end) + 1
  }

  /** Splitting a request after any of its days into two back-to-back requests keeps the number of days. */
  lemma SplitRequestKeepsDays(start: Day, mid: Day, end: Day)
    ensures DaysRequested(start, end) == DaysRequested(start, mid) + DaysRequested(NextDay(mid), end)
  {
  }

  /**
   * `ApprovalStatus`, the action of a review. Its members include the
   * uppercase spellings a frontend sends.
   */
  datatype ApprovalStatus = PENDING | APPROVED | REJECTED | APPROVED_UPPER | DENIED

  /** `ApprovalStatus.value`. */
  function ApprovalValue(a: ApprovalStatus): (r: string)
    ensures r == "APPROVED" <==> a == ApprovalStatus.APPROVED_UPPER
  {
    match a
    case PENDING => "pending"
    case APPROVED => "approved"
    case REJECTED => "rejected"
    case APPROVED_UPPER => "APPROVED"
    case DENIED => "DENIED"
  }

  /** The body of `POST /manager/time-off-requests/{id}/approve`. */
  datatype ApprovalAction = ApprovalAction(action: ApprovalStatus, notes: Option<string>)

  /** The notes of a review are at most 1000 characters long. */
  function ApprovalViolations(a: ApprovalAction): (r: seq<Violation>)
    ensures r == [] <==> a.notes.None? || |a.notes.value| <= 1000
  {
    Then(OptionalBounds("notes", a.notes, 0, 1000), [])
  }

  /**
   * A request after `reviewer` reviewed it at `now`. Only the action whose
   * value is exactly "APPROVED" approves; every other action, the lowercase
   * "approved" included, denies and records the notes as the reason. The
   * reviewer and the moment are recorded either way.
   */
  function Reviewed(t: TimeOffRequest, a: ApprovalAction, reviewer: Id, now: Moment): (r: TimeOffRequest)
    ensures r.status == TimeOffStatus.APPROVED <==> ApprovalValue(a.action) == "APPROVED"
    ensures r.status != TimeOffStatus.APPROVED ==> r.status == TimeOffStatus.DENIED && r.denialReason == a.notes
    ensures r.status == TimeOffStatus.APPROVED ==> r.denialReason == t.denialReason
    ensures r.approvedBy == Some(reviewer) && r.approvedDate == Some(now) && r.updatedAt == now
    ensures r.id == t.id && r.staffId == t.staffId && r.requestType == t.requestType
    ensures r.startDate == t.startDate && r.endDate == t.endDate && r.reason == t.reason
    ensures r.totalHoursHundredths == t.totalHoursHundredths && r.requestedDate == t.requestedDate
  {
    var decided := if a.action == ApprovalStatus.APPROVED_UPPER then t.(status := TimeOffStatus.APPROVED)
                   else t.(status := TimeOffStatus.DENIED, denialReason := a.notes);
    decided.(approvedBy := Some(reviewer), approvedDate := Some(now), updatedAt := now)
  }

  /** The lowercase "approved" the schema also accepts denies the request. */
  lemma LowercaseApprovedDenies(t: TimeOffRequest, notes: Option<string>, reviewer: Id, now: Moment)
    ensures Reviewed(t, ApprovalAction(ApprovalStatus.APPROVED, notes), reviewer, now).status == TimeOffStatus.DENIED
    ensures Reviewed(t, ApprovalAction(ApprovalStatus.APPROVED, notes), reviewer, now).denialReason == notes
  {
  }

  /** The time-off request with key `id` whose staff member belongs to `org` (the join on `staff`). */
  function RequestOf(staff: seq<Staff>, id: Id, org: Option<Id>): TimeOffRequest -> bool
  {
    (t: TimeOffRequest) => t.id == id && StaffInOrg(staff, t.staffId, org)
  }

  /** The position of that request, as `.first()` finds it. */
  function FindRequest(requests: seq<TimeOffRequest>, staff: seq<Staff>, id: Id, org: Option<Id>): (r: Option<nat>)
    ensures r.Some? ==> r.value < |requests| && requests[r.value].id == id && StaffInOrg(staff, requests[r.value].staffId, org)
    ensures r.None? ==> forall k :: 0 <= k < |requests| ==> !(requests[k].id == id && StaffInOrg(staff, requests[k].staffId, org))
  {
    FirstMatch(requests, RequestOf(staff, id, org))
  }

  /**
   * A reviewed request is found again at the same place and is no longer
   * pending, so a second review of it is refused.
   */
  lemma ReviewIsFinal(requests: seq<TimeOffRequest>, staff: seq<Staff>, id: Id, org: Option<Id>,
                      a: ApprovalAction, reviewer: Id, now: Moment)
    requires FindRequest(requests, staff, id, org).Some?
    ensures var k := FindRequest(requests, staff, id, org).value;
            var after := requests[k := Reviewed(requests[k], a, reviewer, now)];
            FindRequest(after, staff, id, org) == Some(k) && after[k].status != TimeOffStatus.PENDING
  {
    var k := FindRequest(requests, staff, id, org).value;
    var after := requests[k := Reviewed(requests[k], a, reviewer, now)];
    var p := RequestOf(staff, id, org);
    assert forall m :: 0 <= m < |after| ==> p(after[m]) == p(requests[m]);
  }

  /** What the review endpoint answers. */
  datatype ReviewReply = ReviewReply(message: string, requestId: Id, status: string)

  const REQUEST_NOT_FOUND := "Time off request not found"
  const ALREADY_REVIEWED := "Request already reviewed"

  /** The `time_off_requests` table. */
  class TimeOffDesk {
    var requests: seq<TimeOffRequest>

    constructor (rows: seq<TimeOffRequest>)
      ensures requests == rows
    {
      requests := rows;
    }

    /**
     * `approve_time_off_request`: 404 unless the request belongs to the
     * caller's organization, 400 unless it is still pending; otherwise the
     * review is recorded and the reply echoes the action's value.
     */
    method Approve(staff: seq<Staff>, reviewer: Id, org: Option<Id>, id: Id, a: ApprovalAction, now: Moment)
      returns (r: Result<ReviewReply>)
      requires ApprovalViolations(a) == []
      modifies this
      ensures FindRequest(old(requests), staff, id, org).None? ==>
                r == Err(NOT_FOUND, REQUEST_NOT_FOUND) && requests == old(requests)
      ensures FindRequest(old(requests), staff, id, org).Some? ==>
                var k := FindRequest(old(requests), staff, id, org).value;
                if old(requests)[k].status != TimeOffStatus.PENDING then
                  r == Err(BAD_REQUEST, ALREADY_REVIEWED) && requests == old(requests)
                else
                  && requests == old(requests)[k := Reviewed(old(requests)[k], a, reviewer, now)]
                  && r == Ok(ReviewReply("Time off request " + ApprovalValue(a.action), id,
                                         TimeOffStatusValue(requests[k].status)))
    {
      var found := FindRequest(requests, staff, id, org);
      if found.None? {
        return Err(NOT_FOUND, REQUEST_NOT_FOUND);
      }
      var k := found.value;
      if requests[k].status != TimeOffStatus.PENDING {
        return Err(BAD_REQUEST, ALREADY_REVIEWED);
      }
      var t := Reviewed(requests[k], a, reviewer, now);
      requests := requests[k := t];
      r := Ok(ReviewReply("Time off request " + ApprovalValue(a.action), id, TimeOffStatusValue(t.status)));
    }
  }

  // ---------------------------------------------------------------------
  // Certification alerts
  // ---------------------------------------------------------------------

  /** The alert status of a certificate that expires in `days` days. */
  function CertificationAlertStatus(days: int): (r: string)
    ensures r == "expired" <==> days < 0
    ensures r == "expiring_soon" <==> 0 <= days <= 30
    ensures r == "active" <==> days > 30
  {
    if days < 0 then "expired" else if days <= 30 then "expiring_soon" else "active"
  }

  /** Rank of an alert status: expired 0, expiring soon 1, active 2. */
  function AlertRank(status: string): int
  {
    if status == "expired" then 0 else if status == "expiring_soon" then 1 else 2
  }

  /** A certificate that expires later is never in a more urgent state. */
  lemma AlertStatusIsMonotone(d1: int, d2: int)
    requires d1 <= d2
    ensures AlertRank(CertificationAlertStatus(d1)) <= AlertRank(CertificationAlertStatus(d2))
  {
  }

  datatype CertificationAlert = CertificationAlert(staffId: Id, staffName: string, certificationName: string,
                                                   expiryDate: Day, daysUntilExpiry: int, status: string)

  /**
   * The certificates the alerts list: of a staff member of the
   * organization, with an expiry date no later than `daysAhead` days from
   * today, and still marked active.
   */
  function Alerted(staff: seq<Staff>, org: Option<Id>, today: Day, daysAhead: int): StaffCertification -> bool
  {
    (c: StaffCertification) =>
      && StaffInOrg(staff, c.staffId, org)
      && c.expiryDate.Some?
      && DayNumber(c.expiryDate.value) <= DayNumber(today) + daysAhead
      && c.status == CertificationStatus.ACTIVE
  }

  function ExpiryDay(c: StaffCertification): int
  {
    if c.expiryDate.Some? then DayNumber(c.expiryDate.value) else 0
  }

  /** `staff.full_name` of the staff member with key `staffId`, or "Unknown" without one. */
  function StaffNameOf(staff: seq<Staff>, users: seq<UserRecord>, staffId: Id, org: Option<Id>): string
  {
    var s := FindStaff(staff, staffId, org);
    if s.None? then "Unknown" else FullName(UserById(users, s.value.userId))
  }

  function AlertOf(staff: seq<Staff>, users: seq<UserRecord>, org: Option<Id>, today: Day): StaffCertification -> CertificationAlert
  {
    (c: StaffCertification) =>
      var expiry := if c.expiryDate.Some? then c.expiryDate.value else today;
      var days := DaysBetween(today, expiry);
      CertificationAlert(c.staffId, StaffNameOf(staff, users, c.staffId, org), c.certificationName, expiry, days,
                         CertificationAlertStatus(days))
  }

  /**
   * `get_certification_alerts`: the listed certificates, soonest expiry
   * first, each with the days until it expires and the status those days
   * give.
   */
  function CertificationAlerts(certs: seq<StaffCertification>, staff: seq<Staff>, users: seq<UserRecord>,
                               org: Option<Id>, today: Day, daysAhead: int): (r: seq<CertificationAlert>)
    ensures |r| == Count(certs, Alerted(staff, org, today, daysAhead))
    ensures forall k :: 0 <= k < |r| ==>
              && r[k].daysUntilExpiry == DayNumber(r[k].expiryDate) - DayNumber(today)
              && r[k].daysUntilExpiry <= daysAhead
              && r[k].status == CertificationAlertStatus(r[k].daysUntilExpiry)
    ensures forall i, j :: 0 <= i < j < |r| ==> r[i].daysUntilExpiry <= r[j].daysUntilExpiry
  {
    var listed := SelectAsc(certs, Alerted(staff, org, today, daysAhead), ExpiryDay);
    var alerts := MapSeq(listed, AlertOf(staff, users, org, today));
    assert forall k :: 0 <= k < |listed| ==> listed[k].expiryDate.Some? && alerts[k].expiryDate == listed[k].expiryDate.value;
    alerts
  }

  /** Looking no more than 30 days ahead, no alert is merely "active". */
  lemma ShortHorizonHasNoActiveAlert(certs: seq<StaffCertification>, staff: seq<Staff>, users: seq<UserRecord>,
                                     org: Option<Id>, today: Day, daysAhead: int)
    requires daysAhead <= 30
    ensures forall k :: 0 <= k < |CertificationAlerts(certs, staff, users, org, today, daysAhead)| ==>
              CertificationAlerts(certs, staff, users, org, today, daysAhead)[k].status != "active"
  {
  }

  /** Expired certificates come before every other alert. */
  lemma ExpiredAlertsComeFirst(certs: seq<StaffCertification>, staff: seq<Staff>, users: seq<UserRecord>,
                               org: Option<Id>, today: Day, daysAhead: int)
    ensures var r := CertificationAlerts(certs, staff, users, org, today, daysAhead);
            forall i, j :: 0 <= i < j < |r| && r[j].status == "expired" ==> r[i].status == "expired"
  {
  }

  // ---------------------------------------------------------------------
  // Training assignments
  // ---------------------------------------------------------------------

  /**
   * The priority of an assignment: "medium" without a due date; otherwise
   * "high" when due in fewer than 7 days (or overdue), "low" when due in
   * more than 30, and "medium" in between.
   */
  function TrainingPriority(due: Option<Day>, today: Day): (r: string)
    ensures due.None? ==> r == "medium"
    ensures due.Some? ==> (r == "high" <==> DaysBetween(today, due.value) < 7)
    ensures due.Some? ==> (r == "low" <==> DaysBetween(today, due.value) > 30)
    ensures r in {"high", "medium", "low"}
  {
    if due.None? then "medium"
    else
      var days := DaysBetween(today, due.value);
      if days < 7 then "high" else if days > 30 then "low" else "medium"
  }

  /** Rank of an assignment priority: high 2, medium 1, low 0. */
  function PriorityRank(p: string): int
  {
    if p == "high" then 2 else if p == "medium" then 1 else 0
  }

  /** Moving a due date later never raises the priority. */
  lemma LaterDueNeverRaisesPriority(d1: Day, d2: Day, today: Day)
    requires DayNumber(d1) <= DayNumber(d2)
    ensures PriorityRank(TrainingPriority(Some(d2), today)) <= PriorityRank(TrainingPriority(Some(d1), today))
  {
  }

  /** The progress shown for a status: 100 when completed, 50 while in progress, 0 otherwise. */
  function ProgressPercentage(s: TrainingStatus): (r: int)
    ensures r == 100 <==> s == TrainingStatus.COMPLETED
    ensures r == 50 <==> s == TrainingStatus.IN_PROGRESS
    ensures r == 0 <==> s != TrainingStatus.COMPLETED && s != TrainingStatus.IN_PROGRESS
  {
    if s == TrainingStatus.COMPLETED then 100 else if s == TrainingStatus.IN_PROGRESS then 50 else 0
  }

  /** The query of `GET /manager/training/assignments`; `limit` is at most 100. */
  datatype AssignmentQuery = AssignmentQuery(status: Option<string>, staffId: Option<Id>, limit: int, offset: int)

  predicate ValidAssignmentQuery(q: AssignmentQuery)
  {
    q.limit <= 100
  }

  /** The status filter: `TrainingStatus[status.upper()]`, dropped when no member has that name. */
  function StatusFilter(text: Option<string>): (r: Option<TrainingStatus>)
    ensures !Truthy(text) ==> r.None?
    ensures Truthy(text) ==> r == TrainingStatusByName(Upper(text.value))
  {
    if Truthy(text) then TrainingStatusByName(Upper(text.value)) else None
  }

  /** The program with key `id`, if any. */
  function ProgramById(programs: seq<TrainingProgram>, id: Id): (r: Option<TrainingProgram>)
    ensures r.Some? ==> r.value in programs && r.value.id == id
    ensures r.None? ==> forall k :: 0 <= k < |programs| ==> programs[k].id != id
  {
    var i := FirstMatch(programs, (p: TrainingProgram) => p.id == id);
    if i.None? then None else Some(programs[i.value])
  }

  /**
   * The records the assignment list selects: joined to a staff member of
   * the organization and to a program, then the status and staff filters.
   */
  function Assignment(staff: seq<Staff>, programs: seq<TrainingProgram>, org: Option<Id>,
                      status: Option<TrainingStatus>, staffId: Option<Id>): TrainingRecord -> bool
  {
    (r: TrainingRecord) =>
      && StaffInOrg(staff, r.staffId, org)
      && ProgramById(programs, r.trainingProgramId).Some?
      && (status.None? || r.status == status.value)
      && (staffId.None? || r.staffId == staffId.value)
  }

  datatype AssignmentSummary = AssignmentSummary(
    id: Id,
    courseTitle: string,
    staffName: string,
    staffId: Id,
    assignedDate: Day,
    dueDate: Option<Day>,
    completionStatus: string,
    completedDate: Option<Day>,
    progressPercentage: int,
    priority: string)

  /** The summary of one record, with the program's name as the course title. */
  function SummaryOf(staff: seq<Staff>, users: seq<UserRecord>, programs: seq<TrainingProgram>, org: Option<Id>,
                     today: Day): TrainingRecord -> AssignmentSummary
  {
    (r: TrainingRecord) =>
      var program := ProgramById(programs, r.trainingProgramId);
      var member := FindStaff(staff, r.staffId, org);
      var user := if member.Some? then UserById(users, member.value.userId) else None;
      AssignmentSummary(r.id, if program.Some? then program.value.programName else "",
                        if user.Some? then FullName(user) else "Unknown", r.staffId, r.enrollmentDate, r.dueDate,
                        TrainingStatusValue(r.status), r.completionDate, ProgressPercentage(r.status),
                        TrainingPriority(r.dueDate, today))
  }

  const ASSIGNMENTS_FAILED := "Failed to retrieve training assignments: "

  /** The page of the selected records, newest enrollment first, or the database's refusal of a negative bound. */
  function AssignmentPage(records: seq<TrainingRecord>, staff: seq<Staff>, programs: seq<TrainingProgram>,
                          org: Option<Id>, q: AssignmentQuery): (r: Result<seq<TrainingRecord>>)
    ensures r.Ok? <==> q.limit >= 0 && q.offset >= 0
    ensures r.Err? ==> r.status == INTERNAL_ERROR && StartsWith(r.detail, ASSIGNMENTS_FAILED)
    ensures r.Ok? ==>
              var p := Assignment(staff, programs, org, StatusFilter(q.status), q.staffId);
              && r.value == Window(SelectDesc(records, p, EnrollmentDay), q.offset, q.limit)
              && |r.value| <= q.limit
              && (forall k :: 0 <= k < |r.value| ==> r.value[k] in records && p(r.value[k]))
              && (forall i, j :: 0 <= i < j < |r.value| ==> EnrollmentDay(r.value[i]) >= EnrollmentDay(r.value[j]))
  {
    if q.limit < 0 then
      StartsWithPrefix(ASSIGNMENTS_FAILED, "LIMIT must not be negative");
      Err(INTERNAL_ERROR, ASSIGNMENTS_FAILED + "LIMIT must not be negative")
    else if q.offset < 0 then
      StartsWithPrefix(ASSIGNMENTS_FAILED, "OFFSET must not be negative");
      Err(INTERNAL_ERROR, ASSIGNMENTS_FAILED + "OFFSET must not be negative")
    else
      var p := Assignment(staff, programs, org, StatusFilter(q.status), q.staffId);
      Ok(Window(SelectDesc(records, p, EnrollmentDay), q.offset, q.limit))
  }

  lemma StartsWithPrefix(a: string, b: string)
    ensures StartsWith(a + b, a)
  {
    assert (a + b)[..|a|] == a;
  }

  /**
   * `get_training_assignments` with the program's name as the course title:
   * one summary per record of the page, in its order, each carrying its
   * record's key, its program's name, and the progress and priority of its
   * record's status and due date.
   */
  function TrainingAssignments(records: seq<TrainingRecord>, staff: seq<Staff>, users: seq<UserRecord>,
                               programs: seq<TrainingProgram>, org: Option<Id>, q: AssignmentQuery, today: Day)
    : (r: Result<seq<AssignmentSummary>>)
    requires ValidAssignmentQuery(q)
    ensures r.Ok? <==> q.limit >= 0 && q.offset >= 0
    ensures r.Err? ==> r.status == INTERNAL_ERROR
    ensures r.Ok? ==>
              var page := AssignmentPage(records, staff, programs, org, q).value;
              && r.value == MapSeq(page, SummaryOf(staff, users, programs, org, today))
              && |r.value| == |page| <= q.limit
              && forall k :: 0 <= k < |page| ==>
                   && r.value[k].id == page[k].id
                   && ProgramById(programs, page[k].trainingProgramId).Some?
                   && r.value[k].courseTitle == ProgramById(programs, page[k].trainingProgramId).value.programName
                   && r.value[k].progressPercentage == ProgressPercentage(page[k].status)
                   && r.value[k].priority == TrainingPriority(page[k].dueDate, today)
  {
    var page := AssignmentPage(records, staff, programs, org, q);
    if page.Err? then Err(page.status, page.detail)
    else Ok(MapSeq(page.value, SummaryOf(staff, users, programs, org, today)))
  }

  const NO_TITLE := "'TrainingProgram' object has no attribute 'title'"

  /**
   * `get_training_assignments` as written: building a summary reads
   * `program.title`, which a training program does not have, so any page
   * with a record fails with a 500; only an empty page comes back.
   */
  function TrainingAssignmentsAsWritten(records: seq<TrainingRecord>, staff: seq<Staff>, users: seq<UserRecord>,
                                        programs: seq<TrainingProgram>, org: Option<Id>, q: AssignmentQuery, today: Day)
    : (r: Result<seq<AssignmentSummary>>)
    requires ValidAssignmentQuery(q)
    ensures r.Ok? ==> r.value == []
    ensures (var page := AssignmentPage(records, staff, programs, org, q); page.Ok? && page.value != []) ==>
              r == Err(INTERNAL_ERROR, ASSIGNMENTS_FAILED + NO_TITLE)
  {
    var page := AssignmentPage(records, staff, programs, org, q);
    if page.Err? then Err(page.status, page.detail)
    else if page.value != [] then Err(INTERNAL_ERROR, ASSIGNMENTS_FAILED + NO_TITLE)
    else Ok([])
  }

  /** As written, a record on the first page of an organization makes the list fail. */
  lemma AssignmentsFailAsWritten(records: seq<TrainingRecord>, staff: seq<Staff>, users: seq<UserRecord>,
                                 programs: seq<TrainingProgram>, org: Option<Id>, q: AssignmentQuery, today: Day,
                                 rec: TrainingRecord)
    requires ValidAssignmentQuery(q) && q.limit >= 1 && q.offset == 0
    requires rec in records && Assignment(staff, programs, org, StatusFilter(q.status), q.staffId)(rec)
    ensures TrainingAssignmentsAsWritten(records, staff, users, programs, org, q, today)
            == Err(INTERNAL_ERROR, ASSIGNMENTS_FAILED + NO_TITLE)
    ensures TrainingAssignments(records, staff, users, programs, org, q, today).Ok?
  {
    var p := Assignment(staff, programs, org, StatusFilter(q.status), q.staffId);
    var k :| 0 <= k < |records| && records[k] == rec;
    assert rec in Filter(records, p);
    assert Count(records, p) >= 1;
  }

  // ---------------------------------------------------------------------
  // Assigning training
  // ---------------------------------------------------------------------

  /** The body of `POST /manager/training/assign`. */
  datatype TrainingAssignment = TrainingAssignment(courseId: Id, staffIds: seq<Id>, dueDate: Option<Day>,
                                                   notes: Option<string>)

  /** At least one staff key, and notes of at most 500 characters. */
  function TrainingAssignmentViolations(a: TrainingAssignment): (r: seq<Violation>)
    ensures r == [] <==> |a.staffIds| >= 1 && (a.notes.None? || |a.notes.value| <= 500)
  {
    Then(MinItems("staff_ids", a.staffIds, 1), Then(OptionalBounds("notes", a.notes, 0, 500), []))
  }

  /** Whether `staffId` already has a record for `course` in `rows`. */
  predicate Enrolled(rows: seq<TrainingRecord>, staffId: Id, course: Id)
  {
    exists k :: 0 <= k < |rows| && rows[k].staffId == staffId && rows[k].trainingProgramId == course
  }

  /**
   * The staff keys the loop enrols: a staff member of the organization with
   * no record for the course among the committed rows. The session does
   * not flush, so records added earlier in the same loop are not seen.
   */
  function Eligible(staff: seq<Staff>, committed: seq<TrainingRecord>, org: Option<Id>, course: Id): Id -> bool
  {
    (id: Id) => StaffInOrg(staff, id, org) && !Enrolled(committed, id, course)
  }

  /** The record the loop adds for one staff member: not started, enrolled today. */
  function NewRecord(id: Id, staffId: Id, a: TrainingAssignment, today: Day): (r: TrainingRecord)
    ensures r.status == TrainingStatus.NOT_STARTED && r.enrollmentDate == today
    ensures r.staffId == staffId && r.trainingProgramId == a.courseId && r.dueDate == a.dueDate
    ensures r.notes == a.notes && r.startDate.None? && r.completionDate.None?
  {
    TrainingRecord(id, staffId, a.courseId, today, None, None, a.dueDate, TrainingStatus.NOT_STARTED, a.notes)
  }

  /** The rows added for `ids` in turn after `rows`, each under a key no earlier row has. */
  function Enrolments(rows: seq<TrainingRecord>, ids: seq<Id>, a: TrainingAssignment, today: Day)
    : (r: seq<TrainingRecord>)
    ensures |r| == |ids|
    decreases |ids|
  {
    if ids == [] then []
    else
      var earlier := Enrolments(rows, ids[..|ids| - 1], a, today);
      earlier + [NewRecord(SchedulingDb.NextKey(rows + earlier, TrainingRecordIdOf), ids[|ids| - 1], a, today)]
  }

  /** Enrolling one more key appends one row, keyed above every row before it. */
  lemma EnrolmentsSnoc(rows: seq<TrainingRecord>, ids: seq<Id>, id: Id, a: TrainingAssignment, today: Day)
    ensures Enrolments(rows, ids + [id], a, today)
            == Enrolments(rows, ids, a, today)
               + [NewRecord(SchedulingDb.NextKey(rows + Enrolments(rows, ids, a, today), TrainingRecordIdOf), id, a, today)]
  {
    assert (ids + [id])[..|ids|] == ids;
  }

  /** Each added row is for its staff key and the course, and its key is above those of all rows before it. */
  lemma {:induction false} EnrolmentsAreNewRecords(rows: seq<TrainingRecord>, ids: seq<Id>, a: TrainingAssignment, today: Day)
    ensures var added := Enrolments(rows, ids, a, today);
            forall k :: 0 <= k < |ids| ==>
              && added[k] == NewRecord(added[k].id, ids[k], a, today)
              && (forall m :: 0 <= m < |rows + added| && m < |rows| + k ==> (rows + added)[m].id < added[k].id)
    decreases |ids|
  {
    if ids != [] {
      var init := ids[..|ids| - 1];
      EnrolmentsAreNewRecords(rows, init, a, today);
      var earlier := Enrolments(rows, init, a, today);
      var added := Enrolments(rows, ids, a, today);
      assert added == earlier + [added[|ids| - 1]];
      forall k | 0 <= k < |ids|
        ensures added[k] == NewRecord(added[k].id, ids[k], a, today)
        ensures forall m :: 0 <= m < |rows + added| && m < |rows| + k ==> (rows + added)[m].id < added[k].id
      {
        if k < |init| {
          assert added[k] == earlier[k] && ids[k] == init[k];
          forall m | 0 <= m < |rows + added| && m < |rows| + k
            ensures (rows + added)[m].id < added[k].id
          {
            assert (rows + added)[m] == (rows + earlier)[m];
          }
        } else {
          forall m | 0 <= m < |rows + added| && m < |rows| + k
            ensures (rows + added)[m].id < added[k].id
          {
            assert (rows + added)[m] == (rows + earlier)[m];
            assert TrainingRecordIdOf((rows + earlier)[m]) == (rows + earlier)[m].id;
          }
        }
      }
    }
  }

  /** What the assignment endpoint answers. */
  datatype AssignReply = AssignReply(message: string, courseId: Id, assignedCount: nat)

  const COURSE_NOT_FOUND := "Training course not found"

  /** The program with key `id` of organization `org`, as `.first()` finds it. */
  function CourseInOrg(programs: seq<TrainingProgram>, id: Id, org: Option<Id>): (r: Option<nat>)
    ensures r.Some? ==> r.value < |programs| && programs[r.value].id == id && Some(programs[r.value].organizationId) == org
    ensures r.None? ==> forall k :: 0 <= k < |programs| ==> !(programs[k].id == id && Some(programs[k].organizationId) == org)
  {
    FirstMatch(programs, (p: TrainingProgram) => p.id == id && Some(p.organizationId) == org)
  }

  /**
   * The loop of `assign_training` over the staff keys: each key `eligible`
   * lets through gets a new record, added to the session, and is counted.
   */
  method EnrolEach(rows: seq<TrainingRecord>, ids: seq<Id>, eligible: Id -> bool, a: TrainingAssignment, today: Day)
    returns (added: seq<TrainingRecord>, count: nat)
    ensures added == Enrolments(rows, Filter(ids, eligible), a, today)
    ensures count == |added| == Count(ids, eligible)
  {
    added, count := [], 0;
    var i := 0;
    while i < |ids|
      invariant 0 <= i <= |ids|
      invariant EnrolledUpTo(rows, ids, i, eligible, a, today, added, count)
    {
      EnrolStep(rows, ids, i, eligible, a, today);
      if eligible(ids[i]) {
        added := added + [NewRecord(SchedulingDb.NextKey(rows + added, TrainingRecordIdOf), ids[i], a, today)];
        count := count + 1;
      }
      i := i + 1;
    }
    assert ids[..i] == ids;
  }

  /** After the first `i` keys, the loop holds the rows and the count of the eligible ones among them. */
  ghost predicate EnrolledUpTo(rows: seq<TrainingRecord>, ids: seq<Id>, i: nat, eligible: Id -> bool,
                               a: TrainingAssignment, today: Day, added: seq<TrainingRecord>, count: nat)
    requires i <= |ids|
  {
    added == Enrolments(rows, Filter(ids[..i], eligible), a, today) && count == |Filter(ids[..i], eligible)|
  }

  /** One more key of the loop adds its row exactly when `eligible` lets it through. */
  lemma EnrolStep(rows: seq<TrainingRecord>, ids: seq<Id>, i: nat, eligible: Id -> bool, a: TrainingAssignment, today: Day)
    requires i < |ids|
    ensures var before := Enrolments(rows, Filter(ids[..i], eligible), a, today);
            && |Filter(ids[..i + 1], eligible)| == |Filter(ids[..i], eligible)| + (if eligible(ids[i]) then 1 else 0)
            && Enrolments(rows, Filter(ids[..i + 1], eligible), a, today)
               == before + if eligible(ids[i])
                           then [NewRecord(SchedulingDb.NextKey(rows + before, TrainingRecordIdOf), ids[i], a, today)]
                           else []
  {
    var chosen := Filter(ids[..i], eligible);
    assert ids[..i + 1] == ids[..i] + [ids[i]];
    FilterSnoc(ids[..i], ids[i], eligible);
    if eligible(ids[i]) {
      EnrolmentsSnoc(rows, chosen, ids[i], a, today);
    } else {
      assert Filter(ids[..i + 1], eligible) == chosen;
    }
  }

  /** The `training_programs` and `training_records` tables. */
  class TrainingDesk {
    var programs: seq<TrainingProgram>
    var records: seq<TrainingRecord>

    constructor (programRows: seq<TrainingProgram>, recordRows: seq<TrainingRecord>)
      ensures programs == programRows && records == recordRows
    {
      programs := programRows;
      records := recordRows;
    }

    /**
     * `assign_training`: 404 unless the course is a program of the caller's
     * organization; otherwise every listed staff member of the organization
     * who has no record for the course yet is enrolled, and the reply
     * counts the new records.
     */
    method AssignTraining(staff: seq<Staff>, org: Option<Id>, a: TrainingAssignment, today: Day)
      returns (r: Result<AssignReply>)
      requires TrainingAssignmentViolations(a) == []
      modifies this`records
      ensures CourseInOrg(programs, a.courseId, org).None? ==>
                r == Err(NOT_FOUND, COURSE_NOT_FOUND) && records == old(records)
      ensures CourseInOrg(programs, a.courseId, org).Some? ==>
                var chosen := Filter(a.staffIds, Eligible(staff, old(records), org, a.courseId));
                && records == old(records) + Enrolments(old(records), chosen, a, today)
                && r == Ok(AssignReply("Training assigned to " + NatToString(|chosen|) + " staff members",
                                       a.courseId, |chosen|))
    {
      var course := CourseInOrg(programs, a.courseId, org);
      if course.None? {
        return Err(NOT_FOUND, COURSE_NOT_FOUND);
      }
      var added, count := EnrolEach(records, a.staffIds, Eligible(staff, records, org, a.courseId), a, today);
      records := records + added;
      r := Ok(AssignReply("Training assigned to " + NatToString(count) + " staff members", a.courseId, count));
    }
  }

  /** The count the endpoint reports is the number of listed keys that are eligible. */
  lemma AssignedCountIsEligibleCount(staff: seq<Staff>, committed: seq<TrainingRecord>, org: Option<Id>,
                                     a: TrainingAssignment, today: Day)
    ensures |Enrolments(committed, Filter(a.staffIds, Eligible(staff, committed, org, a.courseId)), a, today)|
            == Count(a.staffIds, Eligible(staff, committed, org, a.courseId))
  {
  }

  /** A key outside the organization or already enrolled gets no record. */
  lemma SkippedKeysGetNoRecord(staff: seq<Staff>, committed: seq<TrainingRecord>, org: Option<Id>,
                               a: TrainingAssignment, today: Day, id: Id)
    requires !StaffInOrg(staff, id, org) || Enrolled(committed, id, a.courseId)
    ensures var added := Enrolments(committed, Filter(a.staffIds, Eligible(staff, committed, org, a.courseId)), a, today);
            forall k :: 0 <= k < |added| ==> added[k].staffId != id
  {
    var chosen := Filter(a.staffIds, Eligible(staff, committed, org, a.courseId));
    EnrolmentsAreNewRecords(committed, chosen, a, today);
  }

  /**
   * Repeating the same assignment enrols nobody: every staff member the
   * first one let through now has a record for the course.
   */
  lemma RepeatedAssignmentEnrolsNobody(staff: seq<Staff>, committed: seq<TrainingRecord>, org: Option<Id>,
                                       a: TrainingAssignment, today: Day)
    ensures var after := committed + Enrolments(committed, Filter(a.staffIds, Eligible(staff, committed, org, a.courseId)), a, today);
            Filter(a.staffIds, Eligible(staff, after, org, a.courseId)) == []
  {
    var chosen := Filter(a.staffIds, Eligible(staff, committed, org, a.courseId));
    var added := Enrolments(committed, chosen, a, today);
    var after := committed + added;
    EnrolmentsAreNewRecords(committed, chosen, a, today);
    forall k | 0 <= k < |a.staffIds|
      ensures !Eligible(staff, after, org, a.courseId)(a.staffIds[k])
    {
      var id := a.staffIds[k];
      if Eligible(staff, committed, org, a.courseId)(id) {
        assert id in chosen;
        var m :| 0 <= m < |chosen| && chosen[m] == id;
        assert after[|committed| + m] == added[m];
      } else if StaffInOrg(staff, id, org) {
        var m :| 0 <= m < |committed| && committed[m].staffId == id && committed[m].trainingProgramId == a.courseId;
        assert after[m] == committed[m];
      }
    }
    NothingEligible(a.staffIds, Eligible(staff, after, org, a.courseId));
  }

  lemma NothingEligible(ids: seq<Id>, p: Id -> bool)
    requires forall k :: 0 <= k < |ids| ==> !p(ids[k])
    ensures Filter(ids, p) == []
  {
    assert forall x :: x in ids ==> !p(x);
  }

  /** A staff key listed twice is enrolled twice: the second check does not see the first, unflushed record. */
  lemma ListedTwiceEnrolledTwice(staff: seq<Staff>, committed: seq<TrainingRecord>, org: Option<Id>,
                                 a: TrainingAssignment, today: Day, id: Id)
    requires a.staffIds == [id, id] && StaffInOrg(staff, id, org) && !Enrolled(committed, id, a.courseId)
    ensures var added := Enrolments(committed, Filter(a.staffIds, Eligible(staff, committed, org, a.courseId)), a, today);
            |added| == 2 && added[0].staffId == id && added[1].staffId == id
  {
    var p := Eligible(staff, committed, org, a.courseId);
    FilterKeepsAll(a.staffIds, p);
    assert [id] + [id] == a.staffIds && [] + [id] == [id];
    EnrolmentsSnoc(committed, [], id, a, today);
    EnrolmentsSnoc(committed, [id], id, a, today);
  }

  // ---------------------------------------------------------------------
  // Recent training activity
  // ---------------------------------------------------------------------

  datatype ActivityKind = Completion | InProgress | DueSoon

  /** One entry of the recent training activity; `progress` is a whole percentage. */
  datatype ActivityItem = ActivityItem(kind: ActivityKind, staffName: string, courseTitle: string,
                                       progress: Option<int>, timestamp: Moment, staffCount: Option<nat>,
                                       daysUntilDue: Option<int>)

  function ActivityStamp(a: ActivityItem): int
  {
    Stamp(a.timestamp)
  }

  /** A row of the grouped due-date query: a program's name, a due date and how many records share them. */
  datatype DueGroup = DueGroup(programName: string, dueDate: Day, staffCount: nat)

  /** `datetime.combine(d, datetime.min.time())`. */
  function StartOfDay(d: Day): (r: Moment)
    ensures r.date == d && r.second == 0
  {
    DateTime(d, 0)
  }

  /** The user behind the staff member of a record, if both exist. */
  function RecordUser(staff: seq<Staff>, users: seq<UserRecord>, org: Option<Id>, r: TrainingRecord): Option<UserName>
  {
    var member := FindStaff(staff, r.staffId, org);
    if member.None? then None else UserById(users, member.value.userId)
  }

  /** A record whose staff member has a user and whose program exists gets an entry. */
  function Shown(staff: seq<Staff>, users: seq<UserRecord>, programs: seq<TrainingProgram>, org: Option<Id>)
    : TrainingRecord -> bool
  {
    (r: TrainingRecord) => RecordUser(staff, users, org, r).Some? && ProgramById(programs, r.trainingProgramId).Some?
  }

  /** The entry of a record: 100 % at the completion date, or 50 % at the start date, midnight; `now` without the date. */
  function RecordItem(staff: seq<Staff>, users: seq<UserRecord>, programs: seq<TrainingProgram>, org: Option<Id>,
                      kind: ActivityKind, now: Moment): TrainingRecord -> ActivityItem
  {
    (r: TrainingRecord) =>
      var user := RecordUser(staff, users, org, r);
      var program := ProgramById(programs, r.trainingProgramId);
      var day := if kind == Completion then r.completionDate else r.startDate;
      ActivityItem(kind, if user.Some? then user.value.firstName + " " + user.value.lastName else "",
                   if program.Some? then program.value.programName else "",
                   Some(if kind == Completion then 100 else 50),
                   if day.Some? then StartOfDay(day.value) else now, None, None)
  }

  function DueItem(today: Day): DueGroup -> ActivityItem
  {
    (g: DueGroup) =>
      ActivityItem(DueSoon, "", g.programName, None, StartOfDay(g.dueDate), Some(g.staffCount),
                   Some(DaysBetween(today, g.dueDate)))
  }

  /** Completed records of the organization's staff, completed in the last 7 days. */
  function RecentlyCompleted(staff: seq<Staff>, programs: seq<TrainingProgram>, org: Option<Id>, today: Day)
    : TrainingRecord -> bool
  {
    (r: TrainingRecord) =>
      && StaffInOrg(staff, r.staffId, org) && ProgramById(programs, r.trainingProgramId).Some?
      && r.status == TrainingStatus.COMPLETED
      && r.completionDate.Some? && DayNumber(r.completionDate.value) >= DayNumber(today) - 7
  }

  /** Records of the organization's staff in progress with a start date. */
  function Underway(staff: seq<Staff>, programs: seq<TrainingProgram>, org: Option<Id>): TrainingRecord -> bool
  {
    (r: TrainingRecord) =>
      && StaffInOrg(staff, r.staffId, org) && ProgramById(programs, r.trainingProgramId).Some?
      && r.status == TrainingStatus.IN_PROGRESS && r.startDate.Some?
  }

  function CompletionDay(r: TrainingRecord): int
  {
    if r.completionDate.Some? then DayNumber(r.completionDate.value) else 0
  }

  function StartDay(r: TrainingRecord): int
  {
    if r.startDate.Some? then DayNumber(r.startDate.value) else 0
  }

  /** `xs[:n]`: the first `n` items, or for a negative `n` all but the last `-n`. */
  function PyHead<T>(xs: seq<T>, n: int): (r: seq<T>)
    ensures r <= xs
    ensures n >= 0 ==> |r| == if n < |xs| then n else |xs|
    ensures n < 0 ==> |r| == if |xs| + n > 0 then |xs| + n else 0
  {
    if n >= 0 then Take(xs, n)
    else if |xs| + n > 0 then xs[..|xs| + n]
    else []
  }

  function DueDay(g: DueGroup): int
  {
    DayNumber(g.dueDate)
  }

  /** Groups due between today and seven days from today, both included. */
  function DueWithinWeek(today: Day): DueGroup -> bool
  {
    (g: DueGroup) => DayNumber(today) <= DayNumber(g.dueDate) <= DayNumber(today) + 7
  }

  /**
   * The entries of `get_recent_training_activity` before sorting: up to 5
   * recent completions, newest first, up to 3 trainings under way, latest
   * start first, and the 2 earliest due-date groups of the coming week.
   */
  function ActivityPool(records: seq<TrainingRecord>, staff: seq<Staff>, users: seq<UserRecord>,
                        programs: seq<TrainingProgram>, groups: seq<DueGroup>, org: Option<Id>, today: Day,
                        now: Moment): (r: seq<ActivityItem>)
    ensures |r| <= 5 + 3 + 2
  {
    var completed := Take(SelectDesc(records, RecentlyCompleted(staff, programs, org, today), CompletionDay), 5);
    var underway := Take(SelectDesc(records, Underway(staff, programs, org), StartDay), 3);
    var due := Take(SelectAsc(groups, DueWithinWeek(today), DueDay), 2);
    var shown := Shown(staff, users, programs, org);
    MapSeq(Filter(completed, shown), RecordItem(staff, users, programs, org, Completion, now))
    + MapSeq(Filter(underway, shown), RecordItem(staff, users, programs, org, InProgress, now))
    + MapSeq(due, DueItem(today))
  }

  /** The pool, newest first, cut to `limit` as the slice `[:limit]` cuts. */
  function RecentActivity(records: seq<TrainingRecord>, staff: seq<Staff>, users: seq<UserRecord>,
                          programs: seq<TrainingProgram>, groups: seq<DueGroup>, org: Option<Id>, today: Day,
                          now: Moment, limit: int): seq<ActivityItem>
  {
    PyHead(SortDesc(ActivityPool(records, staff, users, programs, groups, org, today, now), ActivityStamp), limit)
  }

  /**
   * `r` is a newest-first head of `pool`: sorted by `key` descending, every
   * entry taken from the pool, and no entry of the sorted pool past it newer
   * than any entry it keeps.
   */
  ghost predicate NewestHead<T>(pool: seq<T>, r: seq<T>, key: T -> int)
  {
    var sorted := SortDesc(pool, key);
    && SortedDesc(r, key)
    && (forall k :: 0 <= k < |r| ==> r[k] in pool)
    && (forall i, j :: 0 <= i < |r| <= j < |sorted| ==> key(sorted[j]) <= key(r[i]))
  }

  /**
   * The activity list is newest first, holds at most 10 entries, keeps
   * `limit` of the pool (all of it when shorter; a negative `limit` drops
   * that many from the end, as the slice does), takes every entry from the
   * pool, and every entry of the pool it drops is no newer than each entry
   * it keeps.
   */
  lemma RecentActivityIsTheNewest(records: seq<TrainingRecord>, staff: seq<Staff>, users: seq<UserRecord>,
                                  programs: seq<TrainingProgram>, groups: seq<DueGroup>, org: Option<Id>,
                                  today: Day, now: Moment, limit: int)
    ensures var pool := ActivityPool(records, staff, users, programs, groups, org, today, now);
            var r := RecentActivity(records, staff, users, programs, groups, org, today, now, limit);
            && NewestHead(pool, r, ActivityStamp) && |r| <= 10
            && (limit >= 0 ==> |r| == if limit < |pool| then limit else |pool|)
            && (limit < 0 ==> |r| == if |pool| + limit > 0 then |pool| + limit else 0)
  {
    var pool := ActivityPool(records, staff, users, programs, groups, org, today, now);
    assert RecentActivity(records, staff, users, programs, groups, org, today, now, limit)
           == PyHead(SortDesc(pool, ActivityStamp), limit);
    HeadOfSorted(pool, ActivityStamp, limit);
  }

  /** A head of a sorted sequence is sorted, and nothing after it outranks anything in it. */
  lemma HeadOfSorted<T>(xs: seq<T>, key: T -> int, n: int)
    ensures var r := PyHead(SortDesc(xs, key), n);
            && NewestHead(xs, r, key) && |r| <= |xs|
            && (n >= 0 ==> |r| == if n < |xs| then n else |xs|)
            && (n < 0 ==> |r| == if |xs| + n > 0 then |xs| + n else 0)
  {
    var sorted := SortDesc(xs, key);
    var r := PyHead(sorted, n);
    assert forall k :: 0 <= k < |r| ==> r[k] == sorted[k];
  }

  /**
   * The loop of the endpoint over one query's rows: each row `shown` lets
   * through is turned into an entry by `item` and appended.
   */
  method AppendEntries<R>(activities0: seq<ActivityItem>, rows: seq<R>, shown: R -> bool, item: R -> ActivityItem)
    returns (activities: seq<ActivityItem>)
    ensures activities == activities0 + MapSeq(Filter(rows, shown), item)
  {
    activities := activities0;
    var i := 0;
    while i < |rows|
      invariant 0 <= i <= |rows|
      invariant activities == activities0 + MapSeq(Filter(rows[..i], shown), item)
    {
      assert rows[..i + 1] == rows[..i] + [rows[i]];
      FilterSnoc(rows[..i], rows[i], shown);
      if shown(rows[i]) {
        var before := Filter(rows[..i], shown);
        assert MapSeq(before + [rows[i]], item) == MapSeq(before, item) + [item(rows[i])];
        activities := activities + [item(rows[i])];
      }
      i := i + 1;
    }
    assert rows[..i] == rows;
  }

  /** The three loops of `get_recent_training_activity`, appending the entries of each query in turn. */
  method CollectActivity(completed: seq<TrainingRecord>, underway: seq<TrainingRecord>, due: seq<DueGroup>,
                         shown: TrainingRecord -> bool, finish: TrainingRecord -> ActivityItem,
                         start: TrainingRecord -> ActivityItem, dueItem: DueGroup -> ActivityItem)
    returns (activities: seq<ActivityItem>)
    ensures activities == MapSeq(Filter(completed, shown), finish) + MapSeq(Filter(underway, shown), start)
                          + MapSeq(due, dueItem)
  {
    activities := AppendEntries([], completed, shown, finish);
    assert activities == MapSeq(Filter(completed, shown), finish);
    activities := AppendEntries(activities, underway, shown, start);
    var always := (g: DueGroup) => true;
    FilterKeepsAll(due, always);
    activities := AppendEntries(activities, due, always, dueItem);
  }

  /**
   * `get_recent_training_activity`: the entries the three queries give,
   * sorted newest first and cut to `limit`.
   */
  method RecentTrainingActivity(records: seq<TrainingRecord>, staff: seq<Staff>, users: seq<UserRecord>,
                                programs: seq<TrainingProgram>, groups: seq<DueGroup>, org: Option<Id>,
                                today: Day, now: Moment, limit: int)
    returns (r: seq<ActivityItem>)
    requires limit <= 20
    ensures r == RecentActivity(records, staff, users, programs, groups, org, today, now, limit)
  {
    var completed := Take(SelectDesc(records, RecentlyCompleted(staff, programs, org, today), CompletionDay), 5);
    var underway := Take(SelectDesc(records, Underway(staff, programs, org), StartDay), 3);
    var due := Take(SelectAsc(groups, DueWithinWeek(today), DueDay), 2);
    var activities := CollectActivity(completed, underway, due, Shown(staff, users, programs, org),
                                      RecordItem(staff, users, programs, org, Completion, now),
                                      RecordItem(staff, users, programs, org, InProgress, now), DueItem(today));
    r := PyHead(SortDesc(activities, ActivityStamp), limit);
  }

  // ---------------------------------------------------------------------
  // Completion rates
  // ---------------------------------------------------------------------

  /** `part / whole * 100`, or `ifEmpty` when `whole` is 0. */
  function Percent(part: nat, whole: nat, ifEmpty: real): (r: real)
    requires part <= whole
    ensures whole == 0 ==> r == ifEmpty
    ensures whole > 0 ==> 0.0 <= r <= 100.0
    ensures whole > 0 ==> (r == 100.0 <==> part == whole)
    ensures whole > 0 ==> (r == 0.0 <==> part == 0)
  {
    if whole == 0 then ifEmpty
    else
      var q := (part as real) / (whole as real);
      assert q <= 1.0 by {
        assert (part as real) <= (whole as real);
      }
      assert q == 1.0 <==> part == whole;
      q * 100.0
  }

  /** The dashboard's documentation completion rate: 100 when nothing was required. */
  function DocumentationRate(completed: nat, pending: nat): (r: real)
    ensures 0.0 <= r <= 100.0
    ensures r == 100.0 <==> pending == 0
    ensures r == 0.0 <==> completed == 0 && pending > 0
  {
    Percent(completed, completed + pending, 100.0)
  }

  function OfStaff(staffId: Id): TrainingRecord -> bool
  {
    (r: TrainingRecord) => r.staffId == staffId
  }

  predicate IsCompleted(r: TrainingRecord)
  {
    r.status == TrainingStatus.COMPLETED
  }

  /** A staff member's training completion: 0 without any record. */
  function TrainingCompletion(records: seq<TrainingRecord>, staffId: Id): (r: real)
    ensures 0.0 <= r <= 100.0
    ensures r == 0.0 <==> forall k :: 0 <= k < |records| && records[k].staffId == staffId ==> !IsCompleted(records[k])
    ensures r == 100.0 <==> Count(records, OfStaff(staffId)) > 0 &&
                            forall k :: 0 <= k < |records| && records[k].staffId == staffId ==> IsCompleted(records[k])
  {
    var mine := Filter(records, OfStaff(staffId));
    var done := Count(mine, IsCompleted);
    CountNone(mine, IsCompleted);
    CountEvery(mine, IsCompleted);
    assert forall k :: 0 <= k < |records| && records[k].staffId == staffId ==> records[k] in mine;
    Percent(done, |mine|, 0.0)
  }

  function OfClient(clientId: Id): Tasks.Task -> bool
  {
    (t: Tasks.Task) => t.clientId == clientId
  }

  predicate TaskDone(t: Tasks.Task)
  {
    t.status == DocumentationSchemas.TaskStatus.COMPLETED
  }

  /** A client's documentation completion, from their tasks: 100 without any task. */
  function ClientDocumentationCompletion(tasks: seq<Tasks.Task>, clientId: Id): (r: real)
    ensures 0.0 <= r <= 100.0
    ensures r == 100.0 <==> forall k :: 0 <= k < |tasks| && tasks[k].clientId == clientId ==> TaskDone(tasks[k])
  {
    var mine := Filter(tasks, OfClient(clientId));
    CountEvery(mine, TaskDone);
    assert forall k :: 0 <= k < |tasks| && tasks[k].clientId == clientId ==> tasks[k] in mine;
    Percent(Count(mine, TaskDone), |mine|, 100.0)
  }

  /** No row counted means no row satisfies the test. */
  lemma {:induction false} CountNone<T>(xs: seq<T>, p: T -> bool)
    ensures Count(xs, p) == 0 <==> forall x :: x in xs ==> !p(x)
    ensures Count(xs, p) <= |xs|
    decreases |xs|
  {
    if xs != [] {
      CountNone(xs[1..], p);
      assert forall x :: x in xs ==> x == xs[0] || x in xs[1..];
    }
  }

  /** Every row counted means every row satisfies the test. */
  lemma {:induction false} CountEvery<T>(xs: seq<T>, p: T -> bool)
    ensures Count(xs, p) == |xs| <==> forall x :: x in xs ==> p(x)
    ensures Count(xs, p) <= |xs|
    decreases |xs|
  {
    if xs != [] {
      CountEvery(xs[1..], p);
      assert forall x :: x in xs ==> x == xs[0] || x in xs[1..];
    }
  }

  // ---------------------------------------------------------------------
  // The default week
  // ---------------------------------------------------------------------

  /**
   * The window of the shift and appointment lists: from the given start,
   * or the Monday of the current week, to the given end, or six days after
   * the start.
   */
  function WeekWindow(start: Option<Day>, end: Option<Day>, today: Day): (r: (Day, Day))
    ensures start.Some? ==> r.0 == start.value
    ensures start.None? ==> Weekday(r.0) == 0 && 0 <= DayNumber(today) - DayNumber(r.0) <= 6
    ensures end.Some? ==> r.1 == end.value
    ensures end.None? ==> DayNumber(r.1) == DayNumber(r.0) + 6
  {
    var first := if start.Some? then start.value else MondayOf(today);
    var last := if end.Some? then end.value else AddDays(first, 6);
    (first, last)
  }

  /** `today - timedelta(days=today.weekday())`: the Monday of the week that holds `today`. */
  function MondayOf(today: Day): (r: Day)
    ensures Weekday(r) == 0 && 0 <= DayNumber(today) - DayNumber(r) <= 6
  {
    var r := AddDays(today, -Weekday(today));
    BackToMonday(DayNumber(today) + 3);
    r
  }

  lemma BackToMonday(n: int)
    ensures 0 <= n % 7 <= 6 && (n - n % 7) % 7 == 0
  {
    assert n - n % 7 == 7 * (n / 7);
  }

  /** Without dates, the window is the Monday-to-Sunday week that holds today. */
  lemma DefaultWindowIsThisWeek(today: Day)
    ensures var (first, last) := WeekWindow(None, None, today);
            && Weekday(first) == 0 && Weekday(last) == 6
            && DayNumber(first) <= DayNumber(today) <= DayNumber(last)
  {
    var (first, last) := WeekWindow(None, None, today);
    var n := DayNumber(first) + 3;
    assert n % 7 == 0;
    assert DayNumber(last) + 3 == n + 6;
    SixDaysAfterMonday(n);
  }

  lemma SixDaysAfterMonday(n: int)
    requires n % 7 == 0
    ensures (n + 6) % 7 == 6
  {
  }
}
