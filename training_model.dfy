/**
 * The training tables and request bodies: a course of an organization and
 * one user's progress through it, with its quiz score and certificate.
 */
module TrainingModel {
  import opened Common
  import opened UserSchemas

  datatype CourseStatus = ACTIVE | ARCHIVED | DRAFT

  datatype CourseType = VIDEO | DOCUMENT | INTERACTIVE | QUIZ

  datatype ProgressStatus = NOT_STARTED | IN_PROGRESS | COMPLETED

  /** A row of `training_courses`; `requiredForRoles` is a JSON list of stringified role keys. */
  datatype Course = Course(
    id: Id,
    organizationId: Id,
    title: string,
    description: Option<string>,
    courseType: CourseType,
    durationMinutes: Option<int>,
    contentUrl: Option<string>,
    contentText: Option<string>,
    isRequired: bool,
    requiredForRoles: Option<seq<string>>,
    passingScore: Option<int>,
    providesCertification: bool,
    certificationValidDays: Option<int>,
    status: CourseStatus,
    createdAt: Moment,
    updatedAt: Moment,
    createdBy: Option<Id>)

  function CourseIdOf(c: Course): Id
  {
    c.id
  }

  /** A row of `training_progress`. */
  datatype Progress = Progress(
    id: Id,
    courseId: Id,
    userId: Id,
    organizationId: Id,
    status: ProgressStatus,
    progressPercentage: int,
    startedAt: Option<Moment>,
    completedAt: Option<Moment>,
    lastAccessedAt: Option<Moment>,
    quizScore: Option<int>,
    quizAttempts: int,
    passed: bool,
    certificationIssuedAt: Option<Moment>,
    certificationExpiresAt: Option<Moment>,
    createdAt: Moment,
    updatedAt: Moment)

  function ProgressIdOf(p: Progress): Id
  {
    p.id
  }

  /**
   * A progress row as the insert leaves it: the column defaults (not started,
   * 0 %, no attempts, not passed) for every field the constructor omits.
   */
  function NewProgress(id: Id, courseId: Id, userId: Id, org: Id, now: Moment): (r: Progress)
    ensures r.status == NOT_STARTED && r.progressPercentage == 0 && r.quizAttempts == 0 && !r.passed
    ensures r.startedAt.None? && r.completedAt.None? && r.lastAccessedAt.None? && r.quizScore.None?
    ensures r.certificationIssuedAt.None? && r.certificationExpiresAt.None?
    ensures r.id == id && r.courseId == courseId && r.userId == userId && r.organizationId == org
  {
    Progress(id, courseId, userId, org, NOT_STARTED, 0, None, None, None, None, 0, false, None, None, now, now)
  }

  /** The body of `POST /training/courses`. */
  datatype CourseCreate = CourseCreate(
    title: string,
    description: Option<string>,
    courseType: CourseType,
    durationMinutes: Option<int>,
    contentUrl: Option<string>,
    contentText: Option<string>,
    isRequired: bool,
    requiredForRoles: Option<seq<string>>,
    passingScore: Option<int>,
    providesCertification: bool,
    certificationValidDays: Option<int>)

  /** The field constraints of `TrainingCourseBase`; a body with a violation is refused with a 422. */
  function CourseCreateViolations(b: CourseCreate): (r: seq<Violation>)
    ensures r == [] <==> && 1 <= |b.title| <= 255
                         && (b.durationMinutes.None? || b.durationMinutes.value >= 0)
                         && (b.passingScore.None? || 0 <= b.passingScore.value <= 100)
                         && (b.certificationValidDays.None? || b.certificationValidDays.value >= 0)
  {
    Then(Bounds("title", b.title, 1, 255),
    Then(AtLeast("duration_minutes", b.durationMinutes, 0),
    Then(Range("passing_score", b.passingScore, 0, 100),
    Then(AtLeast("certification_valid_days", b.certificationValidDays, 0), []))))
  }

  /** The body of `PUT /training/progress/{id}`. */
  datatype ProgressUpdate = ProgressUpdate(progressPercentage: Option<int>, status: Option<ProgressStatus>,
                                           quizScore: Option<int>)

  function ProgressUpdateViolations(u: ProgressUpdate): (r: seq<Violation>)
    ensures r == [] <==> (u.progressPercentage.None? || 0 <= u.progressPercentage.value <= 100)
                         && (u.quizScore.None? || 0 <= u.quizScore.value <= 100)
  {
    Then(Range("progress_percentage", u.progressPercentage, 0, 100),
    Then(Range("quiz_score", u.quizScore, 0, 100), []))
  }

  /** The body of `POST /training/courses/{id}/complete`: a quiz score of 0 to 100, or none. */
  datatype MarkComplete = MarkComplete(quizScore: Option<int>)

  predicate ValidMarkComplete(m: MarkComplete)
  {
    m.quizScore.None? || 0 <= m.quizScore.value <= 100
  }
}
