/**
 * The training endpoints of `/training`: the course lists with the caller's
 * progress, and the progress record that starting, completing and
 * updating a course change in place.
 *
 * As written, completing a course never started with a quiz score adds one
 * to the attempts of a record not yet inserted, whose attempts are still
 * None, and fails with a 500 (`CompleteAsWritten`); the model otherwise
 * counts that first attempt from the column's default of 0.
 */
module Training {
  import opened Common
  import opened IdentityModel
  import opened TrainingModel
  import SchedulingDb
  import Notifications

  const COURSE_NOT_FOUND: string := "Course not found"
  const PROGRESS_NOT_FOUND: string := "Progress record not found"
  const MAX_PAGE_SIZE: nat := 100

  // ---------------------------------------------------------------------
  // Lookups
  // ---------------------------------------------------------------------

  /** The course of that key in the caller's organization. */
  function CourseInOrganization(courseId: Id, org: Option<Id>): Course -> bool
  {
    (c: Course) => org.Some? && c.id == courseId && c.organizationId == org.value
  }

  /** The course a start or a completion names: a 404 unless the caller's organization has it. */
  function FindCourse(courses: seq<Course>, user: Account, courseId: Id): (r: Result<Course>)
    ensures r.Ok? ==> r.value in courses && r.value.id == courseId && user.organizationId == Some(r.value.organizationId)
    ensures r.Err? <==> forall k :: 0 <= k < |courses| ==> !CourseInOrganization(courseId, user.organizationId)(courses[k])
    ensures r.Err? ==> r == Err(NOT_FOUND, COURSE_NOT_FOUND)
  {
    var i := FirstMatch(courses, CourseInOrganization(courseId, user.organizationId));
    if i.None? then Err(NOT_FOUND, COURSE_NOT_FOUND) else Ok(courses[i.value])
  }

  /** The user's record for the course. */
  function Mine(courseId: Id, userId: Id): Progress -> bool
  {
    (p: Progress) => p.courseId == courseId && p.userId == userId
  }

  /** `.first()` of the user's records for the course. */
  function RecordOf(progress: seq<Progress>, courseId: Id, userId: Id): (r: Option<nat>)
    ensures r.Some? ==> r.value < |progress| && Mine(courseId, userId)(progress[r.value])
    ensures r.None? <==> forall k :: 0 <= k < |progress| ==> !Mine(courseId, userId)(progress[k])
  {
    FirstMatch(progress, Mine(courseId, userId))
  }

  /** At most one record per course and user, as starting and completing keep it. */
  predicate UniqueProgress(progress: seq<Progress>)
  {
    forall i, j :: 0 <= i < j < |progress| ==>
                     !(progress[i].courseId == progress[j].courseId && progress[i].userId == progress[j].userId)
  }

  // ---------------------------------------------------------------------
  // Starting a course
  // ---------------------------------------------------------------------

  /**
   * `start_course` on a record: a record not started moves to IN_PROGRESS,
   * started and accessed `now`; a record in any other state is left as it is.
   */
  function Started(p: Progress, now: Moment): (r: Progress)
    ensures r.status != NOT_STARTED
    ensures p.status != NOT_STARTED ==> r == p
    ensures p.status == NOT_STARTED ==> r.status == IN_PROGRESS && r.startedAt == Some(now)
                                        && r.lastAccessedAt == Some(now)
    ensures r.id == p.id && r.courseId == p.courseId && r.userId == p.userId
  {
    if p.status == NOT_STARTED then
      p.(status := IN_PROGRESS, startedAt := Some(now), lastAccessedAt := Some(now), updatedAt := now)
    else p
  }

  /** The records after `start_course`: the user's record started, or a new one, inserted started. */
  function AfterStart(progress: seq<Progress>, courseId: Id, userId: Id, org: Id, now: Moment): (r: seq<Progress>)
    ensures var i := RecordOf(r, courseId, userId);
            i.Some? && r[i.value].status != NOT_STARTED
    ensures RecordOf(progress, courseId, userId).Some? ==> |r| == |progress|
    ensures RecordOf(progress, courseId, userId).None? ==> |r| == |progress| + 1 && progress <= r
    ensures forall k :: 0 <= k < |progress| && !Mine(courseId, userId)(progress[k]) ==> r[k] == progress[k]
  {
    var i := RecordOf(progress, courseId, userId);
    if i.Some? then
      var r := progress[i.value := Started(progress[i.value], now)];
      assert forall k :: 0 <= k < |r| ==> Mine(courseId, userId)(r[k]) == Mine(courseId, userId)(progress[k]);
      FirstMatchAlike(progress, r, Mine(courseId, userId));
      r
    else
      var p := Started(NewProgress(SchedulingDb.NextKey(progress, ProgressIdOf), courseId, userId, org, now), now);
      var r := progress + [p];
      assert forall k :: 0 <= k < |progress| ==> r[k] == progress[k] && !Mine(courseId, userId)(r[k]);
      assert Mine(courseId, userId)(r[|progress|]);
      assert RecordOf(r, courseId, userId) == Some(|progress|);
      r
  }

  /** Starting a course twice leaves what starting it once left. */
  lemma StartIsIdempotent(progress: seq<Progress>, courseId: Id, userId: Id, org: Id, first: Moment, second: Moment)
    ensures var once := AfterStart(progress, courseId, userId, org, first);
            AfterStart(once, courseId, userId, org, second) == once
  {
    var once := AfterStart(progress, courseId, userId, org, first);
    var i := RecordOf(once, courseId, userId).value;
    assert once[i := Started(once[i], second)] == once;
  }

  /** Starting never takes a completed course back. */
  lemma StartKeepsCompletion(p: Progress, now: Moment)
    requires p.status == COMPLETED
    ensures Started(p, now) == p
  {
  }

  // ---------------------------------------------------------------------
  // Completing a course
  // ---------------------------------------------------------------------

  /** A score or a number of days the handler tests for truth: given and not 0. */
  predicate TruthyInt(v: Option<int>)
  {
    v.Some? && v.value != 0
  }

  /** `passed` on completion: the score reaches a passing score the course sets; no score, or no passing score, passes. */
  function Passes(course: Course, score: Option<int>): (r: bool)
    ensures r <==> score.None? || !TruthyInt(course.passingScore) || score.value >= course.passingScore.value
  {
    if score.None? then true
    else if TruthyInt(course.passingScore) then score.value >= course.passingScore.value
    else true
  }

  /** `(datetime.now(timezone.utc) + timedelta(days=days)).replace(tzinfo=None)`. */
  function DaysAfter(now: Moment, days: int): (r: Moment)
    ensures Stamp(r) == Stamp(now) + days * SECONDS_PER_DAY
  {
    DateTime(AddDays(now.date, days), now.second)
  }

  /**
   * `complete_course` on a record: COMPLETED at 100 %, completed and accessed
   * `now`; a score is kept and counted as one more attempt; `passed` follows
   * `Passes`; a certificate is issued `now` exactly when the course provides
   * one and the record passed, and expires `certification_valid_days` later
   * when that is set. Certificate fields the completion does not issue keep
   * their earlier values.
   */
  function Completed(p: Progress, course: Course, m: MarkComplete, now: Moment): (r: Progress)
    ensures r.status == COMPLETED && r.progressPercentage == 100
    ensures r.completedAt == Some(now) && r.lastAccessedAt == Some(now)
    ensures r.passed == Passes(course, m.quizScore)
    ensures m.quizScore.Some? ==> r.quizScore == m.quizScore && r.quizAttempts == p.quizAttempts + 1
    ensures m.quizScore.None? ==> r.quizScore == p.quizScore && r.quizAttempts == p.quizAttempts
    ensures course.providesCertification && r.passed ==> r.certificationIssuedAt == Some(now)
    ensures !(course.providesCertification && r.passed) ==> r.certificationIssuedAt == p.certificationIssuedAt
    ensures r.certificationExpiresAt
            == if course.providesCertification && r.passed && TruthyInt(course.certificationValidDays)
               then Some(DaysAfter(now, course.certificationValidDays.value))
               else p.certificationExpiresAt
    ensures r.id == p.id && r.courseId == p.courseId && r.userId == p.userId && r.startedAt == p.startedAt
  {
    var passed := Passes(course, m.quizScore);
    var issued := course.providesCertification && passed;
    p.(status := COMPLETED, progressPercentage := 100, completedAt := Some(now), lastAccessedAt := Some(now),
       quizScore := if m.quizScore.Some? then m.quizScore else p.quizScore,
       quizAttempts := if m.quizScore.Some? then p.quizAttempts + 1 else p.quizAttempts,
       passed := passed,
       certificationIssuedAt := if issued then Some(now) else p.certificationIssuedAt,
       certificationExpiresAt := if issued && TruthyInt(course.certificationValidDays)
                                 then Some(DaysAfter(now, course.certificationValidDays.value))
                                 else p.certificationExpiresAt,
       updatedAt := now)
  }

  /** The records after `complete_course`: the user's record completed, or a new one, started and completed `now`. */
  function AfterComplete(progress: seq<Progress>, course: Course, userId: Id, m: MarkComplete, now: Moment)
    : (r: seq<Progress>)
    ensures var i := RecordOf(r, course.id, userId);
            i.Some? && r[i.value].status == COMPLETED && r[i.value].passed == Passes(course, m.quizScore)
    ensures RecordOf(progress, course.id, userId).Some? ==> |r| == |progress|
    ensures RecordOf(progress, course.id, userId).None? ==> |r| == |progress| + 1 && progress <= r
    ensures forall k :: 0 <= k < |progress| && !Mine(course.id, userId)(progress[k]) ==> r[k] == progress[k]
  {
    var i := RecordOf(progress, course.id, userId);
    if i.Some? then
      var r := progress[i.value := Completed(progress[i.value], course, m, now)];
      assert forall k :: 0 <= k < |r| ==> Mine(course.id, userId)(r[k]) == Mine(course.id, userId)(progress[k]);
      FirstMatchAlike(progress, r, Mine(course.id, userId));
      r
    else
      var created := NewProgress(SchedulingDb.NextKey(progress, ProgressIdOf), course.id, userId, course.organizationId,
                               now).(startedAt := Some(now));
      var r := progress + [Completed(created, course, m, now)];
      assert forall k :: 0 <= k < |progress| ==> r[k] == progress[k] && !Mine(course.id, userId)(r[k]);
      assert Mine(course.id, userId)(r[|progress|]);
      assert RecordOf(r, course.id, userId) == Some(|progress|);
      r
  }

  /**
   * `complete_course` as written: a score given for a course the user never
   * started makes the handler add 1 to the attempts of a record not yet
   * inserted, which are None, and the request fails with a 500.
   */
  function CompleteAsWritten(courses: seq<Course>, progress: seq<Progress>, user: Account, courseId: Id,
                             m: MarkComplete, now: Moment): (r: Result<seq<Progress>>)
    ensures FindCourse(courses, user, courseId).Err? ==> r == Err(NOT_FOUND, COURSE_NOT_FOUND)
  {
    var course := FindCourse(courses, user, courseId);
    if course.Err? then Err(course.status, course.detail)
    else if RecordOf(progress, courseId, user.id).None? && m.quizScore.Some? then Err(INTERNAL_ERROR, UNHANDLED)
    else Ok(AfterComplete(progress, course.value, user.id, m, now))
  }

  /**
   * The first completion of a course, with a quiz score: as written a 500;
   * counted from the column default, one attempt, passed as `Passes` says.
   */
  lemma FirstScoredCompletionFailsAsWritten(courses: seq<Course>, progress: seq<Progress>, user: Account,
                                            courseId: Id, score: int, now: Moment)
    requires FindCourse(courses, user, courseId).Ok?
    requires RecordOf(progress, courseId, user.id).None?
    ensures CompleteAsWritten(courses, progress, user, courseId, MarkComplete(Some(score)), now)
            == Err(INTERNAL_ERROR, UNHANDLED)
    ensures var course := FindCourse(courses, user, courseId).value;
            var r := AfterComplete(progress, course, user.id, MarkComplete(Some(score)), now);
            r[|progress|].quizAttempts == 1 && r[|progress|].quizScore == Some(score)
            && r[|progress|].passed == Passes(course, Some(score))
  {
  }

  /** A certificate is issued by a completion exactly when the course provides one and the completion passed. */
  lemma CertificateRule(p: Progress, course: Course, m: MarkComplete, now: Moment)
    requires p.certificationIssuedAt != Some(now)
    ensures Completed(p, course, m, now).certificationIssuedAt == Some(now)
            <==> course.providesCertification && Passes(course, m.quizScore)
  {
  }

  /** With a passing score set, a completion without a score still passes, and one below it fails. */
  lemma ScorelessCompletionPasses(p: Progress, course: Course, score: int, now: Moment)
    requires TruthyInt(course.passingScore) && score < course.passingScore.value
    ensures Completed(p, course, MarkComplete(None), now).passed
    ensures !Completed(p, course, MarkComplete(Some(score)), now).passed
  {
  }

  // ---------------------------------------------------------------------
  // Updating a progress record
  // ---------------------------------------------------------------------

  /** The record of that key, if it is the caller's: `update_training_progress` touches nothing else. */
  function OwnRecord(progressId: Id, userId: Id): Progress -> bool
  {
    (p: Progress) => p.id == progressId && p.userId == userId
  }

  /**
   * `update_training_progress` on a record: the percentage and the status
   * when given, `started_at` on the first IN_PROGRESS, `completed_at` on the
   * first COMPLETED, a score as one more attempt, and access `now`.
   */
  function Updated(p: Progress, u: ProgressUpdate, now: Moment): (r: Progress)
    ensures r.progressPercentage == if u.progressPercentage.Some? then u.progressPercentage.value else p.progressPercentage
    ensures r.status == if u.status.Some? then u.status.value else p.status
    ensures p.startedAt.Some? ==> r.startedAt == p.startedAt
    ensures p.completedAt.Some? ==> r.completedAt == p.completedAt
    ensures r.startedAt.Some? <==> p.startedAt.Some? || u.status == Some(IN_PROGRESS)
    ensures r.completedAt.Some? <==> p.completedAt.Some? || u.status == Some(COMPLETED)
    ensures r.quizAttempts == p.quizAttempts + (if u.quizScore.Some? then 1 else 0)
    ensures r.lastAccessedAt == Some(now)
    ensures r.id == p.id && r.courseId == p.courseId && r.userId == p.userId && r.passed == p.passed
    ensures r.certificationIssuedAt == p.certificationIssuedAt && r.certificationExpiresAt == p.certificationExpiresAt
  {
    var status := if u.status.Some? then u.status.value else p.status;
    var started := if u.status == Some(IN_PROGRESS) && p.startedAt.None? then Some(now) else p.startedAt;
    var completed := if u.status == Some(COMPLETED) && p.completedAt.None? then Some(now) else p.completedAt;
    p.(progressPercentage := if u.progressPercentage.Some? then u.progressPercentage.value else p.progressPercentage,
       status := status, startedAt := started, completedAt := completed,
       quizScore := if u.quizScore.Some? then u.quizScore else p.quizScore,
       quizAttempts := if u.quizScore.Some? then p.quizAttempts + 1 else p.quizAttempts,
       lastAccessedAt := Some(now), updatedAt := now)
  }

  /** `started_at` and `completed_at`, once set, survive every later update. */
  lemma {:induction false} StampsAreSetOnce(p: Progress, updates: seq<ProgressUpdate>, moments: seq<Moment>)
    requires |updates| == |moments|
    ensures var r := Replay(p, updates, moments);
            (p.startedAt.Some? ==> r.startedAt == p.startedAt) && (p.completedAt.Some? ==> r.completedAt == p.completedAt)
    decreases |updates|
  {
    if updates != [] {
      StampsAreSetOnce(Updated(p, updates[0], moments[0]), updates[1..], moments[1..]);
    }
  }

  /** A record after a series of updates, in order. */
  function Replay(p: Progress, updates: seq<ProgressUpdate>, moments: seq<Moment>): (r: Progress)
    requires |updates| == |moments|
    ensures r.quizAttempts >= p.quizAttempts
    ensures r.id == p.id && r.userId == p.userId && r.courseId == p.courseId
    decreases |updates|
  {
    if updates == [] then p else Replay(Updated(p, updates[0], moments[0]), updates[1..], moments[1..])
  }

  // ---------------------------------------------------------------------
  // Course lists
  // ---------------------------------------------------------------------

  /** The query parameters of `GET /training/courses`; `status` names a course status or is absent. */
  datatype CourseQuery = CourseQuery(page: nat, pageSize: nat, requiredOnly: bool, status: Option<CourseStatus>)

  /** `Query(1, ge=1)` and `Query(20, ge=1, le=100)`; other values are refused with a 422. */
  predicate ValidCourseQuery(q: CourseQuery)
  {
    q.page >= 1 && 1 <= q.pageSize <= MAX_PAGE_SIZE
  }

  /** The courses the list fetches: the caller's organization's, of the status asked for (CourseStatus.ACTIVE by default), required when asked. */
  function Listed(org: Option<Id>, status: Option<CourseStatus>, requiredOnly: bool): Course -> bool
  {
    (c: Course) => org.Some? && c.organizationId == org.value
                   && c.status == (if status.Some? then status.value else CourseStatus.ACTIVE)
                   && (requiredOnly ==> c.isRequired)
  }

  /** The courses required of the caller: active courses of the organization required of all or naming the caller's role. */
  function RequiredOf(org: Option<Id>, roleId: Option<Id>): Course -> bool
  {
    (c: Course) => org.Some? && c.organizationId == org.value && c.status == CourseStatus.ACTIVE
                   && (c.isRequired || (c.requiredForRoles.Some? && MaybeIdText(roleId) in c.requiredForRoles.value))
  }

  /** `CourseWithProgress`. */
  datatype CourseWithProgress = CourseWithProgress(course: Course, progress: Option<Progress>)

  /** `CoursesList`. */
  datatype CoursesList = CoursesList(courses: seq<CourseWithProgress>, total: nat, page: nat, pageSize: nat)

  /** `progress_map.get(course.id)`: the dict keeps the last of the user's records for the course. */
  function ProgressFor(progress: seq<Progress>, userId: Id, courseId: Id): (r: Option<Progress>)
    ensures r.Some? ==> r.value in progress && Mine(courseId, userId)(r.value)
    ensures r.None? <==> forall k :: 0 <= k < |progress| ==> !Mine(courseId, userId)(progress[k])
    decreases |progress|
  {
    if progress == [] then None
    else if Mine(courseId, userId)(progress[|progress| - 1]) then Some(progress[|progress| - 1])
    else
      var rest := progress[..|progress| - 1];
      assert forall k :: 0 <= k < |rest| ==> rest[k] == progress[k];
      ProgressFor(rest, userId, courseId)
  }

  /** With one record per course and user, the dict finds the record `.first()` finds. */
  lemma {:induction false} ProgressForIsTheRecord(progress: seq<Progress>, userId: Id, courseId: Id)
    requires UniqueProgress(progress)
    ensures var i := RecordOf(progress, courseId, userId);
            ProgressFor(progress, userId, courseId) == if i.Some? then Some(progress[i.value]) else None
    decreases |progress|
  {
    if progress != [] {
      var rest := progress[..|progress| - 1];
      var last := progress[|progress| - 1];
      assert forall k :: 0 <= k < |rest| ==> rest[k] == progress[k];
      if Mine(courseId, userId)(last) {
        var i := RecordOf(progress, courseId, userId).value;
        assert i == |progress| - 1;
      } else {
        ProgressForIsTheRecord(rest, userId, courseId);
        var i := RecordOf(progress, courseId, userId);
        var j := RecordOf(rest, courseId, userId);
        if j.Some? {
          assert i == j;
        }
      }
    }
  }

  /** A course of the list, with the caller's record for it when there is one. */
  function WithProgress(progress: seq<Progress>, userId: Id): Course -> CourseWithProgress
  {
    (c: Course) => CourseWithProgress(c, ProgressFor(progress, userId, c.id))
  }

  /**
   * `get_training_courses`: `total` counts the listed courses; the page is
   * the slice `[(page - 1) * page_size, page * page_size)` of them, each with
   * the caller's record.
   */
  function CoursesPage(courses: seq<Course>, progress: seq<Progress>, user: Account, q: CourseQuery): (r: CoursesList)
    requires ValidCourseQuery(q)
    ensures var listed := Filter(courses, Listed(user.organizationId, q.status, q.requiredOnly));
            var skip := Notifications.Offset(q.page, q.pageSize);
            && r.total == Count(courses, Listed(user.organizationId, q.status, q.requiredOnly))
            && r.page == q.page && r.pageSize == q.pageSize
            && |r.courses| == (if skip >= |listed| then 0 else if |listed| - skip < q.pageSize then |listed| - skip
                               else q.pageSize)
            && forall k :: 0 <= k < |r.courses| ==>
                             r.courses[k] == CourseWithProgress(listed[skip + k], ProgressFor(progress, user.id, listed[skip + k].id))
  {
    var listed := Filter(courses, Listed(user.organizationId, q.status, q.requiredOnly));
    var page := Window(listed, Notifications.Offset(q.page, q.pageSize), q.pageSize);
    CoursesList(MapSeq(page, WithProgress(progress, user.id)), |listed|, q.page, q.pageSize)
  }

  /** Without a status, the list holds active courses only, and asking for required ones keeps only those. */
  lemma DefaultListIsActive(courses: seq<Course>, progress: seq<Progress>, user: Account, q: CourseQuery)
    requires ValidCourseQuery(q) && q.status.None?
    ensures var r := CoursesPage(courses, progress, user, q);
            forall k :: 0 <= k < |r.courses| ==> r.courses[k].course.status == CourseStatus.ACTIVE
                                                 && (q.requiredOnly ==> r.courses[k].course.isRequired)
  {
    var listed := Filter(courses, Listed(user.organizationId, q.status, q.requiredOnly));
    var r := CoursesPage(courses, progress, user, q);
    var skip := Notifications.Offset(q.page, q.pageSize);
    forall k | 0 <= k < |r.courses|
      ensures r.courses[k].course.status == CourseStatus.ACTIVE && (q.requiredOnly ==> r.courses[k].course.isRequired)
    {
      assert Listed(user.organizationId, q.status, q.requiredOnly)(listed[skip + k]);
    }
  }

  /** `get_required_courses`: every course required of the caller, each with the caller's record, on one page. */
  function RequiredCourses(courses: seq<Course>, progress: seq<Progress>, user: Account): (r: CoursesList)
    ensures r.total == |r.courses| && r.page == 1 && r.pageSize == |r.courses|
    ensures forall k :: 0 <= k < |r.courses| ==>
                          var c := r.courses[k].course;
                          c in courses && RequiredOf(user.organizationId, user.roleId)(c)
                          && r.courses[k].progress == ProgressFor(progress, user.id, c.id)
    ensures forall k :: 0 <= k < |courses| && RequiredOf(user.organizationId, user.roleId)(courses[k]) ==>
                          exists j :: 0 <= j < |r.courses| && r.courses[j].course == courses[k]
  {
    var required := Filter(courses, RequiredOf(user.organizationId, user.roleId));
    var items := MapSeq(required, WithProgress(progress, user.id));
    assert forall k :: 0 <= k < |courses| && RequiredOf(user.organizationId, user.roleId)(courses[k]) ==>
                         exists j :: 0 <= j < |required| && required[j] == courses[k];
    CoursesList(items, |items|, 1, |items|)
  }

  /** A course required of all staff, or naming the caller's role, is on the caller's required list. */
  lemma RequiredReachesTheRole(courses: seq<Course>, progress: seq<Progress>, user: Account, k: nat)
    requires k < |courses| && user.organizationId == Some(courses[k].organizationId) && courses[k].status == CourseStatus.ACTIVE
    requires courses[k].isRequired
             || (courses[k].requiredForRoles.Some? && MaybeIdText(user.roleId) in courses[k].requiredForRoles.value)
    ensures exists j :: 0 <= j < |RequiredCourses(courses, progress, user).courses|
                        && RequiredCourses(courses, progress, user).courses[j].course == courses[k]
  {
    var r := RequiredCourses(courses, progress, user);
    assert RequiredOf(user.organizationId, user.roleId)(courses[k]);
    var j :| 0 <= j < |r.courses| && r.courses[j].course == courses[k];
  }

  /** `get_my_training_progress`: the caller's records in the caller's organization, of the status asked for. */
  function MyProgress(progress: seq<Progress>, user: Account, status: Option<ProgressStatus>): (r: seq<Progress>)
    ensures forall k :: 0 <= k < |r| ==> r[k] in progress && r[k].userId == user.id
                                         && user.organizationId == Some(r[k].organizationId)
                                         && (status.None? || r[k].status == status.value)
    ensures forall k :: (0 <= k < |progress| && progress[k].userId == user.id
                         && user.organizationId == Some(progress[k].organizationId)
                         && (status.None? || progress[k].status == status.value)) ==> progress[k] in r
  {
    Filter(progress, (p: Progress) => p.userId == user.id && user.organizationId == Some(p.organizationId)
                                      && (status.None? || p.status == status.value))
  }

  // ---------------------------------------------------------------------
  // The training tables
  // ---------------------------------------------------------------------

  /** The `training_courses` and `training_progress` tables. */
  class TrainingBoard {
    var courses: seq<Course>
    var progress: seq<Progress>

    constructor(rows: seq<Course>, records: seq<Progress>)
      ensures courses == rows && progress == records
    {
      courses := rows;
      progress := records;
    }

    /** `get_training_courses`: the page is built course by course, and is the list `CoursesPage` describes. */
    method GetCourses(user: Account, q: CourseQuery) returns (r: CoursesList)
      requires ValidCourseQuery(q)
      ensures r == CoursesPage(courses, progress, user, q)
    {
      var listed := Filter(courses, Listed(user.organizationId, q.status, q.requiredOnly));
      var page := Window(listed, Notifications.Offset(q.page, q.pageSize), q.pageSize);
      var items := Items(page, progress, user.id);
      r := CoursesList(items, |listed|, q.page, q.pageSize);
    }

    /** `get_required_courses`, built course by course. */
    method GetRequiredCourses(user: Account) returns (r: CoursesList)
      ensures r == RequiredCourses(courses, progress, user)
    {
      var required := Filter(courses, RequiredOf(user.organizationId, user.roleId));
      var items := Items(required, progress, user.id);
      r := CoursesList(items, |items|, 1, |items|);
    }

    /** Each course with the user's record for it, appended one by one. */
    static method Items(page: seq<Course>, progress: seq<Progress>, userId: Id) returns (items: seq<CourseWithProgress>)
      ensures items == MapSeq(page, WithProgress(progress, userId))
    {
      items := [];
      var k := 0;
      while k < |page|
        invariant 0 <= k <= |page| && |items| == k
        invariant forall j :: 0 <= j < k ==> items[j] == CourseWithProgress(page[j], ProgressFor(progress, userId, page[j].id))
      {
        items := items + [CourseWithProgress(page[k], ProgressFor(progress, userId, page[k].id))];
        k := k + 1;
      }
    }

    /** `create_training_course`: an active course of the caller's organization; without one, the insert fails. */
    method CreateCourse(c: Account, body: CourseCreate, now: Moment) returns (r: Result<Course>)
      requires CourseCreateViolations(body) == []
      modifies this
      ensures progress == old(progress)
      ensures c.organizationId.None? ==> r == Err(INTERNAL_ERROR, UNHANDLED) && courses == old(courses)
      ensures c.organizationId.Some? ==>
                r.Ok? && courses == old(courses) + [r.value]
                && (forall k :: 0 <= k < |old(courses)| ==> old(courses)[k].id != r.value.id)
                && r.value.organizationId == c.organizationId.value && r.value.status == CourseStatus.ACTIVE
                && r.value.createdBy == Some(c.id) && r.value.title == body.title
                && r.value.passingScore == body.passingScore
                && r.value.providesCertification == body.providesCertification
                && r.value.certificationValidDays == body.certificationValidDays
    {
      if c.organizationId.None? {
        return Err(INTERNAL_ERROR, UNHANDLED);
      }
      var course := Course(SchedulingDb.NextKey(courses, CourseIdOf), c.organizationId.value, body.title,
                           body.description, body.courseType, body.durationMinutes, body.contentUrl, body.contentText,
                           body.isRequired, body.requiredForRoles, body.passingScore, body.providesCertification,
                           body.certificationValidDays, CourseStatus.ACTIVE, now, now, Some(c.id));
      courses := courses + [course];
      r := Ok(course);
    }

    /** `start_course`: after the 404, the caller's record is started, or inserted started. */
    method StartCourse(c: Account, courseId: Id, now: Moment) returns (r: Result<Progress>)
      modifies this
      ensures courses == old(courses)
      ensures var course := FindCourse(old(courses), c, courseId);
              && (course.Err? ==> r == Err(course.status, course.detail) && progress == old(progress))
              && (course.Ok? ==>
                    progress == AfterStart(old(progress), courseId, c.id, course.value.organizationId, now)
                    && r == Ok(progress[RecordOf(progress, courseId, c.id).value]))
    {
      var course := FindCourse(courses, c, courseId);
      if course.Err? {
        return Err(course.status, course.detail);
      }
      var i := RecordOf(progress, courseId, c.id);
      if i.Some? {
        progress := progress[i.value := Started(progress[i.value], now)];
      } else {
        var p := Started(NewProgress(SchedulingDb.NextKey(progress, ProgressIdOf), courseId, c.id,
                                     course.value.organizationId, now), now);
        progress := progress + [p];
      }
      assert progress == AfterStart(old(progress), courseId, c.id, course.value.organizationId, now);
      r := Ok(progress[RecordOf(progress, courseId, c.id).value]);
    }

    /** `complete_course`: after the 404, the caller's record is completed, or inserted completed. */
    method CompleteCourse(c: Account, courseId: Id, m: MarkComplete, now: Moment) returns (r: Result<Progress>)
      requires ValidMarkComplete(m)
      modifies this
      ensures courses == old(courses)
      ensures var course := FindCourse(old(courses), c, courseId);
              && (course.Err? ==> r == Err(course.status, course.detail) && progress == old(progress))
              && (course.Ok? ==>
                    progress == AfterComplete(old(progress), course.value, c.id, m, now)
                    && r == Ok(progress[RecordOf(progress, courseId, c.id).value]))
    {
      var course := FindCourse(courses, c, courseId);
      if course.Err? {
        return Err(course.status, course.detail);
      }
      var i := RecordOf(progress, courseId, c.id);
      if i.Some? {
        progress := progress[i.value := Completed(progress[i.value], course.value, m, now)];
      } else {
        var created := NewProgress(SchedulingDb.NextKey(progress, ProgressIdOf), courseId, c.id,
                                 course.value.organizationId, now).(startedAt := Some(now));
        progress := progress + [Completed(created, course.value, m, now)];
      }
      assert progress == AfterComplete(old(progress), course.value, c.id, m, now);
      r := Ok(progress[RecordOf(progress, courseId, c.id).value]);
    }

    /** `update_training_progress`: only the caller's record of that key changes, as `Updated` says. */
    method UpdateProgress(c: Account, progressId: Id, u: ProgressUpdate, now: Moment) returns (r: Result<Progress>)
      requires ProgressUpdateViolations(u) == []
      modifies this
      ensures courses == old(courses)
      ensures var i := FirstMatch(old(progress), OwnRecord(progressId, c.id));
              && (i.None? ==> r == Err(NOT_FOUND, PROGRESS_NOT_FOUND) && progress == old(progress))
              && (i.Some? ==> var p := Updated(old(progress)[i.value], u, now);
                              progress == old(progress)[i.value := p] && r == Ok(p) && p.userId == c.id)
    {
      var i := FirstMatch(progress, OwnRecord(progressId, c.id));
      if i.None? {
        return Err(NOT_FOUND, PROGRESS_NOT_FOUND);
      }
      var p := Updated(progress[i.value], u, now);
      progress := progress[i.value := p];
      r := Ok(p);
    }
  }

  /** Records whose course and user keys stay put position by position stay unique. */
  lemma SameKeysStayUnique(progress: seq<Progress>, r: seq<Progress>)
    requires UniqueProgress(progress) && |r| == |progress|
    requires forall k :: 0 <= k < |r| ==> r[k].courseId == progress[k].courseId && r[k].userId == progress[k].userId
    ensures UniqueProgress(r)
  {
  }

  /** A record appended for a course and user no record has keeps the records unique. */
  lemma NewKeyStaysUnique(progress: seq<Progress>, p: Progress)
    requires UniqueProgress(progress)
    requires forall k :: 0 <= k < |progress| ==> !Mine(p.courseId, p.userId)(progress[k])
    ensures UniqueProgress(progress + [p])
  {
    var r := progress + [p];
    forall i, j | 0 <= i < j < |r|
      ensures !(r[i].courseId == r[j].courseId && r[i].userId == r[j].userId)
    {
      if j == |progress| {
        assert !Mine(p.courseId, p.userId)(progress[i]);
      }
    }
  }

  /** Starting keeps one record per course and user. */
  lemma StartKeepsRecordsUnique(progress: seq<Progress>, courseId: Id, userId: Id, org: Id, now: Moment)
    requires UniqueProgress(progress)
    ensures UniqueProgress(AfterStart(progress, courseId, userId, org, now))
  {
    var i := RecordOf(progress, courseId, userId);
    var r := AfterStart(progress, courseId, userId, org, now);
    if i.Some? {
      SameKeysStayUnique(progress, r);
    } else {
      NewKeyStaysUnique(progress, r[|progress|]);
      assert r == progress + [r[|progress|]];
    }
  }

  /** Completing keeps one record per course and user. */
  lemma CompleteKeepsRecordsUnique(progress: seq<Progress>, course: Course, userId: Id, m: MarkComplete, now: Moment)
    requires UniqueProgress(progress)
    ensures UniqueProgress(AfterComplete(progress, course, userId, m, now))
  {
    var i := RecordOf(progress, course.id, userId);
    var r := AfterComplete(progress, course, userId, m, now);
    if i.Some? {
      SameKeysStayUnique(progress, r);
    } else {
      NewKeyStaysUnique(progress, r[|progress|]);
      assert r == progress + [r[|progress|]];
    }
  }
}
