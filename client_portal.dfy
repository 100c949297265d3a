/**
 * The client portal: what a client sees of their own care. Access needs
 * the "client" role and a client profile; the module models the age shown
 * on the profile, the vitals trends, the meal and shift-note summaries, the
 * note previews of the dashboard, and the client's own help requests.
 *
 * As written, filing and listing help requests name `task_type`, which the
 * task model does not define, and both fail with a 500
 * (`HelpRequestsAsWritten`); `CreateHelpRequest` and `OwnHelpRequests`
 * model them as evidently intended.
 */
module ClientPortal {
  import opened Common
  import opened Handlers
  import opened IdentityModel
  import opened ClientModel
  import opened DocumentationSchemas
  import opened Tasks
  import HelpRequests
  import SchedulingDb
  import UserSchemas

  const CLIENTS_ONLY: string := "This endpoint is only accessible to clients"
  const PROFILE_NOT_FOUND: string := "Client profile not found"

  function ProfileOf(userId: Id): Client -> bool
  {
    (k: Client) => k.userId == Some(userId)
  }

  /**
   * `get_client_user`: only a caller whose role name lower-cases to
   * "client" passes (403), and only with a client profile (404).
   */
  function GetClientUser(c: Account, role: Option<Role>, clients: seq<Client>): (r: Result<Client>)
    ensures (r.Err? && r.status == FORBIDDEN) <==> role.None? || Lower(role.value.name) != "client"
    ensures r.Err? && r.status == FORBIDDEN ==> r.detail == CLIENTS_ONLY
    ensures role.Some? && Lower(role.value.name) == "client" && FirstMatch(clients, ProfileOf(c.id)).None? ==>
              r == Err(NOT_FOUND, PROFILE_NOT_FOUND)
    ensures r.Ok? ==> r.value in clients && r.value.userId == Some(c.id)
  {
    if role.None? || Lower(role.value.name) != "client" then Err(FORBIDDEN, CLIENTS_ONLY)
    else
      var i := FirstMatch(clients, ProfileOf(c.id));
      if i.None? then Err(NOT_FOUND, PROFILE_NOT_FOUND) else Ok(clients[i.value])
  }

  /** The portal and the staff help-request endpoints admit complementary callers: each caller passes exactly one of the two role checks. */
  lemma GatesAreComplementary(c: Account, role: Option<Role>, clients: seq<Client>)
    ensures !(GetClientUser(c, role, clients).Err? && GetClientUser(c, role, clients).status == FORBIDDEN)
            <==> HelpRequests.StaffGate(role).Err?
  {
  }

  // ---------------------------------------------------------------------
  // Age
  // ---------------------------------------------------------------------

  /** Dates in calendar order: by year, then month, then day. */
  predicate OnOrBefore(a: Date, b: Date)
  {
    a.year < b.year || (a.year == b.year && (a.month < b.month || (a.month == b.month && a.day <= b.day)))
  }

  /** Whether the day of the year of `a` comes before that of `b`. */
  predicate EarlierInYear(a: Date, b: Date)
  {
    a.month < b.month || (a.month == b.month && a.day < b.day)
  }

  /** The age on `today`: the difference of the years, less one before the birthday comes round. */
  function Age(dob: Day, today: Day): (r: int)
    ensures r == today.year - dob.year || r == today.year - dob.year - 1
  {
    today.year - dob.year - (if EarlierInYear(today, dob) then 1 else 0)
  }

  /** Age counts whole years: none on the day of birth, never negative from then on, and never decreasing as days pass. */
  lemma AgeCountsWholeYears(dob: Day, today: Day, later: Day)
    requires OnOrBefore(today, later)
    ensures Age(dob, dob) == 0
    ensures OnOrBefore(dob, today) ==> Age(dob, today) >= 0
    ensures Age(dob, today) <= Age(dob, later)
    ensures today.month == dob.month && today.day == dob.day ==> Age(dob, today) == today.year - dob.year
  {
  }

  // ---------------------------------------------------------------------
  // Vitals trends
  // ---------------------------------------------------------------------

  datatype Trend = UP | DOWN | STABLE

  function TrendValue(t: Trend): string
  {
    match t
    case UP => "up"
    case DOWN => "down"
    case STABLE => "stable"
  }

  /** Python truthiness of a nullable number: `None` and zero are falsy. */
  predicate Reading(x: Option<real>)
  {
    x.Some? && x.value != 0.0
  }

  /** Up or down from the previous value to the latest, when both are truthy; stable otherwise. */
  function TrendOf(latest: Option<real>, previous: Option<real>): (r: Trend)
    ensures r != STABLE ==> Reading(latest) && Reading(previous) && latest.value != previous.value
    ensures r == UP ==> latest.value > previous.value
  {
    if Reading(latest) && Reading(previous) then
      if latest.value > previous.value then UP else if latest.value < previous.value then DOWN else STABLE
    else STABLE
  }

  /** Swapping the two readings swaps up and down; a value compared with itself is stable. */
  lemma TrendReverses(a: Option<real>, b: Option<real>)
    ensures TrendOf(a, b) == UP <==> TrendOf(b, a) == DOWN
    ensures TrendOf(a, b) == STABLE <==> TrendOf(b, a) == STABLE
    ensures TrendOf(a, a) == STABLE
  {
  }

  /** A row of `vitals_logs`, with the columns the portal reads (floats as reals). */
  datatype VitalsReading = VitalsReading(
    id: Id,
    clientId: Id,
    recordedAt: Moment,
    temperature: Option<real>,
    systolic: Option<int>,
    diastolic: Option<int>,
    heartRate: Option<int>,
    weight: Option<real>)

  datatype Trends = Trends(temperature: Trend, bloodPressure: Trend, heartRate: Trend, weight: Trend)

  function AsReal(x: Option<int>): (r: Option<real>)
    ensures Reading(r) <==> x.Some? && x.value != 0
  {
    if x.Some? then Some(x.value as real) else None
  }

  /** The trends between two readings; blood pressure is never compared, so its trend is always stable. */
  function ReadingTrends(latest: Option<VitalsReading>, previous: Option<VitalsReading>): (r: Trends)
    ensures r.bloodPressure == STABLE
    ensures latest.None? || previous.None? ==> r == Trends(STABLE, STABLE, STABLE, STABLE)
    ensures latest.Some? && previous.Some? ==>
              r.temperature == TrendOf(latest.value.temperature, previous.value.temperature)
              && r.heartRate == TrendOf(AsReal(latest.value.heartRate), AsReal(previous.value.heartRate))
              && r.weight == TrendOf(latest.value.weight, previous.value.weight)
  {
    if latest.Some? && previous.Some? then
      Trends(TrendOf(latest.value.temperature, previous.value.temperature), STABLE,
             TrendOf(AsReal(latest.value.heartRate), AsReal(previous.value.heartRate)),
             TrendOf(latest.value.weight, previous.value.weight))
    else Trends(STABLE, STABLE, STABLE, STABLE)
  }

  function ReadingOf(clientId: Id): VitalsReading -> bool
  {
    (v: VitalsReading) => v.clientId == clientId
  }

  function OtherReadingOf(clientId: Id, id: Id): VitalsReading -> bool
  {
    (v: VitalsReading) => v.clientId == clientId && v.id != id
  }

  function ReadingTime(v: VitalsReading): int
  {
    Stamp(v.recordedAt)
  }

  function ReadingSince(clientId: Id, from: Day): VitalsReading -> bool
  {
    (v: VitalsReading) => v.clientId == clientId && DayNumber(v.recordedAt.date) >= DayNumber(from)
  }

  datatype VitalsSummary = VitalsSummary(latest: Option<VitalsReading>, trends: Trends, logsThisMonth: nat)

  function FirstOfMonth(d: Day): (r: Day)
    ensures r.year == d.year && r.month == d.month && r.day == 1
  {
    Date(d.year, d.month, 1)
  }

  /**
   * `get_vitals_summary`: the client's latest reading, the trends from the
   * reading before it, and the number of readings since the first of the
   * month.
   */
  function VitalsSummaryOf(rows: seq<VitalsReading>, clientId: Id, today: Day): (r: VitalsSummary)
    ensures r.latest.Some? ==> r.latest.value in rows && r.latest.value.clientId == clientId
                               && forall k :: 0 <= k < |rows| && rows[k].clientId == clientId ==>
                                    Stamp(rows[k].recordedAt) <= Stamp(r.latest.value.recordedAt)
    ensures r.latest.None? ==> r.trends == Trends(STABLE, STABLE, STABLE, STABLE)
                               && forall k :: 0 <= k < |rows| ==> rows[k].clientId != clientId
    ensures r.logsThisMonth == Count(rows, ReadingSince(clientId, FirstOfMonth(today)))
    ensures r.trends.bloodPressure == STABLE
  {
    var i := LatestIndex(rows, ReadingOf(clientId), ReadingTime);
    var latest := if i.Some? then Some(rows[i.value]) else None;
    var j := if i.Some? then LatestIndex(rows, OtherReadingOf(clientId, rows[i.value].id), ReadingTime) else None;
    var previous := if j.Some? then Some(rows[j.value]) else None;
    VitalsSummary(latest, ReadingTrends(latest, previous), Count(rows, ReadingSince(clientId, FirstOfMonth(today))))
  }

  // ---------------------------------------------------------------------
  // Meals
  // ---------------------------------------------------------------------

  datatype IntakeAmount = NONE | MINIMAL | PARTIAL | MOST | ALL

  /** A row of `meal_logs`, with the columns the portal reads. */
  datatype MealLog = MealLog(
    id: Id,
    clientId: Id,
    mealDate: Moment,
    intake: Option<IntakeAmount>,
    percentageConsumed: Option<int>,
    refusals: Option<string>)

  /** Eaten: nothing refused and some intake recorded other than none. */
  predicate MealCompleted(m: MealLog)
  {
    !Truthy(m.refusals) && m.intake.Some? && m.intake.value != NONE
  }

  /** Missed: something refused, or the intake recorded as none. */
  predicate MealMissed(m: MealLog)
  {
    Truthy(m.refusals) || m.intake == Some(NONE)
  }

  /** The status the meal list shows: anything not completed is listed as missed. */
  function MealStatus(m: MealLog): (r: string)
    ensures r == "completed" <==> MealCompleted(m)
  {
    if MealCompleted(m) then "completed" else "missed"
  }

  /** No meal is both completed and missed; one with no refusal and no intake recorded is neither, yet is listed as missed. */
  lemma MealClasses(m: MealLog)
    ensures !(MealCompleted(m) && MealMissed(m))
    ensures !Truthy(m.refusals) && m.intake.None? ==> !MealCompleted(m) && !MealMissed(m) && MealStatus(m) == "missed"
  {
  }

  function MealSince(clientId: Id, from: Day): MealLog -> bool
  {
    (m: MealLog) => m.clientId == clientId && DayNumber(m.mealDate.date) >= DayNumber(from)
  }

  function CompletedSince(clientId: Id, from: Day): MealLog -> bool
  {
    (m: MealLog) => MealSince(clientId, from)(m) && MealCompleted(m)
  }

  function MissedSince(clientId: Id, from: Day): MealLog -> bool
  {
    (m: MealLog) => MealSince(clientId, from)(m) && MealMissed(m)
  }

  datatype MealSummary = MealSummary(total: nat, completed: nat, missed: nat)

  /**
   * `get_meals_summary`: the client's meals from seven days ago on, how
   * many were completed and how many missed; the two never add up to more
   * than the meals.
   */
  function MealsSummary(rows: seq<MealLog>, clientId: Id, today: Day): (r: MealSummary)
    ensures var from := AddDays(today, -7);
            r.total == Count(rows, MealSince(clientId, from))
            && r.completed == Count(rows, CompletedSince(clientId, from))
            && r.missed == Count(rows, MissedSince(clientId, from))
    ensures r.completed + r.missed <= r.total
  {
    var from := AddDays(today, -7);
    var completed := CompletedSince(clientId, from);
    var missed := MissedSince(clientId, from);
    var either := (m: MealLog) => completed(m) || missed(m);
    assert forall m :: !(completed(m) && missed(m)) by {
      forall m ensures !(completed(m) && missed(m)) {
        MealClasses(m);
      }
    }
    CountDisjoint(rows, completed, missed, either);
    CountNarrower(rows, MealSince(clientId, from), either);
    MealSummary(Count(rows, MealSince(clientId, from)), Count(rows, completed), Count(rows, missed))
  }

  // ---------------------------------------------------------------------
  // Shift notes
  // ---------------------------------------------------------------------

  /** A row of `shift_notes`, with the columns the portal reads. */
  datatype ShiftNote = ShiftNote(id: Id, clientId: Id, shiftDate: Day, narrative: string,
                                 challengesFaced: Option<string>, createdAt: Moment)

  /** A note raises a concern when its challenges are more than white space. */
  predicate Concern(n: ShiftNote)
  {
    Truthy(n.challengesFaced) && |Strip(n.challengesFaced.value)| > 0
  }

  /** A positive note: no challenges, or only white space. */
  predicate Positive(n: ShiftNote)
  {
    !Truthy(n.challengesFaced) || |Strip(n.challengesFaced.value)| == 0
  }

  function NoteSince(clientId: Id, from: Day): ShiftNote -> bool
  {
    (n: ShiftNote) => n.clientId == clientId && DayNumber(n.shiftDate) >= DayNumber(from)
  }

  function PositiveSince(clientId: Id, from: Day): ShiftNote -> bool
  {
    (n: ShiftNote) => NoteSince(clientId, from)(n) && Positive(n)
  }

  function ConcernSince(clientId: Id, from: Day): ShiftNote -> bool
  {
    (n: ShiftNote) => NoteSince(clientId, from)(n) && Concern(n)
  }

  datatype NotesSummary = NotesSummary(total: nat, positive: nat, concerns: nat)

  /** `get_shift_notes_summary`: the notes of the last thirty days split into positive ones and concerns, with none left over. */
  function ShiftNotesSummary(rows: seq<ShiftNote>, clientId: Id, today: Day): (r: NotesSummary)
    ensures var from := AddDays(today, -30);
            r.total == Count(rows, NoteSince(clientId, from))
            && r.positive == Count(rows, PositiveSince(clientId, from))
            && r.concerns == Count(rows, ConcernSince(clientId, from))
    ensures r.positive + r.concerns == r.total
  {
    var from := AddDays(today, -30);
    var positive := PositiveSince(clientId, from);
    var concern := ConcernSince(clientId, from);
    CountDisjoint(rows, positive, concern, NoteSince(clientId, from));
    NotesSummary(Count(rows, NoteSince(clientId, from)), Count(rows, positive), Count(rows, concern))
  }

  const PREVIEW_LENGTH: nat := 100
  const ELLIPSIS: string := "..."

  /** The dashboard's preview of a narrative: the first hundred characters and "..." when it is longer, the whole of it otherwise. */
  function NotePreview(narrative: string): (r: string)
    ensures |r| <= PREVIEW_LENGTH + |ELLIPSIS|
    ensures |narrative| <= PREVIEW_LENGTH ==> r == narrative
    ensures |narrative| > PREVIEW_LENGTH ==>
              |r| == PREVIEW_LENGTH + |ELLIPSIS| && r[..PREVIEW_LENGTH] == narrative[..PREVIEW_LENGTH]
              && r[PREVIEW_LENGTH..] == ELLIPSIS
  {
    if narrative != "" && |narrative| > PREVIEW_LENGTH then narrative[..PREVIEW_LENGTH] + ELLIPSIS else narrative
  }

  // ---------------------------------------------------------------------
  // Help requests
  // ---------------------------------------------------------------------

  const DEFAULT_REQUEST_PRIORITY: string := "normal"

  /** The priority a client asks for, read case-blind: "normal" is medium, and anything unknown is medium too. */
  function PriorityFor(text: string): (r: TaskPriority)
    ensures Lower(text) == "low" <==> r == TaskPriority.LOW
    ensures Lower(text) == "high" <==> r == TaskPriority.HIGH
    ensures Lower(text) == "urgent" <==> r == URGENT
  {
    var key := Lower(text);
    if key == "low" then TaskPriority.LOW
    else if key == "normal" || key == "medium" then TaskPriority.MEDIUM
    else if key == "high" then TaskPriority.HIGH
    else if key == "urgent" then URGENT
    else TaskPriority.MEDIUM
  }

  /** Every priority's own value, and the default "normal", read back as expected. */
  lemma PriorityForValues(p: TaskPriority)
    ensures PriorityFor(TaskPriorityValue(p)) == p
    ensures PriorityFor(DEFAULT_REQUEST_PRIORITY) == TaskPriority.MEDIUM
  {
    assert Lower(TaskPriorityValue(p)) == TaskPriorityValue(p);
    assert Lower(DEFAULT_REQUEST_PRIORITY) == DEFAULT_REQUEST_PRIORITY;
  }

  datatype HelpRequestCreate = HelpRequestCreate(requestType: string, priority: string, title: string,
                                                 description: string, preferredTime: Option<Moment>)

  function HelpRequestCreateViolations(b: HelpRequestCreate): (r: seq<UserSchemas.Violation>)
    ensures r == [] <==> 1 <= |b.title| <= 200 && 1 <= |b.description|
  {
    UserSchemas.Then(UserSchemas.Bounds("title", b.title, 1, 200),
    UserSchemas.Then(if |b.description| < 1 then Some(UserSchemas.Invalid("description", "at least 1 character")) else None, []))
  }

  /** `preferred_time.date()` stored in a datetime column: midnight of that day. */
  function Midnight(t: Moment): (r: Moment)
    ensures r.date == t.date && r.second == 0
  {
    DateTime(t.date, 0)
  }

  /**
   * The task a client's help request becomes: a pending help request of the
   * client's organization, created by the client's user, due on the date
   * of the preferred time. The request type is not stored.
   */
  function NewHelpRequest(id: Id, client: Client, userId: Id, body: HelpRequestCreate, now: Moment): (r: Task)
    ensures r.clientId == client.id && r.organizationId == client.organizationId && r.createdBy == userId
    ensures r.taskType == Some(HelpRequests.HELP_REQUEST) && r.status == TaskStatus.PENDING && r.completedAt.None?
    ensures r.priority == PriorityFor(body.priority) && r.additionalData.None? && r.assignedTo.None?
    ensures CompletionConsistent(r)
  {
    Task(id, client.id, client.organizationId, None, userId, body.title, Some(body.description),
         PriorityFor(body.priority), TaskStatus.PENDING,
         if body.preferredTime.Some? then Some(Midnight(body.preferredTime.value)) else None,
         None, None, None, now, None, Some(HelpRequests.HELP_REQUEST))
  }

  /** What the client is told about one of its help requests. */
  datatype PortalHelpRequest = PortalHelpRequest(id: Id, requestType: string, priority: string, title: string,
                                                 description: string, preferredTime: Option<Moment>, status: string,
                                                 createdAt: Moment, resolvedAt: Option<Moment>, response: Option<string>)

  /**
   * `create_help_request`, as evidently intended: the client's request is
   * stored as a new help request keyed above every existing key, and the
   * answer echoes the request type and preferred time sent.
   */
  method CreateHelpRequest(board: TaskBoard, c: Account, role: Option<Role>, clients: seq<Client>,
                           body: HelpRequestCreate, now: Moment) returns (r: Result<PortalHelpRequest>)
    requires HelpRequestCreateViolations(body) == []
    modifies board
    ensures GetClientUser(c, role, clients).Err? ==>
              var g := GetClientUser(c, role, clients); r == Err(g.status, g.detail) && board.tasks == old(board.tasks)
    ensures GetClientUser(c, role, clients).Ok? ==>
              var t := NewHelpRequest(SchedulingDb.NextKey(old(board.tasks), TaskIdOf),
                                      GetClientUser(c, role, clients).value, c.id, body, now);
              board.tasks == old(board.tasks) + [t]
              && r == Ok(PortalHelpRequest(t.id, body.requestType, TaskPriorityValue(t.priority), body.title,
                                           body.description, body.preferredTime, TaskStatusValue(TaskStatus.PENDING),
                                           now, None, None))
  {
    var g := GetClientUser(c, role, clients);
    if g.Err? {
      return Err(g.status, g.detail);
    }
    var t := NewHelpRequest(SchedulingDb.NextKey(board.tasks, TaskIdOf), g.value, c.id, body, now);
    board.tasks := board.tasks + [t];
    r := Ok(PortalHelpRequest(t.id, body.requestType, TaskPriorityValue(t.priority), body.title, body.description,
                              body.preferredTime, TaskStatusValue(TaskStatus.PENDING), now, None, None));
  }

  function OwnHelpRequest(clientId: Id): Task -> bool
  {
    (t: Task) => t.clientId == clientId && t.taskType == Some(HelpRequests.HELP_REQUEST)
  }

  /** The client's view of a stored request: its type is always shown as "other" and its preferred time not at all. */
  function PortalView(t: Task): (r: PortalHelpRequest)
    ensures r.id == t.id && r.requestType == HelpRequests.OTHER && r.preferredTime.None?
    ensures r.status == TaskStatusValue(t.status) && r.resolvedAt == t.completedAt && r.response == t.notes
  {
    PortalHelpRequest(t.id, HelpRequests.OTHER, TaskPriorityValue(t.priority), t.title, OrEmpty(t.description), None,
                      TaskStatusValue(t.status), t.createdAt, t.completedAt, t.notes)
  }

  function RequestCreated(t: Task): int
  {
    Stamp(t.createdAt)
  }

  /** The creation time a client's view of a request shows, in seconds. */
  function ViewCreated(v: PortalHelpRequest): int
  {
    Stamp(v.createdAt)
  }

  /**
   * The client's `get_help_requests`, as evidently intended: its own help
   * requests newest first, at most `limit` of them; a request left out is
   * no newer than any listed. A negative limit is refused by the database
   * with a 500.
   */
  function OwnHelpRequests(rows: seq<Task>, c: Account, role: Option<Role>, clients: seq<Client>, limit: int)
    : (r: Result<seq<PortalHelpRequest>>)
    ensures GetClientUser(c, role, clients).Err? ==>
              var g := GetClientUser(c, role, clients); r == Err(g.status, g.detail)
    ensures GetClientUser(c, role, clients).Ok? && limit < 0 ==> r == Err(INTERNAL_ERROR, UNHANDLED)
    ensures r.Ok? <==> GetClientUser(c, role, clients).Ok? && limit >= 0
    ensures r.Ok? ==>
              var p := OwnHelpRequest(GetClientUser(c, role, clients).value.id);
              && |r.value| == (if Count(rows, p) < limit then Count(rows, p) else limit)
              && (forall k :: 0 <= k < |r.value| ==>
                    exists t :: t in rows && p(t) && r.value[k] == PortalView(t))
              && (forall i, j :: 0 <= i < j < |r.value| ==> ViewCreated(r.value[i]) >= ViewCreated(r.value[j]))
              && (forall t, k :: t in rows && p(t) && PortalView(t) !in r.value && 0 <= k < |r.value|
                    ==> RequestCreated(t) <= ViewCreated(r.value[k]))
              && (Count(rows, p) <= limit ==> forall t :: t in rows && p(t) ==> PortalView(t) in r.value)
  {
    var g := GetClientUser(c, role, clients);
    if g.Err? then Err(g.status, g.detail)
    else if limit < 0 then Err(INTERNAL_ERROR, UNHANDLED)
    else
      Ok(NewestViews(rows, OwnHelpRequest(g.value.id), limit))
  }

  /**
   * The client's views of the newest `n` matching requests: min(n, count)
   * views, newest first, each of a matching request, none newer left out,
   * and every matching request viewed when they fit.
   */
  function NewestViews(rows: seq<Task>, p: Task -> bool, n: nat): (r: seq<PortalHelpRequest>)
    ensures |r| == if Count(rows, p) < n then Count(rows, p) else n
    ensures forall k :: 0 <= k < |r| ==> exists t :: t in rows && p(t) && r[k] == PortalView(t)
    ensures forall i, j :: 0 <= i < j < |r| ==> ViewCreated(r[i]) >= ViewCreated(r[j])
    ensures forall t, k :: t in rows && p(t) && PortalView(t) !in r && 0 <= k < |r| ==> RequestCreated(t) <= ViewCreated(r[k])
    ensures Count(rows, p) <= n ==> forall t :: t in rows && p(t) ==> PortalView(t) in r
  {
    var chosen := NewestRequests(rows, p, n);
    ViewsOfChosen(rows, p, chosen, Count(rows, p) <= n);
    MapSeq(chosen, PortalView)
  }

  /**
   * `.order_by(Task.created_at.desc()).limit(n)` over the matching requests:
   * min(n, count) of them, newest first, none newer left out, and all of
   * them when they fit.
   */
  function NewestRequests(rows: seq<Task>, p: Task -> bool, n: nat): (r: seq<Task>)
    ensures |r| == if Count(rows, p) < n then Count(rows, p) else n
    ensures SortedDesc(r, RequestCreated)
    ensures forall k :: 0 <= k < |r| ==> r[k] in rows && p(r[k])
    ensures forall x, k :: x in rows && p(x) && x !in r && 0 <= k < |r| ==> RequestCreated(x) <= RequestCreated(r[k])
    ensures Count(rows, p) <= n ==> forall x :: x in rows && p(x) ==> x in r
  {
    var s := SelectDesc(rows, p, RequestCreated);
    TakeSortedDesc(s, n, RequestCreated);
    TakeSelectDescKeepsNewest(rows, p, RequestCreated, n);
    assert forall k :: 0 <= k < |Take(s, n)| ==> Take(s, n)[k] == s[k];
    Take(s, n)
  }

  /**
   * Viewing chosen requests keeps them chosen from the rows, in their order,
   * keeps every left-out request no newer, and keeps every request when all
   * were chosen.
   */
  lemma ViewsOfChosen(rows: seq<Task>, p: Task -> bool, chosen: seq<Task>, all: bool)
    requires SortedDesc(chosen, RequestCreated)
    requires forall k :: 0 <= k < |chosen| ==> chosen[k] in rows && p(chosen[k])
    requires forall x, k :: x in rows && p(x) && x !in chosen && 0 <= k < |chosen| ==> RequestCreated(x) <= RequestCreated(chosen[k])
    requires all ==> forall x :: x in rows && p(x) ==> x in chosen
    ensures var views := MapSeq(chosen, PortalView);
            && |views| == |chosen|
            && (forall k :: 0 <= k < |views| ==> exists t :: t in rows && p(t) && views[k] == PortalView(t))
            && (forall i, j :: 0 <= i < j < |views| ==> ViewCreated(views[i]) >= ViewCreated(views[j]))
            && (forall t, k :: t in rows && p(t) && PortalView(t) !in views && 0 <= k < |views|
                  ==> RequestCreated(t) <= ViewCreated(views[k]))
            && (all ==> forall t :: t in rows && p(t) ==> PortalView(t) in views)
  {
    var views := MapSeq(chosen, PortalView);
    ViewsKeepOrder(chosen);
    forall k | 0 <= k < |views| ensures exists t :: t in rows && p(t) && views[k] == PortalView(t) {
      var w := chosen[k];
      assert w in rows && p(w) && views[k] == PortalView(w);
    }
    assert forall k :: 0 <= k < |views| ==> exists t :: t in rows && p(t) && views[k] == PortalView(t);
    forall t, k | t in rows && p(t) && PortalView(t) !in views && 0 <= k < |views|
      ensures RequestCreated(t) <= ViewCreated(views[k])
    {
      assert RequestCreated(t) <= RequestCreated(chosen[k]);
      assert views[k] == PortalView(chosen[k]);
    }
  }

  /** Viewing requests one by one keeps their creation order and every request. */
  lemma ViewsKeepOrder(chosen: seq<Task>)
    requires SortedDesc(chosen, RequestCreated)
    ensures var views := MapSeq(chosen, PortalView);
            && (forall i, j :: 0 <= i < j < |views| ==> ViewCreated(views[i]) >= ViewCreated(views[j]))
            && (forall t :: t in chosen ==> PortalView(t) in views)
  {
    var views := MapSeq(chosen, PortalView);
    forall i, j | 0 <= i < j < |views| ensures ViewCreated(views[i]) >= ViewCreated(views[j]) {
      assert RequestCreated(chosen[i]) >= RequestCreated(chosen[j]);
    }
    forall t | t in chosen ensures PortalView(t) in views {
      var k :| 0 <= k < |chosen| && chosen[k] == t;
      assert views[k] == PortalView(t);
    }
  }

  /** A help request of the client added to rows holding none is the one listed back. */
  lemma OnlyRequestIsListed(rows: seq<Task>, c: Account, role: Option<Role>, clients: seq<Client>, t: Task)
    requires GetClientUser(c, role, clients).Ok?
    requires forall k :: 0 <= k < |rows| ==> !OwnHelpRequest(GetClientUser(c, role, clients).value.id)(rows[k])
    requires OwnHelpRequest(GetClientUser(c, role, clients).value.id)(t)
    ensures OwnHelpRequests(rows + [t], c, role, clients, 1) == Ok([PortalView(t)])
  {
    var p := OwnHelpRequest(GetClientUser(c, role, clients).value.id);
    OnlyMatchIsNewest(rows, p, t);
    assert MapSeq([t], PortalView) == [PortalView(t)];
  }

  /** When only the appended request matches, it alone is the newest one. */
  lemma OnlyMatchIsNewest(rows: seq<Task>, p: Task -> bool, t: Task)
    requires forall k :: 0 <= k < |rows| ==> !p(rows[k])
    requires p(t)
    ensures Take(SelectDesc(rows + [t], p, RequestCreated), 1) == [t]
  {
    NoneMatchingCountsZero(rows, p);
    FilterAppend(rows, [t], p);
    assert Filter([t], p) == [t] by {
      assert [t][1..] == [];
    }
    assert Filter(rows + [t], p) == [t];
    var s := SelectDesc(rows + [t], p, RequestCreated);
    assert multiset(s) == multiset([t]);
    assert s[0] in multiset(s);
    assert s == [t];
  }

  /** A request just filed by a client with no earlier request is listed back to it. */
  lemma FiledRequestIsListed(rows: seq<Task>, c: Account, role: Option<Role>, clients: seq<Client>,
                             body: HelpRequestCreate, now: Moment)
    requires GetClientUser(c, role, clients).Ok?
    requires forall k :: 0 <= k < |rows| ==> !OwnHelpRequest(GetClientUser(c, role, clients).value.id)(rows[k])
    ensures var t := NewHelpRequest(SchedulingDb.NextKey(rows, TaskIdOf), GetClientUser(c, role, clients).value,
                                    c.id, body, now);
            OwnHelpRequests(rows + [t], c, role, clients, 1) == Ok([PortalView(t)])
  {
    var t := NewHelpRequest(SchedulingDb.NextKey(rows, TaskIdOf), GetClientUser(c, role, clients).value, c.id, body, now);
    OnlyRequestIsListed(rows, c, role, clients, t);
  }

  /**
   * A request filed by a client reaches a manager of the client's
   * organization as a pending count, but staff see its type as "other":
   * the type sent is never stored.
   */
  lemma FiledRequestReachesStaff(rows: seq<Task>, staff: seq<HelpRequests.Staff>,
                                 assignments: seq<HelpRequests.StaffAssignment>, client: Client, userId: Id,
                                 body: HelpRequestCreate, now: Moment, manager: Account, managerRole: Option<Role>,
                                 clientRows: seq<Client>, users: seq<Account>)
    requires HelpRequests.IsManager(managerRole) && manager.organizationId == Some(client.organizationId)
    ensures var t := NewHelpRequest(SchedulingDb.NextKey(rows, TaskIdOf), client, userId, body, now);
            var counts := HelpRequests.Counts(rows + [t], staff, assignments, manager, managerRole);
            counts.Ok? && counts.value.pending >= 1
            && HelpRequests.HelpView(t, clientRows, users).Ok?
            && HelpRequests.HelpView(t, clientRows, users).value.requestType == HelpRequests.OTHER
  {
    var t := NewHelpRequest(SchedulingDb.NextKey(rows, TaskIdOf), client, userId, body, now);
    var rows' := rows + [t];
    HelpRequests.PendingRequestUnseenAsWritten(rows', staff, assignments, manager, managerRole, |rows|);
  }

  /**
   * Filing and listing help requests as written: past the portal's access
   * check, `Task(task_type=...)` and `Task.task_type` both fail, and the
   * request ends in an unhandled 500 with nothing stored.
   */
  function HelpRequestsAsWritten<T>(c: Account, role: Option<Role>, clients: seq<Client>): (r: Result<T>)
    ensures r.Err?
    ensures GetClientUser(c, role, clients).Err? ==>
              r == Err(GetClientUser(c, role, clients).status, GetClientUser(c, role, clients).detail)
    ensures GetClientUser(c, role, clients).Ok? ==> r == Err(INTERNAL_ERROR, UNHANDLED)
  {
    var g := GetClientUser(c, role, clients);
    if g.Err? then Err(g.status, g.detail) else Err(INTERNAL_ERROR, UNHANDLED)
  }

  /** As written a client with a profile is never answered; as intended the request it files is listed back. */
  lemma FilingFailsAsWritten(c: Account, role: Option<Role>, clients: seq<Client>, body: HelpRequestCreate,
                             now: Moment)
    requires GetClientUser(c, role, clients).Ok?
    ensures HelpRequestsAsWritten<PortalHelpRequest>(c, role, clients) == Err(INTERNAL_ERROR, UNHANDLED)
    ensures var t := NewHelpRequest(SchedulingDb.NextKey([], TaskIdOf), GetClientUser(c, role, clients).value,
                                    c.id, body, now);
            OwnHelpRequests([t], c, role, clients, 1) == Ok([PortalView(t)])
  {
    FiledRequestIsListed([], c, role, clients, body, now);
  }
}
