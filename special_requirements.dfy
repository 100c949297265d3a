/**
 * The special-requirements endpoints: managers create, list, update and
 * deactivate a client's requirements; a direct-support professional sees
 * the requirements pending on the shifts under way and certifies one
 * response per requirement and shift.
 *
 * The handlers look a shift's client up in `Shift.client_id`, a column the
 * `shifts` table does not have: as written, every lookup of an active shift
 * for a staff member with a staff record fails with a 500
 * (`ShiftTimeAsWritten`, `SubmitAsWritten`, `PendingAsWritten`). The rest of
 * the model reads the shift's client from a `DutyShift`, a shift row with the
 * client the handlers expect on it.
 */
module SpecialRequirements {
  import opened Common
  import opened IdentityModel
  import opened StaffModel
  import opened ClientModel
  import opened SchedulingModel
  import opened SpecialRequirementModel
  import TimeClock
  import SchedulingDb

  const REQUIREMENT_NOT_FOUND: string := "Special requirement not found"
  const CLIENT_NOT_FOUND: string := "Client not found"
  const STAFF_RECORD_NOT_FOUND: string := "Staff record not found"
  const NOT_ACTIVE: string := "This special requirement is not currently active"
  const WRONG_CLIENT: string := "This requirement is not for the specified client"
  const NOT_ASSIGNED_SUBMIT: string := "You can only submit responses for clients assigned to you"
  const NOT_ASSIGNED_VIEW: string := "You can only view requirements for clients assigned to you"
  const NOT_ON_SHIFT: string := "You can only submit responses during your scheduled shift time"
  const NOT_CLOCKED_IN: string :=
    "You must clock in before submitting documentation. Please tap 'Time In' in the Shift Clock."
  const ALREADY_RESPONDED: string := "You have already submitted a response for this requirement during this shift"
  const DEACTIVATED: string := "Special requirement deactivated"

  // ---------------------------------------------------------------------
  // Time
  // ---------------------------------------------------------------------

  /**
   * What the handlers read from the clock: the current UTC moment, the
   * server's `date.today()`, and the UTC offset in seconds, at that moment,
   * of every time-zone name pytz knows.
   */
  datatype Clock = Clock(utcNow: Moment, today: Day, offsets: map<string, int>)

  /** The caller's time zone, `current_user.timezone or "UTC"`. */
  function ZoneName(timezone: Option<string>): (r: string)
    ensures Truthy(timezone) ==> r == timezone.value
    ensures !Truthy(timezone) ==> r == "UTC"
  {
    if Truthy(timezone) then timezone.value else "UTC"
  }

  /** The current moment in the caller's zone; a name pytz does not know falls back to UTC. */
  function LocalNow(clock: Clock, timezone: Option<string>): (r: Moment)
    ensures ZoneName(timezone) !in clock.offsets ==> r == clock.utcNow
    ensures ZoneName(timezone) in clock.offsets ==> Stamp(r) == Stamp(clock.utcNow) + clock.offsets[ZoneName(timezone)]
  {
    var name := ZoneName(timezone);
    if name in clock.offsets then AddSeconds(clock.utcNow, clock.offsets[name]) else clock.utcNow
  }

  /** `is_requirement_active`: an ACTIVE requirement whose date range holds the day, both ends included. */
  predicate ActiveOn(r: SpecialRequirement, day: Day)
  {
    r.status == RequirementStatus.ACTIVE && DayNumber(r.startDate) <= DayNumber(day) <= DayNumber(r.endDate)
  }

  // ---------------------------------------------------------------------
  // The three checks on a direct-support professional
  // ---------------------------------------------------------------------

  /** A shift as the handlers read it: the row with the client it is worked for. */
  datatype DutyShift = DutyShift(shift: Shift, clientId: Id)

  function DutyShiftIdOf(d: DutyShift): Id
  {
    d.shift.id
  }

  /** The tables the handlers read but do not write. */
  datatype Roster = Roster(
    clients: seq<Client>,
    users: seq<UserRecord>,
    staff: seq<Staff>,
    assignments: seq<StaffAssignment>,
    shifts: seq<DutyShift>,
    entries: seq<TimeClockEntry>)

  function StaffOfUser(userId: Id, org: Option<Id>): Staff -> bool
  {
    (s: Staff) => s.userId == userId && Some(s.organizationId) == org
  }

  /** The user's staff record in the organization, `.first()`. */
  function StaffOf(staff: seq<Staff>, userId: Id, org: Option<Id>): (r: Option<Staff>)
    ensures r.Some? ==> r.value in staff && r.value.userId == userId && org == Some(r.value.organizationId)
    ensures r.None? <==> forall k :: 0 <= k < |staff| ==> !StaffOfUser(userId, org)(staff[k])
  {
    var i := FirstMatch(staff, StaffOfUser(userId, org));
    if i.None? then None else Some(staff[i.value])
  }

  function AssignedTo(staffId: Id, clientId: Id): StaffAssignment -> bool
  {
    (a: StaffAssignment) => a.staffId == staffId && a.clientId == Some(clientId) && a.isActive
  }

  /** `verify_client_assignment`: the user has a staff record with an active assignment to the client. */
  function ClientAssigned(roster: Roster, userId: Id, clientId: Id, org: Option<Id>): (r: bool)
    ensures r <==> StaffOf(roster.staff, userId, org).Some?
                   && exists k :: 0 <= k < |roster.assignments|
                                  && AssignedTo(StaffOf(roster.staff, userId, org).value.id, clientId)(roster.assignments[k])
  {
    var staff := StaffOf(roster.staff, userId, org);
    staff.Some? && FirstMatch(roster.assignments, AssignedTo(staff.value.id, clientId)).Some?
  }

  /** A shift of the staff member under way at that local moment: today's, begun, not ended, and not closed. */
  function UnderWay(staffId: Id, local: Moment): DutyShift -> bool
  {
    (d: DutyShift) => d.shift.staffId == staffId && d.shift.shiftDate == local.date
                      && d.shift.startTime <= local.second <= d.shift.endTime
                      && d.shift.status in {SCHEDULED, CONFIRMED, ShiftStatus.IN_PROGRESS}
  }

  function UnderWayFor(staffId: Id, clientId: Id, local: Moment): DutyShift -> bool
  {
    (d: DutyShift) => UnderWay(staffId, local)(d) && d.clientId == clientId
  }

  /**
   * `verify_shift_time`: the first shift of the user's staff record, for the
   * client, under way at the local moment; none without a staff record.
   */
  function ActiveShift(roster: Roster, userId: Id, clientId: Id, org: Option<Id>, local: Moment): (r: Option<DutyShift>)
    ensures r.Some? ==> r.value in roster.shifts && StaffOf(roster.staff, userId, org).Some?
                        && UnderWayFor(StaffOf(roster.staff, userId, org).value.id, clientId, local)(r.value)
    ensures r.None? <==> StaffOf(roster.staff, userId, org).None?
                         || forall k :: 0 <= k < |roster.shifts| ==>
                              !UnderWayFor(StaffOf(roster.staff, userId, org).value.id, clientId, local)(roster.shifts[k])
  {
    var staff := StaffOf(roster.staff, userId, org);
    if staff.None? then None
    else
      var i := FirstMatch(roster.shifts, UnderWayFor(staff.value.id, clientId, local));
      if i.None? then None else Some(roster.shifts[i.value])
  }

  /**
   * `verify_shift_time` as written: without a staff record, no shift; with
   * one, building the query reads `Shift.client_id`, which the mapped class
   * lacks, and the request fails with a 500.
   */
  function ShiftTimeAsWritten(roster: Roster, userId: Id, org: Option<Id>): (r: Result<Option<DutyShift>>)
    ensures r.Ok? <==> StaffOf(roster.staff, userId, org).None?
    ensures r.Ok? ==> r.value.None?
  {
    if StaffOf(roster.staff, userId, org).None? then Ok(None) else Err(INTERNAL_ERROR, UNHANDLED)
  }

  /**
   * `verify_clocked_in`: a 404 without a staff record; a 403 without a
   * clock-in, or when a clock-out is stamped after the latest clock-in.
   */
  function ClockedInCheck(roster: Roster, userId: Id, org: Option<Id>): (r: Result<bool>)
    ensures StaffOf(roster.staff, userId, org).None? ==> r == Err(NOT_FOUND, STAFF_RECORD_NOT_FOUND)
    ensures StaffOf(roster.staff, userId, org).Some? ==>
              (r.Ok? <==> TimeClock.ClockedIn(roster.entries, StaffOf(roster.staff, userId, org).value.id))
    ensures StaffOf(roster.staff, userId, org).Some? && r.Err? ==> r == Err(FORBIDDEN, NOT_CLOCKED_IN)
    ensures r.Ok? ==> r.value
  {
    var staff := StaffOf(roster.staff, userId, org);
    if staff.None? then Err(NOT_FOUND, STAFF_RECORD_NOT_FOUND)
    else
      var latest := TimeClock.Latest(roster.entries, staff.value.id, CLOCK_IN);
      if latest.None? then Err(FORBIDDEN, NOT_CLOCKED_IN)
      else if TimeClock.HasKindAfter(roster.entries, staff.value.id, CLOCK_OUT,
                                     EntryStamp(roster.entries[latest.value])) then Err(FORBIDDEN, NOT_CLOCKED_IN)
      else Ok(true)
  }

  // ---------------------------------------------------------------------
  // Action-plan items
  // ---------------------------------------------------------------------

  /**
   * The items a create or an update stores: text kept; a given, non-empty id
   * kept, otherwise the uuid drawn for that position; a given order kept,
   * otherwise the item's position.
   */
  function NormalizedItems(items: seq<ActionItemIn>, uuids: seq<string>): (r: seq<ActionItem>)
    requires |uuids| == |items|
    ensures |r| == |items|
    ensures forall k :: 0 <= k < |r| ==>
                          && r[k].text == items[k].text
                          && r[k].id == (if Truthy(items[k].id) then items[k].id.value else uuids[k])
                          && r[k].order == (if items[k].order.Some? then items[k].order.value else k)
  {
    seq(|items|, k requires 0 <= k < |items| =>
      ActionItem(if Truthy(items[k].id) then items[k].id.value else uuids[k], items[k].text,
                 if items[k].order.Some? then items[k].order.value else k))
  }

  /** The normalising loop of the create and update handlers, item by item. */
  method NormalizeItems(items: seq<ActionItemIn>, uuids: seq<string>) returns (r: seq<ActionItem>)
    requires |uuids| == |items|
    ensures r == NormalizedItems(items, uuids)
  {
    r := [];
    var i := 0;
    while i < |items|
      invariant 0 <= i <= |items| && |r| == i
      invariant forall k :: 0 <= k < i ==> r[k] == NormalizedItems(items, uuids)[k]
    {
      var id := if Truthy(items[i].id) then items[i].id.value else uuids[i];
      var order := if items[i].order.Some? then items[i].order.value else i;
      r := r + [ActionItem(id, items[i].text, order)];
      i := i + 1;
    }
  }

  /** Items that pass the schema keep their orders: the fallback to the position never applies. */
  lemma ValidItemsKeepTheirOrder(items: seq<ActionItemIn>, uuids: seq<string>)
    requires |uuids| == |items| && ItemViolations(items) == []
    ensures forall k :: 0 <= k < |items| ==> NormalizedItems(items, uuids)[k].order == items[k].order.value >= 0
  {
  }

  /** With non-empty uuids, every stored item has a non-empty id. */
  lemma NormalizedIdsAreNonEmpty(items: seq<ActionItemIn>, uuids: seq<string>)
    requires |uuids| == |items| && forall k :: 0 <= k < |uuids| ==> uuids[k] != ""
    ensures forall k :: 0 <= k < |items| ==> NormalizedItems(items, uuids)[k].id != ""
  {
    forall k | 0 <= k < |items|
      ensures NormalizedItems(items, uuids)[k].id != ""
    {
      if Truthy(items[k].id) {
        assert items[k].id.value != "";
      }
    }
  }

  /** The ids of a requirement's items, as the submission compares them. */
  function RequiredIds(items: seq<ActionItem>): (r: set<string>)
    ensures forall id :: id in r <==> exists k :: 0 <= k < |items| && items[k].id == id
  {
    set k | 0 <= k < |items| :: items[k].id
  }

  /** The items' ids the acknowledgement leaves out. */
  function MissingIds(items: seq<ActionItem>, acknowledged: seq<string>): (r: set<string>)
    ensures r == {} <==> forall k :: 0 <= k < |items| ==> items[k].id in acknowledged
  {
    var ack := set k | 0 <= k < |acknowledged| :: acknowledged[k];
    var r := RequiredIds(items) - ack;
    assert forall k :: 0 <= k < |items| && items[k].id !in acknowledged ==> items[k].id in r;
    r
  }

  // ---------------------------------------------------------------------
  // Lookups and views
  // ---------------------------------------------------------------------

  function RequirementIn(id: Id, org: Option<Id>): SpecialRequirement -> bool
  {
    (r: SpecialRequirement) => r.id == id && Some(r.organizationId) == org
  }

  /** The requirement of that key in the caller's organization: a 404 otherwise. */
  function FindRequirement(rows: seq<SpecialRequirement>, id: Id, org: Option<Id>): (r: Result<nat>)
    ensures r.Ok? ==> r.value < |rows| && RequirementIn(id, org)(rows[r.value])
    ensures r.Err? <==> forall k :: 0 <= k < |rows| ==> !RequirementIn(id, org)(rows[k])
    ensures r.Err? ==> r == Err(NOT_FOUND, REQUIREMENT_NOT_FOUND)
  {
    var i := FirstMatch(rows, RequirementIn(id, org));
    if i.None? then Err(NOT_FOUND, REQUIREMENT_NOT_FOUND) else Ok(i.value)
  }

  function ClientById(id: Id): Client -> bool
  {
    (c: Client) => c.id == id
  }

  /** A client's name as the views show it: "first last", or "Unknown" when the row is gone. */
  function ClientName(clients: seq<Client>, id: Id): (r: string)
    ensures (forall k :: 0 <= k < |clients| ==> clients[k].id != id) ==> r == "Unknown"
    ensures (exists k :: 0 <= k < |clients| && clients[k].id == id) ==>
              exists k :: 0 <= k < |clients| && clients[k].id == id && r == clients[k].firstName + " " + clients[k].lastName
  {
    var i := FirstMatch(clients, ClientById(id));
    if i.None? then "Unknown" else clients[i.value].firstName + " " + clients[i.value].lastName
  }

  /** A user's name, "first last", when the row exists. */
  function CreatorName(users: seq<UserRecord>, id: Option<Id>): (r: Option<string>)
    ensures id.None? ==> r.None?
    ensures id.Some? ==> (r.Some? <==> exists k :: 0 <= k < |users| && users[k].id == id.value)
  {
    if id.None? then None
    else
      var u := UserById(users, id.value);
      if u.None? then None else Some(u.value.firstName + " " + u.value.lastName)
  }

  function ResponseTo(requirementId: Id): RequirementResponse -> bool
  {
    (p: RequirementResponse) => p.requirementId == requirementId
  }

  /** `SpecialRequirementSchema`: the row with its client's and creator's names, whether it is active, and its responses. */
  datatype RequirementView = RequirementView(requirement: SpecialRequirement, clientName: string,
                                             createdByName: Option<string>, isActive: bool, responseCount: nat)

  function ViewOf(roster: Roster, responses: seq<RequirementResponse>, today: Day): SpecialRequirement -> RequirementView
  {
    (r: SpecialRequirement) => RequirementView(r, ClientName(roster.clients, r.clientId),
                                               CreatorName(roster.users, r.createdBy), ActiveOn(r, today),
                                               Count(responses, ResponseTo(r.id)))
  }

  /** `get_special_requirement`: the caller's organization's requirement, with its view. */
  function GetRequirement(rows: seq<SpecialRequirement>, responses: seq<RequirementResponse>, roster: Roster,
                          user: Account, id: Id, today: Day): (r: Result<RequirementView>)
    ensures r.Ok? <==> exists k :: 0 <= k < |rows| && RequirementIn(id, user.organizationId)(rows[k])
    ensures r.Ok? ==> r.value.requirement in rows && r.value.requirement.id == id
                      && user.organizationId == Some(r.value.requirement.organizationId)
                      && r.value.isActive == ActiveOn(r.value.requirement, today)
                      && r.value.responseCount == Count(responses, ResponseTo(id))
  {
    var i := FindRequirement(rows, id, user.organizationId);
    if i.Err? then Err(i.status, i.detail) else Ok(ViewOf(roster, responses, today)(rows[i.value]))
  }

  // ---------------------------------------------------------------------
  // The managers' list
  // ---------------------------------------------------------------------

  /**
   * The query of `GET /special-requirements`. `status` and `priority` are
   * the texts given (an empty text filters nothing); `limit` and `offset`
   * are any integers, `limit` at most 100.
   */
  datatype RequirementQuery = RequirementQuery(clientId: Option<Id>, status: Option<string>, priority: Option<string>,
                                               activeOnly: bool, limit: int, offset: int)

  predicate ValidRequirementQuery(q: RequirementQuery)
  {
    q.limit <= 100
  }

  /** The `pagination` block: `page` and `pages` are 1 when the limit is 0 or less. */
  datatype Pagination = Pagination(total: nat, page: int, pageSize: int, pages: int)

  function PaginationOf(total: nat, limit: int, offset: int): (r: Pagination)
    requires offset >= 0
    ensures r.total == total && r.pageSize == limit
    ensures limit <= 0 ==> r.page == 1 && r.pages == 1
    ensures limit > 0 ==> (r.page - 1) * limit <= offset < r.page * limit
    ensures limit > 0 ==> r.pages * limit >= total && (r.pages == 0 || (r.pages - 1) * limit < total)
  {
    if limit > 0 then Pagination(total, PageOf(offset, limit), limit, PageCount(total, limit))
    else Pagination(total, 1, limit, 1)
  }

  /** The list: its views and its pagination block. */
  datatype RequirementsPage = RequirementsPage(data: seq<RequirementView>, pagination: Pagination)

  /** The requirements the list selects, with the status and priority already parsed. */
  function Listed(org: Option<Id>, clientId: Option<Id>, status: Option<RequirementStatus>,
                  priority: Option<PriorityLevel>, activeOnly: bool, today: Day): SpecialRequirement -> bool
  {
    (r: SpecialRequirement) => Some(r.organizationId) == org
                               && (clientId.None? || r.clientId == clientId.value)
                               && (status.None? || r.status == status.value)
                               && (priority.None? || r.priority == priority.value)
                               && (activeOnly ==> ActiveOn(r, today))
  }

  /** A filter text parsed by `parse`: absent or empty filters nothing; a text `parse` refuses is an error. */
  function ParsedFilter<T>(text: Option<string>, parse: string -> Option<T>): (r: Result<Option<T>>)
    ensures !Truthy(text) ==> r == Ok(None)
    ensures Truthy(text) ==> (r.Ok? <==> parse(text.value).Some?)
    ensures Truthy(text) && r.Ok? ==> r.value == parse(text.value)
  {
    if !Truthy(text) then Ok(None)
    else if parse(text.value).None? then Err(INTERNAL_ERROR, UNHANDLED)
    else Ok(parse(text.value))
  }

  /**
   * `list_special_requirements`: the caller's organization's requirements
   * the filters select, newest first, `offset` skipped and `limit` kept,
   * each with its view. A status or priority that names no member raises a
   * `ValueError` (500), and the database refuses a negative limit or offset
   * (500).
   */
  function ListRequirements(rows: seq<SpecialRequirement>, responses: seq<RequirementResponse>, roster: Roster,
                            user: Account, q: RequirementQuery, today: Day): (r: Result<RequirementsPage>)
    requires ValidRequirementQuery(q)
    ensures r.Ok? <==> ParsedFilter(q.status, StatusFromValue).Ok? && ParsedFilter(q.priority, PriorityFromValue).Ok?
                       && q.limit >= 0 && q.offset >= 0
    ensures r.Ok? ==>
              var p := Listed(user.organizationId, q.clientId, ParsedFilter(q.status, StatusFromValue).value,
                              ParsedFilter(q.priority, PriorityFromValue).value, q.activeOnly, today);
              && r.value.pagination == PaginationOf(Count(rows, p), q.limit, q.offset)
              && r.value.data == MapSeq(Window(SelectDesc(rows, p, RequirementCreated), q.offset, q.limit),
                                        ViewOf(roster, responses, today))
              && |r.value.data| <= q.limit
              && (forall k :: 0 <= k < |r.value.data| ==>
                    r.value.data[k].requirement in rows && p(r.value.data[k].requirement)
                    && r.value.data[k] == ViewOf(roster, responses, today)(r.value.data[k].requirement))
              && (forall i, j :: 0 <= i < j < |r.value.data| ==>
                    RequirementCreated(r.value.data[i].requirement) >= RequirementCreated(r.value.data[j].requirement))
  {
    var status := ParsedFilter(q.status, StatusFromValue);
    var priority := ParsedFilter(q.priority, PriorityFromValue);
    if status.Err? || priority.Err? || q.limit < 0 || q.offset < 0 then Err(INTERNAL_ERROR, UNHANDLED)
    else
      var p := Listed(user.organizationId, q.clientId, status.value, priority.value, q.activeOnly, today);
      var page := Window(SelectDesc(rows, p, RequirementCreated), q.offset, q.limit);
      var data := MapSeq(page, ViewOf(roster, responses, today));
      Ok(RequirementsPage(data, PaginationOf(Count(rows, p), q.limit, q.offset)))
  }

  // ---------------------------------------------------------------------
  // Responses on a shift
  // ---------------------------------------------------------------------

  /** A response of the user to the requirement on that shift. */
  function ResponseOf(requirementId: Id, userId: Id, shiftId: Id): RequirementResponse -> bool
  {
    (p: RequirementResponse) => p.requirementId == requirementId && p.staffId == Some(userId) && p.shiftId == Some(shiftId)
  }

  /** The first response of the user to the requirement on that shift, `.first()`. */
  function ResponseOnShift(responses: seq<RequirementResponse>, requirementId: Id, userId: Id, shiftId: Id): (r: Option<RequirementResponse>)
    ensures r.None? <==> forall k :: 0 <= k < |responses| ==> !ResponseOf(requirementId, userId, shiftId)(responses[k])
    ensures r.Some? ==> r.value in responses && ResponseOf(requirementId, userId, shiftId)(r.value)
  {
    var i := FirstMatch(responses, ResponseOf(requirementId, userId, shiftId));
    if i.None? then None else Some(responses[i.value])
  }

  /** The user answered the requirement on that shift: some response, the latest first, is theirs to it on it. */
  predicate Answered(responses: seq<RequirementResponse>, requirementId: Id, userId: Id, shiftId: Id)
    decreases |responses|
  {
    responses != []
    && (ResponseOf(requirementId, userId, shiftId)(responses[|responses| - 1])
        || Answered(responses[..|responses| - 1], requirementId, userId, shiftId))
  }

  /** `Answered` holds exactly when the existence query of the handlers finds a row. */
  lemma {:induction false} AnsweredIff(responses: seq<RequirementResponse>, requirementId: Id, userId: Id, shiftId: Id)
    ensures Answered(responses, requirementId, userId, shiftId) <==>
              exists k :: 0 <= k < |responses| && ResponseOf(requirementId, userId, shiftId)(responses[k])
    ensures Answered(responses, requirementId, userId, shiftId) <==>
              ResponseOnShift(responses, requirementId, userId, shiftId).Some?
    decreases |responses|
  {
    if responses != [] {
      var init := responses[..|responses| - 1];
      AnsweredIff(init, requirementId, userId, shiftId);
      assert forall k :: 0 <= k < |init| ==> init[k] == responses[k];
    }
  }

  /**
   * What the handlers keep unique without a constraint: at most one response
   * per requirement, responding user and shift.
   */
  predicate OneResponsePerShift(responses: seq<RequirementResponse>)
  {
    forall i, j :: 0 <= i < j < |responses| && responses[i].staffId.Some? && responses[i].shiftId.Some? ==>
      !ResponseOf(responses[i].requirementId, responses[i].staffId.value, responses[i].shiftId.value)(responses[j])
  }

  // ---------------------------------------------------------------------
  // The pending alert
  // ---------------------------------------------------------------------

  /** `priority_order`: critical 4, high 3, medium 2, low 1. */
  function Rank(p: PriorityLevel): (r: nat)
    ensures 1 <= r <= 4
    ensures r == 1 <==> p == PriorityLevel.LOW
  {
    match p
    case LOW => 1
    case MEDIUM => 2
    case HIGH => 3
    case CRITICAL => 4
  }

  /** One entry of the alert. */
  datatype PendingItem = PendingItem(id: Id, title: string, priority: PriorityLevel, clientId: Id, clientName: string)

  /** `PendingRequirementsAlert`. */
  datatype PendingAlert = PendingAlert(totalPending: nat, highestPriority: string, requirements: seq<PendingItem>)

  function PendingItemOf(clients: seq<Client>): SpecialRequirement -> PendingItem
  {
    (r: SpecialRequirement) => PendingItem(r.id, r.title, r.priority, r.clientId, ClientName(clients, r.clientId))
  }

  /** The requirements the alert's query fetches for a shift: its client's, in the organization, active on the day. */
  function LiveFor(d: DutyShift, org: Option<Id>, day: Day): SpecialRequirement -> bool
  {
    (r: SpecialRequirement) => r.clientId == d.clientId && Some(r.organizationId) == org && ActiveOn(r, day)
  }

  function UnansweredOn(responses: seq<RequirementResponse>, userId: Id, d: DutyShift): SpecialRequirement -> bool
  {
    (r: SpecialRequirement) => !Answered(responses, r.id, userId, d.shift.id)
  }

  /** A live requirement of the shift that the user has not answered on it. */
  function OpenOn(responses: seq<RequirementResponse>, org: Option<Id>, userId: Id, day: Day, d: DutyShift): SpecialRequirement -> bool
  {
    (r: SpecialRequirement) => LiveFor(d, org, day)(r) && UnansweredOn(responses, userId, d)(r)
  }

  /** The requirements one shift contributes: its live requirements the user has not answered on it. */
  function PendingOnShift(rows: seq<SpecialRequirement>, responses: seq<RequirementResponse>,
                          org: Option<Id>, userId: Id, day: Day, d: DutyShift): seq<SpecialRequirement>
  {
    Filter(rows, OpenOn(responses, org, userId, day, d))
  }

  /** The requirements of the shifts, shift by shift; one answered on one shift still counts on another. */
  function PendingOn(rows: seq<SpecialRequirement>, responses: seq<RequirementResponse>,
                     org: Option<Id>, userId: Id, day: Day, shifts: seq<DutyShift>): (r: seq<SpecialRequirement>)
    decreases |shifts|
  {
    if shifts == [] then []
    else PendingOn(rows, responses, org, userId, day, shifts[..|shifts| - 1])
         + PendingOnShift(rows, responses, org, userId, day, shifts[|shifts| - 1])
  }

  /** Every requirement on the alert is a live requirement of one of the shifts, unanswered on it. */
  lemma {:induction false} PendingComesFromAShift(rows: seq<SpecialRequirement>, responses: seq<RequirementResponse>,
                                                  org: Option<Id>, userId: Id, day: Day, shifts: seq<DutyShift>,
                                                  r: SpecialRequirement)
    requires r in PendingOn(rows, responses, org, userId, day, shifts)
    ensures r in rows && exists j :: 0 <= j < |shifts| && OpenOn(responses, org, userId, day, shifts[j])(r)
    decreases |shifts|
  {
    var init := shifts[..|shifts| - 1];
    var d := shifts[|shifts| - 1];
    var before := PendingOn(rows, responses, org, userId, day, init);
    assert PendingOn(rows, responses, org, userId, day, shifts) == before + PendingOnShift(rows, responses, org, userId, day, d);
    if r in before {
      PendingComesFromAShift(rows, responses, org, userId, day, init, r);
      var j :| 0 <= j < |init| && OpenOn(responses, org, userId, day, init[j])(r);
      assert shifts[j] == init[j];
    } else {
      assert OpenOn(responses, org, userId, day, shifts[|shifts| - 1])(r);
    }
  }

  /** Every live requirement of a shift that the user has not answered on it is on the alert. */
  lemma {:induction false} PendingReachesEveryShift(rows: seq<SpecialRequirement>, responses: seq<RequirementResponse>,
                                                    org: Option<Id>, userId: Id, day: Day, shifts: seq<DutyShift>,
                                                    r: SpecialRequirement, j: nat)
    requires r in rows && j < |shifts| && OpenOn(responses, org, userId, day, shifts[j])(r)
    ensures r in PendingOn(rows, responses, org, userId, day, shifts)
    decreases |shifts|
  {
    var init := shifts[..|shifts| - 1];
    var d := shifts[|shifts| - 1];
    var before := PendingOn(rows, responses, org, userId, day, init);
    var here := PendingOnShift(rows, responses, org, userId, day, d);
    if j < |init| {
      assert shifts[j] == init[j];
      PendingReachesEveryShift(rows, responses, org, userId, day, init, r, j);
    } else {
      assert r in here;
    }
    assert PendingOn(rows, responses, org, userId, day, shifts) == before + here;
  }

  /**
   * The alert lists exactly the unanswered live requirements of the shifts:
   * a requirement is on it if and only if some shift under way is its
   * client's and the user has not answered it on that shift.
   */
  lemma PendingIsTheUnanswered(rows: seq<SpecialRequirement>, responses: seq<RequirementResponse>,
                                org: Option<Id>, userId: Id, day: Day, shifts: seq<DutyShift>, r: SpecialRequirement)
    ensures r in PendingOn(rows, responses, org, userId, day, shifts) <==>
              r in rows && exists j :: 0 <= j < |shifts| && OpenOn(responses, org, userId, day, shifts[j])(r)
  {
    if r in PendingOn(rows, responses, org, userId, day, shifts) {
      PendingComesFromAShift(rows, responses, org, userId, day, shifts, r);
    }
    if r in rows && exists j :: 0 <= j < |shifts| && OpenOn(responses, org, userId, day, shifts[j])(r) {
      var j :| 0 <= j < |shifts| && OpenOn(responses, org, userId, day, shifts[j])(r);
      PendingReachesEveryShift(rows, responses, org, userId, day, shifts, r, j);
    }
  }

  /** The highest priority among the requirements, LOW when there are none, as the loop tracks it. */
  function Highest(reqs: seq<SpecialRequirement>): (r: PriorityLevel)
    ensures forall k :: 0 <= k < |reqs| ==> Rank(reqs[k].priority) <= Rank(r)
    ensures r == PriorityLevel.LOW || exists k :: 0 <= k < |reqs| && reqs[k].priority == r
    decreases |reqs|
  {
    if reqs == [] then PriorityLevel.LOW
    else
      var init := reqs[..|reqs| - 1];
      var h := Highest(init);
      assert forall k :: 0 <= k < |init| ==> reqs[k] == init[k];
      var last := reqs[|reqs| - 1].priority;
      if Rank(last) > Rank(h) then last else h
  }

  /** The alert of the requirements found: their entries, their number and the highest of their priorities. */
  function AlertOf(reqs: seq<SpecialRequirement>, clients: seq<Client>): (r: PendingAlert)
    ensures r.totalPending == |r.requirements| == |reqs|
    ensures forall k :: 0 <= k < |reqs| ==> r.requirements[k].id == reqs[k].id && r.requirements[k].priority == reqs[k].priority
    ensures PriorityFromValue(r.highestPriority).Some?
    ensures forall k :: 0 <= k < |reqs| ==> Rank(reqs[k].priority) <= Rank(PriorityFromValue(r.highestPriority).value)
  {
    var items := MapSeq(reqs, PendingItemOf(clients));
    PendingAlert(|items|, PriorityValue(Highest(reqs)), items)
  }

  /**
   * `get_my_pending_requirements`: nothing without a staff record; otherwise
   * the requirements pending on the staff member's shifts under way at the
   * local moment, dated by the local day.
   */
  function PendingAlertFor(rows: seq<SpecialRequirement>, responses: seq<RequirementResponse>, roster: Roster,
                           user: Account, timezone: Option<string>, clock: Clock): (r: PendingAlert)
    ensures StaffOf(roster.staff, user.id, user.organizationId).None? ==> r == PendingAlert(0, "low", [])
    ensures StaffOf(roster.staff, user.id, user.organizationId).Some? ==>
              var local := LocalNow(clock, timezone);
              var shifts := Filter(roster.shifts, UnderWay(StaffOf(roster.staff, user.id, user.organizationId).value.id, local));
              r == AlertOf(PendingOn(rows, responses, user.organizationId, user.id, local.date, shifts), roster.clients)
  {
    var staff := StaffOf(roster.staff, user.id, user.organizationId);
    if staff.None? then PendingAlert(0, "low", [])
    else
      var local := LocalNow(clock, timezone);
      var shifts := Filter(roster.shifts, UnderWay(staff.value.id, local));
      AlertOf(PendingOn(rows, responses, user.organizationId, user.id, local.date, shifts), roster.clients)
  }

  /**
   * The alert as written: the requirements' query reads `shift.client_id`,
   * which a shift row does not have, so the first shift under way raises a
   * 500; with no staff record or no shift under way the alert is empty.
   */
  function PendingAsWritten(roster: Roster, user: Account, timezone: Option<string>, clock: Clock): (r: Result<PendingAlert>)
    ensures r.Ok? ==> r.value == PendingAlert(0, "low", [])
    ensures r.Err? <==> StaffOf(roster.staff, user.id, user.organizationId).Some?
                        && exists k :: 0 <= k < |roster.shifts|
                                       && UnderWay(StaffOf(roster.staff, user.id, user.organizationId).value.id,
                                                   LocalNow(clock, timezone))(roster.shifts[k])
  {
    var staff := StaffOf(roster.staff, user.id, user.organizationId);
    if staff.None? then Ok(PendingAlert(0, "low", []))
    else
      var shifts := Filter(roster.shifts, UnderWay(staff.value.id, LocalNow(clock, timezone)));
      if shifts == [] then Ok(PendingAlert(0, "low", []))
      else
        assert shifts[0] in roster.shifts;
        Err(INTERNAL_ERROR, UNHANDLED)
  }

  /** As written, a staff member on a shift with a requirement to answer is never alerted. */
  lemma PendingAlertFailsAsWritten(rows: seq<SpecialRequirement>, responses: seq<RequirementResponse>, roster: Roster,
                                   user: Account, timezone: Option<string>, clock: Clock)
    requires PendingAlertFor(rows, responses, roster, user, timezone, clock).totalPending > 0
    ensures PendingAsWritten(roster, user, timezone, clock) == Err(INTERNAL_ERROR, UNHANDLED)
  {
  }

  // ---------------------------------------------------------------------
  // The staff member's history
  // ---------------------------------------------------------------------

  /** One entry of the history: the response with its requirement and its client's name. */
  datatype HistoryEntry = HistoryEntry(response: RequirementResponse, requirement: SpecialRequirement, clientName: string)

  datatype HistoryPage = HistoryPage(data: seq<HistoryEntry>, pagination: Pagination)

  function ByUser(userId: Id): RequirementResponse -> bool
  {
    (p: RequirementResponse) => p.staffId == Some(userId)
  }

  function RequirementById(id: Id): SpecialRequirement -> bool
  {
    (r: SpecialRequirement) => r.id == id
  }

  /** The response's requirement still exists. */
  predicate Known(rows: seq<SpecialRequirement>, p: RequirementResponse)
  {
    FirstMatch(rows, RequirementById(p.requirementId)).Some?
  }

  /** The entries of a page of responses; a response whose requirement is gone is skipped. */
  function HistoryEntries(page: seq<RequirementResponse>, rows: seq<SpecialRequirement>, clients: seq<Client>): (r: seq<HistoryEntry>)
    ensures |r| <= |page|
    ensures forall k :: 0 <= k < |r| ==> r[k].response in page && r[k].requirement in rows
                                         && r[k].requirement.id == r[k].response.requirementId
    decreases |page|
  {
    if page == [] then []
    else
      var init := page[..|page| - 1];
      var p := page[|page| - 1];
      var entries := HistoryEntries(init, rows, clients);
      var i := FirstMatch(rows, RequirementById(p.requirementId));
      if i.None? then entries
      else entries + [HistoryEntry(p, rows[i.value], ClientName(clients, p.clientId))]
  }

  /** When every response's requirement still exists, the history shows the whole page, in its order. */
  lemma {:induction false} HistoryKeepsKnownResponses(page: seq<RequirementResponse>, rows: seq<SpecialRequirement>,
                                                      clients: seq<Client>)
    requires forall k :: 0 <= k < |page| ==> Known(rows, page[k])
    ensures |HistoryEntries(page, rows, clients)| == |page|
    ensures forall k :: 0 <= k < |page| ==> HistoryEntries(page, rows, clients)[k].response == page[k]
    decreases |page|
  {
    if page != [] {
      var init := page[..|page| - 1];
      var p := page[|page| - 1];
      assert forall k :: 0 <= k < |init| ==> init[k] == page[k];
      HistoryKeepsKnownResponses(init, rows, clients);
      var i := FirstMatch(rows, RequirementById(p.requirementId));
      assert Known(rows, p);
      var before := HistoryEntries(init, rows, clients);
      var all := HistoryEntries(page, rows, clients);
      assert all == before + [HistoryEntry(p, rows[i.value], ClientName(clients, p.clientId))];
      forall k | 0 <= k < |page|
        ensures all[k].response == page[k]
      {
        if k < |init| {
          assert all[k] == before[k];
        }
      }
    }
  }

  /**
   * `get_my_special_requirements_history`: the caller's own responses,
   * newest first, with a pagination block counting all of them; a response
   * whose requirement is gone is left out of the page but still counted.
   * The database refuses a negative limit or offset (500).
   */
  function History(rows: seq<SpecialRequirement>, responses: seq<RequirementResponse>, clients: seq<Client>,
                   user: Account, limit: int, offset: int): (r: Result<HistoryPage>)
    requires limit <= 100
    ensures r.Ok? <==> limit >= 0 && offset >= 0
    ensures r.Ok? ==> && r.value.pagination == PaginationOf(Count(responses, ByUser(user.id)), limit, offset)
                      && r.value.data == HistoryEntries(Window(SelectDesc(responses, ByUser(user.id), ResponseCreated),
                                                               offset, limit), rows, clients)
                      && |r.value.data| <= limit
                      && (forall k :: 0 <= k < |r.value.data| ==>
                            r.value.data[k].response in responses && r.value.data[k].response.staffId == Some(user.id)
                            && r.value.data[k].requirement in rows
                            && r.value.data[k].requirement.id == r.value.data[k].response.requirementId)
  {
    if limit < 0 || offset < 0 then Err(INTERNAL_ERROR, UNHANDLED)
    else
      var page := Window(SelectDesc(responses, ByUser(user.id), ResponseCreated), offset, limit);
      Ok(HistoryPage(HistoryEntries(page, rows, clients), PaginationOf(Count(responses, ByUser(user.id)), limit, offset)))
  }

  // ---------------------------------------------------------------------
  // A requirement's responses, for managers
  // ---------------------------------------------------------------------

  /** The query of `GET /special-requirements/{id}/responses`. */
  datatype ResponseQuery = ResponseQuery(dateFrom: Option<Day>, dateTo: Option<Day>, staffId: Option<Id>,
                                         limit: int, offset: int)

  /** `SpecialRequirementResponseSchema`: the response with its requirement's title and the names it refers to. */
  datatype ResponseView = ResponseView(response: RequirementResponse, requirementTitle: string, clientName: string,
                                       staffName: string)

  datatype ResponsesPage = ResponsesPage(data: seq<ResponseView>, pagination: Pagination)

  /** The responses the query selects: to the requirement, on shift days within the bounds given, by the staff given. */
  function Selected(requirementId: Id, q: ResponseQuery): RequirementResponse -> bool
  {
    (p: RequirementResponse) => p.requirementId == requirementId
                                && (q.dateFrom.None? || DayNumber(p.shiftDate) >= DayNumber(q.dateFrom.value))
                                && (q.dateTo.None? || DayNumber(p.shiftDate) <= DayNumber(q.dateTo.value))
                                && (q.staffId.None? || p.staffId == q.staffId)
  }

  /** A responding user's name, "Unknown" when there is none. */
  function StaffName(users: seq<UserRecord>, id: Option<Id>): (r: string)
    ensures id.None? ==> r == "Unknown"
  {
    var name := CreatorName(users, id);
    if name.None? then "Unknown" else name.value
  }

  function ResponseViewOf(roster: Roster, title: string): RequirementResponse -> ResponseView
  {
    (p: RequirementResponse) => ResponseView(p, title, ClientName(roster.clients, p.clientId), StaffName(roster.users, p.staffId))
  }

  /**
   * `get_requirement_responses`: a 404 unless the requirement is the
   * caller's organization's; then its responses the query selects, newest
   * first, a page of them, and the pagination block. The database refuses a
   * negative limit or offset (500).
   */
  function ResponsesFor(rows: seq<SpecialRequirement>, responses: seq<RequirementResponse>, roster: Roster,
                        user: Account, id: Id, q: ResponseQuery): (r: Result<ResponsesPage>)
    requires q.limit <= 100
    ensures FindRequirement(rows, id, user.organizationId).Err? ==> r == Err(NOT_FOUND, REQUIREMENT_NOT_FOUND)
    ensures r.Ok? <==> FindRequirement(rows, id, user.organizationId).Ok? && q.limit >= 0 && q.offset >= 0
    ensures r.Ok? ==> && r.value.pagination == PaginationOf(Count(responses, Selected(id, q)), q.limit, q.offset)
                      && r.value.data == MapSeq(Window(SelectDesc(responses, Selected(id, q), ResponseCreated), q.offset, q.limit),
                                                ResponseViewOf(roster, rows[FindRequirement(rows, id, user.organizationId).value].title))
                      && |r.value.data| <= q.limit
                      && (forall k :: 0 <= k < |r.value.data| ==>
                            r.value.data[k].response in responses && Selected(id, q)(r.value.data[k].response))
                      && (forall i, j :: 0 <= i < j < |r.value.data| ==>
                            ResponseCreated(r.value.data[i].response) >= ResponseCreated(r.value.data[j].response))
  {
    var i := FindRequirement(rows, id, user.organizationId);
    if i.Err? then Err(i.status, i.detail)
    else if q.limit < 0 || q.offset < 0 then Err(INTERNAL_ERROR, UNHANDLED)
    else
      var page := Window(SelectDesc(responses, Selected(id, q), ResponseCreated), q.offset, q.limit);
      Ok(ResponsesPage(MapSeq(page, ResponseViewOf(roster, rows[i.value].title)),
                       PaginationOf(Count(responses, Selected(id, q)), q.limit, q.offset)))
  }

  // ---------------------------------------------------------------------
  // A client's active requirements, for the staff member on shift
  // ---------------------------------------------------------------------

  /** `ActiveSpecialRequirementForDSP`: the requirement and whether the caller answered it on the shift under way. */
  datatype ActiveRequirement = ActiveRequirement(requirement: SpecialRequirement, clientName: string,
                                                 hasResponseThisShift: bool, existingResponseId: Option<Id>)

  /** The client's requirements in the organization, active on the day. */
  function LiveForClient(clientId: Id, org: Option<Id>, day: Day): SpecialRequirement -> bool
  {
    (r: SpecialRequirement) => r.clientId == clientId && Some(r.organizationId) == org && ActiveOn(r, day)
  }

  function PriorityRank(r: SpecialRequirement): int
  {
    Rank(r.priority)
  }

  /** Whether the caller answered the requirement on the shift, and the first such response's key. */
  function ActiveEntry(responses: seq<RequirementResponse>, name: string, userId: Id, shift: Option<DutyShift>): SpecialRequirement -> ActiveRequirement
  {
    (r: SpecialRequirement) =>
      var existing := if shift.None? then None else ResponseOnShift(responses, r.id, userId, shift.value.shift.id);
      ActiveRequirement(r, name, existing.Some?, if existing.None? then None else Some(existing.value.id))
  }

  /**
   * `get_active_requirements_for_client`: a 404 unless the client is the
   * caller's organization's, a 403 unless the caller is assigned to it;
   * then the client's requirements active on the server's day, highest
   * priority first (the database orders the enumeration by declaration), each
   * marked answered when the caller has a response to it on the shift under
   * way. Without a shift under way nothing is marked answered.
   */
  function ActiveForClient(rows: seq<SpecialRequirement>, responses: seq<RequirementResponse>, roster: Roster,
                           user: Account, timezone: Option<string>, clock: Clock, clientId: Id): (r: Result<seq<ActiveRequirement>>)
    ensures FindClient(roster.clients, clientId, user.organizationId).None? ==> r == Err(NOT_FOUND, CLIENT_NOT_FOUND)
    ensures (FindClient(roster.clients, clientId, user.organizationId).Some?
             && !ClientAssigned(roster, user.id, clientId, user.organizationId)) ==> r == Err(FORBIDDEN, NOT_ASSIGNED_VIEW)
    ensures r.Ok? <==> FindClient(roster.clients, clientId, user.organizationId).Some?
                       && ClientAssigned(roster, user.id, clientId, user.organizationId)
    ensures r.Ok? ==>
              var shift := ActiveShift(roster, user.id, clientId, user.organizationId, LocalNow(clock, timezone));
              && |r.value| == Count(rows, LiveForClient(clientId, user.organizationId, clock.today))
              && (forall k :: 0 <= k < |r.value| ==>
                    && r.value[k].requirement in rows
                    && LiveForClient(clientId, user.organizationId, clock.today)(r.value[k].requirement)
                    && (r.value[k].hasResponseThisShift <==>
                          shift.Some? && ResponseOnShift(responses, r.value[k].requirement.id, user.id, shift.value.shift.id).Some?))
              && (forall i, j :: 0 <= i < j < |r.value| ==>
                    Rank(r.value[i].requirement.priority) >= Rank(r.value[j].requirement.priority))
  {
    var client := FindClient(roster.clients, clientId, user.organizationId);
    if client.None? then Err(NOT_FOUND, CLIENT_NOT_FOUND)
    else if !ClientAssigned(roster, user.id, clientId, user.organizationId) then Err(FORBIDDEN, NOT_ASSIGNED_VIEW)
    else
      var shift := ActiveShift(roster, user.id, clientId, user.organizationId, LocalNow(clock, timezone));
      var live := SelectDesc(rows, LiveForClient(clientId, user.organizationId, clock.today), PriorityRank);
      var name := client.value.firstName + " " + client.value.lastName;
      Ok(MapSeq(live, ActiveEntry(responses, name, user.id, shift)))
  }

  /**
   * The view as written: once the client and the assignment pass, the
   * shift lookup reads `Shift.client_id` and fails with a 500.
   */
  function ActiveForClientAsWritten(roster: Roster, user: Account, clientId: Id): (r: Result<seq<ActiveRequirement>>)
    ensures r.Err?
    ensures (FindClient(roster.clients, clientId, user.organizationId).Some?
             && ClientAssigned(roster, user.id, clientId, user.organizationId)) ==> r == Err(INTERNAL_ERROR, UNHANDLED)
  {
    var client := FindClient(roster.clients, clientId, user.organizationId);
    if client.None? then Err(NOT_FOUND, CLIENT_NOT_FOUND)
    else if !ClientAssigned(roster, user.id, clientId, user.organizationId) then Err(FORBIDDEN, NOT_ASSIGNED_VIEW)
    else
      var shift := ShiftTimeAsWritten(roster, user.id, user.organizationId);
      if shift.Err? then Err(shift.status, shift.detail) else Ok([])
  }

  /** Every request the view answers with a list fails as written. */
  lemma ActiveListFailsAsWritten(rows: seq<SpecialRequirement>, responses: seq<RequirementResponse>, roster: Roster,
                                 user: Account, timezone: Option<string>, clock: Clock, clientId: Id)
    requires ActiveForClient(rows, responses, roster, user, timezone, clock, clientId).Ok?
    ensures ActiveForClientAsWritten(roster, user, clientId) == Err(INTERNAL_ERROR, UNHANDLED)
  {
  }

  // ---------------------------------------------------------------------
  // The certification
  // ---------------------------------------------------------------------

  /** `str(time)`, as the statement and the response show a shift's bounds. */
  /** The opening of the certified list, up to the requirement's title. */
  const OPENING := ", I have:\n\n1. Read and understood the special requirement \""

  /** The closing paragraphs of the certification statement, up to the certification moment. */
  const CLOSING := "\n3. Documented my intervention as described above\n\n"
                   + "This certification is made for legal compliance and client care documentation purposes.\n\n"
                   + "Certified at: "

  function ShiftTimeText(d: DutyShift): string
  {
    TimeIso(d.shift.startTime) + " to " + TimeIso(d.shift.endTime)
  }

  /**
   * `generate_certification_statement`: the legal statement naming the
   * caller, the server's day, the shift's hours, the requirement, its client
   * and its number of items, the certification moment (whole seconds, UTC)
   * and the caller's key.
   */
  function CertificationStatement(req: SpecialRequirement, user: Account, client: Client, shift: Option<DutyShift>,
                                  today: Day, now: Moment): (r: string)
    ensures StartsWith(r, "I, " + user.firstName + " " + user.lastName + ", certify that on " + DateIso(today) + ", ")
    ensures EndsWith(r, "\nStaff ID: " + IdText(user.id))
  {
    var shiftTime := if shift.Some? then ShiftTimeText(shift.value) else "during my assigned shift";
    var head := "I, " + user.firstName + " " + user.lastName + ", certify that on " + DateIso(today) + ", ";
    var items := "Completed all " + NatToString(|req.actionPlanItems|) + " action plan items as specified";
    var first := shiftTime + OPENING + req.title
                 + "\" for client " + client.firstName + " " + client.lastName + "\n2. ";
    var rest := CLOSING + DateTimeIso(now) + "+00:00";
    var tail := "\nStaff ID: " + IdText(user.id);
    var body := first + items + rest;
    FramedBy(head, body, tail);
    head + body + tail
  }

  /** A text starts with its first part and ends with its last. */
  lemma FramedBy(head: string, body: string, tail: string)
    ensures StartsWith(head + body + tail, head) && EndsWith(head + body + tail, tail)
  {
    var r := head + body + tail;
    assert r[..|head|] == head;
    assert r[|r| - |tail|..] == tail;
  }

  /** Every requirement on an alert is active on the day, so a deactivated one is on none. */
  lemma PendingIsActive(rows: seq<SpecialRequirement>, responses: seq<RequirementResponse>, org: Option<Id>,
                        userId: Id, day: Day, shifts: seq<DutyShift>, r: SpecialRequirement)
    requires r in PendingOn(rows, responses, org, userId, day, shifts)
    ensures ActiveOn(r, day) && r.status == RequirementStatus.ACTIVE
  {
    PendingComesFromAShift(rows, responses, org, userId, day, shifts, r);
    var j :| 0 <= j < |shifts| && OpenOn(responses, org, userId, day, shifts[j])(r);
    assert LiveFor(shifts[j], org, day)(r);
  }

  // ---------------------------------------------------------------------
  // Submitting a response
  // ---------------------------------------------------------------------

  /**
   * The first checks of `submit_requirement_response`, in order: the
   * requirement is the caller's organization's (404), active on the server's
   * day (400); the client is the organization's (404) and the requirement's
   * (400); the caller is assigned to it (403).
   */
  function RequirementChecks(rows: seq<SpecialRequirement>, roster: Roster, user: Account, today: Day,
                             b: ResponseCreate): (r: Result<(SpecialRequirement, Client)>)
    ensures FindRequirement(rows, b.requirementId, user.organizationId).Err? ==> r == Err(NOT_FOUND, REQUIREMENT_NOT_FOUND)
    ensures FindRequirement(rows, b.requirementId, user.organizationId).Ok?
            && !ActiveOn(rows[FindRequirement(rows, b.requirementId, user.organizationId).value], today) ==>
              r == Err(BAD_REQUEST, NOT_ACTIVE)
    ensures r.Err? ==> r.status in {BAD_REQUEST, FORBIDDEN, NOT_FOUND}
    ensures r.Ok? ==> && r.value.0 in rows && r.value.0.id == b.requirementId
                      && user.organizationId == Some(r.value.0.organizationId)
                      && ActiveOn(r.value.0, today) && r.value.0.clientId == b.clientId
                      && r.value.1 in roster.clients && r.value.1.id == b.clientId
                      && user.organizationId == Some(r.value.1.organizationId)
                      && ClientAssigned(roster, user.id, b.clientId, user.organizationId)
  {
    var i := FindRequirement(rows, b.requirementId, user.organizationId);
    if i.Err? then Err(i.status, i.detail)
    else if !ActiveOn(rows[i.value], today) then Err(BAD_REQUEST, NOT_ACTIVE)
    else
      var client := FindClient(roster.clients, b.clientId, user.organizationId);
      if client.None? then Err(NOT_FOUND, CLIENT_NOT_FOUND)
      else if rows[i.value].clientId != b.clientId then Err(BAD_REQUEST, WRONG_CLIENT)
      else if !ClientAssigned(roster, user.id, b.clientId, user.organizationId) then Err(FORBIDDEN, NOT_ASSIGNED_SUBMIT)
      else Ok((rows[i.value], client.value))
  }

  /** The 400 detail for items left unacknowledged. */
  function MissingItemsDetail(items: seq<ActionItem>, acknowledged: seq<string>): string
  {
    "You must acknowledge all " + NatToString(|RequiredIds(items)|) + " action plan items. "
    + NatToString(|MissingIds(items, acknowledged)|) + " items are missing."
  }

  /**
   * Every check of a submission, in order: the first checks, then a shift
   * of the caller for the client under way at the local moment (403), the
   * caller clocked in (404 or 403), no response of the caller to the
   * requirement on that shift yet (400), and every item acknowledged (400).
   * On success, the requirement, its client and the shift.
   */
  function SubmitChecks(rows: seq<SpecialRequirement>, responses: seq<RequirementResponse>, roster: Roster,
                        user: Account, timezone: Option<string>, clock: Clock, b: ResponseCreate)
    : (r: Result<(SpecialRequirement, Client, DutyShift)>)
    ensures RequirementChecks(rows, roster, user, clock.today, b).Err? ==>
              r == Err(RequirementChecks(rows, roster, user, clock.today, b).status,
                       RequirementChecks(rows, roster, user, clock.today, b).detail)
    ensures r.Ok? ==>
              && RequirementChecks(rows, roster, user, clock.today, b) == Ok((r.value.0, r.value.1))
              && ActiveShift(roster, user.id, b.clientId, user.organizationId, LocalNow(clock, timezone)) == Some(r.value.2)
              && TimeClock.ClockedIn(roster.entries, StaffOf(roster.staff, user.id, user.organizationId).value.id)
              && !Answered(responses, b.requirementId, user.id, r.value.2.shift.id)
              && (forall k :: 0 <= k < |r.value.0.actionPlanItems| ==> r.value.0.actionPlanItems[k].id in b.acknowledgedItems)
    ensures RequirementChecks(rows, roster, user, clock.today, b).Ok? ==>
              var shift := ActiveShift(roster, user.id, b.clientId, user.organizationId, LocalNow(clock, timezone));
              && (shift.None? ==> r == Err(FORBIDDEN, NOT_ON_SHIFT))
              && ((shift.Some? && TimeClock.ClockedIn(roster.entries, StaffOf(roster.staff, user.id, user.organizationId).value.id)
                   && Answered(responses, b.requirementId, user.id, shift.value.shift.id)) ==> r == Err(BAD_REQUEST, ALREADY_RESPONDED))
  {
    var first := RequirementChecks(rows, roster, user, clock.today, b);
    if first.Err? then Err(first.status, first.detail)
    else
      var (req, client) := first.value;
      var shift := ActiveShift(roster, user.id, b.clientId, user.organizationId, LocalNow(clock, timezone));
      if shift.None? then Err(FORBIDDEN, NOT_ON_SHIFT)
      else
        var clocked := ClockedInCheck(roster, user.id, user.organizationId);
        if clocked.Err? then Err(clocked.status, clocked.detail)
        else if Answered(responses, b.requirementId, user.id, shift.value.shift.id) then Err(BAD_REQUEST, ALREADY_RESPONDED)
        else if MissingIds(req.actionPlanItems, b.acknowledgedItems) != {} then
          Err(BAD_REQUEST, MissingItemsDetail(req.actionPlanItems, b.acknowledgedItems))
        else Ok((req, client, shift.value))
  }

  /** The row a successful submission inserts. */
  function NewResponse(id: Id, req: SpecialRequirement, d: DutyShift, user: Account, b: ResponseCreate,
                       statement: string, now: Moment): (p: RequirementResponse)
    ensures ResponseOf(req.id, user.id, d.shift.id)(p)
  {
    RequirementResponse(id, req.organizationId, req.id, b.clientId, Some(user.id), Some(d.shift.id),
                        b.instructionsAcknowledged, b.acknowledgedItems, Some(b.interventionNotes), b.isCertified,
                        Some(statement), Some(now),
                        d.shift.shiftDate, Some(TimeIso(d.shift.startTime)), Some(TimeIso(d.shift.endTime)), now)
  }

  /**
   * What `submit_requirement_response` returns: the error of the first
   * failing check, or the new response with the next key, the caller and the
   * shift, and the certification statement stamped at the current moment.
   */
  function SubmitOutcome(rows: seq<SpecialRequirement>, responses: seq<RequirementResponse>, roster: Roster,
                         user: Account, timezone: Option<string>, clock: Clock, b: ResponseCreate)
    : (r: Result<RequirementResponse>)
    ensures r.Ok? <==> SubmitChecks(rows, responses, roster, user, timezone, clock, b).Ok?
    ensures r.Err? ==> r == Err(SubmitChecks(rows, responses, roster, user, timezone, clock, b).status,
                                SubmitChecks(rows, responses, roster, user, timezone, clock, b).detail)
    ensures r.Ok? ==>
              && ResponseOf(b.requirementId, user.id, SubmitChecks(rows, responses, roster, user, timezone, clock, b).value.2.shift.id)(r.value)
              && (forall k :: 0 <= k < |responses| ==> responses[k].id < r.value.id)
              && r.value.certifiedAt == Some(clock.utcNow)
  {
    var checks := SubmitChecks(rows, responses, roster, user, timezone, clock, b);
    if checks.Err? then Err(checks.status, checks.detail)
    else
      var (req, client, d) := checks.value;
      Ok(NewResponse(SchedulingDb.NextKey(responses, ResponseIdOf), req, d, user, b,
                     CertificationStatement(req, user, client, Some(d), clock.today, clock.utcNow), clock.utcNow))
  }

  /** Submitting the same response again on the same shift is refused: the first one now answers it. */
  lemma SecondSubmitIsRefused(rows: seq<SpecialRequirement>, responses: seq<RequirementResponse>, roster: Roster,
                              user: Account, timezone: Option<string>, clock: Clock, b: ResponseCreate)
    requires SubmitOutcome(rows, responses, roster, user, timezone, clock, b).Ok?
    ensures SubmitOutcome(rows, responses + [SubmitOutcome(rows, responses, roster, user, timezone, clock, b).value],
                          roster, user, timezone, clock, b) == Err(BAD_REQUEST, ALREADY_RESPONDED)
  {
    var p := SubmitOutcome(rows, responses, roster, user, timezone, clock, b).value;
    var after := responses + [p];
    assert after[|responses|] == p;
    assert RequirementChecks(rows, roster, user, clock.today, b).Ok?;
    var d := SubmitChecks(rows, responses, roster, user, timezone, clock, b).value.2;
    assert Answered(after, b.requirementId, user.id, d.shift.id);
  }

  /** A successful submission keeps one response per requirement, user and shift. */
  lemma SubmitKeepsOneResponsePerShift(rows: seq<SpecialRequirement>, responses: seq<RequirementResponse>,
                                       roster: Roster, user: Account, timezone: Option<string>, clock: Clock,
                                       b: ResponseCreate)
    requires OneResponsePerShift(responses)
    requires SubmitOutcome(rows, responses, roster, user, timezone, clock, b).Ok?
    ensures OneResponsePerShift(responses + [SubmitOutcome(rows, responses, roster, user, timezone, clock, b).value])
  {
    var p := SubmitOutcome(rows, responses, roster, user, timezone, clock, b).value;
    AddingAnUnansweredResponseKeepsOnePerShift(responses, p);
  }

  /** Inserting a response no earlier one duplicates keeps one response per requirement, user and shift. */
  lemma AddingAnUnansweredResponseKeepsOnePerShift(responses: seq<RequirementResponse>, p: RequirementResponse)
    requires OneResponsePerShift(responses) && p.staffId.Some? && p.shiftId.Some?
    requires !Answered(responses, p.requirementId, p.staffId.value, p.shiftId.value)
    ensures OneResponsePerShift(responses + [p])
  {
    AnsweredIff(responses, p.requirementId, p.staffId.value, p.shiftId.value);
    var after := responses + [p];
    forall i, j | 0 <= i < j < |after| && after[i].staffId.Some? && after[i].shiftId.Some?
      ensures !ResponseOf(after[i].requirementId, after[i].staffId.value, after[i].shiftId.value)(after[j])
    {
      if j == |responses| {
        assert after[i] == responses[i];
        assert !ResponseOf(p.requirementId, p.staffId.value, p.shiftId.value)(responses[i]);
      } else {
        assert after[i] == responses[i] && after[j] == responses[j];
      }
    }
  }

  /**
   * `submit_requirement_response` as written: once the first checks pass the
   * caller has a staff record, the shift lookup reads `Shift.client_id`, and
   * the request fails with a 500; no submission ever succeeds.
   */
  function SubmitAsWritten(rows: seq<SpecialRequirement>, roster: Roster, user: Account, clock: Clock,
                           b: ResponseCreate): (r: Result<RequirementResponse>)
    ensures r.Err?
    ensures RequirementChecks(rows, roster, user, clock.today, b).Ok? ==> r == Err(INTERNAL_ERROR, UNHANDLED)
  {
    var first := RequirementChecks(rows, roster, user, clock.today, b);
    if first.Err? then Err(first.status, first.detail)
    else
      var shift := ShiftTimeAsWritten(roster, user.id, user.organizationId);
      if shift.Err? then Err(shift.status, shift.detail) else Err(FORBIDDEN, NOT_ON_SHIFT)
  }

  /** Every submission the corrected handler accepts fails as written. */
  lemma AcceptedSubmitFailsAsWritten(rows: seq<SpecialRequirement>, responses: seq<RequirementResponse>, roster: Roster,
                                     user: Account, timezone: Option<string>, clock: Clock, b: ResponseCreate)
    requires SubmitChecks(rows, responses, roster, user, timezone, clock, b).Ok?
    ensures SubmitAsWritten(rows, roster, user, clock, b) == Err(INTERNAL_ERROR, UNHANDLED)
  {
  }

  // ---------------------------------------------------------------------
  // Updates
  // ---------------------------------------------------------------------

  /**
   * The fields of a requirement after an update: each field given replaced
   * (the items by their normalised form), the others kept; keys, client,
   * creator and creation moment never change, and the update moment is
   * stamped.
   */
  function Updated(r: SpecialRequirement, u: RequirementUpdate, items: seq<ActionItem>, now: Moment): (s: SpecialRequirement)
    ensures s.id == r.id && s.organizationId == r.organizationId && s.clientId == r.clientId
            && s.createdBy == r.createdBy && s.createdAt == r.createdAt && s.updatedAt == now
    ensures u.title.None? ==> s.title == r.title
    ensures u.instructions.None? ==> s.instructions == r.instructions
    ensures u.actionPlanItems.None? ==> s.actionPlanItems == r.actionPlanItems
    ensures u.startDate.None? ==> s.startDate == r.startDate
    ensures u.endDate.None? ==> s.endDate == r.endDate
    ensures u.priority.None? ==> s.priority == r.priority
    ensures u.status.None? ==> s.status == r.status
  {
    r.(title := if u.title.Some? then u.title.value else r.title,
       instructions := if u.instructions.Some? then u.instructions.value else r.instructions,
       actionPlanItems := if u.actionPlanItems.Some? then items else r.actionPlanItems,
       startDate := if u.startDate.Some? then u.startDate.value else r.startDate,
       endDate := if u.endDate.Some? then u.endDate.value else r.endDate,
       priority := if u.priority.Some? then u.priority.value else r.priority,
       status := if u.status.Some? then u.status.value else r.status,
       updatedAt := now)
  }

  /** Applying the same update twice is applying it once. */
  lemma UpdateIsIdempotent(r: SpecialRequirement, u: RequirementUpdate, items: seq<ActionItem>, now: Moment)
    ensures Updated(Updated(r, u, items, now), u, items, now) == Updated(r, u, items, now)
  {
  }

  /** An update giving no field changes nothing but the update moment. */
  lemma EmptyUpdateOnlyStamps(r: SpecialRequirement, items: seq<ActionItem>, now: Moment)
    ensures Updated(r, RequirementUpdate(None, None, None, None, None, None, None), items, now) == r.(updatedAt := now)
  {
  }

  /** The items an update stores: none when it gives none, else the given items normalised. */
  function UpdateItems(u: RequirementUpdate, uuids: seq<string>): (r: seq<ActionItem>)
    requires u.actionPlanItems.Some? ==> |uuids| == |u.actionPlanItems.value|
    ensures u.actionPlanItems.Some? ==> r == NormalizedItems(u.actionPlanItems.value, uuids)
  {
    if u.actionPlanItems.Some? then NormalizedItems(u.actionPlanItems.value, uuids) else []
  }

  lemma MapSeqSnoc<A, B>(xs: seq<A>, x: A, f: A -> B)
    ensures MapSeq(xs + [x], f) == MapSeq(xs, f) + [f(x)]
  {
  }

  /** Adding a requirement raises the highest priority exactly when it ranks higher. */
  lemma HighestSnoc(reqs: seq<SpecialRequirement>, r: SpecialRequirement)
    ensures Highest(reqs + [r]) == if Rank(r.priority) > Rank(Highest(reqs)) then r.priority else Highest(reqs)
  {
    assert (reqs + [r])[..|reqs|] == reqs;
  }

  /** One more element of `xs` filtered onto the end of what came before. */
  lemma FilterStep<T>(before: seq<T>, xs: seq<T>, j: nat, p: T -> bool)
    requires j < |xs|
    ensures before + Filter(xs[..j + 1], p) == before + Filter(xs[..j], p) + (if p(xs[j]) then [xs[j]] else [])
  {
    assert xs[..j + 1] == xs[..j] + [xs[j]];
    FilterSnoc(xs[..j], xs[j], p);
  }

  /** The entries and the highest priority of the alert so far are those of the requirements found so far. */
  ghost predicate Tallied(found: seq<SpecialRequirement>, entry: SpecialRequirement -> PendingItem,
                          items: seq<PendingItem>, highest: PriorityLevel)
  {
    items == MapSeq(found, entry) && highest == Highest(found)
  }

  /** One pending requirement added to the alert: its entry appended, and the highest priority raised if it ranks higher. */
  method AddPending(req: SpecialRequirement, entry: SpecialRequirement -> PendingItem, items0: seq<PendingItem>,
                    highest0: PriorityLevel, ghost found0: seq<SpecialRequirement>)
    returns (items: seq<PendingItem>, highest: PriorityLevel, ghost found: seq<SpecialRequirement>)
    requires Tallied(found0, entry, items0, highest0)
    ensures found == found0 + [req]
    ensures Tallied(found, entry, items, highest)
  {
    MapSeqSnoc(found0, req, entry);
    HighestSnoc(found0, req);
    items, highest, found := items0 + [entry(req)], highest0, found0 + [req];
    if Rank(req.priority) > Rank(highest) {
      highest := req.priority;
    }
  }

  /**
   * The inner loop of `get_pending_requirements` over the live requirements
   * of one shift: `unanswered` is the existence query on the responses, and
   * each requirement it lets through is added to the alert and may raise its
   * highest priority.
   */
  method PendingOfShift(live: seq<SpecialRequirement>, unanswered: SpecialRequirement -> bool,
                        entry: SpecialRequirement -> PendingItem, items0: seq<PendingItem>, highest0: PriorityLevel,
                        ghost found0: seq<SpecialRequirement>)
    returns (items: seq<PendingItem>, highest: PriorityLevel, ghost found: seq<SpecialRequirement>)
    requires Tallied(found0, entry, items0, highest0)
    ensures found == found0 + Filter(live, unanswered)
    ensures Tallied(found, entry, items, highest)
  {
    items, highest, found := items0, highest0, found0;
    var j := 0;
    while j < |live|
      invariant 0 <= j <= |live|
      invariant found == found0 + Filter(live[..j], unanswered)
      invariant Tallied(found, entry, items, highest)
    {
      var req := live[j];
      FilterStep(found0, live, j, unanswered);
      if unanswered(req) {
        items, highest, found := AddPending(req, entry, items, highest, found);
      }
      j := j + 1;
    }
    assert live[..j] == live;
  }

  /**
   * The outer loop of `get_my_pending_requirements`, shift by shift,
   * tracking the highest priority as it goes.
   */
  method PendingOfShifts(rows: seq<SpecialRequirement>, responses: seq<RequirementResponse>, clients: seq<Client>,
                         org: Option<Id>, userId: Id, day: Day, shifts: seq<DutyShift>)
    returns (items: seq<PendingItem>, highest: PriorityLevel)
    ensures Tallied(PendingOn(rows, responses, org, userId, day, shifts), PendingItemOf(clients), items, highest)
  {
    items, highest := [], PriorityLevel.LOW;
    ghost var found: seq<SpecialRequirement> := [];
    var i := 0;
    while i < |shifts|
      invariant 0 <= i <= |shifts|
      invariant found == PendingOn(rows, responses, org, userId, day, shifts[..i])
      invariant Tallied(found, PendingItemOf(clients), items, highest)
    {
      var d := shifts[i];
      var live := Filter(rows, LiveFor(d, org, day));
      items, highest, found := PendingOfShift(live, UnansweredOn(responses, userId, d), PendingItemOf(clients),
                                              items, highest, found);
      PendingStep(rows, responses, org, userId, day, shifts, i);
      i := i + 1;
    }
    assert shifts[..i] == shifts;
  }

  /** One more shift adds its live requirements the user has not answered on it. */
  lemma PendingStep(rows: seq<SpecialRequirement>, responses: seq<RequirementResponse>, org: Option<Id>, userId: Id,
                    day: Day, shifts: seq<DutyShift>, i: nat)
    requires i < |shifts|
    ensures PendingOn(rows, responses, org, userId, day, shifts[..i + 1])
            == PendingOn(rows, responses, org, userId, day, shifts[..i])
               + Filter(Filter(rows, LiveFor(shifts[i], org, day)), UnansweredOn(responses, userId, shifts[i]))
  {
    assert shifts[..i + 1][..i] == shifts[..i];
    FilterFilter(rows, LiveFor(shifts[i], org, day), UnansweredOn(responses, userId, shifts[i]),
                 OpenOn(responses, org, userId, day, shifts[i]));
  }

  // ---------------------------------------------------------------------
  // The tables the handlers write
  // ---------------------------------------------------------------------

  /** The `special_requirements` and `special_requirement_responses` tables. */
  class RequirementBoard {
    var requirements: seq<SpecialRequirement>
    var responses: seq<RequirementResponse>

    constructor ()
      ensures requirements == [] && responses == []
    {
      requirements := [];
      responses := [];
    }

    /**
     * `create_special_requirement`: a 404 unless the client is the caller's
     * organization's; otherwise a new ACTIVE requirement of the caller, with
     * a fresh key and its items normalised, shown with the caller's name and
     * no responses.
     */
    method CreateRequirement(roster: Roster, user: Account, b: RequirementCreate, uuids: seq<string>,
                             now: Moment, today: Day) returns (r: Result<RequirementView>)
      requires CreateViolations(b) == [] && |uuids| == |b.actionPlanItems|
      modifies this
      ensures responses == old(responses)
      ensures FindClient(roster.clients, b.clientId, user.organizationId).None? ==>
                r == Err(NOT_FOUND, CLIENT_NOT_FOUND) && requirements == old(requirements)
      ensures FindClient(roster.clients, b.clientId, user.organizationId).Some? ==>
                && r.Ok? && requirements == old(requirements) + [r.value.requirement]
                && (forall k :: 0 <= k < |old(requirements)| ==> old(requirements)[k].id < r.value.requirement.id)
                && var n := r.value.requirement;
                   && user.organizationId == Some(n.organizationId) && n.clientId == b.clientId
                   && n.createdBy == Some(user.id) && n.title == b.title && n.instructions == b.instructions
                   && n.actionPlanItems == NormalizedItems(b.actionPlanItems, uuids)
                   && n.startDate == b.startDate && n.endDate == b.endDate && n.priority == b.priority
                   && n.status == RequirementStatus.ACTIVE && n.createdAt == now && n.updatedAt == now
                   && r.value.clientName == FindClient(roster.clients, b.clientId, user.organizationId).value.firstName
                                            + " " + FindClient(roster.clients, b.clientId, user.organizationId).value.lastName
                   && r.value.createdByName == Some(user.firstName + " " + user.lastName)
                   && r.value.isActive == ActiveOn(n, today) && r.value.responseCount == 0
    {
      var client := FindClient(roster.clients, b.clientId, user.organizationId);
      if client.None? {
        return Err(NOT_FOUND, CLIENT_NOT_FOUND);
      }
      var items := NormalizeItems(b.actionPlanItems, uuids);
      var id := SchedulingDb.NextKey(requirements, RequirementIdOf);
      var created := SpecialRequirement(id, client.value.organizationId, b.clientId, Some(user.id), b.title, b.instructions,
                                        items, b.startDate, b.endDate, b.priority, RequirementStatus.ACTIVE, now, now);
      requirements := requirements + [created];
      r := Ok(RequirementView(created, client.value.firstName + " " + client.value.lastName,
                              Some(user.firstName + " " + user.lastName), ActiveOn(created, today), 0));
    }

    /**
     * `update_special_requirement`: a 404 unless the requirement is the
     * caller's organization's; otherwise the row updated in place and shown.
     */
    method UpdateRequirement(roster: Roster, user: Account, id: Id, u: RequirementUpdate, uuids: seq<string>,
                             now: Moment, today: Day) returns (r: Result<RequirementView>)
      requires UpdateViolations(u) == [] && (u.actionPlanItems.Some? ==> |uuids| == |u.actionPlanItems.value|)
      modifies this
      ensures responses == old(responses)
      ensures FindRequirement(old(requirements), id, user.organizationId).Err? ==>
                r == Err(NOT_FOUND, REQUIREMENT_NOT_FOUND) && requirements == old(requirements)
      ensures FindRequirement(old(requirements), id, user.organizationId).Ok? ==>
                var k := FindRequirement(old(requirements), id, user.organizationId).value;
                && requirements == old(requirements)[k := Updated(old(requirements)[k], u, UpdateItems(u, uuids), now)]
                && r == Ok(ViewOf(roster, responses, today)(requirements[k]))
    {
      var i := FindRequirement(requirements, id, user.organizationId);
      if i.Err? {
        return Err(i.status, i.detail);
      }
      var items: seq<ActionItem> := [];
      if u.actionPlanItems.Some? {
        items := NormalizeItems(u.actionPlanItems.value, uuids);
      }
      var updated := Updated(requirements[i.value], u, items, now);
      requirements := requirements[i.value := updated];
      r := Ok(ViewOf(roster, responses, today)(updated));
    }

    /** `deactivate_special_requirement`: a 404 unless the requirement is the caller's organization's; otherwise INACTIVE from now on. */
    method Deactivate(user: Account, id: Id, now: Moment) returns (r: Result<string>)
      modifies this
      ensures responses == old(responses)
      ensures FindRequirement(old(requirements), id, user.organizationId).Err? ==>
                r == Err(NOT_FOUND, REQUIREMENT_NOT_FOUND) && requirements == old(requirements)
      ensures FindRequirement(old(requirements), id, user.organizationId).Ok? ==>
                var k := FindRequirement(old(requirements), id, user.organizationId).value;
                && r == Ok(DEACTIVATED)
                && requirements == old(requirements)[k := old(requirements)[k].(status := RequirementStatus.INACTIVE, updatedAt := now)]
    {
      var i := FindRequirement(requirements, id, user.organizationId);
      if i.Err? {
        return Err(i.status, i.detail);
      }
      requirements := requirements[i.value := requirements[i.value].(status := RequirementStatus.INACTIVE, updatedAt := now)];
      r := Ok(DEACTIVATED);
    }

    /**
     * `submit_requirement_response`: every check in order; when they pass,
     * the response certified for the shift under way, with a fresh key and
     * the certification statement, is inserted. One response per
     * requirement, user and shift is kept.
     */
    method Submit(roster: Roster, user: Account, timezone: Option<string>, clock: Clock, b: ResponseCreate)
      returns (r: Result<RequirementResponse>)
      requires ResponseViolations(b) == []
      modifies this`responses
      ensures r == SubmitOutcome(old(requirements), old(responses), roster, user, timezone, clock, b)
      ensures responses == if r.Ok? then old(responses) + [r.value] else old(responses)
      ensures OneResponsePerShift(old(responses)) ==> OneResponsePerShift(responses)
    {
      r := SubmitOutcome(requirements, responses, roster, user, timezone, clock, b);
      if r.Ok? {
        if OneResponsePerShift(responses) {
          SubmitKeepsOneResponsePerShift(requirements, responses, roster, user, timezone, clock, b);
        }
        responses := responses + [r.value];
      }
    }

    /**
     * `get_my_pending_requirements`, shift by shift and requirement by
     * requirement, tracking the highest priority as it goes.
     */
    method Pending(roster: Roster, user: Account, timezone: Option<string>, clock: Clock) returns (alert: PendingAlert)
      ensures alert == PendingAlertFor(requirements, responses, roster, user, timezone, clock)
    {
      var staff := StaffOf(roster.staff, user.id, user.organizationId);
      if staff.None? {
        return PendingAlert(0, "low", []);
      }
      var local := LocalNow(clock, timezone);
      var shifts := Filter(roster.shifts, UnderWay(staff.value.id, local));
      var items, highest := PendingOfShifts(requirements, responses, roster.clients, user.organizationId, user.id,
                                            local.date, shifts);
      alert := PendingAlert(|items|, PriorityValue(highest), items);
    }
  }
}
