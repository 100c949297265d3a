/**
 * The special-requirement tables and request bodies: a manager's
 * time-bounded instructions for one client, with the action-plan items a
 * direct-support professional must check off, and the response that
 * professional certifies once per shift.
 */
module SpecialRequirementModel {
  import opened Common
  import opened UserSchemas

  datatype PriorityLevel = LOW | MEDIUM | HIGH | CRITICAL

  datatype RequirementStatus = ACTIVE | INACTIVE | EXPIRED | DRAFT

  /** `PriorityLevel.value`. */
  function PriorityValue(p: PriorityLevel): (r: string)
    ensures PriorityFromValue(r) == Some(p)
  {
    match p
    case LOW => "low"
    case MEDIUM => "medium"
    case HIGH => "high"
    case CRITICAL => "critical"
  }

  /** `PriorityLevel(text)`: the level of that value; any other text raises `ValueError`. */
  function PriorityFromValue(s: string): (r: Option<PriorityLevel>)
    ensures r.None? <==> s !in {"low", "medium", "high", "critical"}
  {
    if s == "low" then Some(LOW)
    else if s == "medium" then Some(MEDIUM)
    else if s == "high" then Some(HIGH)
    else if s == "critical" then Some(CRITICAL)
    else None
  }

  /** `RequirementStatus.value`. */
  function StatusValue(s: RequirementStatus): (r: string)
    ensures StatusFromValue(r) == Some(s)
  {
    match s
    case ACTIVE => "active"
    case INACTIVE => "inactive"
    case EXPIRED => "expired"
    case DRAFT => "draft"
  }

  /** `RequirementStatus(text)`: the status of that value; any other text raises `ValueError`. */
  function StatusFromValue(s: string): (r: Option<RequirementStatus>)
    ensures r.None? <==> s !in {"active", "inactive", "expired", "draft"}
  {
    if s == "active" then Some(ACTIVE)
    else if s == "inactive" then Some(INACTIVE)
    else if s == "expired" then Some(EXPIRED)
    else if s == "draft" then Some(DRAFT)
    else None
  }

  /** One action-plan item as stored in the JSON column. */
  datatype ActionItem = ActionItem(id: string, text: string, order: int)

  function ActionItemId(item: ActionItem): string
  {
    item.id
  }

  /**
   * An `ActionPlanItem` of a request body. `id` is None when the body leaves
   * it out, and `ActionPlanItem` then draws a uuid for it; `order` is None
   * when the body leaves it out, which the schema refuses.
   */
  datatype ActionItemIn = ActionItemIn(id: Option<string>, text: string, order: Option<int>)

  /** A row of `special_requirements`. */
  datatype SpecialRequirement = SpecialRequirement(
    id: Id,
    organizationId: Id,
    clientId: Id,
    createdBy: Option<Id>,
    title: string,
    instructions: string,
    actionPlanItems: seq<ActionItem>,
    startDate: Day,
    endDate: Day,
    priority: PriorityLevel,
    status: RequirementStatus,
    createdAt: Moment,
    updatedAt: Moment)

  function RequirementIdOf(r: SpecialRequirement): Id
  {
    r.id
  }

  function RequirementCreated(r: SpecialRequirement): int
  {
    Stamp(r.createdAt)
  }

  /** A row of `special_requirement_responses`; `staffId` is the responding user's key. */
  datatype RequirementResponse = RequirementResponse(
    id: Id,
    organizationId: Id,
    requirementId: Id,
    clientId: Id,
    staffId: Option<Id>,
    shiftId: Option<Id>,
    instructionsAcknowledged: bool,
    acknowledgedItems: seq<string>,
    interventionNotes: Option<string>,
    isCertified: bool,
    certificationStatement: Option<string>,
    certifiedAt: Option<Moment>,
    shiftDate: Day,
    shiftStartTime: Option<string>,
    shiftEndTime: Option<string>,
    createdAt: Moment)

  function ResponseIdOf(r: RequirementResponse): Id
  {
    r.id
  }

  function ResponseCreated(r: RequirementResponse): int
  {
    Stamp(r.createdAt)
  }

  const MAX_ACTION_ITEMS: nat := 20

  /** The bounds of `ActionPlanItem`: text of 1 to 500 characters and an order of at least 0, which must be given. */
  function ItemViolations(items: seq<ActionItemIn>): (r: seq<Violation>)
    ensures r == [] <==> forall k :: 0 <= k < |items| ==>
                           1 <= |items[k].text| <= 500 && items[k].order.Some? && items[k].order.value >= 0
  {
    if items == [] then []
    else
      var item := items[0];
      var rest := ItemViolations(items[1..]);
      assert forall k :: 1 <= k < |items| ==> items[k] == items[1..][k - 1];
      Then(Bounds("text", item.text, 1, 500),
      Then(if item.order.None? then Some(Invalid("order", "field required"))
           else AtLeast("order", item.order, 0), rest))
  }

  /** The body of `POST /special-requirements`, with the priority MEDIUM by default. */
  datatype RequirementCreate = RequirementCreate(
    clientId: Id,
    title: string,
    instructions: string,
    actionPlanItems: seq<ActionItemIn>,
    startDate: Day,
    endDate: Day,
    priority: PriorityLevel)

  /**
   * The field constraints and validators of `SpecialRequirementCreate`: a
   * body with a violation is refused with a 422. The end date may equal the
   * start date.
   */
  function CreateViolations(b: RequirementCreate): (r: seq<Violation>)
    ensures r == [] <==> && 3 <= |b.title| <= 255 && 10 <= |b.instructions| <= 5000
                         && 1 <= |b.actionPlanItems| <= MAX_ACTION_ITEMS
                         && ItemViolations(b.actionPlanItems) == []
                         && DayNumber(b.startDate) <= DayNumber(b.endDate)
  {
    Then(Bounds("title", b.title, 3, 255),
    Then(Bounds("instructions", b.instructions, 10, 5000),
    ItemViolations(b.actionPlanItems) +
    Then(ItemBounds("action_plan_items", b.actionPlanItems, 1, MAX_ACTION_ITEMS),
    Then(if DayNumber(b.endDate) < DayNumber(b.startDate)
         then Some(Invalid("end_date", "End date must be after or equal to start date")) else None, []))))
  }

  /** The body of `PUT /special-requirements/{id}`: every field optional. */
  datatype RequirementUpdate = RequirementUpdate(
    title: Option<string>,
    instructions: Option<string>,
    actionPlanItems: Option<seq<ActionItemIn>>,
    startDate: Option<Day>,
    endDate: Option<Day>,
    priority: Option<PriorityLevel>,
    status: Option<RequirementStatus>)

  /**
   * The constraints of `SpecialRequirementUpdate`: the bounds of each given
   * field, and 1 to 20 items when items are given. Nothing relates the two
   * dates.
   */
  function UpdateViolations(u: RequirementUpdate): (r: seq<Violation>)
    ensures r == [] <==> && OptionalBounds("title", u.title, 3, 255).None?
                         && OptionalBounds("instructions", u.instructions, 10, 5000).None?
                         && (u.actionPlanItems.Some? ==>
                               1 <= |u.actionPlanItems.value| <= MAX_ACTION_ITEMS
                               && ItemViolations(u.actionPlanItems.value) == [])
  {
    Then(OptionalBounds("title", u.title, 3, 255),
    Then(OptionalBounds("instructions", u.instructions, 10, 5000),
    if u.actionPlanItems.None? then []
    else ItemViolations(u.actionPlanItems.value)
         + Then(ItemBounds("action_plan_items", u.actionPlanItems.value, 1, MAX_ACTION_ITEMS), [])))
  }

  /** An update may leave the end date before the start date. */
  lemma UpdateMayInvertDates(start: Day, end: Day)
    requires DayNumber(end) < DayNumber(start)
    ensures UpdateViolations(RequirementUpdate(None, None, None, Some(start), Some(end), None, None)) == []
  {
  }

  /** The body of `POST /special-requirements/responses`. */
  datatype ResponseCreate = ResponseCreate(
    requirementId: Id,
    clientId: Id,
    instructionsAcknowledged: bool,
    acknowledgedItems: seq<string>,
    interventionNotes: string,
    isCertified: bool)

  /**
   * The validators of `SpecialRequirementResponseCreate`: the instructions
   * acknowledged, at least one item acknowledged, notes of 10 to 2000
   * characters, and the response certified.
   */
  function ResponseViolations(b: ResponseCreate): (r: seq<Violation>)
    ensures r == [] <==> b.instructionsAcknowledged && |b.acknowledgedItems| >= 1
                         && 10 <= |b.interventionNotes| <= 2000 && b.isCertified
  {
    Then(if b.instructionsAcknowledged then None
         else Some(Invalid("instructions_acknowledged", "You must acknowledge that you have read the instructions")),
    Then(if |b.acknowledgedItems| == 0
         then Some(Invalid("acknowledged_items", "At least one action item must be acknowledged")) else None,
    Then(Bounds("intervention_notes", b.interventionNotes, 10, 2000),
    Then(if b.isCertified then None
         else Some(Invalid("is_certified", "You must certify your response for legal compliance")), []))))
  }
}
