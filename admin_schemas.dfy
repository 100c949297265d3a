/**
 * The request bodies of the platform-administration endpoints: the bulk
 * actions, a broadcast notification, and a new organisation, whose
 * subdomain must be alphanumeric and is stored lower-cased.
 */
module AdminSchemas {
  import opened Common
  import opened UserSchemas

  datatype BulkAction = ACTIVATE | DEACTIVATE | SUSPEND | DELETE | RESET_PASSWORD

  function BulkActionValue(a: BulkAction): string
  {
    match a
    case ACTIVATE => "activate"
    case DEACTIVATE => "deactivate"
    case SUSPEND => "suspend"
    case DELETE => "delete"
    case RESET_PASSWORD => "reset_password"
  }

  /** `BulkAction(text)`: the action whose value is the text, or a validation error. */
  function ParseBulkAction(text: string): (r: Option<BulkAction>)
    ensures r.Some? ==> BulkActionValue(r.value) == text
    ensures r.None? ==> forall a: BulkAction :: BulkActionValue(a) != text
  {
    if text == "activate" then Some(ACTIVATE)
    else if text == "deactivate" then Some(DEACTIVATE)
    else if text == "suspend" then Some(SUSPEND)
    else if text == "delete" then Some(DELETE)
    else if text == "reset_password" then Some(RESET_PASSWORD)
    else None
  }

  lemma BulkActionsParse(a: BulkAction)
    ensures ParseBulkAction(BulkActionValue(a)) == Some(a)
  {
  }

  /** A bulk request as sent: the action still as text. */
  datatype BulkActionRequest = BulkActionRequest(action: string, targetIds: seq<string>, reason: Option<string>)

  /** An unknown action, an empty target list or an over-long reason is refused. */
  function BulkViolations(b: BulkActionRequest): (r: seq<Violation>)
    ensures r == [] <==> ParseBulkAction(b.action).Some? && |b.targetIds| >= 1
                         && (b.reason.None? || |b.reason.value| <= 500)
  {
    Then(if ParseBulkAction(b.action).None? then Some(Invalid("action", "not a valid bulk action")) else None,
    Then(MinItems("target_ids", b.targetIds, 1),
    Then(OptionalBounds("reason", b.reason, 0, 500), [])))
  }

  // ---------------------------------------------------------------------
  // Broadcast notifications
  // ---------------------------------------------------------------------

  const DEFAULT_BROADCAST_TYPE: string := "info"
  const DEFAULT_BROADCAST_CATEGORY: string := "system"

  datatype AdminNotificationCreate = AdminNotificationCreate(
    title: string,
    message: string,
    kind: string,
    category: string,
    actionUrl: Option<string>,
    actionText: Option<string>,
    expiresAt: Option<Moment>,
    targetOrganizationId: Option<string>,
    targetRole: Option<string>,
    targetUserIds: Option<seq<string>>)

  /** A broadcast naming only its title and message: an information notice of the system category, to no one in particular. */
  function Broadcast(title: string, message: string): (r: AdminNotificationCreate)
    ensures r.kind == DEFAULT_BROADCAST_TYPE && r.category == DEFAULT_BROADCAST_CATEGORY
    ensures r.targetOrganizationId.None? && r.targetRole.None? && r.targetUserIds.None?
  {
    AdminNotificationCreate(title, message, DEFAULT_BROADCAST_TYPE, DEFAULT_BROADCAST_CATEGORY,
                            None, None, None, None, None, None)
  }

  /** Type and category are free text here: only the lengths are checked. */
  function BroadcastViolations(n: AdminNotificationCreate): (r: seq<Violation>)
    ensures r == [] <==> 1 <= |n.title| <= 200 && 1 <= |n.message| <= 1000
                         && (n.actionUrl.None? || |n.actionUrl.value| <= 500)
                         && (n.actionText.None? || |n.actionText.value| <= 100)
  {
    Then(Bounds("title", n.title, 1, 200),
    Then(Bounds("message", n.message, 1, 1000),
    Then(OptionalBounds("action_url", n.actionUrl, 0, 500),
    Then(OptionalBounds("action_text", n.actionText, 0, 100), []))))
  }

  // ---------------------------------------------------------------------
  // A new organisation
  // ---------------------------------------------------------------------

  const ALPHANUMERIC_MESSAGE: string := "Subdomain must be alphanumeric"

  predicate Alphanumeric(s: string)
  {
    s != [] && forall k :: 0 <= k < |s| ==> IsAlnumAscii(s[k])
  }

  /**
   * The subdomain field: its length bound first, then the validator, which
   * refuses anything but letters and digits and hands on the lower-cased
   * text.
   */
  function SubdomainField(s: string): (r: Result<string>)
    ensures r.Ok? <==> 3 <= |s| <= 100 && Alphanumeric(s)
    ensures r.Ok? ==> r.value == Lower(s)
    ensures r.Err? && 3 <= |s| <= 100 ==> r == Err(UNPROCESSABLE, ALPHANUMERIC_MESSAGE)
  {
    if !(3 <= |s| <= 100) then Err(UNPROCESSABLE, "subdomain length must be between 3 and 100")
    else if !Alphanumeric(s) then Err(UNPROCESSABLE, ALPHANUMERIC_MESSAGE)
    else Ok(Lower(s))
  }

  /** A lower-cased subdomain has no capitals, keeps its length, and still passes: validating it again changes nothing. */
  lemma SubdomainFieldIdempotent(s: string)
    requires SubdomainField(s).Ok?
    ensures var v := SubdomainField(s).value;
            |v| == |s| && (forall k :: 0 <= k < |v| ==> !IsUpperAscii(v[k])) && SubdomainField(v) == Ok(v)
  {
    var v := Lower(s);
    forall k | 0 <= k < |v| ensures IsAlnumAscii(v[k]) && !IsUpperAscii(v[k]) && LowerChar(v[k]) == v[k] {
      assert IsAlnumAscii(s[k]);
    }
    assert Lower(v) == v;
  }

  /** Two subdomains that differ only in case are stored alike. */
  lemma CaseIsFolded(s: string, t: string)
    requires SubdomainField(s).Ok? && SubdomainField(t).Ok?
    requires |s| == |t| && forall k :: 0 <= k < |s| ==> LowerChar(s[k]) == LowerChar(t[k])
    ensures SubdomainField(s) == SubdomainField(t)
  {
    assert Lower(s) == Lower(t);
  }

  /**
   * What the validator hands on always matches the organisation pattern of
   * the user schemas (`^[a-z0-9-]+$`, 3 to 100 characters), though that
   * pattern also admits '-', which this validator refuses.
   */
  lemma AdminSubdomainFitsOrganizationPattern(s: string)
    requires SubdomainField(s).Ok?
    ensures SubdomainViolation(SubdomainField(s).value).None?
  {
    var v := Lower(s);
    forall k | 0 <= k < |v| ensures SubdomainChar(v[k]) {
      assert IsAlnumAscii(s[k]);
    }
  }

  /** "my-org" fits the organisation pattern but is refused here. */
  lemma HyphenRefusedHere(s: string)
    requires s == "my-org"
    ensures SubdomainField(s) == Err(UNPROCESSABLE, ALPHANUMERIC_MESSAGE)
    ensures SubdomainViolation(s).None?
  {
    assert !IsAlnumAscii(s[2]);
    assert SubdomainChar(s[0]) && SubdomainChar(s[1]) && SubdomainChar(s[2]);
    assert SubdomainChar(s[3]) && SubdomainChar(s[4]) && SubdomainChar(s[5]);
  }

  datatype AdminOrganizationCreate = AdminOrganizationCreate(
    name: string,
    subdomain: string,
    contactEmail: string,
    contactPhone: Option<string>,
    address: Option<string>,
    timezone: string)

  /** A body that leaves the timezone out gets "UTC". */
  function NewAdminOrganization(name: string, subdomain: string, contactEmail: string): (r: AdminOrganizationCreate)
    ensures r.timezone == DEFAULT_TIMEZONE && r.contactPhone.None? && r.address.None?
  {
    AdminOrganizationCreate(name, subdomain, contactEmail, None, None, DEFAULT_TIMEZONE)
  }

  /** The body as validated: the name's bound, then the subdomain; the accepted body carries the lower-cased subdomain. */
  function ValidateAdminOrganization(o: AdminOrganizationCreate): (r: Result<AdminOrganizationCreate>)
    ensures r.Ok? <==> 1 <= |o.name| <= 255 && SubdomainField(o.subdomain).Ok?
    ensures r.Ok? ==> r.value == o.(subdomain := Lower(o.subdomain))
  {
    if !(1 <= |o.name| <= 255) then Err(UNPROCESSABLE, "name length must be between 1 and 255")
    else
      var sub := SubdomainField(o.subdomain);
      if sub.Err? then Err(sub.status, sub.detail) else Ok(o.(subdomain := sub.value))
  }
}
