/**
 * The request bodies of the notification endpoints: the kinds and
 * categories a notification may have, the bounds of a new notification, and
 * the quiet-hours fields of the preferences, which must read as an hour and
 * a minute separated by ':'.
 */
module NotificationSchemas {
  import opened Common
  import opened UserSchemas

  datatype NotificationType = CRITICAL | REMINDER | INFO | WARNING | SUCCESS
  datatype NotificationCategory = MEDICATION | APPOINTMENT | TASK | INCIDENT | SCHEDULE | SYSTEM | GENERAL

  function TypeValue(t: NotificationType): string
  {
    match t
    case CRITICAL => "critical"
    case REMINDER => "reminder"
    case INFO => "info"
    case WARNING => "warning"
    case SUCCESS => "success"
  }

  function CategoryValue(c: NotificationCategory): string
  {
    match c
    case MEDICATION => "medication"
    case APPOINTMENT => "appointment"
    case TASK => "task"
    case INCIDENT => "incident"
    case SCHEDULE => "schedule"
    case SYSTEM => "system"
    case GENERAL => "general"
  }

  /** `NotificationType(text)`: the member whose value is the text, or `ValueError`. */
  function ParseType(text: string): (r: Option<NotificationType>)
    ensures r.Some? ==> TypeValue(r.value) == text
    ensures r.None? ==> forall t: NotificationType :: TypeValue(t) != text
  {
    if text == "critical" then Some(CRITICAL)
    else if text == "reminder" then Some(REMINDER)
    else if text == "info" then Some(INFO)
    else if text == "warning" then Some(WARNING)
    else if text == "success" then Some(SUCCESS)
    else None
  }

  /** `NotificationCategory(text)`: the member whose value is the text, or `ValueError`. */
  function ParseCategory(text: string): (r: Option<NotificationCategory>)
    ensures r.Some? ==> CategoryValue(r.value) == text
    ensures r.None? ==> forall c: NotificationCategory :: CategoryValue(c) != text
  {
    if text == "medication" then Some(MEDICATION)
    else if text == "appointment" then Some(APPOINTMENT)
    else if text == "task" then Some(TASK)
    else if text == "incident" then Some(INCIDENT)
    else if text == "schedule" then Some(SCHEDULE)
    else if text == "system" then Some(SYSTEM)
    else if text == "general" then Some(GENERAL)
    else None
  }

  /** Every kind's value parses back to that kind, and every category's to that category. */
  lemma ParsesEveryValue(t: NotificationType, c: NotificationCategory)
    ensures ParseType(TypeValue(t)) == Some(t)
    ensures ParseCategory(CategoryValue(c)) == Some(c)
  {
  }

  // ---------------------------------------------------------------------
  // A new notification
  // ---------------------------------------------------------------------

  datatype NotificationCreate = NotificationCreate(
    userId: Id,
    title: string,
    message: string,
    kind: NotificationType,
    category: NotificationCategory,
    actionUrl: Option<string>,
    actionText: Option<string>,
    relatedEntityType: Option<string>,
    relatedEntityId: Option<Id>,
    expiresAt: Option<Moment>)

  /** A body that names only the required fields: an information notice of the general category. */
  function MinimalNotification(userId: Id, title: string, message: string): (r: NotificationCreate)
    ensures r.kind == INFO && r.category == GENERAL
    ensures r.actionUrl.None? && r.actionText.None? && r.expiresAt.None?
  {
    NotificationCreate(userId, title, message, INFO, GENERAL, None, None, None, None, None)
  }

  function NotificationCreateViolations(n: NotificationCreate): (r: seq<Violation>)
    ensures r == [] <==> 1 <= |n.title| <= 200 && 1 <= |n.message| <= 1000
                         && (n.actionUrl.None? || |n.actionUrl.value| <= 500)
                         && (n.actionText.None? || |n.actionText.value| <= 100)
                         && (n.relatedEntityType.None? || |n.relatedEntityType.value| <= 50)
  {
    Then(Bounds("title", n.title, 1, 200),
    Then(Bounds("message", n.message, 1, 1000),
    Then(OptionalBounds("action_url", n.actionUrl, 0, 500),
    Then(OptionalBounds("action_text", n.actionText, 0, 100),
    Then(OptionalBounds("related_entity_type", n.relatedEntityType, 0, 50), [])))))
  }

  // ---------------------------------------------------------------------
  // Quiet hours
  // ---------------------------------------------------------------------

  const CLOCK_MESSAGE: string := "Time must be in HH:MM format"

  /**
   * The hour and minute of a quiet-hours value: exactly two parts around a
   * single ':', each read by `int()`, the hour 0..23 and the minute 0..59.
   */
  function ParseClock(s: string): (r: Option<(int, int)>)
    ensures r.Some? ==> 0 <= r.value.0 <= 23 && 0 <= r.value.1 <= 59
    ensures r.Some? ==> CountChar(s, ':') == 1
  {
    var parts := Split(s, ':');
    if |parts| != 2 then None
    else
      var hours := PyInt(parts[0]);
      var minutes := PyInt(parts[1]);
      if hours.Some? && minutes.Some? && 0 <= hours.value <= 23 && 0 <= minutes.value <= 59 then
        Some((hours.value, minutes.value))
      else None
  }

  /**
   * The quiet-hours validator, the same for the start and the end: an
   * absent value passes; any value that does not parse is refused with the
   * one message, whether the shape or the range was wrong.
   */
  function ClockViolation(field: string, v: Option<string>): (r: Option<Violation>)
    ensures r.None? <==> v.None? || ParseClock(v.value).Some?
    ensures r.Some? ==> r.value == Invalid(field, CLOCK_MESSAGE)
  {
    if v.None? || ParseClock(v.value).Some? then None else Some(Invalid(field, CLOCK_MESSAGE))
  }

  datatype NotificationPreferences = NotificationPreferences(
    emailEnabled: bool,
    pushEnabled: bool,
    criticalEmail: bool,
    reminderEmail: bool,
    quietHoursStart: Option<string>,
    quietHoursEnd: Option<string>)

  function PreferencesViolations(p: NotificationPreferences): (r: seq<Violation>)
    ensures r == [] <==> ClockViolation("quiet_hours_start", p.quietHoursStart).None?
                         && ClockViolation("quiet_hours_end", p.quietHoursEnd).None?
  {
    Then(ClockViolation("quiet_hours_start", p.quietHoursStart),
    Then(ClockViolation("quiet_hours_end", p.quietHoursEnd), []))
  }

  /** Digits around one ':' split into those two parts. */
  lemma ClockParts(h: string, m: string)
    requires forall k :: 0 <= k < |h| ==> IsDigit(h[k])
    requires forall k :: 0 <= k < |m| ==> IsDigit(m[k])
    ensures Split(h + ":" + m, ':') == [h, m]
  {
    assert forall k :: 0 <= k < |h| ==> h[k] != ':';
    assert forall k :: 0 <= k < |m| ==> m[k] != ':';
    SplitAfterPart(h, ':', m);
    SplitWithoutSeparator(m, ':');
  }

  /** A time written "HH:MM" with two-digit padding reads back as its hour and minute. */
  lemma ParsesPaddedClock(hour: nat, minute: nat)
    requires hour <= 23 && minute <= 59
    ensures ParseClock(ZeroPad(hour, 2) + ":" + ZeroPad(minute, 2)) == Some((hour, minute))
  {
    ClockParts(ZeroPad(hour, 2), ZeroPad(minute, 2));
    PyIntOfDigits(ZeroPad(hour, 2));
    PyIntOfDigits(ZeroPad(minute, 2));
    DigitsValueOfZeroPad(hour, 2);
    DigitsValueOfZeroPad(minute, 2);
  }

  /** The rule is looser than its message: unpadded numbers such as "7:5" are accepted too. */
  lemma ParsesUnpaddedClock(hour: nat, minute: nat)
    requires hour <= 23 && minute <= 59
    ensures ParseClock(NatToString(hour) + ":" + NatToString(minute)) == Some((hour, minute))
  {
    ClockParts(NatToString(hour), NatToString(minute));
    PyIntOfDigits(NatToString(hour));
    PyIntOfDigits(NatToString(minute));
    DigitsValueOfNatToString(hour);
    DigitsValueOfNatToString(minute);
  }

  /** Numbers out of range are refused even in the right shape. */
  lemma RefusesOutOfRange(hour: nat, minute: nat)
    requires hour > 23 || minute > 59
    ensures ParseClock(NatToString(hour) + ":" + NatToString(minute)).None?
  {
    ClockParts(NatToString(hour), NatToString(minute));
    PyIntOfDigits(NatToString(hour));
    PyIntOfDigits(NatToString(minute));
    DigitsValueOfNatToString(hour);
    DigitsValueOfNatToString(minute);
  }
}
