/**
 * Request validation of the audit API: the bounds of a settings update and
 * its alert-address pattern, the date rules of an export request, the
 * length of acknowledgement notes and the severities of a breach report.
 * A rejected body is answered with status 422 before any handler runs.
 */
module AuditSchemas {
  import opened Common
  import opened AuditLogModel


  // ---------------------------------------------------------------------
  // AuditSettingsUpdate
  // ---------------------------------------------------------------------

  /** `AuditSettingsUpdate`: every field optional, `None` meaning not sent. */
  datatype SettingsUpdate = SettingsUpdate(
    retentionDays: Option<int>,
    archiveAfterDays: Option<int>,
    enableAsyncLogging: Option<bool>,
    batchSize: Option<int>,
    samplingRate: Option<int>,
    alertOnPhiAccess: Option<bool>,
    alertOnBreach: Option<bool>,
    alertOnFailedLogin: Option<bool>,
    alertEmailAddresses: Option<seq<string>>,
    requireConsentVerification: Option<bool>,
    maskSensitiveData: Option<bool>,
    enableIntegrityCheck: Option<bool>,
    logReadOperations: Option<bool>,
    logAdministrativeActions: Option<bool>,
    logApiResponses: Option<bool>)

  predicate LocalChar(c: char)
  {
    IsAlnumAscii(c) || c == '.' || c == '_' || c == '%' || c == '+' || c == '-'
  }

  predicate DomainChar(c: char)
  {
    IsAlnumAscii(c) || c == '.' || c == '-'
  }

  predicate AsciiLetter(c: char)
  {
    IsUpperAscii(c) || IsLowerAscii(c)
  }

  /**
   * `s` splits as local part, `@` at `at`, domain, `.` at `dot`, and a
   * top-level label of two or more letters: one way the whole of `s` is
   * matched by `[a-zA-Z0-9._%+-]+@[a-zA-Z0-9.-]+\.[a-zA-Z]{2,}`.
   */
  ghost predicate EmailSplit(s: string, at: int, dot: int)
  {
    0 < at && at + 1 < dot && dot + 3 <= |s| && s[at] == '@' && s[dot] == '.'
    && (forall k :: 0 <= k < at ==> LocalChar(s[k]))
    && (forall k :: at < k < dot ==> DomainChar(s[k]))
    && (forall k :: dot < k < |s| ==> AsciiLetter(s[k]))
  }

  /** The language of the address pattern. */
  ghost predicate EmailPatternMatches(s: string)
  {
    exists at, dot :: EmailSplit(s, at, dot)
  }

  /** `s.find(c)`: the first index of `c` in `s`. */
  function FirstIndex(s: string, c: char): (r: Option<nat>)
    ensures r.Some? ==> r.value < |s| && s[r.value] == c && forall k :: 0 <= k < r.value ==> s[k] != c
    ensures r.None? ==> forall k :: 0 <= k < |s| ==> s[k] != c
  {
    FirstMatch(s, x => x == c)
  }

  /** The last index of `c` in `s`. */
  function LastIndex(s: string, c: char): (r: Option<nat>)
    ensures r.Some? ==> r.value < |s| && s[r.value] == c && forall k :: r.value < k < |s| ==> s[k] != c
    ensures r.None? ==> forall k :: 0 <= k < |s| ==> s[k] != c
  {
    if s == [] then None
    else if s[|s| - 1] == c then Some(|s| - 1)
    else LastIndex(s[..|s| - 1], c)
  }

  /**
   * The pattern checked by a single scan: the `@` is the first one, since
   * the local part cannot hold one, and the `.` before the top-level label
   * is the last one, since the label is letters only.
   */
  predicate MatchesEmail(s: string)
  {
    var at := FirstIndex(s, '@');
    var dot := LastIndex(s, '.');
    at.Some? && dot.Some? && 0 < at.value && at.value + 1 < dot.value && dot.value + 3 <= |s|
    && (forall k :: 0 <= k < at.value ==> LocalChar(s[k]))
    && (forall k :: at.value < k < dot.value ==> DomainChar(s[k]))
    && (forall k :: dot.value < k < |s| ==> AsciiLetter(s[k]))
  }

  /** The scan accepts exactly the language of the pattern. */
  lemma MatchesEmailIsPattern(s: string)
    ensures MatchesEmail(s) <==> EmailPatternMatches(s)
  {
    if MatchesEmail(s) {
      assert EmailSplit(s, FirstIndex(s, '@').value, LastIndex(s, '.').value);
    }
    if EmailPatternMatches(s) {
      var at, dot :| EmailSplit(s, at, dot);
      var first := FirstIndex(s, '@');
      var last := LastIndex(s, '.');
      assert first.Some? && first.value == at;
      assert last.Some? && last.value == dot;
    }
  }

  /**
   * `re.match(pattern, s)` with the pattern anchored by `^` and `$`: `$`
   * also matches just before a final newline, so an address followed by
   * one `\n` is accepted as well.
   */
  predicate EmailAccepted(s: string)
  {
    MatchesEmail(s) || (|s| > 0 && s[|s| - 1] == '\n' && MatchesEmail(s[..|s| - 1]))
  }

  /** The validator accepts an address exactly when the pattern matches it, or it minus a final newline. */
  lemma EmailAcceptedIsPatternUpToNewline(s: string)
    ensures EmailAccepted(s) <==> (EmailPatternMatches(s)
                                  || (|s| > 0 && s[|s| - 1] == '\n' && EmailPatternMatches(s[..|s| - 1])))
  {
    MatchesEmailIsPattern(s);
    if |s| > 0 {
      MatchesEmailIsPattern(s[..|s| - 1]);
    }
  }

  /** An example address in the pattern's language. */
  lemma ExampleAddressMatches(ok: string)
    requires ok == "ops@example.org"
    ensures EmailPatternMatches(ok)
  {
    assert forall k :: 0 <= k < 3 ==> LocalChar(ok[k]);
    assert forall k :: 3 < k < 11 ==> DomainChar(ok[k]);
    assert forall k :: 11 < k < 15 ==> AsciiLetter(ok[k]);
    assert EmailSplit(ok, 3, 11);
  }

  /** A plain address is accepted, and so is the same address followed by a newline. */
  lemma EmailAcceptsTrailingNewline(ok: string, nl: string)
    requires ok == "ops@example.org" && nl == ok + "\n"
    ensures EmailAccepted(ok) && EmailAccepted(nl)
  {
    ExampleAddressMatches(ok);
    MatchesEmailIsPattern(ok);
    assert nl[..|nl| - 1] == ok;
    EmailAcceptedIsPatternUpToNewline(nl);
  }

  /** An address whose top-level label has one letter is rejected. */
  lemma EmailRejectsShortLabel(s: string)
    requires s == "ops@example.c"
    ensures !EmailAccepted(s)
  {
    MatchesEmailIsPattern(s);
  }

  /** `validate_emails`: `None` passes; otherwise the first address that fails is reported. */
  function ValidateEmails(v: Option<seq<string>>): (r: Result<Option<seq<string>>>)
    ensures r.Ok? <==> (v.None? || forall k :: 0 <= k < |v.value| ==> EmailAccepted(v.value[k]))
    ensures r.Ok? ==> r.value == v
    ensures r.Err? ==> r.status == UNPROCESSABLE
  {
    if v.None? then Ok(v)
    else
      var bad := FirstRejected(v.value);
      if bad.None? then Ok(v)
      else Err(UNPROCESSABLE, "Invalid email address: " + v.value[bad.value])
  }

  /** The index of the first address the pattern rejects. */
  function FirstRejected(emails: seq<string>): (r: Option<nat>)
    ensures r.None? <==> forall k :: 0 <= k < |emails| ==> EmailAccepted(emails[k])
    ensures r.Some? ==> r.value < |emails| && !EmailAccepted(emails[r.value])
                        && forall k :: 0 <= k < r.value ==> EmailAccepted(emails[k])
  {
    if emails == [] then None
    else if !EmailAccepted(emails[0]) then Some(0)
    else
      var rest := FirstRejected(emails[1..]);
      if rest.None? then None else Some(rest.value + 1)
  }

  /** The field bounds of `AuditSettingsUpdate` and its address validator. */
  predicate SettingsUpdateValid(u: SettingsUpdate)
  {
    (u.retentionDays.None? || u.retentionDays.value >= MIN_RETENTION_DAYS)
    && (u.archiveAfterDays.None? || u.archiveAfterDays.value >= 1)
    && (u.batchSize.None? || 1 <= u.batchSize.value <= 1000)
    && (u.samplingRate.None? || 0 <= u.samplingRate.value <= 100)
    && ValidateEmails(u.alertEmailAddresses).Ok?
  }

  // ---------------------------------------------------------------------
  // AuditExportRequest
  // ---------------------------------------------------------------------

  datatype ExportFormat = CSV | JSON | PDF

  /** `AuditFilterParams`, the optional narrowing of an export. */
  datatype FilterParams = FilterParams(
    userId: Option<Id>,
    resourceType: Option<string>,
    resourceId: Option<string>,
    action: Option<AuditAction>,
    dataClassification: Option<DataClassification>,
    phiAccessOnly: bool,
    startDate: Option<Moment>,
    endDate: Option<Moment>)

  datatype ExportRequest = ExportRequest(
    startDate: Moment,
    endDate: Moment,
    format: ExportFormat,
    filters: Option<FilterParams>,
    purpose: Option<string>,
    authorizedBy: Option<string>,
    auditReference: Option<string>)

  /**
   * The two `end_date` validators: the range must not be reversed and must
   * not end after `now` (the server's `datetime.now()`).
   */
  function ValidateExportRequest(req: ExportRequest, now: Moment): (r: Result<ExportRequest>)
    ensures r.Ok? <==> Stamp(req.startDate) <= Stamp(req.endDate) <= Stamp(now)
    ensures r.Ok? ==> r.value == req
    ensures r.Err? ==> r.status == UNPROCESSABLE
    ensures Stamp(req.endDate) < Stamp(req.startDate) ==> r == Err(UNPROCESSABLE, "end_date must be after start_date")
  {
    if Stamp(req.endDate) < Stamp(req.startDate) then Err(UNPROCESSABLE, "end_date must be after start_date")
    else if Stamp(req.endDate) > Stamp(now) then Err(UNPROCESSABLE, "end_date cannot be in the future")
    else Ok(req)
  }

  // ---------------------------------------------------------------------
  // ViolationAcknowledgment and BreachReportRequest
  // ---------------------------------------------------------------------

  const MIN_RESOLUTION_NOTES: nat := 10

  /** `resolution_notes` with `min_length=10`. */
  function ValidateResolutionNotes(notes: string): (r: Result<string>)
    ensures r.Ok? <==> |notes| >= MIN_RESOLUTION_NOTES
    ensures r.Ok? ==> r.value == notes
    ensures r.Err? ==> r.status == UNPROCESSABLE
  {
    if |notes| < MIN_RESOLUTION_NOTES then Err(UNPROCESSABLE, "String should have at least 10 characters")
    else Ok(notes)
  }

  const SEVERITIES: seq<string> := ["low", "medium", "high", "critical"]
  const DEFAULT_SEVERITY: string := "high"

  /** The `^(low|medium|high|critical)$` pattern on a breach report's severity; the default is "high". */
  function ValidateSeverity(severity: Option<string>): (r: Result<string>)
    ensures r.Ok? <==> severity.None? || severity.value in SEVERITIES
    ensures r.Ok? ==> r.value in SEVERITIES
    ensures severity.None? ==> r == Ok(DEFAULT_SEVERITY)
    ensures r.Err? ==> r.status == UNPROCESSABLE
  {
    if severity.None? then Ok(DEFAULT_SEVERITY)
    else if severity.value in SEVERITIES then Ok(severity.value)
    else Err(UNPROCESSABLE, "String should match pattern '^(low|medium|high|critical)$'")
  }
}
