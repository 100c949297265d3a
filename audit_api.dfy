/**
 * The audit endpoints. Every handler sits behind the admin-or-above role
 * guard; what they add is tenant scoping (a caller whose role is not
 * super_admin sees only rows of their own organization), the parsing of
 * enum filters, pagination, the violation acknowledgement, the export
 * life cycle (created "processing", completed by the background job,
 * downloadable for seven days) with its CSV rendering, and the
 * get-or-create and partial update of the organization's audit settings.
 */
module AuditApi {
  import opened Common
  import opened AuditLogModel
  import opened AuditService
  import opened AuditSchemas

  /** The authenticated user as the handlers see it: id, role name, organization. */
  datatype Caller = Caller(id: Id, roleName: string, organizationId: Option<Id>)

  const SUPER_ADMIN: string := "super_admin"

  predicate IsSuperAdmin(c: Caller)
  {
    c.roleName == SUPER_ADMIN
  }

  /**
   * The tenant filter `organization_id == current_user.organization_id`,
   * applied unless the caller is super_admin (SQL compares a missing
   * organization as `IS NULL`).
   */
  predicate InTenant(c: Caller, org: Option<Id>)
  {
    IsSuperAdmin(c) || org == c.organizationId
  }

  /**
   * The organization the service-backed endpoints pass on: none for
   * super_admin, otherwise the caller's own. The service filters only on an
   * organization that is given.
   */
  function ServiceScope(c: Caller): Option<Id>
  {
    if IsSuperAdmin(c) then None else c.organizationId
  }

  /** The `Query(..., ge=1, le=1000)` bound of `limit`. */
  predicate LimitInRange(limit: int)
  {
    1 <= limit <= 1000
  }

  /** The `Query(30, ge=1, le=365)` bound of `days`. */
  predicate DaysInRange(days: int)
  {
    1 <= days <= 365
  }

  // ---------------------------------------------------------------------
  // GET /logs and GET /logs/{id}
  // ---------------------------------------------------------------------

  /** The query parameters of `get_audit_logs`, filters as the strings received. */
  datatype LogListQuery = LogListQuery(
    skip: nat,
    limit: int,
    userId: Option<Id>,
    resourceType: Option<string>,
    resourceId: Option<string>,
    action: Option<string>,
    startDate: Option<Moment>,
    endDate: Option<Moment>,
    phiAccessOnly: bool,
    dataClassification: Option<string>)

  /** The enum filters once parsed. */
  datatype EnumFilters = EnumFilters(action: Option<AuditAction>, classification: Option<DataClassification>)

  predicate BadAction(q: LogListQuery)
  {
    Truthy(q.action) && ParseAction(q.action.value).None?
  }

  predicate BadClassification(q: LogListQuery)
  {
    Truthy(q.dataClassification) && ParseClassification(q.dataClassification.value).None?
  }

  /**
   * `AuditAction(action)` and `DataClassification(data_classification)`
   * for the filters that are given: a string outside the enumeration is
   * answered with 400, the action being checked first.
   */
  function ParseEnumFilters(q: LogListQuery): (r: Result<EnumFilters>)
    ensures r.Err? <==> BadAction(q) || BadClassification(q)
    ensures BadAction(q) ==> r == Err(BAD_REQUEST, "Invalid action: " + q.action.value)
    ensures !BadAction(q) && BadClassification(q) ==>
              r == Err(BAD_REQUEST, "Invalid data classification: " + q.dataClassification.value)
    ensures r.Ok? ==> (r.value.action.Some? <==> Truthy(q.action))
                      && (r.value.action.Some? ==> ActionValue(r.value.action.value) == q.action.value)
    ensures r.Ok? ==> (r.value.classification.Some? <==> Truthy(q.dataClassification))
                      && (r.value.classification.Some? ==>
                            ClassificationValue(r.value.classification.value) == q.dataClassification.value)
  {
    if BadAction(q) then Err(BAD_REQUEST, "Invalid action: " + q.action.value)
    else if BadClassification(q) then Err(BAD_REQUEST, "Invalid data classification: " + q.dataClassification.value)
    else
      Ok(EnumFilters(if Truthy(q.action) then ParseAction(q.action.value) else None,
                     if Truthy(q.dataClassification) then ParseClassification(q.dataClassification.value) else None))
  }

  /** A row kept by the filters of `get_audit_logs`, tenant filter included. */
  predicate LogMatches(l: AuditLog, c: Caller, q: LogListQuery, f: EnumFilters)
  {
    InTenant(c, l.organizationId)
    && (q.userId.None? || l.userId == q.userId)
    && (!Truthy(q.resourceType) || l.resourceType == q.resourceType.value)
    && (!Truthy(q.resourceId) || l.resourceId == q.resourceId)
    && (f.action.None? || l.action == f.action.value)
    && InPeriod(l.createdAt, q.startDate, q.endDate)
    && (!q.phiAccessOnly || l.phiAccessed)
    && (f.classification.None? || l.dataClassification == f.classification.value)
  }

  /** The filter of `get_audit_logs` as one predicate on rows. */
  function LogFilter(c: Caller, q: LogListQuery, f: EnumFilters): AuditLog -> bool
  {
    l => LogMatches(l, c, q, f)
  }

  datatype LogPage = LogPage(logs: seq<AuditLog>, total: nat, skip: nat, limit: nat)

  /**
   * `get_audit_logs`: 422 for a limit outside 1..1000, 400 for an unknown
   * enum filter; otherwise the number of matching rows before pagination,
   * and the matching rows newest first, from position `skip`, at most
   * `limit` of them.
   */
  function ListAuditLogs(logs: seq<AuditLog>, c: Caller, q: LogListQuery): (r: Result<LogPage>)
    ensures r.Err? <==> !LimitInRange(q.limit) || BadAction(q) || BadClassification(q)
    ensures r.Err? && LimitInRange(q.limit) ==> r.status == BAD_REQUEST
    ensures r.Ok? ==> r.value.total == Count(logs, LogFilter(c, q, ParseEnumFilters(q).value))
    ensures r.Ok? ==> r.value.logs == Window(SelectDesc(logs, LogFilter(c, q, ParseEnumFilters(q).value), CreatedKey),
                                             q.skip, q.limit)
  {
    if !LimitInRange(q.limit) then Err(UNPROCESSABLE, "limit must lie in 1..1000")
    else
      var parsed := ParseEnumFilters(q);
      if parsed.Err? then Err(parsed.status, parsed.detail)
      else
        var p := LogFilter(c, q, parsed.value);
        var ordered := SelectDesc(logs, p, CreatedKey);
        Ok(LogPage(Window(ordered, q.skip, q.limit), Count(logs, p), q.skip, q.limit))
  }

  /**
   * The page holds at most `limit` rows, newest first, each a stored row
   * that passes every filter; for a caller who is not super_admin, each
   * belongs to the caller's organization.
   */
  lemma ListedLogsAreScoped(logs: seq<AuditLog>, c: Caller, q: LogListQuery)
    requires ListAuditLogs(logs, c, q).Ok?
    ensures var page := ListAuditLogs(logs, c, q).value.logs;
            |page| <= q.limit && SortedDesc(page, CreatedKey)
            && (forall k :: 0 <= k < |page| ==> page[k] in logs && LogMatches(page[k], c, q, ParseEnumFilters(q).value))
            && (!IsSuperAdmin(c) ==> forall k :: 0 <= k < |page| ==> page[k].organizationId == c.organizationId)
  {
    var f := ParseEnumFilters(q).value;
    assert ListAuditLogs(logs, c, q).value.logs == Window(SelectDesc(logs, LogFilter(c, q, f), CreatedKey), q.skip, q.limit);
    PageOfSelectDesc(logs, LogFilter(c, q, f), CreatedKey, q.skip, q.limit);
  }

  /** `get_audit_log`: the row with the id, if the caller's tenant holds it; 404 otherwise. */
  function GetAuditLog(logs: seq<AuditLog>, c: Caller, id: Id): (r: Result<AuditLog>)
    ensures r.Ok? ==> r.value in logs && r.value.id == id && InTenant(c, r.value.organizationId)
    ensures r.Err? <==> forall k :: 0 <= k < |logs| ==> !(logs[k].id == id && InTenant(c, logs[k].organizationId))
    ensures r.Err? ==> r == Err(NOT_FOUND, "Audit log not found")
  {
    var i := FirstMatch(logs, (l: AuditLog) => l.id == id && InTenant(c, l.organizationId));
    if i.None? then Err(NOT_FOUND, "Audit log not found") else Ok(logs[i.value])
  }

  // ---------------------------------------------------------------------
  // Service-backed reads
  // ---------------------------------------------------------------------

  /** `now - timedelta(days=days)`. */
  function DaysAgo(now: Moment, days: int): (r: Moment)
    ensures Stamp(r) == Stamp(now) - days * SECONDS_PER_DAY
  {
    AddSeconds(now, -days * SECONDS_PER_DAY)
  }

  /**
   * `get_user_activity`: the user's rows of the last `days` days, newest
   * first, at most `limit`, within the caller's organization when the caller
   * is not super_admin and has one.
   */
  function UserActivityEndpoint(logs: seq<AuditLog>, c: Caller, user: Id, days: int, limit: int, now: Moment)
    : (r: Result<seq<AuditLog>>)
    ensures r.Err? <==> !DaysInRange(days) || !LimitInRange(limit)
    ensures r.Ok? ==> |r.value| <= limit && SortedDesc(r.value, CreatedKey)
    ensures r.Ok? ==> forall k :: 0 <= k < |r.value| ==>
                        r.value[k] in logs && r.value[k].userId == Some(user)
                        && Stamp(r.value[k].createdAt) >= Stamp(now) - days * SECONDS_PER_DAY
    ensures r.Ok? && !IsSuperAdmin(c) && c.organizationId.Some? ==>
              forall k :: 0 <= k < |r.value| ==> r.value[k].organizationId == c.organizationId
    ensures r.Ok? ==> forall x, k ::
              x in logs && UserActivityMatch(x, user, Some(DaysAgo(now, days)), None, ServiceScope(c)) && x !in r.value
                && 0 <= k < |r.value|
              ==> CreatedKey(x) <= CreatedKey(r.value[k])
    ensures r.Ok? && |r.value| < limit ==>
              forall x :: x in logs && UserActivityMatch(x, user, Some(DaysAgo(now, days)), None, ServiceScope(c)) ==> x in r.value
  {
    if !DaysInRange(days) || !LimitInRange(limit) then Err(UNPROCESSABLE, "days or limit out of range")
    else Ok(UserActivity(logs, user, Some(DaysAgo(now, days)), None, ServiceScope(c), limit))
  }

  /** `get_resource_history`: every row of the resource, newest first, scoped as above. */
  function ResourceHistoryEndpoint(logs: seq<AuditLog>, c: Caller, resourceType: string, resourceId: string)
    : (r: seq<AuditLog>)
    ensures SortedDesc(r, CreatedKey)
    ensures forall k :: 0 <= k < |logs| && ResourceMatch(logs[k], resourceType, resourceId, ServiceScope(c)) ==> logs[k] in r
    ensures forall k :: 0 <= k < |r| ==> r[k] in logs && r[k].resourceType == resourceType && r[k].resourceId == Some(resourceId)
    ensures !IsSuperAdmin(c) && c.organizationId.Some? ==>
              forall k :: 0 <= k < |r| ==> r[k].organizationId == c.organizationId
  {
    var r := ResourceHistory(logs, resourceType, resourceId, ServiceScope(c));
    forall k | 0 <= k < |logs| && ResourceMatch(logs[k], resourceType, resourceId, ServiceScope(c))
      ensures logs[k] in r
    {
      var matching := Filter(logs, l => ResourceMatch(l, resourceType, resourceId, ServiceScope(c)));
      assert logs[k] in matching;
      assert logs[k] in multiset(matching);
    }
    r
  }

  /** `get_phi_access_logs`: PHI rows of the last `days` days, newest first, the first `limit`, scoped as above. */
  function PhiAccessEndpoint(logs: seq<AuditLog>, c: Caller, client: Option<string>, days: int, limit: int, now: Moment)
    : (r: Result<seq<AuditLog>>)
    ensures r.Err? <==> !DaysInRange(days) || !LimitInRange(limit)
    ensures r.Ok? ==> |r.value| <= limit && SortedDesc(r.value, CreatedKey)
    ensures r.Ok? ==> forall k :: 0 <= k < |r.value| ==>
                        r.value[k] in logs && r.value[k].phiAccessed
                        && Stamp(r.value[k].createdAt) >= Stamp(now) - days * SECONDS_PER_DAY
    ensures r.Ok? && !IsSuperAdmin(c) && c.organizationId.Some? ==>
              forall k :: 0 <= k < |r.value| ==> r.value[k].organizationId == c.organizationId
    ensures r.Ok? ==> forall x, k ::
              x in logs && PhiLogMatch(x, client, Some(DaysAgo(now, days)), None, ServiceScope(c)) && x !in r.value
                && 0 <= k < |r.value|
              ==> CreatedKey(x) <= CreatedKey(r.value[k])
    ensures r.Ok? && |r.value| < limit ==>
              forall x :: x in logs && PhiLogMatch(x, client, Some(DaysAgo(now, days)), None, ServiceScope(c)) ==> x in r.value
  {
    if !DaysInRange(days) || !LimitInRange(limit) then Err(UNPROCESSABLE, "days or limit out of range")
    else
      var p := l => PhiLogMatch(l, client, Some(DaysAgo(now, days)), None, ServiceScope(c));
      var all := PhiAccessLogs(logs, client, Some(DaysAgo(now, days)), None, ServiceScope(c));
      assert all == SelectDesc(logs, p, CreatedKey);
      TakeSortedDesc(all, limit, CreatedKey);
      TakeSelectDescKeepsNewest(logs, p, CreatedKey, limit);
      Ok(Take(all, limit))
  }

  /**
   * A caller who is not super_admin but has no organization is not scoped
   * by the service-backed endpoints: the resource history shows a row of
   * another organization, although `get_audit_logs` would hide it.
   */
  lemma OrganizationlessCallerSeesOtherTenants(l: AuditLog)
    requires l.resourceType == "client" && l.resourceId == Some("c-1") && l.organizationId == Some(7)
    ensures var c := Caller(1, "admin", None);
            l in ResourceHistoryEndpoint([l], c, "client", "c-1") && !InTenant(c, l.organizationId)
  {
    var c := Caller(1, "admin", None);
    var r := ResourceHistoryEndpoint([l], c, "client", "c-1");
    assert ResourceMatch([l][0], "client", "c-1", ServiceScope(c));
  }

  /**
   * `generate_compliance_report`: a super_admin without an organization is
   * refused with 400; anyone else gets the report of their own organization.
   */
  function ComplianceReportEndpoint(logs: seq<AuditLog>, violations: seq<ComplianceViolation>, c: Caller,
                                    start: Moment, end: Moment, reportType: string): (r: Result<ComplianceReport>)
    ensures r.Err? <==> IsSuperAdmin(c) && c.organizationId.None?
    ensures r.Err? ==> r == Err(BAD_REQUEST, "Organization ID required for compliance reports")
    ensures r.Ok? ==> r.value.organizationId == c.organizationId
                      && r.value.totalActivities == Count(logs, l => ReportRow(l, c.organizationId, start, end))
  {
    if IsSuperAdmin(c) && c.organizationId.None? then
      Err(BAD_REQUEST, "Organization ID required for compliance reports")
    else
      Ok(ComplianceReportOf(logs, violations, c.organizationId, start, end, reportType))
  }

  // ---------------------------------------------------------------------
  // GET /violations
  // ---------------------------------------------------------------------

  function DetectedKey(v: ComplianceViolation): int { Stamp(v.detectedAt) }

  predicate ViolationMatches(v: ComplianceViolation, c: Caller, status: Option<string>, severity: Option<string>,
                             since: Moment)
  {
    InTenant(c, v.organizationId)
    && (!Truthy(status) || v.status == status.value)
    && (!Truthy(severity) || v.severity == severity.value)
    && Stamp(v.detectedAt) >= Stamp(since)
  }

  /** `get_compliance_violations`: the tenant's violations of the last `days` days matching the filters, newest first. */
  function ListViolations(violations: seq<ComplianceViolation>, c: Caller, status: Option<string>,
                          severity: Option<string>, days: int, now: Moment): (r: Result<seq<ComplianceViolation>>)
    ensures r.Err? <==> !DaysInRange(days)
    ensures r.Ok? ==> SortedDesc(r.value, DetectedKey)
    ensures r.Ok? ==> |r.value| == Count(violations, v => ViolationMatches(v, c, status, severity, DaysAgo(now, days)))
    ensures r.Ok? ==> forall k :: 0 <= k < |r.value| ==>
                        r.value[k] in violations && InTenant(c, r.value[k].organizationId)
                        && (!Truthy(status) || r.value[k].status == status.value)
                        && (!Truthy(severity) || r.value[k].severity == severity.value)
                        && Stamp(r.value[k].detectedAt) >= Stamp(now) - days * SECONDS_PER_DAY
    ensures r.Ok? ==> forall v :: v in violations && ViolationMatches(v, c, status, severity, DaysAgo(now, days)) ==> v in r.value
  {
    if !DaysInRange(days) then Err(UNPROCESSABLE, "days must lie in 1..365")
    else
      var p := v => ViolationMatches(v, c, status, severity, DaysAgo(now, days));
      SelectedRowsAreListed(violations, p, DetectedKey);
      Ok(SelectDesc(violations, p, DetectedKey))
  }

  /**
   * The row after `acknowledge_violation`: status "acknowledged", the time,
   * the acknowledging user and the notes, whatever the status was.
   */
  function Acknowledged(v: ComplianceViolation, acknowledger: Id, notes: string, now: Moment): (r: ComplianceViolation)
    ensures r.status == "acknowledged" && r.acknowledgedAt == Some(now) && r.acknowledgedBy == Some(acknowledger)
    ensures r.resolutionNotes == Some(notes)
    ensures r.organizationId == v.organizationId && r.auditLogId == v.auditLogId && r.detectedAt == v.detectedAt
    ensures r.violationType == v.violationType && r.severity == v.severity && r.description == v.description
  {
    v.(status := "acknowledged", acknowledgedAt := Some(now), acknowledgedBy := Some(acknowledger), resolutionNotes := Some(notes))
  }

  /** Acknowledging twice leaves the row as the second acknowledgement made it. */
  lemma AcknowledgeOverwrites(v: ComplianceViolation, by1: Id, by2: Id, notes1: string, notes2: string,
                              t1: Moment, t2: Moment)
    ensures Acknowledged(Acknowledged(v, by1, notes1, t1), by2, notes2, t2) == Acknowledged(v, by2, notes2, t2)
  {
  }

  // ---------------------------------------------------------------------
  // Response validation as written
  // ---------------------------------------------------------------------

  /*
   * Every audit response model declares its ids as `str`, while the id
   * columns hold UUID objects; pydantic refuses a UUID for a `str` field,
   * so each response that carries a stored row fails its validation and
   * the route answers 500. The members above give the response the routes
   * evidently intend; those below give the response as written.
   */

  const RESPONSE_INVALID: string := "Internal Server Error"

  /**
   * A list response validated as written: an error stays as it is, an empty
   * list passes, and a list holding a row becomes a 500.
   */
  function ValidateRows<T>(r: Result<seq<T>>): (v: Result<seq<T>>)
    ensures v.Ok? <==> r.Ok? && r.value == []
    ensures r.Err? ==> v == r
    ensures r.Ok? && r.value != [] ==> v == Err(INTERNAL_ERROR, RESPONSE_INVALID)
  {
    if r.Ok? && r.value != [] then Err(INTERNAL_ERROR, RESPONSE_INVALID) else r
  }

  /** `get_audit_logs` as written: a page holding a row is answered 500. */
  function ListAuditLogsAsWritten(logs: seq<AuditLog>, c: Caller, q: LogListQuery): (r: Result<LogPage>)
    ensures ListAuditLogs(logs, c, q).Err? ==> r == ListAuditLogs(logs, c, q)
    ensures ListAuditLogs(logs, c, q).Ok? ==>
              (r.Ok? <==> ListAuditLogs(logs, c, q).value.logs == [])
              && (r.Ok? ==> r == ListAuditLogs(logs, c, q))
              && (r.Err? ==> r.status == INTERNAL_ERROR)
  {
    var page := ListAuditLogs(logs, c, q);
    if page.Ok? && page.value.logs != [] then Err(INTERNAL_ERROR, RESPONSE_INVALID) else page
  }

  /** `get_audit_log` as written: a row that is found is answered 500; a missing one is still 404. */
  function GetAuditLogAsWritten(logs: seq<AuditLog>, c: Caller, id: Id): (r: Result<AuditLog>)
    ensures r.Err?
    ensures r.status == NOT_FOUND <==> GetAuditLog(logs, c, id).Err?
    ensures r.status != NOT_FOUND ==> r == Err(INTERNAL_ERROR, RESPONSE_INVALID)
  {
    var found := GetAuditLog(logs, c, id);
    if found.Err? then found else Err(INTERNAL_ERROR, RESPONSE_INVALID)
  }

  /** `get_user_activity` as written. */
  function UserActivityAsWritten(logs: seq<AuditLog>, c: Caller, user: Id, days: int, limit: int, now: Moment)
    : (r: Result<seq<AuditLog>>)
    ensures r.Ok? <==> UserActivityEndpoint(logs, c, user, days, limit, now) == Ok([])
    ensures r.Err? && DaysInRange(days) && LimitInRange(limit) ==> r.status == INTERNAL_ERROR
  {
    ValidateRows(UserActivityEndpoint(logs, c, user, days, limit, now))
  }

  /** `get_resource_history` as written: any history at all is answered 500. */
  function ResourceHistoryAsWritten(logs: seq<AuditLog>, c: Caller, resourceType: string, resourceId: string)
    : (r: Result<seq<AuditLog>>)
    ensures r.Ok? <==> forall k :: 0 <= k < |logs| ==> !ResourceMatch(logs[k], resourceType, resourceId, ServiceScope(c))
    ensures r.Ok? ==> r.value == []
    ensures r.Err? ==> r.status == INTERNAL_ERROR
  {
    var history := ResourceHistoryEndpoint(logs, c, resourceType, resourceId);
    assert history != [] ==> history[0] in logs;
    ValidateRows(Ok(history))
  }

  /** `get_phi_access_logs` as written. */
  function PhiAccessAsWritten(logs: seq<AuditLog>, c: Caller, client: Option<string>, days: int, limit: int, now: Moment)
    : (r: Result<seq<AuditLog>>)
    ensures r.Ok? <==> PhiAccessEndpoint(logs, c, client, days, limit, now) == Ok([])
    ensures r.Err? && DaysInRange(days) && LimitInRange(limit) ==> r.status == INTERNAL_ERROR
  {
    ValidateRows(PhiAccessEndpoint(logs, c, client, days, limit, now))
  }

  /** `get_compliance_violations` as written: any matching violation makes the answer 500. */
  function ListViolationsAsWritten(violations: seq<ComplianceViolation>, c: Caller, status: Option<string>,
                                   severity: Option<string>, days: int, now: Moment): (r: Result<seq<ComplianceViolation>>)
    ensures r.Ok? <==> (DaysInRange(days)
                        && forall v :: v in violations ==> !ViolationMatches(v, c, status, severity, DaysAgo(now, days)))
    ensures r.Err? && DaysInRange(days) ==> r.status == INTERNAL_ERROR
  {
    var listed := ListViolations(violations, c, status, severity, days, now);
    assert listed.Ok? && listed.value != [] ==> listed.value[0] in violations;
    ValidateRows(listed)
  }

  /**
   * `generate_compliance_report` as written: `organization_id` of the
   * report is the caller's UUID, or None, and the response declares it
   * `str`, so every report that passes the 400 check is answered 500.
   */
  function ComplianceReportAsWritten(logs: seq<AuditLog>, violations: seq<ComplianceViolation>, c: Caller,
                                     start: Moment, end: Moment, reportType: string): (r: Result<ComplianceReport>)
    ensures r.Err?
    ensures r.status == BAD_REQUEST <==> ComplianceReportEndpoint(logs, violations, c, start, end, reportType).Err?
    ensures r.status != BAD_REQUEST ==> r == Err(INTERNAL_ERROR, RESPONSE_INVALID)
  {
    var report := ComplianceReportEndpoint(logs, violations, c, start, end, reportType);
    if report.Err? then report else Err(INTERNAL_ERROR, RESPONSE_INVALID)
  }

  /**
   * A stored row of the caller's own organization is served by the
   * intended `get_audit_log`, but the route as written answers 500.
   */
  lemma FetchedLogIsRefused(l: AuditLog, c: Caller)
    requires !IsSuperAdmin(c) && l.organizationId == c.organizationId
    ensures GetAuditLog([l], c, l.id) == Ok(l)
    ensures GetAuditLogAsWritten([l], c, l.id) == Err(INTERNAL_ERROR, RESPONSE_INVALID)
  {
    assert [l][0] == l;
  }

  /**
   * Any caller other than a super_admin without an organization is given a
   * report by the intended route; as written the same request answers 500.
   */
  lemma ReportIsRefused(logs: seq<AuditLog>, violations: seq<ComplianceViolation>, c: Caller,
                        start: Moment, end: Moment, reportType: string)
    requires !IsSuperAdmin(c) || c.organizationId.Some?
    ensures ComplianceReportEndpoint(logs, violations, c, start, end, reportType).Ok?
    ensures ComplianceReportAsWritten(logs, violations, c, start, end, reportType) == Err(INTERNAL_ERROR, RESPONSE_INVALID)
  {
  }

  /**
   * A violation of the caller's organization detected today is listed by
   * the intended route, while the route as written answers 500.
   */
  lemma ListedViolationIsRefused(v: ComplianceViolation, c: Caller, now: Moment)
    requires !IsSuperAdmin(c) && v.organizationId == c.organizationId && v.detectedAt == now
    ensures ListViolations([v], c, None, None, 1, now) == Ok([v])
    ensures ListViolationsAsWritten([v], c, None, None, 1, now) == Err(INTERNAL_ERROR, RESPONSE_INVALID)
  {
    var listed := ListViolations([v], c, None, None, 1, now);
    assert ViolationMatches(v, c, None, None, DaysAgo(now, 1));
    assert v in listed.value;
    assert [v][1..] == [];
    assert |listed.value| == 1;
    assert listed.value == [v];
  }

  // ---------------------------------------------------------------------
  // Exports
  // ---------------------------------------------------------------------

  function FormatValue(f: ExportFormat): string
  {
    match f
    case CSV => "csv"
    case JSON => "json"
    case PDF => "pdf"
  }

  const EXPORT_LIFETIME_DAYS: int := 7

  /** The export's status as reported: "completed" once a file path is recorded. */
  function ExportStatusText(e: AuditExport): (r: string)
    ensures r == "completed" <==> Truthy(e.filePath)
    ensures r == "completed" || r == "processing"
  {
    if Truthy(e.filePath) then "completed" else "processing"
  }

  datatype ExportStatusView = ExportStatusView(
    exportId: Id, status: string, recordCount: int, fileSizeBytes: Option<int>,
    createdAt: Moment, expiresAt: Option<Moment>)

  /** The position of the export with the id, if the caller's tenant holds it. */
  function FindExport(exports: seq<AuditExport>, c: Caller, id: Id): (r: Option<nat>)
    ensures r.Some? ==> r.value < |exports| && exports[r.value].id == id && InTenant(c, exports[r.value].organizationId)
    ensures r.None? ==> forall k :: 0 <= k < |exports| ==> !(exports[k].id == id && InTenant(c, exports[k].organizationId))
  {
    FirstMatch(exports, (e: AuditExport) => e.id == id && InTenant(c, e.organizationId))
  }

  /** `get_export_status`: 404 outside the tenant; otherwise "completed" exactly when a file path is set. */
  function ExportStatus(exports: seq<AuditExport>, c: Caller, id: Id): (r: Result<ExportStatusView>)
    ensures r.Err? <==> FindExport(exports, c, id).None?
    ensures r.Err? ==> r == Err(NOT_FOUND, "Export not found")
    ensures r.Ok? ==> var e := exports[FindExport(exports, c, id).value];
                      r.value.exportId == id && (r.value.status == "completed" <==> Truthy(e.filePath))
                      && r.value.recordCount == e.recordCount
  {
    var i := FindExport(exports, c, id);
    if i.None? then Err(NOT_FOUND, "Export not found")
    else
      var e := exports[i.value];
      Ok(ExportStatusView(e.id, ExportStatusText(e), e.recordCount, e.fileSizeBytes, e.createdAt, e.expiresAt))
  }

  /**
   * `download_export`: 404 outside the tenant, 400 while no file is
   * recorded, 410 once `expires_at` is before `now`; otherwise the path.
   */
  function DownloadExport(exports: seq<AuditExport>, c: Caller, id: Id, now: Moment): (r: Result<string>)
    ensures FindExport(exports, c, id).None? ==> r == Err(NOT_FOUND, "Export not found")
    ensures FindExport(exports, c, id).Some? ==>
              var e := exports[FindExport(exports, c, id).value];
              (!Truthy(e.filePath) ==> r == Err(BAD_REQUEST, "Export not yet complete"))
              && (Truthy(e.filePath) && e.expiresAt.Some? && Stamp(e.expiresAt.value) < Stamp(now) ==>
                    r == Err(GONE, "Export has expired"))
              && (r.Ok? <==> Truthy(e.filePath) && !(e.expiresAt.Some? && Stamp(e.expiresAt.value) < Stamp(now)))
              && (r.Ok? ==> r.value == e.filePath.value)
  {
    var i := FindExport(exports, c, id);
    if i.None? then Err(NOT_FOUND, "Export not found")
    else
      var e := exports[i.value];
      if !Truthy(e.filePath) then Err(BAD_REQUEST, "Export not yet complete")
      else if e.expiresAt.Some? && Stamp(e.expiresAt.value) < Stamp(now) then Err(GONE, "Export has expired")
      else Ok(e.filePath.value)
  }

  /**
   * The rows `_process_audit_export` exports: the organization's rows in
   * the requested period, narrowed by the filters' user, resource type and
   * PHI flag (its other filters are ignored).
   */
  predicate ExportMatches(l: AuditLog, req: ExportRequest, org: Option<Id>)
  {
    l.organizationId == org
    && Stamp(l.createdAt) >= Stamp(req.startDate) && Stamp(l.createdAt) <= Stamp(req.endDate)
    && (req.filters.None? || req.filters.value.userId.None? || l.userId == req.filters.value.userId)
    && (req.filters.None? || !Truthy(req.filters.value.resourceType) || l.resourceType == req.filters.value.resourceType.value)
    && (req.filters.None? || !req.filters.value.phiAccessOnly || l.phiAccessed)
  }

  /** `len(s.encode())`: the UTF-8 length of a string. */
  function Utf8Length(s: string): (r: nat)
    ensures |s| <= r <= 4 * |s|
  {
    if s == [] then 0
    else
      var c := s[0] as int;
      (if c < 0x80 then 1 else if c < 0x800 then 2 else if c < 0x10000 then 3 else 4) + Utf8Length(s[1..])
  }

  /** `f"exports/audit_{export_id}.{extension}"`. */
  function ExportPath(id: Id, extension: string): (r: string)
    ensures Truthy(Some(r))
  {
    "exports/audit_" + NatToString(id) + "." + extension
  }

  /** The export row once its file is written: path, size, count and a seven-day expiry. */
  function Completed(e: AuditExport, path: string, size: nat, count: nat, now: Moment): (r: AuditExport)
    ensures r.filePath == Some(path) && r.fileSizeBytes == Some(size) && r.recordCount == count
    ensures r.expiresAt.Some? && Stamp(r.expiresAt.value) == Stamp(now) + EXPORT_LIFETIME_DAYS * SECONDS_PER_DAY
    ensures r.id == e.id && r.organizationId == e.organizationId && r.createdAt == e.createdAt
  {
    e.(filePath := Some(path), fileSizeBytes := Some(size), recordCount := count,
       expiresAt := Some(AddSeconds(now, EXPORT_LIFETIME_DAYS * SECONDS_PER_DAY)))
  }

  /** A completed export can be downloaded until its seven days have passed, and not after. */
  lemma CompletedExportDownloadWindow(exports: seq<AuditExport>, c: Caller, i: nat, path: string, size: nat,
                                      count: nat, done: Moment, later: Moment)
    requires i < |exports| && InTenant(c, exports[i].organizationId) && path != ""
    requires forall k :: 0 <= k < |exports| ==> exports[k].id == k
    ensures var after := exports[i := Completed(exports[i], path, size, count, done)];
            ((Stamp(later) <= Stamp(done) + EXPORT_LIFETIME_DAYS * SECONDS_PER_DAY)
               ==> DownloadExport(after, c, i, later) == Ok(path))
            && ((Stamp(later) > Stamp(done) + EXPORT_LIFETIME_DAYS * SECONDS_PER_DAY)
               ==> DownloadExport(after, c, i, later) == Err(GONE, "Export has expired"))
  {
    var after := exports[i := Completed(exports[i], path, size, count, done)];
    var j := FindExport(after, c, i);
    assert after[i].id == i && InTenant(c, after[i].organizationId);
    assert j.Some? && j.value == i by {
      assert after[j.value].id == i;
    }
  }

  // ---------------------------------------------------------------------
  // CSV export
  // ---------------------------------------------------------------------

  const CSV_HEADER: seq<string> := ["ID", "Timestamp", "User ID", "Action", "Resource Type", "Resource ID",
                                    "IP Address", "User Agent", "Response Status", "Error Message", "PHI Accessed"]

  /** `str(True)` / `str(False)`. */
  function PyBool(b: bool): string
  {
    if b then "True" else "False"
  }

  /** The eleven cells `_generate_csv_export` writes for a row (`x or ""` for the optional ones). */
  function CsvCells(l: AuditLog): (r: seq<string>)
    ensures |r| == |CSV_HEADER|
    ensures r[0] == NatToString(l.id) && r[1] == DateTimeIso(l.createdAt) && r[3] == ActionValue(l.action)
    ensures r[4] == l.resourceType && r[10] == PyBool(l.phiAccessed)
    ensures l.userId.None? <==> r[2] == ""
    ensures (l.responseStatus.None? || l.responseStatus.value == 0) <==> r[8] == ""
  {
    [NatToString(l.id),
     DateTimeIso(l.createdAt),
     if l.userId.Some? then NatToString(l.userId.value) else "",
     ActionValue(l.action),
     l.resourceType,
     if Truthy(l.resourceId) then l.resourceId.value else "",
     OrEmpty(l.ipAddress),
     OrEmpty(l.userAgent),
     if l.responseStatus.Some? && l.responseStatus.value != 0 then IntToString(l.responseStatus.value) else "",
     OrEmpty(l.errorMessage),
     PyBool(l.phiAccessed)]
  }

  /** Whether the `excel` dialect quotes a cell: it holds a comma, a quote, CR or LF. */
  predicate NeedsQuoting(s: string)
  {
    exists k :: 0 <= k < |s| && (s[k] == ',' || s[k] == '"' || s[k] == '\r' || s[k] == '\n')
  }

  /** Every `"` written twice. */
  function DoubleQuotes(s: string): (r: string)
    ensures |r| >= |s|
  {
    if s == [] then "" else (if s[0] == '"' then "\"\"" else [s[0]]) + DoubleQuotes(s[1..])
  }

  /** A cell as written: quoted with inner quotes doubled when it needs quoting, as is otherwise. */
  function CsvField(s: string): (r: string)
    ensures NeedsQuoting(s) ==> |r| >= 2 && r[0] == '"' && r[|r| - 1] == '"'
    ensures !NeedsQuoting(s) ==> r == s
  {
    if NeedsQuoting(s) then "\"" + DoubleQuotes(s) + "\"" else s
  }

  /** Reading a quoted cell's body back: `""` is one quote. */
  function UndoubleQuotes(s: string): string
  {
    if |s| >= 2 && s[0] == '"' && s[1] == '"' then "\"" + UndoubleQuotes(s[2..])
    else if s == [] then ""
    else [s[0]] + UndoubleQuotes(s[1..])
  }

  /** A cell read back by a CSV reader. */
  function ReadField(f: string): string
  {
    if |f| >= 2 && f[0] == '"' && f[|f| - 1] == '"' then UndoubleQuotes(f[1..|f| - 1]) else f
  }

  lemma {:induction false} UndoubleDoubled(s: string)
    ensures UndoubleQuotes(DoubleQuotes(s)) == s
  {
    if s != [] {
      UndoubleDoubled(s[1..]);
      if s[0] == '"' {
        assert DoubleQuotes(s) == "\"\"" + DoubleQuotes(s[1..]);
      } else {
        assert DoubleQuotes(s) == [s[0]] + DoubleQuotes(s[1..]);
      }
      assert s == [s[0]] + s[1..];
    }
  }

  /** Every cell reads back as written: the quoting loses nothing. */
  lemma CsvFieldRoundTrip(s: string)
    ensures ReadField(CsvField(s)) == s
  {
    if NeedsQuoting(s) {
      var f := CsvField(s);
      assert f[1..|f| - 1] == DoubleQuotes(s);
      UndoubleDoubled(s);
    } else if |s| >= 2 && s[0] == '"' {
      assert NeedsQuoting(s);
    }
  }

  /** One record: cells joined by commas, ended by CRLF. */
  function CsvLine(cells: seq<string>): (r: string)
    ensures EndsWith(r, "\r\n")
  {
    JoinFields(cells) + "\r\n"
  }

  function JoinFields(cells: seq<string>): string
  {
    if cells == [] then ""
    else if |cells| == 1 then CsvField(cells[0])
    else CsvField(cells[0]) + "," + JoinFields(cells[1..])
  }

  /** The records of the export: the header, then one record per row, in the given order. */
  function CsvRecords(logs: seq<AuditLog>): (r: seq<seq<string>>)
    ensures |r| == |logs| + 1 && r[0] == CSV_HEADER
    ensures forall k :: 0 <= k < |logs| ==> r[k + 1] == CsvCells(logs[k])
    ensures forall k :: 0 <= k < |r| ==> |r[k]| == 11
  {
    if logs == [] then [CSV_HEADER]
    else
      var front := logs[..|logs| - 1];
      var r := CsvRecords(front) + [CsvCells(logs[|logs| - 1])];
      RecordsExtend(CsvRecords(front), front, logs, CsvCells, 11);
      r
  }

  /** Appending the record of one more row keeps every record that row's and every width `width`. */
  lemma RecordsExtend<T>(before: seq<seq<string>>, front: seq<T>, logs: seq<T>, cells: T -> seq<string>, width: nat)
    requires logs != [] && front == logs[..|logs| - 1] && |before| == |front| + 1
    requires forall k :: 0 <= k < |front| ==> before[k + 1] == cells(front[k])
    requires forall k :: 0 <= k < |before| ==> |before[k]| == width
    requires |cells(logs[|logs| - 1])| == width
    ensures var r := before + [cells(logs[|logs| - 1])];
            && (forall k :: 0 <= k < |logs| ==> r[k + 1] == cells(logs[k]))
            && (forall k :: 0 <= k < |r| ==> |r[k]| == width)
  {
    var r := before + [cells(logs[|logs| - 1])];
    forall k | 0 <= k < |logs|
      ensures r[k + 1] == cells(logs[k])
    {
      if k < |front| {
        assert front[k] == logs[k];
      }
    }
  }

  /** The text of a sequence of records. */
  function CsvText(records: seq<seq<string>>): string
  {
    if records == [] then "" else CsvText(records[..|records| - 1]) + CsvLine(records[|records| - 1])
  }

  /** `_generate_csv_export`, writing the header and then each row in a loop. */
  method GenerateCsvExport(logs: seq<AuditLog>) returns (out: string)
    ensures out == CsvText(CsvRecords(logs))
  {
    out := CsvLine(CSV_HEADER);
    assert CsvRecords([]) == [CSV_HEADER];
    assert CsvText([CSV_HEADER]) == CsvText([]) + CsvLine(CSV_HEADER);
    var i := 0;
    while i < |logs|
      invariant 0 <= i <= |logs|
      invariant out == CsvText(CsvRecords(logs[..i]))
    {
      CsvTextStep(logs, i);
      out := out + CsvLine(CsvCells(logs[i]));
      i := i + 1;
    }
    assert logs[..i] == logs;
  }

  /** One more row adds its record's line to the text. */
  lemma CsvTextStep(logs: seq<AuditLog>, i: nat)
    requires i < |logs|
    ensures CsvText(CsvRecords(logs[..i + 1])) == CsvText(CsvRecords(logs[..i])) + CsvLine(CsvCells(logs[i]))
  {
    var longer := logs[..i + 1];
    assert longer[..|longer| - 1] == logs[..i] && longer[|longer| - 1] == logs[i];
    var records := CsvRecords(longer);
    assert records == CsvRecords(logs[..i]) + [CsvCells(logs[i])];
    assert records[..|records| - 1] == CsvRecords(logs[..i]);
  }

  // ---------------------------------------------------------------------
  // Settings
  // ---------------------------------------------------------------------

  function Pick<T>(update: Option<T>, current: T): T
  {
    if update.Some? then update.value else current
  }

  /**
   * `setattr` for each field of the update that was sent (`exclude_unset`),
   * then `updated_at = now`.
   */
  function ApplySettingsUpdate(s: AuditSetting, u: SettingsUpdate, now: Moment): (r: AuditSetting)
    ensures r.organizationId == s.organizationId && r.updatedAt == Some(now)
    ensures u.retentionDays.None? ==> r.retentionDays == s.retentionDays
    ensures u.retentionDays.Some? ==> r.retentionDays == u.retentionDays.value
    ensures u.samplingRate.None? ==> r.samplingRate == s.samplingRate
    ensures u.samplingRate.Some? ==> r.samplingRate == u.samplingRate.value
    ensures u.alertEmailAddresses.None? ==> r.alertEmailAddresses == s.alertEmailAddresses
    ensures u.logReadOperations.None? ==> r.logReadOperations == s.logReadOperations
    ensures u.maskSensitiveData.None? ==> r.maskSensitiveData == s.maskSensitiveData
  {
    AuditSetting(
      s.organizationId,
      Pick(u.retentionDays, s.retentionDays),
      Pick(u.archiveAfterDays, s.archiveAfterDays),
      Pick(u.enableAsyncLogging, s.enableAsyncLogging),
      Pick(u.batchSize, s.batchSize),
      Pick(u.samplingRate, s.samplingRate),
      Pick(u.alertOnPhiAccess, s.alertOnPhiAccess),
      Pick(u.alertOnBreach, s.alertOnBreach),
      Pick(u.alertOnFailedLogin, s.alertOnFailedLogin),
      Pick(u.alertEmailAddresses, s.alertEmailAddresses),
      Pick(u.requireConsentVerification, s.requireConsentVerification),
      Pick(u.maskSensitiveData, s.maskSensitiveData),
      Pick(u.enableIntegrityCheck, s.enableIntegrityCheck),
      Pick(u.logReadOperations, s.logReadOperations),
      Pick(u.logAdministrativeActions, s.logAdministrativeActions),
      Pick(u.logApiResponses, s.logApiResponses),
      Some(now))
  }

  /** An update the request schema accepts keeps the table's check constraints. */
  lemma ValidUpdateKeepsConstraints(s: AuditSetting, u: SettingsUpdate, now: Moment)
    requires SettingConstraints(s) && SettingsUpdateValid(u)
    ensures SettingConstraints(ApplySettingsUpdate(s, u, now))
  {
  }

  /** An update that sends no field changes nothing but the timestamp. */
  lemma EmptySettingsUpdate(s: AuditSetting, now: Moment)
    ensures var none := SettingsUpdate(None, None, None, None, None, None, None, None, None, None, None, None, None, None, None);
            ApplySettingsUpdate(s, none, now) == s.(updatedAt := Some(now))
  {
  }

  // ---------------------------------------------------------------------
  // The tables the handlers change
  // ---------------------------------------------------------------------

  /** The created export as `export_audit_logs` reports it. */
  datatype ExportCreated = ExportCreated(exportId: Id, status: string, message: string, createdAt: Moment)

  class AuditTables {
    var logs: seq<AuditLog>
    var violations: seq<ComplianceViolation>
    var exports: seq<AuditExport>
    var settings: seq<AuditSetting>

    /**
     * Exports are numbered by position, at most one settings row per
     * organization, and every settings row meets the check constraints.
     */
    ghost predicate Valid()
      reads this
    {
      (forall k :: 0 <= k < |exports| ==> exports[k].id == k)
      && OneSettingPerOrganization(settings)
      && (forall k :: 0 <= k < |settings| ==> SettingConstraints(settings[k]))
    }

    constructor(logs: seq<AuditLog>, violations: seq<ComplianceViolation>)
      ensures Valid() && this.logs == logs && this.violations == violations
      ensures exports == [] && settings == []
    {
      this.logs := logs;
      this.violations := violations;
      this.exports := [];
      this.settings := [];
    }

    /**
     * `acknowledge_violation` (a violation's id is its position): 404 when
     * the caller's tenant holds no such violation; otherwise only that row
     * changes, to its acknowledged form.
     */
    method AcknowledgeViolation(c: Caller, id: nat, notes: string, now: Moment) returns (r: Result<string>)
      modifies this`violations
      ensures r.Err? <==> !(id < |old(violations)| && InTenant(c, old(violations)[id].organizationId))
      ensures r.Err? ==> r == Err(NOT_FOUND, "Violation not found") && violations == old(violations)
      ensures r.Ok? ==> violations == old(violations)[id := Acknowledged(old(violations)[id], c.id, notes, now)]
    {
      if !(id < |violations| && InTenant(c, violations[id].organizationId)) {
        return Err(NOT_FOUND, "Violation not found");
      }
      violations := violations[id := Acknowledged(violations[id], c.id, notes, now)];
      r := Ok("Violation acknowledged successfully");
    }

    /**
     * `get_audit_settings`: 400 for a super_admin without an organization;
     * otherwise the organization's row, created with every default when
     * there is none.
     */
    method GetAuditSettings(c: Caller, now: Moment) returns (r: Result<AuditSetting>)
      requires Valid()
      modifies this`settings
      ensures Valid()
      ensures r.Err? <==> IsSuperAdmin(c) && c.organizationId.None?
      ensures r.Err? ==> r == Err(BAD_REQUEST, "Organization context required") && settings == old(settings)
      ensures r.Ok? ==> r.value.organizationId == c.organizationId && r.value in settings
      ensures r.Ok? && SettingsFor(old(settings), c.organizationId).Some? ==>
                settings == old(settings) && r == Ok(SettingsFor(old(settings), c.organizationId).value)
      ensures r.Ok? && SettingsFor(old(settings), c.organizationId).None? ==>
                settings == old(settings) + [r.value] && r.value == DefaultAuditSetting(c.organizationId).(updatedAt := Some(now))
    {
      if IsSuperAdmin(c) && c.organizationId.None? {
        return Err(BAD_REQUEST, "Organization context required");
      }
      var existing := SettingsFor(settings, c.organizationId);
      if existing.Some? {
        return Ok(existing.value);
      }
      var row := DefaultAuditSetting(c.organizationId).(updatedAt := Some(now));
      settings := settings + [row];
      r := Ok(row);
    }

    /**
     * `update_audit_settings`: as for the read, a missing row is first
     * created with the defaults; then only the fields sent change, and the
     * row keeps the check constraints.
     */
    method UpdateAuditSettings(c: Caller, u: SettingsUpdate, now: Moment) returns (r: Result<AuditSetting>)
      requires Valid() && SettingsUpdateValid(u)
      modifies this`settings
      ensures Valid()
      ensures r.Err? <==> IsSuperAdmin(c) && c.organizationId.None?
      ensures r.Err? ==> r == Err(BAD_REQUEST, "Organization context required") && settings == old(settings)
      ensures r.Ok? ==> |settings| >= |old(settings)| && r.value in settings && SettingConstraints(r.value)
      ensures r.Ok? ==> r.value == ApplySettingsUpdate(
                          if SettingsFor(old(settings), c.organizationId).Some?
                          then SettingsFor(old(settings), c.organizationId).value
                          else DefaultAuditSetting(c.organizationId), u, now)
      ensures r.Ok? ==> forall k :: 0 <= k < |old(settings)| && old(settings)[k].organizationId != c.organizationId ==>
                          settings[k] == old(settings)[k]
      ensures r.Ok? && SettingsFor(old(settings), c.organizationId).None? ==> settings == old(settings) + [r.value]
      ensures r.Ok? && SettingsFor(old(settings), c.organizationId).Some? ==>
                |settings| == |old(settings)|
                && forall k :: 0 <= k < |settings| && settings[k] != old(settings)[k] ==>
                     settings[k] == r.value && old(settings)[k] == SettingsFor(old(settings), c.organizationId).value
    {
      if IsSuperAdmin(c) && c.organizationId.None? {
        return Err(BAD_REQUEST, "Organization context required");
      }
      var i := FirstMatch(settings, (s: AuditSetting) => s.organizationId == c.organizationId);
      var current := if i.Some? then settings[i.value] else DefaultAuditSetting(c.organizationId);
      SettingsForIsFirstMatch(settings, c.organizationId);
      var row := ApplySettingsUpdate(current, u, now);
      ValidUpdateKeepsConstraints(current, u, now);
      if i.Some? {
        settings := settings[i.value := row];
        assert settings[i.value] == row;
      } else {
        settings := settings + [row];
      }
      r := Ok(row);
    }

    /**
     * `get_audit_settings` as written: a missing row is still created with
     * the defaults and committed, but `AuditSettingsResponse` declares `id`
     * and `organization_id` as `str`, so the answer is 500.
     */
    method GetAuditSettingsAsWritten(c: Caller, now: Moment) returns (r: Result<AuditSetting>)
      requires Valid()
      modifies this`settings
      ensures Valid()
      ensures r.Err?
      ensures r.status == BAD_REQUEST <==> IsSuperAdmin(c) && c.organizationId.None?
      ensures r.status != BAD_REQUEST ==> r == Err(INTERNAL_ERROR, RESPONSE_INVALID)
      ensures r.status == BAD_REQUEST || SettingsFor(old(settings), c.organizationId).Some? ==> settings == old(settings)
      ensures r.status != BAD_REQUEST && SettingsFor(old(settings), c.organizationId).None? ==>
                settings == old(settings) + [DefaultAuditSetting(c.organizationId).(updatedAt := Some(now))]
    {
      var intended := GetAuditSettings(c, now);
      if intended.Ok? {
        r := Err(INTERNAL_ERROR, RESPONSE_INVALID);
      } else {
        r := intended;
      }
    }

    /**
     * `update_audit_settings` as written: the update is committed exactly as
     * the intended route commits it, and the answer is then 500 for the same
     * reason as the read.
     */
    method UpdateAuditSettingsAsWritten(c: Caller, u: SettingsUpdate, now: Moment) returns (r: Result<AuditSetting>)
      requires Valid() && SettingsUpdateValid(u)
      modifies this`settings
      ensures Valid()
      ensures r.Err?
      ensures r.status == BAD_REQUEST <==> IsSuperAdmin(c) && c.organizationId.None?
      ensures r.status == BAD_REQUEST ==> settings == old(settings)
      ensures r.status != BAD_REQUEST ==> r == Err(INTERNAL_ERROR, RESPONSE_INVALID)
      ensures r.status != BAD_REQUEST && SettingsFor(old(settings), c.organizationId).None? ==>
                settings == old(settings) + [ApplySettingsUpdate(DefaultAuditSetting(c.organizationId), u, now)]
      ensures r.status != BAD_REQUEST && SettingsFor(old(settings), c.organizationId).Some? ==>
                var row := ApplySettingsUpdate(SettingsFor(old(settings), c.organizationId).value, u, now);
                |settings| == |old(settings)| && row in settings
                && forall k :: 0 <= k < |settings| && settings[k] != old(settings)[k] ==>
                     settings[k] == row && old(settings)[k] == SettingsFor(old(settings), c.organizationId).value
    {
      var intended := UpdateAuditSettings(c, u, now);
      if intended.Ok? {
        r := Err(INTERNAL_ERROR, RESPONSE_INVALID);
      } else {
        r := intended;
      }
    }

    /** `export_audit_logs`: a new export row with no records yet, reported as "processing". */
    method CreateExport(c: Caller, req: ExportRequest, now: Moment) returns (r: ExportCreated)
      requires Valid()
      modifies this`exports
      ensures Valid()
      ensures exports == old(exports) + [AuditExport(|old(exports)|, c.organizationId, c.id, FormatValue(req.format),
                                                     req.startDate, req.endDate, 0, None, None, req.purpose,
                                                     req.authorizedBy, req.auditReference, now, None)]
      ensures r.exportId == |old(exports)| && r.status == "processing" && r.createdAt == now
      ensures ExportStatusText(exports[r.exportId]) == r.status
    {
      var row := AuditExport(|exports|, c.organizationId, c.id, FormatValue(req.format), req.startDate, req.endDate,
                             0, None, None, req.purpose, req.authorizedBy, req.auditReference, now, None);
      exports := exports + [row];
      r := ExportCreated(row.id, "processing", "Export initiated. You will be notified when complete.", now);
    }

    /**
     * `_process_audit_export`: the matching rows, oldest first, rendered as
     * CSV (or by `renderJson` for JSON); the export row then records the
     * path, the UTF-8 size, the number of rows and an expiry seven days
     * after `now`. A PDF request raises and changes nothing; so does an id
     * with no export row. The handler's `logger.error` names no logger of
     * that module, so the background task ends with a NameError rather than
     * a log line.
     */
    method ProcessAuditExport(id: Id, req: ExportRequest, org: Option<Id>, now: Moment,
                              renderJson: seq<AuditLog> -> string)
      requires Valid()
      modifies this`exports
      ensures Valid()
      ensures req.format == PDF || id >= |old(exports)| ==> exports == old(exports)
      ensures req.format != PDF && id < |old(exports)| ==>
                var matched := SelectAsc(logs, l => ExportMatches(l, req, org), CreatedKey);
                var content := if req.format == CSV then CsvText(CsvRecords(matched)) else renderJson(matched);
                exports == old(exports)[id := Completed(old(exports)[id], ExportPath(id, FormatValue(req.format)),
                                                        Utf8Length(content), Count(logs, l => ExportMatches(l, req, org)),
                                                        now)]
    {
      var matched := SelectAsc(logs, l => ExportMatches(l, req, org), CreatedKey);
      var content: string;
      if req.format == CSV {
        content := GenerateCsvExport(matched);
      } else if req.format == JSON {
        content := renderJson(matched);
      } else {
        return;
      }
      if id < |exports| {
        var path := ExportPath(id, FormatValue(req.format));
        exports := exports[id := Completed(exports[id], path, Utf8Length(content), |matched|, now)];
      }
    }
  }

  /** The row `_get_audit_settings`-style lookup finds is the first row of the organization. */
  lemma SettingsForIsFirstMatch(settings: seq<AuditSetting>, org: Option<Id>)
    ensures var i := FirstMatch(settings, (s: AuditSetting) => s.organizationId == org);
            (i.Some? <==> SettingsFor(settings, org).Some?)
            && (i.Some? ==> SettingsFor(settings, org).value == settings[i.value])
  {
    if settings != [] {
      SettingsForIsFirstMatch(settings[1..], org);
    }
  }
}
