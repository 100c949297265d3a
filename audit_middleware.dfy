/**
 * Request-level auditing: path exclusion, client-IP extraction, the
 * URL-path parser that names the resource, the HTTP-method map, the log
 * entry written for each request, and the function-level audit wrapper.
 */
module AuditMiddleware {
  import opened Common
  import opened AuditLogModel
  import opened AuditService
  import opened AuditSessionStore

  /** The paths that are passed through without an audit entry unless others are configured. */
  const DEFAULT_EXCLUDE_PATHS: seq<string> := ["/docs", "/openapi.json", "/health", "/favicon.ico", "/api/v1/audit/logs"]

  /** `exclude_paths or [...]`: an absent or empty list falls back to the defaults. */
  function ExcludePaths(configured: Option<seq<string>>): (r: seq<string>)
    ensures configured.Some? && configured.value != [] ==> r == configured.value
    ensures configured.None? || configured.value == [] ==> r == DEFAULT_EXCLUDE_PATHS
  {
    if configured.Some? && configured.value != [] then configured.value else DEFAULT_EXCLUDE_PATHS
  }

  /** `any(path.startswith(p) for p in exclude_paths)`. */
  predicate Excluded(path: string, excludes: seq<string>)
  {
    exists k :: 0 <= k < |excludes| && StartsWith(path, excludes[k])
  }

  /** The audit log listing is never audited by the default middleware, so reading the log does not grow it. */
  lemma AuditListingIsExcluded(suffix: string)
    ensures Excluded("/api/v1/audit/logs" + suffix, DEFAULT_EXCLUDE_PATHS)
  {
    var p := "/api/v1/audit/logs" + suffix;
    assert p[..|DEFAULT_EXCLUDE_PATHS[4]|] == DEFAULT_EXCLUDE_PATHS[4];
  }

  /**
   * `_get_client_ip`: the first element of a non-empty X-Forwarded-For,
   * stripped; else a non-empty X-Real-IP; else the client host; else
   * "unknown".
   */
  function ClientIp(forwardedFor: Option<string>, realIp: Option<string>, clientHost: Option<string>): (r: string)
    ensures Truthy(forwardedFor) ==> r == Strip(Split(forwardedFor.value, ',')[0])
    ensures !Truthy(forwardedFor) && Truthy(realIp) ==> r == realIp.value
    ensures !Truthy(forwardedFor) && !Truthy(realIp) ==> r == (if clientHost.Some? then clientHost.value else "unknown")
  {
    if Truthy(forwardedFor) then Strip(Split(forwardedFor.value, ',')[0])
    else if Truthy(realIp) then realIp.value
    else if clientHost.Some? then clientHost.value
    else "unknown"
  }

  /** The forwarded chain's first hop is reported without its surrounding spaces and never contains a comma. */
  lemma ForwardedIpHasNoComma(forwardedFor: string, realIp: Option<string>, clientHost: Option<string>)
    requires forwardedFor != ""
    ensures ',' !in ClientIp(Some(forwardedFor), realIp, clientHost)
  {
    var first := Split(forwardedFor, ',')[0];
    SplitFirstHasNoSep(forwardedFor, ',');
    StripIsSlice(first);
  }

  lemma {:induction false} SplitFirstHasNoSep(s: string, sep: char)
    ensures sep !in Split(s, sep)[0]
  {
    var parts := Split(s, sep);
    if s != [] && s[0] != sep {
      SplitFirstHasNoSep(s[1..], sep);
    }
  }

  lemma StripIsSlice(s: string)
    ensures forall c :: c in Strip(s) ==> c in s
  {
    TrimIsSlice(s);
  }

  lemma TrimIsSlice(s: string)
    ensures forall c :: c in TrimLeft(s) ==> c in s
    ensures forall c :: c in TrimRight(s) ==> c in s
    ensures forall c :: c in TrimRight(TrimLeft(s)) ==> c in s
    ensures forall c :: c in TrimLeft(TrimRight(s)) ==> c in s
  {
  }

  /** `action_map.get(method, READ)`. */
  function ActionForMethod(httpMethod: string): (r: AuditAction)
    ensures httpMethod == "GET" ==> r == READ
    ensures httpMethod == "POST" ==> r == CREATE
    ensures httpMethod == "PUT" || httpMethod == "PATCH" ==> r == UPDATE
    ensures httpMethod == "DELETE" ==> r == DELETE
    ensures httpMethod !in ["GET", "POST", "PUT", "PATCH", "DELETE"] ==> r == READ
  {
    if httpMethod == "GET" then READ
    else if httpMethod == "POST" then CREATE
    else if httpMethod == "PUT" || httpMethod == "PATCH" then UPDATE
    else if httpMethod == "DELETE" then DELETE
    else READ
  }

  /** Only the four writing methods are ever logged as something other than a read. */
  lemma OnlyWritesAreNotReads(httpMethod: string)
    ensures ActionForMethod(httpMethod) != READ <==> httpMethod in ["POST", "PUT", "PATCH", "DELETE"]
  {
  }

  /** The path segments that are not empty, in order. */
  function PathParts(path: string): (r: seq<string>)
    ensures forall k :: 0 <= k < |r| ==> r[k] != "" && '/' !in r[k]
  {
    var parts := Split(path, '/');
    SplitPartsHaveNoSep(path, '/');
    Filter(parts, (p: string) => p != "")
  }

  lemma {:induction false} SplitPartsHaveNoSep(s: string, sep: char)
    ensures forall k :: 0 <= k < |Split(s, sep)| ==> sep !in Split(s, sep)[k]
  {
    if s != [] {
      SplitPartsHaveNoSep(s[1..], sep);
    }
  }

  /** A path segment that looks like a UUID: 36 characters, four of them '-'. */
  predicate LooksLikeUuid(s: string)
  {
    |s| == 36 && CountChar(s, '-') == 4
  }

  /** The segments that `resource_type_map` renames. */
  const RENAMED_SEGMENTS: seq<string> :=
    ["auth", "users", "clients", "staff", "vitals", "medications", "appointments", "schedules", "incidents", "billing", "reports"]

  /** `resource_type_map.get(t, t)`. */
  function MapResourceType(t: string): (r: string)
    ensures t !in RENAMED_SEGMENTS ==> r == t
    ensures t == "auth" ==> r == "authentication"
    ensures t == "users" ==> r == "user"
    ensures t == "clients" ==> r == "client"
    ensures t == "medications" ==> r == "medication"
    ensures t == "appointments" ==> r == "appointment"
    ensures t == "schedules" ==> r == "schedule"
    ensures t == "incidents" ==> r == "incident_report"
    ensures t == "reports" ==> r == "report"
    ensures t in ["staff", "vitals", "billing"] ==> r == t
  {
    if t == "auth" then "authentication"
    else if t == "users" then "user"
    else if t == "clients" then "client"
    else if t == "medications" then "medication"
    else if t == "appointments" then "appointment"
    else if t == "schedules" then "schedule"
    else if t == "incidents" then "incident_report"
    else if t == "reports" then "report"
    else t
  }

  /** The first of the name fields that is a key of a dict body, shown with `str()`. */
  const BODY_NAME_FIELDS: seq<string> := ["name", "title", "full_name", "email", "username"]

  function FirstPresentName(body: Dict, fields: seq<string>): (r: Option<string>)
    ensures r.None? <==> forall k :: 0 <= k < |fields| ==> !HasKey(body, fields[k])
    ensures r.Some? ==> exists k :: 0 <= k < |fields| && HasKey(body, fields[k]) && r.value == Str(Get(body, fields[k]))
  {
    if fields == [] then None
    else if HasKey(body, fields[0]) then Some(Str(Get(body, fields[0])))
    else
      var r := FirstPresentName(body, fields[1..]);
      assert forall k :: 1 <= k < |fields| ==> fields[k] == fields[1..][k - 1];
      r
  }

  /** The resource that a request path names. */
  datatype ResourceInfo = ResourceInfo(resourceType: string, resourceId: Option<string>, resourceName: Option<string>)

  /** The path segments after a leading "api", "v1" pair, which is dropped only when both are present. */
  function ApiRelative(parts: seq<string>): (r: seq<string>)
    ensures |parts| >= 2 && parts[0] == "api" && parts[1] == "v1" ==> r == parts[2..]
    ensures !(|parts| >= 2 && parts[0] == "api" && parts[1] == "v1") ==> r == parts
  {
    if |parts| >= 2 && parts[0] == "api" && parts[1] == "v1" then parts[2..] else parts
  }

  /** The specification of `_extract_resource_info`. */
  function ResourceOf(path: string, body: Option<Value>): (r: ResourceInfo)
    ensures ApiRelative(PathParts(path)) == [] ==> r == ResourceInfo("unknown", None, None)
    ensures var parts := ApiRelative(PathParts(path));
      parts != [] ==> r.resourceType == MapResourceType(parts[0])
    ensures var parts := ApiRelative(PathParts(path));
      r.resourceId.Some? <==> |parts| >= 2 && LooksLikeUuid(parts[1])
    ensures r.resourceId.Some? ==> LooksLikeUuid(r.resourceId.value)
    ensures r.resourceName.Some? ==> ApiRelative(PathParts(path)) != [] && body.Some? && body.value.VDict?
  {
    var parts := ApiRelative(PathParts(path));
    if parts == [] then ResourceInfo("unknown", None, None)
    else
      var id := if |parts| >= 2 && LooksLikeUuid(parts[1]) then Some(parts[1]) else None;
      var name := if body.Some? && body.value.VDict? && body.value.entries != []
                  then FirstPresentName(body.value.entries, BODY_NAME_FIELDS) else None;
      ResourceInfo(MapResourceType(parts[0]), id, name)
  }

  /**
   * `_extract_resource_info`: splits the path, drops the "api"/"v1" prefix,
   * takes the first segment as the type and a UUID-shaped second segment as
   * the id, scans the body for a name field, then renames the type.
   */
  method ExtractResourceInfo(path: string, body: Option<Value>) returns (info: ResourceInfo)
    ensures info == ResourceOf(path, body)
  {
    var resourceType := "unknown";
    var resourceId: Option<string> := None;
    var resourceName: Option<string> := None;
    var pathParts := PathParts(path);
    if |pathParts| >= 2 && pathParts[0] == "api" && pathParts[1] == "v1" {
      pathParts := pathParts[2..];
    }
    if pathParts != [] {
      resourceType := pathParts[0];
      if |pathParts| >= 2 {
        var potentialId := pathParts[1];
        if |potentialId| == 36 && CountChar(potentialId, '-') == 4 {
          resourceId := Some(potentialId);
        }
      }
      if body.Some? && body.value.VDict? && body.value.entries != [] {
        resourceName := FindBodyName(body.value.entries);
      }
    }
    resourceType := MapResourceType(resourceType);
    info := ResourceInfo(resourceType, resourceId, resourceName);
  }

  /** The loop over the name fields, stopping at the first key the body has. */
  method FindBodyName(entries: Dict) returns (name: Option<string>)
    ensures name == FirstPresentName(entries, BODY_NAME_FIELDS)
  {
    name := None;
    var i := 0;
    while i < |BODY_NAME_FIELDS|
      invariant 0 <= i <= |BODY_NAME_FIELDS|
      invariant name.None?
      invariant FirstPresentName(entries, BODY_NAME_FIELDS) == FirstPresentName(entries, BODY_NAME_FIELDS[i..])
    {
      if HasKey(entries, BODY_NAME_FIELDS[i]) {
        name := Some(Str(Get(entries, BODY_NAME_FIELDS[i])));
        return;
      }
      assert BODY_NAME_FIELDS[i..][1..] == BODY_NAME_FIELDS[i + 1..];
      i := i + 1;
    }
  }

  /** A versioned path to an entity names the mapped type and the entity's UUID. */
  lemma VersionedEntityPath(segment: string, id: string, rest: seq<string>, body: Option<Value>)
    requires segment != "" && id != "" && LooksLikeUuid(id)
    requires ApiRelative(PathParts("/api/v1/" + segment + "/" + id)) == [segment, id]
    ensures ResourceOf("/api/v1/" + segment + "/" + id, body).resourceType == MapResourceType(segment)
    ensures ResourceOf("/api/v1/" + segment + "/" + id, body).resourceId == Some(id)
  {
  }

  /** The two renamings that make request logs of clients and vitals PHI. */
  lemma PhiSegmentsMapToPhiTypes()
    ensures MapResourceType("clients") == "client" && MapResourceType("vitals") == "vitals"
    ensures MapResourceType("incidents") == "incident_report" && MapResourceType("medications") == "medication"
    ensures ClassifyData(MapResourceType("clients"), None, None) == PHI
    ensures ClassifyData(MapResourceType("users"), None, None) == PII
  {
  }

  /** The text of `error_message`, set exactly when the status is 400 or more. */
  function ErrorMessageFor(status: int): (r: Option<string>)
    ensures r.Some? <==> status >= 400
    ensures r.Some? ==> r.value == "HTTP " + IntToString(status) + " error"
  {
    if status >= 400 then Some("HTTP " + IntToString(status) + " error") else None
  }

  /** The longest text body that is kept when it is not JSON. */
  const MAX_TEXT_BODY: nat := 1000

  /**
   * The body captured by `_extract_request_info`: only for POST, PUT, PATCH
   * and DELETE, only when non-empty; the decoded JSON when it parses
   * (`parsed`, from the JSON decoder), else the text cut to 1000 characters.
   */
  function CapturedBody(httpMethod: string, raw: string, parsed: Option<Value>): (r: Option<Value>)
    ensures httpMethod !in ["POST", "PUT", "PATCH", "DELETE"] || raw == "" ==> r.None?
    ensures r.Some? && parsed.None? ==> r.value.VStr? && |r.value.s| <= MAX_TEXT_BODY && StartsWith(raw, r.value.s)
    ensures r.Some? && parsed.Some? ==> r == parsed
  {
    if httpMethod !in ["POST", "PUT", "PATCH", "DELETE"] || raw == "" then None
    else if parsed.Some? then parsed
    else Some(VStr(if |raw| <= MAX_TEXT_BODY then raw else raw[..MAX_TEXT_BODY]))
  }

  /** What the middleware knows about one request and its response. */
  datatype RequestRecord = RequestRecord(
    httpMethod: string,
    path: string,
    body: Option<Value>,
    userId: Option<Id>,
    organizationId: Option<Id>,
    clientIp: string,
    userAgent: Option<string>,
    requestId: string,
    status: int,
    durationMs: int)

  /** The `log_action` call of `_log_audit_event`: the captured body, whatever its type, except for reads. */
  function MiddlewareRequest(rec: RequestRecord): (r: LogRequest)
    ensures r.action == ActionForMethod(rec.httpMethod)
    ensures r.resourceType == ResourceOf(rec.path, rec.body).resourceType
    ensures r.resourceId == ResourceOf(rec.path, rec.body).resourceId
    ensures r.errorMessage.Some? <==> rec.status >= 400
    ensures r.responseStatus == Some(rec.status) && r.oldValues.None?
    ensures r.action == READ ==> r.newValues.None?
    ensures r.action != READ ==> r.newValues == rec.body
  {
    var action := ActionForMethod(rec.httpMethod);
    var info := ResourceOf(rec.path, rec.body);
    var newValues := if action != READ then rec.body else None;
    LogRequest(action, info.resourceType, rec.userId, rec.organizationId, info.resourceId, info.resourceName,
               None, newValues, Some(rec.clientIp), rec.userAgent, None, Some(rec.requestId), Some(rec.httpMethod),
               Some(rec.path), Some(rec.status), Some(rec.durationMs), ErrorMessageFor(rec.status), None)
  }

  /**
   * `AuditMiddleware.dispatch` followed by `_log_audit_event`: an excluded
   * path leaves the audit tables alone; any other request goes through
   * `log_action`, and closing the session drops what it left uncommitted.
   */
  method Dispatch(store: AuditStore, excludes: seq<string>, rec: RequestRecord, now: Moment)
    returns (r: Option<AuditLog>)
    requires store.Valid()
    modifies store`logs, store`violations, store`pending, store`drawn
    ensures store.Valid()
    ensures Excluded(rec.path, excludes) ==> r.None? && store.Tables() == old(store.Tables())
    ensures !Excluded(rec.path, excludes) ==>
      var (e, t) := LogActionSpec(MiddlewareRequest(rec), now, store.settings, store.random, old(store.Tables()));
      r == e && store.Tables() == t.(pending := [])
  {
    if exists k :: 0 <= k < |excludes| && StartsWith(rec.path, excludes[k]) {
      return None;
    }
    r := store.LogAction(MiddlewareRequest(rec), now);
    store.Close();
  }

  /**
   * The tokens this system signs carry `sub`, `exp` and `type` and no
   * `organization_id`, so `payload.get("organization_id")` gives None for
   * every request the middleware sees. For such a request no sampling or
   * read setting applies (it is always logged), its data is always
   * masked, its row has no organization and no organization alert is sent.
   */
  lemma OrganizationlessRequest(rec: RequestRecord, settings: seq<AuditSetting>, draw: int, now: Moment, id: Id)
    requires rec.organizationId.None?
    ensures ShouldLog(MiddlewareRequest(rec).organizationId, MiddlewareRequest(rec).action, settings, draw)
    ensures ShouldMaskData(MiddlewareRequest(rec).organizationId, settings)
    ensures BuildLog(MiddlewareRequest(rec), settings, now, id).organizationId.None?
    ensures AlertsFor(BuildLog(MiddlewareRequest(rec), settings, now, id), settings) == (false, false)
  {
  }

  /**
   * A non-empty text body (one that did not parse as JSON) of a request
   * that is not a read, for an organization whose settings mask data, makes
   * `_mask_sensitive_data` raise: `log_action` rolls back and the request
   * leaves no audit row.
   */
  lemma TextBodyIsNotAudited(rec: RequestRecord, text: string, now: Moment, settings: seq<AuditSetting>,
                             random: nat -> int, s: Session)
    requires Consistent(s)
    requires rec.body == Some(VStr(text)) && text != "" && ActionForMethod(rec.httpMethod) != READ
    requires ShouldMaskData(rec.organizationId, settings)
    ensures !Processable(MiddlewareRequest(rec), settings)
    ensures var (e, t) := LogActionSpec(MiddlewareRequest(rec), now, settings, random, s);
      e.None? && t.logs == s.logs && t.violations == s.violations
  {
    TextIsNotMaskable(text);
    LogActionOutcome(MiddlewareRequest(rec), now, settings, random, s);
  }

  /**
   * A JSON list body without sensitive field names among its items is
   * written to the row unchanged, masked or not.
   */
  lemma ListBodyStoredAsIs(rec: RequestRecord, items: seq<Value>, settings: seq<AuditSetting>, now: Moment, id: Id)
    requires rec.body == Some(VList(items)) && ActionForMethod(rec.httpMethod) != READ
    requires JsonCompatible(VList(items)) && forall k :: 0 <= k < |items| ==> !SensitiveName(items[k])
    ensures Processable(MiddlewareRequest(rec), settings)
    ensures BuildLog(MiddlewareRequest(rec), settings, now, id).newValues == Some(VList(items))
  {
    PlainListMasksToItself(items);
    SerializeFixesJson(VList(items));
  }

  /** The longest argument text that the wrapper records. */
  const MAX_ARGS_TEXT: nat := 500

  /**
   * The `log_action` call of the function wrapper: the function name and
   * its arguments (cut to 500 characters), status 500 when the exception
   * message is non-empty and 200 otherwise.
   */
  function WrapperRequest(action: AuditAction, resourceType: string, userId: Option<Id>, resourceId: Option<string>,
                          functionName: string, argsText: string, durationMs: int, error: Option<string>): (r: LogRequest)
    ensures r.responseStatus == Some(if Truthy(error) then 500 else 200)
    ensures r.errorMessage == error && r.action == action && r.organizationId.None?
    ensures r.newValues.Some? && r.newValues.value.VDict? && |r.newValues.value.entries| == 2
    ensures r.newValues.value.entries[0] == ("function", VStr(functionName))
    ensures r.newValues.value.entries[1].0 == "args" && r.newValues.value.entries[1].1.VStr?
    ensures |r.newValues.value.entries[1].1.s| <= MAX_ARGS_TEXT && StartsWith(argsText, r.newValues.value.entries[1].1.s)
  {
    var shown := if |argsText| <= MAX_ARGS_TEXT then argsText else argsText[..MAX_ARGS_TEXT];
    LogRequest(action, resourceType, userId, None, resourceId, None, None,
               Some(VDict([("function", VStr(functionName)), ("args", VStr(shown))])),
               None, None, None, None, None, None, Some(if Truthy(error) then 500 else 200), Some(durationMs), error, None)
  }

  /** The wrapped function's outcome: its value, or the message of the exception it raised. */
  datatype Outcome = Returned(value: Value) | Raised(message: string)

  /**
   * The wrapper of `audit_decorator`: logs the call, then returns the
   * function's value or re-raises its exception unchanged.
   */
  method AuditedCall(store: AuditStore, action: AuditAction, resourceType: string, userId: Option<Id>,
                     resourceId: Option<string>, functionName: string, argsText: string, durationMs: int,
                     outcome: Outcome, now: Moment) returns (r: Outcome)
    requires store.Valid()
    modifies store`logs, store`violations, store`pending, store`drawn
    ensures store.Valid()
    ensures r == outcome
    ensures old(store.logs) <= store.logs && old(store.violations) <= store.violations && store.pending == []
    ensures |store.logs| > |old(store.logs)| ==>
      store.logs[|old(store.logs)|].responseStatus == Some(if outcome.Raised? && outcome.message != "" then 500 else 200)
  {
    ghost var s0 := store.Tables();
    var error := if outcome.Raised? then Some(outcome.message) else None;
    var req := WrapperRequest(action, resourceType, userId, resourceId, functionName, argsText, durationMs, error);
    var logged := store.LogAction(req, now);
    LogActionOutcome(req, now, store.settings, store.random, s0);
    LogActionWrites(req, now, store.settings, store.random, s0);
    store.Close();
    r := outcome;
  }
}
