/**
 * The audit service: JSON serialisation of payloads, classification and
 * masking, change summaries, the sampling and masking switches, and the
 * log pipeline with its compliance rules (PHI volume, after-hours PHI
 * access, repeated failures) that append breach logs and violations.
 */
module AuditService {
  import opened Common
  import opened AuditLogModel

  // ---------------------------------------------------------------------
  // serialize_for_json
  // ---------------------------------------------------------------------

  /**
   * `serialize_for_json`: UUIDs become their text, datetimes their ISO form,
   * dicts and lists are serialised element-wise (tuples become lists), enum
   * members become their value, and every other value is returned as is.
   */
  function SerializeForJson(v: Value): (r: Value)
    ensures v.VUuid? ==> r == VStr(v.text)
    ensures v.VDateTime? ==> r == VStr(DateTimeIso(v.t))
    ensures v.VDict? ==> r.VDict? && Keys(r.entries) == Keys(v.entries)
    ensures v.VList? || v.VTuple? ==> r.VList? && |r.items| == |v.items|
    ensures v.VEnum? ==> r == v.payload
    ensures v.VNone? || v.VBool? || v.VInt? || v.VStr? || v.VDate? || v.VObject? ==> r == v
    decreases v
  {
    match v
    case VUuid(text) => VStr(text)
    case VDateTime(t) => VStr(DateTimeIso(t))
    case VDict(entries) => VDict(seq(|entries|, k requires 0 <= k < |entries| => (entries[k].0, SerializeForJson(entries[k].1))))
    case VList(items) => VList(seq(|items|, k requires 0 <= k < |items| => SerializeForJson(items[k])))
    case VTuple(items) => VList(seq(|items|, k requires 0 <= k < |items| => SerializeForJson(items[k])))
    case VEnum(payload, _) => payload
    case _ => v
  }

  /** `serialize_for_json` applied to an optional dict payload. */
  function SerializeDict(d: Option<Dict>): (r: Option<Dict>)
    ensures d.None? <==> r.None?
    ensures d.Some? ==> Keys(r.value) == Keys(d.value)
  {
    if d.None? then None else Some(SerializeForJson(VDict(d.value)).entries)
  }

  /** `serialize_for_json` applied to an optional payload of any type. */
  function SerializePayload(p: Option<Value>): (r: Option<Value>)
    ensures p.None? <==> r.None?
    ensures p.Some? && p.value.VDict? ==> r == Some(VDict(SerializeDict(Some(p.value.entries)).value))
  {
    if p.None? then None else Some(SerializeForJson(p.value))
  }

  /** A value that the database's JSON column can store unchanged. */
  predicate JsonCompatible(v: Value)
    decreases v
  {
    match v
    case VNone => true
    case VBool(_) => true
    case VInt(_) => true
    case VStr(_) => true
    case VList(items) => forall k :: 0 <= k < |items| ==> JsonCompatible(items[k])
    case VDict(entries) => forall k :: 0 <= k < |entries| ==> JsonCompatible(entries[k].1)
    case _ => false
  }

  /**
   * A value `serialize_for_json` can turn into JSON: no `date`, no other
   * object, and every enum member's value is already JSON-compatible.
   */
  predicate Serializable(v: Value)
    decreases v
  {
    match v
    case VDate(_) => false
    case VObject(_) => false
    case VEnum(payload, _) => JsonCompatible(payload)
    case VList(items) => forall k :: 0 <= k < |items| ==> Serializable(items[k])
    case VTuple(items) => forall k :: 0 <= k < |items| ==> Serializable(items[k])
    case VDict(entries) => forall k :: 0 <= k < |entries| ==> Serializable(entries[k].1)
    case _ => true
  }

  /** Serialising a serialisable value yields a JSON-compatible one. */
  lemma {:induction false} SerializeMakesJson(v: Value)
    requires Serializable(v)
    ensures JsonCompatible(SerializeForJson(v))
    decreases v
  {
    match v
    case VList(items) =>
      forall k | 0 <= k < |items| ensures JsonCompatible(SerializeForJson(items[k])) {
        SerializeMakesJson(items[k]);
      }
    case VTuple(items) =>
      forall k | 0 <= k < |items| ensures JsonCompatible(SerializeForJson(items[k])) {
        SerializeMakesJson(items[k]);
      }
    case VDict(entries) =>
      forall k | 0 <= k < |entries| ensures JsonCompatible(SerializeForJson(entries[k].1)) {
        SerializeMakesJson(entries[k].1);
      }
    case _ =>
  }

  /** JSON-compatible values are left exactly as they are. */
  lemma {:induction false} SerializeFixesJson(v: Value)
    requires JsonCompatible(v)
    ensures SerializeForJson(v) == v
    decreases v
  {
    match v
    case VList(items) =>
      forall k | 0 <= k < |items| ensures SerializeForJson(items[k]) == items[k] {
        SerializeFixesJson(items[k]);
      }
    case VDict(entries) =>
      forall k | 0 <= k < |entries| ensures SerializeForJson(entries[k].1) == entries[k].1 {
        SerializeFixesJson(entries[k].1);
      }
    case _ =>
  }

  /** Serialisation is idempotent on serialisable values. */
  lemma SerializeIdempotent(v: Value)
    requires Serializable(v)
    ensures SerializeForJson(SerializeForJson(v)) == SerializeForJson(v)
  {
    SerializeMakesJson(v);
    SerializeFixesJson(SerializeForJson(v));
  }

  // ---------------------------------------------------------------------
  // Classification, masking, change summaries
  // ---------------------------------------------------------------------

  const PHI_RESOURCES: seq<string> := ["client", "vitals", "medication", "incident_report", "health_record"]
  const PII_RESOURCES: seq<string> := ["user", "staff", "contact"]
  const FINANCIAL_RESOURCES: seq<string> := ["billing", "payment", "invoice"]
  const ADMINISTRATIVE_RESOURCES: seq<string> := ["organization", "role", "permission"]
  /** Resource types for which PHI access goes through consent verification. */
  const CONSENT_RESOURCES: seq<string> := ["client", "vitals", "medication", "incident_report"]

  /** `_classify_data`: the class depends on the resource type alone. */
  function ClassifyData(resourceType: string, newValues: Option<Value>, oldValues: Option<Dict>): (r: DataClassification)
    ensures r == PHI <==> resourceType in PHI_RESOURCES
    ensures r == PII <==> resourceType in PII_RESOURCES
    ensures r == FINANCIAL <==> resourceType in FINANCIAL_RESOURCES
    ensures r == ADMINISTRATIVE <==> resourceType in ADMINISTRATIVE_RESOURCES
    ensures r == GENERAL <==> resourceType !in PHI_RESOURCES + PII_RESOURCES + FINANCIAL_RESOURCES + ADMINISTRATIVE_RESOURCES
  {
    if resourceType in PHI_RESOURCES then PHI
    else if resourceType in PII_RESOURCES then PII
    else if resourceType in FINANCIAL_RESOURCES then FINANCIAL
    else if resourceType in ADMINISTRATIVE_RESOURCES then ADMINISTRATIVE
    else GENERAL
  }

  const SENSITIVE_FIELDS: seq<string> := ["password", "ssn", "credit_card", "bank_account", "api_key", "token"]
  const MASKED: string := "***MASKED***"

  /** `d[key] = value` for a key that is already present; other dicts unchanged. */
  function SetIfPresent(d: Dict, key: string, value: Value): (r: Dict)
    ensures |r| == |d|
    ensures forall k :: 0 <= k < |d| ==> r[k] == if d[k].0 == key then (key, value) else d[k]
  {
    if d == [] then []
    else [if d[0].0 == key then (key, value) else d[0]] + SetIfPresent(d[1..], key, value)
  }

  /** The loop over the sensitive field names. */
  function MaskFields(d: Dict, fields: seq<string>): (r: Dict)
    ensures |r| == |d|
    ensures forall k :: 0 <= k < |d| ==> r[k] == if d[k].0 in fields then (d[k].0, VStr(MASKED)) else d[k]
    decreases fields
  {
    if fields == [] then d else MaskFields(SetIfPresent(d, fields[0], VStr(MASKED)), fields[1..])
  }

  /**
   * `_mask_sensitive_data`: `None` and `{}` come back unchanged; otherwise a
   * copy with the same keys in the same order, in which the sensitive
   * fields show the mask and every other entry is untouched.
   */
  function MaskSensitiveData(data: Option<Dict>): (r: Option<Dict>)
    ensures !TruthyDict(data) ==> r == data
    ensures data.Some? ==> r.Some? && Keys(r.value) == Keys(data.value)
    ensures data.Some? ==> forall k :: 0 <= k < |data.value| ==>
      r.value[k] == if data.value[k].0 in SENSITIVE_FIELDS then (data.value[k].0, VStr(MASKED)) else data.value[k]
  {
    if !TruthyDict(data) then data else Some(MaskFields(data.value, SENSITIVE_FIELDS))
  }

  /** Masking twice is masking once. */
  lemma MaskIdempotent(data: Option<Dict>)
    ensures MaskSensitiveData(MaskSensitiveData(data)) == MaskSensitiveData(data)
  {
    if TruthyDict(data) {
      MaskFieldsTwice(data.value, SENSITIVE_FIELDS);
    }
  }

  /** The field loop leaves masked entries as they are: a masked key keeps its key. */
  lemma MaskFieldsTwice(d: Dict, fields: seq<string>)
    ensures MaskFields(MaskFields(d, fields), fields) == MaskFields(d, fields)
  {
    var once := MaskFields(d, fields);
    var twice := MaskFields(once, fields);
    forall k | 0 <= k < |once| ensures twice[k] == once[k] {
    }
  }

  /** A list item equal to one of the sensitive field names. */
  predicate SensitiveName(v: Value)
  {
    v.VStr? && v.s in SENSITIVE_FIELDS
  }

  /**
   * Whether `_mask_sensitive_data` returns for a payload of any type: a
   * falsy payload comes back at once and a dict is copied and masked; a
   * list is copied too, but assigning to a list by a field name raises, so
   * it returns only when no item is a sensitive field name; every other
   * truthy value has no `copy()` and raises.
   */
  predicate Maskable(p: Option<Value>)
  {
    p.None? || !PyTruthy(p.value) || p.value.VDict?
    || (p.value.VList? && forall k :: 0 <= k < |p.value.items| ==> !SensitiveName(p.value.items[k]))
  }

  /**
   * `_mask_sensitive_data` on a payload it returns for: a dict is masked,
   * every other payload (a falsy one, a list without sensitive names) comes
   * back unchanged.
   */
  function MaskPayload(p: Option<Value>): (r: Option<Value>)
    ensures p.Some? && p.value.VDict? ==> r.Some? && r.value.VDict? && Some(r.value.entries) == MaskSensitiveData(Some(p.value.entries))
    ensures !(p.Some? && p.value.VDict?) ==> r == p
  {
    if p.Some? && p.value.VDict? then Some(VDict(MaskSensitiveData(Some(p.value.entries)).value)) else p
  }

  /** A truthy text payload cannot be masked: `str` has no `copy()`. */
  lemma TextIsNotMaskable(s: string)
    requires s != ""
    ensures !Maskable(Some(VStr(s)))
  {
  }

  /** A list payload without sensitive names is masked to itself. */
  lemma PlainListMasksToItself(items: seq<Value>)
    requires forall k :: 0 <= k < |items| ==> !SensitiveName(items[k])
    ensures Maskable(Some(VList(items))) && MaskPayload(Some(VList(items))) == Some(VList(items))
  {
  }

  /** The entry `"key: old → new"` that the summary shows for one changed key. */
  function ChangeLine(key: string, oldValue: Value, newValue: Value): (r: string)
    ensures '→' in r
  {
    var r := key + ": " + Str(oldValue) + " → " + Str(newValue);
    assert r[|key| + 2 + |Str(oldValue)| + 1] == '→';
    r
  }

  /** The keys of `new` whose value differs from `old.get(key)`, in `new`'s order. */
  function ChangedKeys(oldValues: Dict, newValues: Dict): (r: seq<string>)
    ensures |r| <= |newValues|
    ensures forall key :: key in r ==> exists k :: 0 <= k < |newValues| && newValues[k].0 == key && Get(oldValues, key) != newValues[k].1
    ensures forall k :: 0 <= k < |newValues| && Get(oldValues, newValues[k].0) != newValues[k].1 ==> newValues[k].0 in r
  {
    if newValues == [] then []
    else
      var rest := ChangedKeys(oldValues, newValues[1..]);
      if Get(oldValues, newValues[0].0) != newValues[0].1 then [newValues[0].0] + rest else rest
  }

  /** The change lines, one per changed key, in `new`'s order. */
  function ChangeLines(oldValues: Dict, newValues: Dict): (r: seq<string>)
    ensures |r| == |ChangedKeys(oldValues, newValues)|
    ensures forall k :: 0 <= k < |r| ==> '→' in r[k]
  {
    if newValues == [] then []
    else
      var rest := ChangeLines(oldValues, newValues[1..]);
      var key := newValues[0].0;
      var oldValue := Get(oldValues, key);
      if oldValue != newValues[0].1 then [ChangeLine(key, oldValue, newValues[0].1)] + rest else rest
  }

  const NO_CHANGES: string := "No changes detected"

  /** `_generate_changes_summary`. */
  function ChangesSummary(oldValues: Option<Dict>, newValues: Option<Dict>, action: AuditAction): string
  {
    if action == CREATE then "Record created"
    else if action == DELETE then "Record deleted"
    else if action == UPDATE && TruthyDict(oldValues) && TruthyDict(newValues) then
      var lines := ChangeLines(oldValues.value, newValues.value);
      if lines != [] then Join(lines, "; ") else NO_CHANGES
    else "Performed " + ActionValue(action) + " action"
  }

  /**
   * For an update with both payloads present the summary says "No changes
   * detected" exactly when every key of the new payload keeps its old value;
   * otherwise it starts with the line of the first changed key.
   */
  lemma SummaryDetectsChanges(oldValues: Dict, newValues: Dict)
    requires oldValues != [] && newValues != []
    ensures ChangesSummary(Some(oldValues), Some(newValues), UPDATE) == NO_CHANGES
            <==> forall k :: 0 <= k < |newValues| ==> Get(oldValues, newValues[k].0) == newValues[k].1
    ensures ChangedKeys(oldValues, newValues) != [] ==>
      StartsWith(ChangesSummary(Some(oldValues), Some(newValues), UPDATE), ChangeLines(oldValues, newValues)[0])
  {
    var lines := ChangeLines(oldValues, newValues);
    var summary := ChangesSummary(Some(oldValues), Some(newValues), UPDATE);
    assert summary == if lines != [] then Join(lines, "; ") else NO_CHANGES;
    NoChangeLinesIffUnchanged(oldValues, newValues);
    if lines != [] {
      JoinedChangeLinesNotEmptySummary(lines);
      assert summary != NO_CHANGES;
    }
  }

  /** No change line is produced exactly when every new value equals the old one. */
  lemma NoChangeLinesIffUnchanged(oldValues: Dict, newValues: Dict)
    ensures ChangeLines(oldValues, newValues) == []
            <==> forall k :: 0 <= k < |newValues| ==> Get(oldValues, newValues[k].0) == newValues[k].1
  {
    var keys := ChangedKeys(oldValues, newValues);
    if keys != [] {
      assert keys[0] in keys;
      var j :| 0 <= j < |newValues| && newValues[j].0 == keys[0] && Get(oldValues, keys[0]) != newValues[j].1;
      assert Get(oldValues, newValues[j].0) != newValues[j].1;
    }
  }

  /** Joined change lines contain an arrow, so they never read "No changes detected". */
  lemma JoinedChangeLinesNotEmptySummary(lines: seq<string>)
    requires lines != [] && '→' in lines[0]
    ensures Join(lines, "; ") != NO_CHANGES && StartsWith(Join(lines, "; "), lines[0])
  {
    var s := Join(lines, "; ");
    var i :| 0 <= i < |lines[0]| && lines[0][i] == '→';
    assert s[i] == lines[0][i];
    assert '→' !in NO_CHANGES;
  }

  /** The summaries of the other actions. */
  lemma SummaryOfOtherActions(oldValues: Option<Dict>, newValues: Option<Dict>, action: AuditAction)
    ensures action == CREATE ==> ChangesSummary(oldValues, newValues, action) == "Record created"
    ensures action == DELETE ==> ChangesSummary(oldValues, newValues, action) == "Record deleted"
    ensures action != CREATE && action != DELETE && (action != UPDATE || !TruthyDict(oldValues) || !TruthyDict(newValues))
      ==> ChangesSummary(oldValues, newValues, action) == "Performed " + ActionValue(action) + " action"
  {
  }

  /** The dict behind a payload, when it is one. */
  function DictPayload(p: Option<Value>): (r: Option<Dict>)
    ensures r.Some? <==> p.Some? && p.value.VDict?
  {
    if p.Some? && p.value.VDict? then Some(p.value.entries) else None
  }

  /** A dict payload as the value `log_action` receives. */
  function AsPayload(d: Option<Dict>): (r: Option<Value>)
    ensures DictPayload(r) == d
    ensures r.None? <==> d.None?
  {
    if d.Some? then Some(VDict(d.value)) else None
  }

  /**
   * Whether `_generate_changes_summary` returns: an update whose payloads
   * are both truthy calls `items()` on the new payload, which only a dict has.
   */
  predicate Summarizable(action: AuditAction, oldValues: Option<Dict>, newValues: Option<Value>)
  {
    !(action == UPDATE && TruthyDict(oldValues) && newValues.Some? && PyTruthy(newValues.value) && !newValues.value.VDict?)
  }

  // ---------------------------------------------------------------------
  // Settings switches
  // ---------------------------------------------------------------------

  /** `_get_audit_settings`: the first settings row of the organization. */
  function SettingsFor(settings: seq<AuditSetting>, org: Option<Id>): (r: Option<AuditSetting>)
    ensures r.Some? ==> r.value in settings && r.value.organizationId == org
    ensures r.None? ==> forall k :: 0 <= k < |settings| ==> settings[k].organizationId != org
  {
    if settings == [] then None
    else if settings[0].organizationId == org then Some(settings[0])
    else SettingsFor(settings[1..], org)
  }

  /** Whether `_should_log_action` draws a sampling number for this organization. */
  predicate SamplingApplies(org: Option<Id>, settings: seq<AuditSetting>)
  {
    org.Some? && SettingsFor(settings, org).Some? && SettingsFor(settings, org).value.samplingRate < 100
  }

  /**
   * `_should_log_action`, with `draw` the value of `random.randint(1, 100)`
   * (consulted only when the sampling rate is below 100).
   */
  function ShouldLog(org: Option<Id>, action: AuditAction, settings: seq<AuditSetting>, draw: int): (r: bool)
    ensures org.None? ==> r
    ensures org.Some? && SettingsFor(settings, org).None? ==> r
    ensures org.Some? && SettingsFor(settings, org).Some? ==>
      var s := SettingsFor(settings, org).value;
      (r <==> !(s.samplingRate < 100 && draw > s.samplingRate) && !(action == READ && !s.logReadOperations))
  {
    if org.None? then true
    else
      var s := SettingsFor(settings, org);
      if s.None? then true
      else if s.value.samplingRate < 100 && draw > s.value.samplingRate then false
      else if action == READ && !s.value.logReadOperations then false
      else true
  }

  /** A sampling rate of 100 never drops an entry, whatever the draw. */
  lemma FullSamplingNeverDrops(org: Id, action: AuditAction, settings: seq<AuditSetting>, draw1: int, draw2: int)
    requires SettingsFor(settings, Some(org)).Some? && SettingsFor(settings, Some(org)).value.samplingRate == 100
    ensures ShouldLog(Some(org), action, settings, draw1) == ShouldLog(Some(org), action, settings, draw2)
    ensures action != READ ==> ShouldLog(Some(org), action, settings, draw1)
  {
  }

  /** `_should_mask_data`: mask unless the organization's settings row says otherwise. */
  function ShouldMaskData(org: Option<Id>, settings: seq<AuditSetting>): (r: bool)
    ensures !r <==> org.Some? && SettingsFor(settings, org).Some? && !SettingsFor(settings, org).value.maskSensitiveData
  {
    if org.None? then true
    else
      var s := SettingsFor(settings, org);
      if s.Some? then s.value.maskSensitiveData else true
  }

  // ---------------------------------------------------------------------
  // The log entry that log_action writes
  // ---------------------------------------------------------------------

  /** The arguments of `log_action` (its `metadata` argument is accepted and never used). */
  datatype LogRequest = LogRequest(
    action: AuditAction,
    resourceType: string,
    userId: Option<Id>,
    organizationId: Option<Id>,
    resourceId: Option<string>,
    resourceName: Option<string>,
    oldValues: Option<Dict>,
    newValues: Option<Value>,
    ipAddress: Option<string>,
    userAgent: Option<string>,
    sessionId: Option<string>,
    requestId: Option<string>,
    httpMethod: Option<string>,
    endpoint: Option<string>,
    responseStatus: Option<int>,
    durationMs: Option<int>,
    errorMessage: Option<string>,
    metadata: Option<Dict>)

  /** A request with only the action and resource type; every keyword left at `None`. */
  function BareRequest(action: AuditAction, resourceType: string): (r: LogRequest)
    ensures r.action == action && r.resourceType == resourceType
    ensures r.userId.None? && r.organizationId.None? && r.responseStatus.None?
  {
    LogRequest(action, resourceType, None, None, None, None, None, None, None, None, None, None, None, None, None, None, None, None)
  }

  /** `response_status and response_status >= 400`. */
  predicate Failing(status: Option<int>)
  {
    status.Some? && status.value != 0 && status.value >= 400
  }

  /** Whether consent verification is consulted for this entry. */
  predicate ConsentChecked(c: DataClassification, resourceType: string)
  {
    c == PHI && resourceType in CONSENT_RESOURCES
  }

  /** The old payload as stored: masked when the settings ask for it, then serialised. */
  function StoredOld(req: LogRequest, settings: seq<AuditSetting>): (r: Option<Dict>)
  {
    SerializeDict(if ShouldMaskData(req.organizationId, settings) then MaskSensitiveData(req.oldValues) else req.oldValues)
  }

  /** The new payload as stored: masked when the settings ask for it, then serialised. */
  function StoredNew(req: LogRequest, settings: seq<AuditSetting>): (r: Option<Value>)
  {
    SerializePayload(if ShouldMaskData(req.organizationId, settings) then MaskPayload(req.newValues) else req.newValues)
  }

  /**
   * Whether `log_action` gets from the request to the row without raising:
   * masking, when it applies, must accept the new payload, and the change
   * summary must accept the stored payloads. Otherwise it rolls back and
   * returns None.
   */
  predicate Processable(req: LogRequest, settings: seq<AuditSetting>)
  {
    (ShouldMaskData(req.organizationId, settings) ==> Maskable(req.newValues))
    && Summarizable(req.action, StoredOld(req, settings), StoredNew(req, settings))
  }

  /**
   * The row that `log_action` adds: classification from the resource type,
   * PHI flag exactly for PHI, payloads masked when the organization's
   * settings ask for it and then serialised, the change summary of the
   * serialised payloads (a non-dict new payload counts as absent), and
   * consent recorded as verified (the consent check returns True).
   */
  function BuildLog(req: LogRequest, settings: seq<AuditSetting>, now: Moment, id: Id): (r: AuditLog)
    ensures r.id == id && r.createdAt == now && r.action == req.action
    ensures r.dataClassification == ClassifyData(req.resourceType, req.newValues, req.oldValues)
    ensures r.phiAccessed <==> r.dataClassification == PHI
    ensures r.consentVerified
    ensures ShouldMaskData(req.organizationId, settings) ==>
      r.oldValues == SerializeDict(MaskSensitiveData(req.oldValues)) && r.newValues == SerializePayload(MaskPayload(req.newValues))
    ensures !ShouldMaskData(req.organizationId, settings) ==>
      r.oldValues == SerializeDict(req.oldValues) && r.newValues == SerializePayload(req.newValues)
    ensures r.changesSummary == Some(ChangesSummary(r.oldValues, DictPayload(r.newValues), req.action))
    ensures r.responseStatus == req.responseStatus && r.userId == req.userId && r.organizationId == req.organizationId
    ensures r.resourceType == req.resourceType && r.resourceId == req.resourceId && r.resourceName == req.resourceName
    ensures r.errorMessage == req.errorMessage && r.ipAddress == req.ipAddress
  {
    var classification := ClassifyData(req.resourceType, req.newValues, req.oldValues);
    var phi := classification == PHI;
    var oldValues := StoredOld(req, settings);
    var newValues := StoredNew(req, settings);
    var summary := ChangesSummary(oldValues, DictPayload(newValues), req.action);
    // `_verify_consent` returns True, so every entry records consent as verified,
    // whether or not `ConsentChecked` sends it through the check.
    AuditLog(id, req.organizationId, req.userId, req.action, req.resourceType, req.resourceId, req.resourceName,
             oldValues, newValues, Some(summary), classification, phi, true,
             req.ipAddress, req.userAgent, req.sessionId, req.requestId, req.httpMethod, req.endpoint,
             req.responseStatus, req.errorMessage, req.durationMs, now)
  }

  /** A payload column that the JSON column type can store. */
  predicate StorablePayload(d: Option<Dict>)
  {
    d.None? || JsonCompatible(VDict(d.value))
  }

  /** The row can be committed: both payloads are JSON. Otherwise the commit raises and is rolled back. */
  predicate Storable(entry: AuditLog)
  {
    StorablePayload(entry.oldValues) && (entry.newValues.None? || JsonCompatible(entry.newValues.value))
  }

  /** A payload that `serialize_for_json` can turn into JSON. */
  predicate SerializablePayload(d: Option<Dict>)
  {
    d.None? || Serializable(VDict(d.value))
  }

  /** Masking keeps a payload serialisable (the mask is a string). */
  lemma MaskKeepsSerializable(d: Option<Dict>)
    requires SerializablePayload(d)
    ensures SerializablePayload(MaskSensitiveData(d))
  {
    if TruthyDict(d) {
      MaskFieldsSerializable(d.value, SENSITIVE_FIELDS);
    }
  }

  /** The field loop only puts strings in, so it keeps a dict serialisable. */
  lemma MaskFieldsSerializable(d: Dict, fields: seq<string>)
    requires Serializable(VDict(d))
    ensures Serializable(VDict(MaskFields(d, fields)))
  {
    var m := MaskFields(d, fields);
    forall k | 0 <= k < |m| ensures Serializable(m[k].1) {
      assert Serializable(d[k].1);
    }
  }

  lemma SerializedPayloadStorable(d: Option<Dict>)
    requires SerializablePayload(d)
    ensures StorablePayload(SerializeDict(d))
  {
    if d.Some? {
      SerializeMakesJson(VDict(d.value));
    }
  }

  /** The same for a new payload of any type, masked or not. */
  lemma SerializedNewStorable(p: Option<Value>, mask: bool)
    requires p.None? || Serializable(p.value)
    ensures var q := SerializePayload(if mask then MaskPayload(p) else p); q.None? || JsonCompatible(q.value)
  {
    var m := if mask then MaskPayload(p) else p;
    if m.Some? {
      if mask && p.value.VDict? {
        MaskKeepsSerializable(Some(p.value.entries));
      }
      SerializeMakesJson(m.value);
    }
  }

  /** Payloads made of JSON values, UUIDs, datetimes and enums always reach the table. */
  lemma SerializablePayloadsAreStored(req: LogRequest, settings: seq<AuditSetting>, now: Moment, id: Id)
    requires SerializablePayload(req.oldValues) && (req.newValues.None? || Serializable(req.newValues.value))
    ensures Storable(BuildLog(req, settings, now, id))
  {
    MaskKeepsSerializable(req.oldValues);
    SerializedNewStorable(req.newValues, ShouldMaskData(req.organizationId, settings));
    if ShouldMaskData(req.organizationId, settings) {
      SerializedPayloadStorable(MaskSensitiveData(req.oldValues));
    } else {
      SerializedPayloadStorable(req.oldValues);
    }
  }

  /** A `date` value is left as it is by serialisation and is not JSON. */
  lemma DateEntryUnstorable(key: string, d: Date)
    ensures !JsonCompatible(SerializeForJson(VDict([(key, VDate(d))])))
  {
    var stored := SerializeForJson(VDict([(key, VDate(d))])).entries;
    assert stored[0].1 == SerializeForJson(VDate(d)) == VDate(d);
    assert !JsonCompatible(stored[0].1);
  }

  /** A `date` payload value is left as it is by serialisation, so such a row cannot be stored. */
  lemma DatePayloadIsNotStored(req: LogRequest, settings: seq<AuditSetting>, now: Moment, id: Id, key: string, d: Date)
    requires req.newValues == Some(VDict([(key, VDate(d))])) && key !in SENSITIVE_FIELDS
    ensures !Storable(BuildLog(req, settings, now, id))
  {
    var masked := MaskSensitiveData(Some([(key, VDate(d))]));
    assert |masked.value| == 1 && masked.value[0] == (key, VDate(d));
    assert masked.value == [(key, VDate(d))];
    DateEntryUnstorable(key, d);
  }

  /** The request that `log_phi_access` passes on. */
  function PhiAccessRequest(userId: Option<Id>, clientId: Option<string>, dataType: string, purpose: string,
                            org: Option<Id>, ip: Option<string>): (r: LogRequest)
    ensures r.action == READ && r.resourceType == "phi_access" && r.resourceId == clientId
    ensures r.resourceName == Some("Client PHI - " + dataType)
    ensures r.newValues == Some(VDict([("data_type", VStr(dataType)), ("purpose", VStr(purpose))]))
  {
    LogRequest(READ, "phi_access", userId, org, clientId, Some("Client PHI - " + dataType), None,
               Some(VDict([("data_type", VStr(dataType)), ("purpose", VStr(purpose))])), ip,
               None, None, None, None, None, None, None, None, None)
  }

  /**
   * "phi_access" is not one of the PHI resource types, so the entries that
   * `log_phi_access` writes are classified GENERAL and not flagged as PHI:
   * they are not counted by the PHI-volume rule.
   */
  lemma PhiAccessEntriesAreNotFlagged(userId: Option<Id>, clientId: Option<string>, dataType: string, purpose: string,
                                      org: Option<Id>, ip: Option<string>, settings: seq<AuditSetting>, now: Moment, id: Id)
    ensures !BuildLog(PhiAccessRequest(userId, clientId, dataType, purpose, org, ip), settings, now, id).phiAccessed
    ensures BuildLog(PhiAccessRequest(userId, clientId, dataType, purpose, org, ip), settings, now, id).dataClassification == GENERAL
    ensures RequestRank(PhiAccessRequest(userId, clientId, dataType, purpose, org, ip)) == 0
  {
    var req := PhiAccessRequest(userId, clientId, dataType, purpose, org, ip);
    assert "phi_access" !in PHI_RESOURCES by {
      assert "phi_access"[0] != "medication"[0];
    }
    assert "phi_access" !in PHI_RESOURCES + PII_RESOURCES + FINANCIAL_RESOURCES + ADMINISTRATIVE_RESOURCES by {
      assert "phi_access"[1] != "permission"[1];
    }
    assert ClassifyData(req.resourceType, req.newValues, req.oldValues) == GENERAL;
  }

  /** The request that `log_breach_attempt` passes on. */
  function BreachRequest(userId: Option<Id>, resourceType: string, resourceId: Option<string>, description: string,
                         org: Option<Id>, ip: Option<string>): (r: LogRequest)
    ensures r.action == BREACH_DETECTED && r.resourceType == resourceType && r.errorMessage == Some(description)
    ensures r.responseStatus.None?
  {
    LogRequest(BREACH_DETECTED, resourceType, userId, org, resourceId, None, None, None, ip,
               None, None, None, None, None, None, None, Some(description), None)
  }

  // ---------------------------------------------------------------------
  // Compliance rules
  // ---------------------------------------------------------------------

  const PHI_VOLUME_THRESHOLD: int := 50
  const PHI_VOLUME_WINDOW_SECONDS: int := 3600
  const FAILED_ATTEMPT_THRESHOLD: int := 5
  const FAILED_ATTEMPT_WINDOW_SECONDS: int := 900

  /** Outside 06:00-22:59: the hour is before 6 or after 22. */
  predicate AfterHours(t: Moment)
  {
    Hour(t) < 6 || Hour(t) > 22
  }

  /** Entries of `user` flagged as PHI whose time is at or after `since`. */
  function CountPhiSince(logs: seq<AuditLog>, user: Id, since: int): (r: nat)
    ensures r <= |logs|
  {
    if logs == [] then 0
    else
      var last := logs[|logs| - 1];
      var hit := last.userId == Some(user) && last.phiAccessed && Stamp(last.createdAt) >= since;
      CountPhiSince(logs[..|logs| - 1], user, since) + (if hit then 1 else 0)
  }

  /** Entries of `user` with a status of 400 or more whose time is at or after `since`. */
  function CountFailuresSince(logs: seq<AuditLog>, user: Id, since: int): (r: nat)
    ensures r <= |logs|
  {
    if logs == [] then 0
    else
      var last := logs[|logs| - 1];
      var hit := last.userId == Some(user) && last.responseStatus.Some? && last.responseStatus.value >= 400
                 && Stamp(last.createdAt) >= since;
      CountFailuresSince(logs[..|logs| - 1], user, since) + (if hit then 1 else 0)
  }

  /** The PHI-volume breach fires for more than 50 PHI entries of the user in the last hour. */
  predicate PhiVolumeBreach(entry: AuditLog, logs: seq<AuditLog>, now: Moment)
  {
    entry.phiAccessed && entry.userId.Some?
    && CountPhiSince(logs, entry.userId.value, Stamp(now) - PHI_VOLUME_WINDOW_SECONDS) > PHI_VOLUME_THRESHOLD
  }

  /** The repeated-failure breach fires for more than 5 failing entries of the user in 15 minutes. */
  predicate FailedAttemptsBreach(entry: AuditLog, logs: seq<AuditLog>, now: Moment)
  {
    Failing(entry.responseStatus) && entry.userId.Some?
    && CountFailuresSince(logs, entry.userId.value, Stamp(now) - FAILED_ATTEMPT_WINDOW_SECONDS) > FAILED_ATTEMPT_THRESHOLD
  }

  /** The violation that `_flag_after_hours_access` adds. */
  function AfterHoursViolation(entry: AuditLog, now: Moment): (r: ComplianceViolation)
    ensures r.violationType == "after_hours_phi_access" && r.severity == "low" && r.status == "open"
    ensures r.auditLogId == entry.id && r.organizationId == entry.organizationId
  {
    NewViolation(entry.organizationId, entry.id, "after_hours_phi_access", "low",
                 "PHI accessed outside business hours at " + Str(VDateTime(entry.createdAt)), now)
  }

  /**
   * One more entry raises a user's PHI count and failure count by at most one
   * and never lowers them, so a breach that fires keeps firing as entries
   * accumulate.
   */
  lemma {:induction false} CountsGrowWithEntries(logs: seq<AuditLog>, extra: AuditLog, user: Id, since: int)
    ensures CountPhiSince(logs, user, since) <= CountPhiSince(logs + [extra], user, since) <= CountPhiSince(logs, user, since) + 1
    ensures CountFailuresSince(logs, user, since) <= CountFailuresSince(logs + [extra], user, since) <= CountFailuresSince(logs, user, since) + 1
  {
    assert (logs + [extra])[..|logs + [extra]| - 1] == logs;
  }

  /** Entries that fall outside the window never change the counts. */
  lemma {:induction false} OldEntriesDoNotCount(logs: seq<AuditLog>, extra: AuditLog, user: Id, since: int)
    requires Stamp(extra.createdAt) < since
    ensures CountPhiSince(logs + [extra], user, since) == CountPhiSince(logs, user, since)
    ensures CountFailuresSince(logs + [extra], user, since) == CountFailuresSince(logs, user, since)
  {
    assert (logs + [extra])[..|logs + [extra]| - 1] == logs;
  }

  /** The e-mail alerts `_send_alerts_if_needed` would send: (PHI alert, failed-login alert). */
  function AlertsFor(entry: AuditLog, settings: seq<AuditSetting>): (r: (bool, bool))
    ensures entry.organizationId.None? ==> r == (false, false)
    ensures r.0 ==> entry.phiAccessed
    ensures r.1 ==> entry.action == LOGIN && Failing(entry.responseStatus)
  {
    if entry.organizationId.None? then (false, false)
    else
      var s := SettingsFor(settings, entry.organizationId);
      if s.None? then (false, false)
      else (entry.phiAccessed && s.value.alertOnPhiAccess,
            entry.action == LOGIN && Failing(entry.responseStatus) && s.value.alertOnFailedLogin)
  }

  // ---------------------------------------------------------------------
  // Queries
  // ---------------------------------------------------------------------

  /** The ordering key of audit rows: their creation time. */
  function CreatedKey(l: AuditLog): int { Stamp(l.createdAt) }

  /** `created_at >= start` and `created_at <= end` for the bounds that are given. */
  predicate InPeriod(t: Moment, start: Option<Moment>, end: Option<Moment>)
  {
    (start.None? || Stamp(t) >= Stamp(start.value)) && (end.None? || Stamp(t) <= Stamp(end.value))
  }

  predicate UserActivityMatch(l: AuditLog, user: Id, start: Option<Moment>, end: Option<Moment>, org: Option<Id>)
  {
    l.userId == Some(user) && (org.None? || l.organizationId == org) && InPeriod(l.createdAt, start, end)
  }

  /** `get_user_activity`: the user's rows in the period, newest first, at most `limit`. */
  function UserActivity(logs: seq<AuditLog>, user: Id, start: Option<Moment>, end: Option<Moment>,
                        org: Option<Id>, limit: nat): (r: seq<AuditLog>)
    ensures |r| <= limit
    ensures forall k :: 0 <= k < |r| ==> r[k] in logs && UserActivityMatch(r[k], user, start, end, org)
    ensures SortedDesc(r, CreatedKey)
    ensures |r| == if limit < Count(logs, l => UserActivityMatch(l, user, start, end, org)) then limit
                   else Count(logs, l => UserActivityMatch(l, user, start, end, org))
    ensures forall x, k :: x in logs && UserActivityMatch(x, user, start, end, org) && x !in r && 0 <= k < |r| ==>
              CreatedKey(x) <= CreatedKey(r[k])
    ensures Count(logs, l => UserActivityMatch(l, user, start, end, org)) <= limit ==>
              forall x :: x in logs && UserActivityMatch(x, user, start, end, org) ==> x in r
  {
    var p := l => UserActivityMatch(l, user, start, end, org);
    var sorted := SelectDesc(logs, p, CreatedKey);
    TakeSortedDesc(sorted, limit, CreatedKey);
    TakeSelectDescKeepsNewest(logs, p, CreatedKey, limit);
    Take(sorted, limit)
  }

  predicate ResourceMatch(l: AuditLog, resourceType: string, resourceId: string, org: Option<Id>)
  {
    l.resourceType == resourceType && l.resourceId == Some(resourceId) && (org.None? || l.organizationId == org)
  }

  /** `get_resource_history`: every row of the resource, newest first. */
  function ResourceHistory(logs: seq<AuditLog>, resourceType: string, resourceId: string, org: Option<Id>): (r: seq<AuditLog>)
    ensures multiset(r) == multiset(Filter(logs, l => ResourceMatch(l, resourceType, resourceId, org)))
    ensures forall k :: 0 <= k < |r| ==> r[k] in logs && ResourceMatch(r[k], resourceType, resourceId, org)
    ensures SortedDesc(r, CreatedKey)
  {
    SelectDesc(logs, l => ResourceMatch(l, resourceType, resourceId, org), CreatedKey)
  }

  predicate PhiLogMatch(l: AuditLog, client: Option<string>, start: Option<Moment>, end: Option<Moment>, org: Option<Id>)
  {
    l.phiAccessed && (!Truthy(client) || l.resourceId == client) && (org.None? || l.organizationId == org)
    && InPeriod(l.createdAt, start, end)
  }

  /** `get_phi_access_logs`: the PHI rows matching the filters that are given, newest first. */
  function PhiAccessLogs(logs: seq<AuditLog>, client: Option<string>, start: Option<Moment>, end: Option<Moment>,
                         org: Option<Id>): (r: seq<AuditLog>)
    ensures multiset(r) == multiset(Filter(logs, l => PhiLogMatch(l, client, start, end, org)))
    ensures forall k :: 0 <= k < |r| ==> r[k] in logs && PhiLogMatch(r[k], client, start, end, org)
    ensures SortedDesc(r, CreatedKey)
  {
    SelectDesc(logs, l => PhiLogMatch(l, client, start, end, org), CreatedKey)
  }

  /** One line of the report's per-user breakdown. */
  datatype UserActivityLine = UserActivityLine(userId: Option<Id>, totalActivities: nat, phiAccesses: nat)

  /** One line of the report's violation list. */
  datatype ViolationLine = ViolationLine(violationType: string, severity: string, status: string, detectedAt: string)

  /** `generate_compliance_report`, without its `generated_at` clock reading. */
  datatype ComplianceReport = ComplianceReport(
    reportType: string,
    organizationId: Option<Id>,
    startDate: string,
    endDate: string,
    totalActivities: nat,
    phiAccesses: nat,
    failedAttempts: nat,
    violationsCount: nat,
    userActivity: seq<UserActivityLine>,
    violations: seq<ViolationLine>)

  predicate ReportRow(l: AuditLog, org: Option<Id>, start: Moment, end: Moment)
  {
    l.organizationId == org && InPeriod(l.createdAt, Some(start), Some(end))
  }

  /** The distinct user ids of `rows`, in the order they first appear. */
  function DistinctUsers(rows: seq<AuditLog>): (r: seq<Option<Id>>)
    ensures forall i, j :: 0 <= i < j < |r| ==> r[i] != r[j]
    ensures forall k :: 0 <= k < |rows| ==> rows[k].userId in r
    ensures forall k :: 0 <= k < |r| ==> exists m :: 0 <= m < |rows| && rows[m].userId == r[k]
  {
    if rows == [] then []
    else
      var rest := DistinctUsers(rows[..|rows| - 1]);
      var u := rows[|rows| - 1].userId;
      if u in rest then rest else rest + [u]
  }

  /** `count(id)` of the user's rows. */
  function UserTotal(rows: seq<AuditLog>, u: Option<Id>): nat
  {
    Count(rows, (l: AuditLog) => l.userId == u)
  }

  /** `count(nullif(phi_accessed, false))` of the user's rows. */
  function UserPhi(rows: seq<AuditLog>, u: Option<Id>): nat
  {
    Count(rows, (l: AuditLog) => l.userId == u && l.phiAccessed)
  }

  /** The `group_by(user_id)` breakdown: rows and PHI rows per user. */
  function UserBreakdown(rows: seq<AuditLog>, users: seq<Option<Id>>): (r: seq<UserActivityLine>)
    ensures |r| == |users|
    ensures forall k :: 0 <= k < |r| ==> r[k] == UserActivityLine(users[k], UserTotal(rows, users[k]), UserPhi(rows, users[k]))
  {
    if users == [] then []
    else [UserActivityLine(users[0], UserTotal(rows, users[0]), UserPhi(rows, users[0]))] + UserBreakdown(rows, users[1..])
  }

  function ViolationLines(vs: seq<ComplianceViolation>): (r: seq<ViolationLine>)
    ensures |r| == |vs|
    ensures forall k :: 0 <= k < |r| ==> r[k].violationType == vs[k].violationType && r[k].status == vs[k].status
  {
    if vs == [] then []
    else [ViolationLine(vs[0].violationType, vs[0].severity, vs[0].status, DateTimeIso(vs[0].detectedAt))] + ViolationLines(vs[1..])
  }

  /**
   * `generate_compliance_report`: counts of the organization's rows in the
   * period (all, PHI, status of 400 or more), the violations detected in the
   * period, and the per-user breakdown.
   */
  function ComplianceReportOf(logs: seq<AuditLog>, violations: seq<ComplianceViolation>, org: Option<Id>,
                              start: Moment, end: Moment, reportType: string): (r: ComplianceReport)
    ensures r.totalActivities == Count(logs, l => ReportRow(l, org, start, end))
    ensures r.phiAccesses <= r.totalActivities && r.failedAttempts <= r.totalActivities
    ensures r.violationsCount == |r.violations|
    ensures forall k :: 0 <= k < |r.userActivity| ==> r.userActivity[k].phiAccesses <= r.userActivity[k].totalActivities
    ensures forall i, j :: 0 <= i < j < |r.userActivity| ==> r.userActivity[i].userId != r.userActivity[j].userId
  {
    var rows := Filter(logs, l => ReportRow(l, org, start, end));
    var phi := Filter(rows, (l: AuditLog) => l.phiAccessed);
    var failed := Filter(rows, (l: AuditLog) => l.responseStatus.Some? && l.responseStatus.value >= 400);
    var vs := Filter(violations, (v: ComplianceViolation) =>
      v.organizationId == org && InPeriod(v.detectedAt, Some(start), Some(end)));
    var users := DistinctUsers(rows);
    var breakdown := UserBreakdown(rows, users);
    forall k | 0 <= k < |breakdown| ensures breakdown[k].phiAccesses <= breakdown[k].totalActivities {
      PhiWithinTotal(rows, users[k]);
    }
    ComplianceReport(reportType, org, DateTimeIso(start), DateTimeIso(end), |rows|, |phi|, |failed|, |vs|,
                     breakdown, ViolationLines(vs))
  }

  /** A user's PHI rows are among the user's rows. */
  lemma PhiWithinTotal(rows: seq<AuditLog>, u: Option<Id>)
    ensures UserPhi(rows, u) <= UserTotal(rows, u)
  {
    CountMonotone(rows, (l: AuditLog) => l.userId == u && l.phiAccessed, (l: AuditLog) => l.userId == u);
  }

  /** Counting a stronger condition never gives more. */
  lemma {:induction false} CountMonotone<T>(xs: seq<T>, p: T -> bool, q: T -> bool)
    requires forall x :: p(x) ==> q(x)
    ensures Count(xs, p) <= Count(xs, q)
  {
    if xs != [] {
      CountMonotone(xs[1..], p, q);
    }
  }

  function SumTotals(lines: seq<UserActivityLine>): nat
  {
    if lines == [] then 0 else lines[0].totalActivities + SumTotals(lines[1..])
  }

  /** How many entries of `users` equal `u`. */
  function Occurrences(u: Option<Id>, users: seq<Option<Id>>): nat
  {
    if users == [] then 0 else (if users[0] == u then 1 else 0) + Occurrences(u, users[1..])
  }

  lemma {:induction false} OccursOnce(u: Option<Id>, users: seq<Option<Id>>)
    requires forall i, j :: 0 <= i < j < |users| ==> users[i] != users[j]
    requires u in users
    ensures Occurrences(u, users) == 1
  {
    if users[0] == u {
      OccursNot(u, users[1..]);
    } else {
      OccursOnce(u, users[1..]);
    }
  }

  lemma {:induction false} OccursNot(u: Option<Id>, users: seq<Option<Id>>)
    requires u !in users
    ensures Occurrences(u, users) == 0
  {
    if users != [] {
      OccursNot(u, users[1..]);
    }
  }

  /** The breakdown of `rows` is that of its tail plus one per line naming the first row's user. */
  lemma {:induction false} BreakdownOfCons(rows: seq<AuditLog>, users: seq<Option<Id>>)
    requires rows != []
    ensures SumTotals(UserBreakdown(rows, users)) == Occurrences(rows[0].userId, users) + SumTotals(UserBreakdown(rows[1..], users))
  {
    if users != [] {
      BreakdownOfCons(rows, users[1..]);
      assert UserBreakdown(rows, users)[1..] == UserBreakdown(rows, users[1..]);
      assert UserBreakdown(rows[1..], users)[1..] == UserBreakdown(rows[1..], users[1..]);
    }
  }

  /**
   * With distinct users that cover every row, every row belongs to exactly
   * one line of the breakdown: the lines' totals add up to the row count.
   */
  lemma {:induction false} BreakdownCoversRows(rows: seq<AuditLog>, users: seq<Option<Id>>)
    requires forall i, j :: 0 <= i < j < |users| ==> users[i] != users[j]
    requires forall k :: 0 <= k < |rows| ==> rows[k].userId in users
    ensures SumTotals(UserBreakdown(rows, users)) == |rows|
  {
    if rows == [] {
      ZeroBreakdown(users);
    } else {
      var tail := rows[1..];
      assert forall k :: 0 <= k < |tail| ==> tail[k].userId == rows[k + 1].userId;
      BreakdownCoversRows(tail, users);
      BreakdownOfCons(rows, users);
      OccursOnce(rows[0].userId, users);
    }
  }

  lemma {:induction false} ZeroBreakdown(users: seq<Option<Id>>)
    ensures SumTotals(UserBreakdown([], users)) == 0
  {
    if users != [] {
      ZeroBreakdown(users[1..]);
      assert UserBreakdown([], users)[1..] == UserBreakdown([], users[1..]);
    }
  }

  /** In the report, the per-user totals add up to the total activity count. */
  lemma ReportTotalsAgree(logs: seq<AuditLog>, violations: seq<ComplianceViolation>, org: Option<Id>,
                          start: Moment, end: Moment, reportType: string)
    ensures SumTotals(ComplianceReportOf(logs, violations, org, start, end, reportType).userActivity)
            == ComplianceReportOf(logs, violations, org, start, end, reportType).totalActivities
  {
    var rows := Filter(logs, l => ReportRow(l, org, start, end));
    BreakdownCoversRows(rows, DistinctUsers(rows));
  }

  // ---------------------------------------------------------------------
  // The pipeline over the session's tables
  // ---------------------------------------------------------------------

  /** 1 when an entry can trigger a rule that logs a breach, else 0. */
  function RequestRank(req: LogRequest): nat
  {
    if ClassifyData(req.resourceType, req.newValues, req.oldValues) == PHI || Failing(req.responseStatus) then 1 else 0
  }

  function EntryRank(entry: AuditLog): nat
  {
    if entry.phiAccessed || Failing(entry.responseStatus) then 1 else 0
  }

  /**
   * The breach entries the rules write are of resource type "phi_access" or
   * "authentication", neither a PHI type, and carry no status: they cannot
   * trigger a rule in turn.
   */
  lemma RuleBreachesAreInert(userId: Option<Id>, resourceId: Option<string>, description: string,
                             org: Option<Id>, ip: Option<string>)
    ensures "phi_access" !in PHI_RESOURCES && "authentication" !in PHI_RESOURCES
    ensures RequestRank(BreachRequest(userId, "phi_access", resourceId, description, org, ip)) == 0
    ensures RequestRank(BreachRequest(userId, "authentication", resourceId, description, org, ip)) == 0
  {
    assert "phi_access" !in PHI_RESOURCES;
    assert "authentication" !in PHI_RESOURCES;
  }

  /**
   * The row a breach request becomes: no payloads, the generic summary of
   * the BREACH_DETECTED action, the description as the error message, and
   * the classification of the resource type.
   */
  function BreachEntry(userId: Option<Id>, resourceType: string, resourceId: Option<string>, description: string,
                       org: Option<Id>, ip: Option<string>, now: Moment, id: Id): (r: AuditLog)
    ensures r.id == id && r.action == BREACH_DETECTED && r.oldValues.None? && r.newValues.None?
    ensures r.errorMessage == Some(description) && r.responseStatus.None? && r.userId == userId
  {
    var c := ClassifyData(resourceType, None, None);
    AuditLog(id, org, userId, BREACH_DETECTED, resourceType, resourceId, None, None, None,
             Some("Performed " + ActionValue(BREACH_DETECTED) + " action"), c, c == PHI, true,
             ip, None, None, None, None, None, None, Some(description), None, now)
  }

  /** A breach request carries no payload: it is always processed and stored, as its breach entry. */
  lemma BreachRequestIsStored(userId: Option<Id>, resourceType: string, resourceId: Option<string>, description: string,
                              org: Option<Id>, ip: Option<string>, settings: seq<AuditSetting>, now: Moment, id: Id)
    ensures Processable(BreachRequest(userId, resourceType, resourceId, description, org, ip), settings)
    ensures BuildLog(BreachRequest(userId, resourceType, resourceId, description, org, ip), settings, now, id)
            == BreachEntry(userId, resourceType, resourceId, description, org, ip, now, id)
    ensures Storable(BreachEntry(userId, resourceType, resourceId, description, org, ip, now, id))
  {
    var req := BreachRequest(userId, resourceType, resourceId, description, org, ip);
    assert MaskSensitiveData(None) == None && MaskPayload(None) == None;
    assert StoredOld(req, settings) == None && StoredNew(req, settings) == None;
  }

  /** Every violation of the sequence is open. */
  predicate AllOpen(vs: seq<ComplianceViolation>)
  {
    forall k :: 0 <= k < |vs| ==> vs[k].status == "open"
  }

  lemma OpenConcat(a: seq<ComplianceViolation>, b: seq<ComplianceViolation>)
    requires AllOpen(a) && AllOpen(b)
    ensures AllOpen(a + b)
  {
  }

  /** Every row's id is its position. */
  predicate IdsArePositions(logs: seq<AuditLog>)
  {
    forall i :: 0 <= i < |logs| ==> logs[i].id == i
  }

  lemma IdsAppend(logs: seq<AuditLog>, entry: AuditLog)
    requires IdsArePositions(logs) && entry.id == |logs|
    ensures IdsArePositions(logs + [entry])
  {
  }

  /** The description of the PHI-volume breach. */
  function PhiVolumeDescription(count: int): string
  {
    "User accessed PHI " + IntToString(count) + " times in the last hour"
  }

  /** The description of the repeated-failure breach. */
  function FailedAttemptsDescription(count: int): string
  {
    "User had " + IntToString(count) + " failed attempts in 15 minutes"
  }

  // ---------------------------------------------------------------------
  // The pipeline as functions of the session's tables
  // ---------------------------------------------------------------------

  /**
   * The tables a session sees: audit logs, committed violations, violations
   * added to the session but not yet committed, and the number of
   * `random.randint(1, 100)` draws already consumed. A commit writes the
   * pending violations with it; a rollback or the end of the session drops
   * them.
   */
  datatype Session = Session(logs: seq<AuditLog>, violations: seq<ComplianceViolation>,
                             pending: seq<ComplianceViolation>, drawn: nat)

  /** Row ids are positions, and every violation, committed or pending, is open. */
  predicate Consistent(s: Session)
  {
    IdsArePositions(s.logs) && AllOpen(s.violations) && AllOpen(s.pending)
  }

  /** The logs, committed and pending violations are those of `s`. */
  predicate SameTables(r: Session, s: Session)
  {
    r.logs == s.logs && r.violations == s.violations && r.pending == s.pending
  }

  /** The session after `_should_log_action`, which draws only when the sampling rate is below 100. */
  function AfterDraw(org: Option<Id>, settings: seq<AuditSetting>, s: Session): (r: Session)
    ensures SameTables(r, s)
  {
    s.(drawn := if SamplingApplies(org, settings) then s.drawn + 1 else s.drawn)
  }

  /**
   * `log_action`: nothing is written when the entry is not logged; when
   * masking, the summary or the commit raises, the session is rolled back
   * (pending violations dropped) and None returned; otherwise the entry is
   * committed together with the pending violations, then the compliance
   * rules run on it. Tables only grow, and an entry that cannot trigger a
   * rule adds only itself.
   */
  function LogActionSpec(req: LogRequest, now: Moment, settings: seq<AuditSetting>, random: nat -> int, s: Session)
    : (res: (Option<AuditLog>, Session))
    requires Consistent(s)
    ensures Consistent(res.1)
  {
    var drawn := AfterDraw(req.organizationId, settings, s);
    if !ShouldLog(req.organizationId, req.action, settings, random(s.drawn)) then (None, drawn)
    else WriteSpec(req, now, settings, random, drawn)
  }

  /**
   * The part of `log_action` after the sampling decision: a request that
   * masking or the summary cannot process, or whose row the commit refuses,
   * rolls the session back; any other is committed and checked.
   */
  function WriteSpec(req: LogRequest, now: Moment, settings: seq<AuditSetting>, random: nat -> int, s: Session)
    : (res: (Option<AuditLog>, Session))
    requires Consistent(s)
    ensures Consistent(res.1)
  {
    if !Processable(req, settings) then (None, s.(pending := []))
    else
      var entry := BuildLog(req, settings, now, |s.logs|);
      if !Storable(entry) then (None, s.(pending := []))
      else (Some(entry), CommitSpec(entry, now, settings, random, s))
  }

  /** The commit of a written entry with the pending violations, then the compliance rules on it. */
  function CommitSpec(entry: AuditLog, now: Moment, settings: seq<AuditSetting>, random: nat -> int, s: Session): (r: Session)
    requires Consistent(s) && entry.id == |s.logs|
    ensures Consistent(r)
  {
    OpenConcat(s.violations, s.pending);
    IdsAppend(s.logs, entry);
    ComplianceSpec(entry, now, settings, random, Session(s.logs + [entry], s.violations + s.pending, [], s.drawn))
  }

  /**
   * What `log_action` does to the tables: they only grow; None exactly when
   * the entry is not sampled, cannot be processed or cannot be stored; an
   * entry that is not sampled changes no table; a rollback drops the pending
   * violations and nothing else.
   */
  lemma LogActionOutcome(req: LogRequest, now: Moment, settings: seq<AuditSetting>, random: nat -> int, s: Session)
    requires Consistent(s)
    ensures var (e, t) := LogActionSpec(req, now, settings, random, s);
      s.logs <= t.logs && s.violations <= t.violations
    ensures var (e, t) := LogActionSpec(req, now, settings, random, s);
      e.None? <==> !ShouldLog(req.organizationId, req.action, settings, random(s.drawn))
                   || !Processable(req, settings)
                   || !Storable(BuildLog(req, settings, now, |s.logs|))
    ensures var (e, t) := LogActionSpec(req, now, settings, random, s);
      !ShouldLog(req.organizationId, req.action, settings, random(s.drawn)) ==> SameTables(t, s)
    ensures var (e, t) := LogActionSpec(req, now, settings, random, s);
      e.None? ==> t.logs == s.logs && t.violations == s.violations
                  && (ShouldLog(req.organizationId, req.action, settings, random(s.drawn)) ==> t.pending == [])
  {
    var drawn := AfterDraw(req.organizationId, settings, s);
    if ShouldLog(req.organizationId, req.action, settings, random(s.drawn)) {
      var entry := BuildLog(req, settings, now, |s.logs|);
      if Processable(req, settings) && Storable(entry) {
        IdsAppend(s.logs, entry);
        OpenConcat(s.violations, s.pending);
        var committed := Session(s.logs + [entry], s.violations + s.pending, [], drawn.drawn);
        ComplianceOutcome(entry, now, settings, random, committed);
        assert LogActionSpec(req, now, settings, random, s) == (Some(entry), ComplianceSpec(entry, now, settings, random, committed));
      } else {
        assert LogActionSpec(req, now, settings, random, s) == (None, drawn.(pending := []));
      }
    } else {
      assert LogActionSpec(req, now, settings, random, s) == (None, drawn);
    }
  }

  /**
   * A written entry is the row `BuildLog` makes, at the next position, and
   * its commit takes the pending violations with it; an entry that cannot
   * trigger a rule adds only itself.
   */
  lemma LogActionWrites(req: LogRequest, now: Moment, settings: seq<AuditSetting>, random: nat -> int, s: Session)
    requires Consistent(s)
    ensures var (e, t) := LogActionSpec(req, now, settings, random, s);
      e.Some? ==> e.value == BuildLog(req, settings, now, |s.logs|)
                  && |t.logs| > |s.logs| && t.logs[|s.logs|] == e.value
                  && s.violations + s.pending <= t.violations
    ensures var (e, t) := LogActionSpec(req, now, settings, random, s);
      RequestRank(req) == 0 && e.Some? ==> t.logs == s.logs + [e.value] && t.violations == s.violations + s.pending && t.pending == []
  {
    var drawn := AfterDraw(req.organizationId, settings, s);
    if ShouldLog(req.organizationId, req.action, settings, random(s.drawn)) {
      var entry := BuildLog(req, settings, now, |s.logs|);
      if Processable(req, settings) && Storable(entry) {
        IdsAppend(s.logs, entry);
        OpenConcat(s.violations, s.pending);
        var committed := Session(s.logs + [entry], s.violations + s.pending, [], drawn.drawn);
        ComplianceOutcome(entry, now, settings, random, committed);
        assert LogActionSpec(req, now, settings, random, s) == (Some(entry), ComplianceSpec(entry, now, settings, random, committed));
      }
    }
  }

  /** The commit of `log_breach_attempt` after its `log_action` call: the violation, only when the entry was written. */
  function CommitBreach(logged: (Option<AuditLog>, Session), violationType: string, description: string, severity: string,
                        org: Option<Id>, now: Moment): (r: Session)
    requires Consistent(logged.1)
    ensures Consistent(r)
  {
    var (entry, s) := logged;
    if entry.Some? then
      var v := NewViolation(org, entry.value.id, violationType, severity, description, now);
      OpenConcat(s.violations, s.pending);
      OpenConcat(s.violations + s.pending, [v]);
      s.(violations := s.violations + s.pending + [v], pending := [])
    else s
  }

  /** `log_breach_attempt`: log a BREACH_DETECTED entry, then commit a violation pointing at it. */
  function LogBreachSpec(userId: Option<Id>, resourceType: string, resourceId: Option<string>,
                         violationType: string, description: string, severity: string,
                         org: Option<Id>, ip: Option<string>, now: Moment,
                         settings: seq<AuditSetting>, random: nat -> int, s: Session): (r: Session)
    requires Consistent(s)
    ensures Consistent(r)
  {
    CommitBreach(LogActionSpec(BreachRequest(userId, resourceType, resourceId, description, org, ip), now, settings, random, s),
                 violationType, description, severity, org, now)
  }

  /**
   * The effect of `log_breach_attempt` for a resource type that is not
   * PHI, as both rules use it: when the sampling lets the entry through, the
   * breach entry is committed with the pending violations and the new open
   * violation pointing at it.
   */
  function BreachSpec(userId: Option<Id>, resourceType: string, resourceId: Option<string>,
                      violationType: string, description: string, severity: string,
                      org: Option<Id>, ip: Option<string>, now: Moment,
                      settings: seq<AuditSetting>, random: nat -> int, s: Session): (r: Session)
    requires Consistent(s)
    ensures Consistent(r)
  {
    var drawn := AfterDraw(org, settings, s);
    if !ShouldLog(org, BREACH_DETECTED, settings, random(s.drawn)) then drawn
    else
      var entry := BreachEntry(userId, resourceType, resourceId, description, org, ip, now, |s.logs|);
      var v := NewViolation(org, |s.logs|, violationType, severity, description, now);
      IdsAppend(s.logs, entry);
      OpenConcat(s.violations, s.pending);
      OpenConcat(s.violations + s.pending, [v]);
      Session(s.logs + [entry], s.violations + s.pending + [v], [], drawn.drawn)
  }

  /**
   * A breach either leaves every table as it was, when the sampling drops
   * its entry, or commits the breach entry at the next position, the pending
   * violations and the new violation pointing at the entry.
   */
  lemma BreachSpecOutcome(userId: Option<Id>, resourceType: string, resourceId: Option<string>,
                          violationType: string, description: string, severity: string,
                          org: Option<Id>, ip: Option<string>, now: Moment,
                          settings: seq<AuditSetting>, random: nat -> int, s: Session)
    requires Consistent(s)
    ensures var r := BreachSpec(userId, resourceType, resourceId, violationType, description, severity, org, ip, now, settings, random, s);
      RuleStep(s, r)
      && (!ShouldLog(org, BREACH_DETECTED, settings, random(s.drawn)) ==> SameTables(r, s))
      && (ShouldLog(org, BREACH_DETECTED, settings, random(s.drawn)) ==>
            r.logs == s.logs + [BreachEntry(userId, resourceType, resourceId, description, org, ip, now, |s.logs|)]
            && r.violations == s.violations + s.pending + [NewViolation(org, |s.logs|, violationType, severity, description, now)]
            && r.pending == [])
  {
    var r := BreachSpec(userId, resourceType, resourceId, violationType, description, severity, org, ip, now, settings, random, s);
    if ShouldLog(org, BREACH_DETECTED, settings, random(s.drawn)) {
      var vs := s.violations + s.pending;
      var v := NewViolation(org, |s.logs|, violationType, severity, description, now);
      assert r.violations == vs + [v];
      assert vs <= r.violations by {
        assert r.violations[..|vs|] == vs;
      }
    }
  }

  /**
   * For a resource type that is not PHI the breach entry cannot trigger a
   * rule, so `log_breach_attempt` has the effect `BreachSpec` describes.
   */
  lemma BreachSpecIsLogged(userId: Option<Id>, resourceType: string, resourceId: Option<string>,
                           violationType: string, description: string, severity: string,
                           org: Option<Id>, ip: Option<string>, now: Moment,
                           settings: seq<AuditSetting>, random: nat -> int, s: Session)
    requires Consistent(s) && resourceType !in PHI_RESOURCES
    ensures LogBreachSpec(userId, resourceType, resourceId, violationType, description, severity, org, ip, now, settings, random, s)
            == BreachSpec(userId, resourceType, resourceId, violationType, description, severity, org, ip, now, settings, random, s)
  {
    var req := BreachRequest(userId, resourceType, resourceId, description, org, ip);
    BreachRequestIsStored(userId, resourceType, resourceId, description, org, ip, settings, now, |s.logs|);
    var entry := BreachEntry(userId, resourceType, resourceId, description, org, ip, now, |s.logs|);
    if ShouldLog(org, BREACH_DETECTED, settings, random(s.drawn)) {
      var drawn := AfterDraw(org, settings, s);
      assert EntryRank(entry) == 0;
      var committed := Session(s.logs + [entry], s.violations + s.pending, [], drawn.drawn);
      OpenConcat(s.violations, s.pending);
      IdsAppend(s.logs, entry);
      ComplianceOutcome(entry, now, settings, random, committed);
      assert CommitSpec(entry, now, settings, random, drawn) == committed;
      assert WriteSpec(req, now, settings, random, drawn) == (Some(entry), committed);
      assert LogActionSpec(req, now, settings, random, s) == (Some(entry), committed);
    }
  }

  /** `_check_compliance_violations`: the three rules in order. */
  function ComplianceSpec(entry: AuditLog, now: Moment, settings: seq<AuditSetting>, random: nat -> int, s: Session): (r: Session)
    requires Consistent(s)
    ensures Consistent(r)
  {
    var s1 := if entry.phiAccessed then PhiRuleSpec(entry, now, settings, random, s) else s;
    var s2 := if AfterHours(entry.createdAt) then FlagSpec(entry, now, s1) else s1;
    if Failing(entry.responseStatus) then FailedRuleSpec(entry, now, settings, random, s2) else s2
  }

  /**
   * The compliance rules only grow the tables, and an entry that cannot
   * trigger a rule changes nothing.
   */
  lemma ComplianceOutcome(entry: AuditLog, now: Moment, settings: seq<AuditSetting>, random: nat -> int, s: Session)
    requires Consistent(s)
    ensures s.logs <= ComplianceSpec(entry, now, settings, random, s).logs
    ensures s.violations <= ComplianceSpec(entry, now, settings, random, s).violations
    ensures EntryRank(entry) == 0 ==> ComplianceSpec(entry, now, settings, random, s) == s
  {
    var s1 := if entry.phiAccessed then PhiRuleSpec(entry, now, settings, random, s) else s;
    if entry.phiAccessed {
      PhiRuleOutcome(entry, now, settings, random, s);
      Grows(s, s1);
    }
    var s2 := if AfterHours(entry.createdAt) then FlagSpec(entry, now, s1) else s1;
    if Failing(entry.responseStatus) {
      FailedRuleOutcome(entry, now, settings, random, s2);
      Grows(s2, FailedRuleSpec(entry, now, settings, random, s2));
    }
  }

  /**
   * An after-hours PHI entry ends the compliance rules with its after-hours
   * violation committed or still pending: the repeated-failure rule that
   * runs after the flag can only commit it.
   */
  lemma AfterHoursRecorded(entry: AuditLog, now: Moment, settings: seq<AuditSetting>, random: nat -> int, s: Session)
    requires Consistent(s) && entry.phiAccessed && AfterHours(entry.createdAt)
    ensures AfterHoursViolation(entry, now) in ComplianceSpec(entry, now, settings, random, s).violations
                                               + ComplianceSpec(entry, now, settings, random, s).pending
  {
    var v := AfterHoursViolation(entry, now);
    var s1 := PhiRuleSpec(entry, now, settings, random, s);
    var s2 := FlagSpec(entry, now, s1);
    assert s2.pending == s1.pending + [v];
    assert (s2.violations + s2.pending)[|s2.violations + s2.pending| - 1] == v;
    var s3 := if Failing(entry.responseStatus) then FailedRuleSpec(entry, now, settings, random, s2) else s2;
    if Failing(entry.responseStatus) {
      FailedRuleOutcome(entry, now, settings, random, s2);
    }
    StillRecorded(v, s2.violations, s2.pending, s3.violations, s3.pending);
    assert s3 == ComplianceSpec(entry, now, settings, random, s);
  }

  /** A rule step either changes no table or commits the pending violations, growing both tables. */
  predicate RuleStep(s: Session, r: Session)
  {
    SameTables(r, s) || (s.logs <= r.logs && s.violations + s.pending <= r.violations && r.pending == [])
  }

  /** A rule step grows the committed tables. */
  lemma Grows(s: Session, r: Session)
    requires RuleStep(s, r)
    ensures s.logs <= r.logs && s.violations <= r.violations
  {
    if !SameTables(r, s) {
      assert (s.violations + s.pending)[..|s.violations|] == s.violations;
    }
  }

  /** `_check_unusual_phi_access`: more than 50 PHI entries of the user in the last hour log a medium breach. */
  function PhiRuleSpec(entry: AuditLog, now: Moment, settings: seq<AuditSetting>, random: nat -> int, s: Session): (r: Session)
    requires Consistent(s)
    ensures Consistent(r)
  {
    if entry.userId.None? then s
    else
      var count := CountPhiSince(s.logs, entry.userId.value, Stamp(now) - PHI_VOLUME_WINDOW_SECONDS);
      if count > PHI_VOLUME_THRESHOLD then
        BreachSpec(entry.userId, "phi_access", entry.resourceId, "excessive_phi_access", PhiVolumeDescription(count), "medium",
                   entry.organizationId, None, now, settings, random, s)
      else s
  }

  /** The PHI-volume rule changes nothing unless it fires and the sampling keeps its breach entry. */
  lemma PhiRuleOutcome(entry: AuditLog, now: Moment, settings: seq<AuditSetting>, random: nat -> int, s: Session)
    requires Consistent(s) && entry.phiAccessed
    ensures RuleStep(s, PhiRuleSpec(entry, now, settings, random, s))
    ensures !PhiVolumeBreach(entry, s.logs, now) || !ShouldLog(entry.organizationId, BREACH_DETECTED, settings, random(s.drawn))
      ==> SameTables(PhiRuleSpec(entry, now, settings, random, s), s)
  {
    if PhiVolumeBreach(entry, s.logs, now) {
      var count := CountPhiSince(s.logs, entry.userId.value, Stamp(now) - PHI_VOLUME_WINDOW_SECONDS);
      BreachSpecOutcome(entry.userId, "phi_access", entry.resourceId, "excessive_phi_access", PhiVolumeDescription(count), "medium",
                      entry.organizationId, None, now, settings, random, s);
      assert PhiRuleSpec(entry, now, settings, random, s) == BreachSpec(entry.userId, "phi_access", entry.resourceId, "excessive_phi_access", PhiVolumeDescription(count), "medium",
                      entry.organizationId, None, now, settings, random, s);
    } else {
      assert PhiRuleSpec(entry, now, settings, random, s) == s;
    }
  }

  /**
   * When the PHI-volume rule fires and the sampling keeps its breach entry, it
   * commits that entry, the pending violations and a medium "excessive_phi_access"
   * violation naming the count.
   */
  lemma PhiRuleFires(entry: AuditLog, now: Moment, settings: seq<AuditSetting>, random: nat -> int, s: Session)
    requires Consistent(s) && PhiVolumeBreach(entry, s.logs, now)
    requires ShouldLog(entry.organizationId, BREACH_DETECTED, settings, random(s.drawn))
    ensures var count := CountPhiSince(s.logs, entry.userId.value, Stamp(now) - PHI_VOLUME_WINDOW_SECONDS);
      var r := PhiRuleSpec(entry, now, settings, random, s);
      r.logs == s.logs + [BreachEntry(entry.userId, "phi_access", entry.resourceId, PhiVolumeDescription(count), entry.organizationId, None, now, |s.logs|)]
      && r.violations == s.violations + s.pending + [NewViolation(entry.organizationId, |s.logs|, "excessive_phi_access", "medium", PhiVolumeDescription(count), now)]
      && r.pending == []
  {
    var count := CountPhiSince(s.logs, entry.userId.value, Stamp(now) - PHI_VOLUME_WINDOW_SECONDS);
    BreachSpecOutcome(entry.userId, "phi_access", entry.resourceId, "excessive_phi_access", PhiVolumeDescription(count), "medium",
                      entry.organizationId, None, now, settings, random, s);
    assert PhiRuleSpec(entry, now, settings, random, s) == BreachSpec(entry.userId, "phi_access", entry.resourceId, "excessive_phi_access", PhiVolumeDescription(count), "medium",
                      entry.organizationId, None, now, settings, random, s);
  }

  /**
   * `_flag_after_hours_access`: an open low-severity violation for a PHI
   * entry, added to the session without a commit of its own.
   */
  function FlagSpec(entry: AuditLog, now: Moment, s: Session): (r: Session)
    requires Consistent(s)
    ensures Consistent(r) && r.logs == s.logs && r.violations == s.violations
    ensures r.pending == s.pending + if entry.phiAccessed then [AfterHoursViolation(entry, now)] else []
  {
    if entry.phiAccessed then
      OpenConcat(s.pending, [AfterHoursViolation(entry, now)]);
      s.(pending := s.pending + [AfterHoursViolation(entry, now)])
    else s
  }

  /** `_check_failed_attempts`: more than 5 failing entries of the user in 15 minutes log a high breach. */
  function FailedRuleSpec(entry: AuditLog, now: Moment, settings: seq<AuditSetting>, random: nat -> int, s: Session): (r: Session)
    requires Consistent(s)
    ensures Consistent(r)
  {
    if entry.userId.None? then s
    else
      var count := CountFailuresSince(s.logs, entry.userId.value, Stamp(now) - FAILED_ATTEMPT_WINDOW_SECONDS);
      if count > FAILED_ATTEMPT_THRESHOLD then
        BreachSpec(entry.userId, "authentication", None, "multiple_failed_attempts", FailedAttemptsDescription(count), "high",
                   entry.organizationId, entry.ipAddress, now, settings, random, s)
      else s
  }

  /** The repeated-failure rule changes nothing unless it fires and the sampling keeps its breach entry. */
  lemma FailedRuleOutcome(entry: AuditLog, now: Moment, settings: seq<AuditSetting>, random: nat -> int, s: Session)
    requires Consistent(s) && Failing(entry.responseStatus)
    ensures RuleStep(s, FailedRuleSpec(entry, now, settings, random, s))
    ensures !FailedAttemptsBreach(entry, s.logs, now) || !ShouldLog(entry.organizationId, BREACH_DETECTED, settings, random(s.drawn))
      ==> SameTables(FailedRuleSpec(entry, now, settings, random, s), s)
  {
    if FailedAttemptsBreach(entry, s.logs, now) {
      var count := CountFailuresSince(s.logs, entry.userId.value, Stamp(now) - FAILED_ATTEMPT_WINDOW_SECONDS);
      BreachSpecOutcome(entry.userId, "authentication", None, "multiple_failed_attempts", FailedAttemptsDescription(count), "high",
                      entry.organizationId, entry.ipAddress, now, settings, random, s);
      assert FailedRuleSpec(entry, now, settings, random, s) == BreachSpec(entry.userId, "authentication", None, "multiple_failed_attempts", FailedAttemptsDescription(count), "high",
                      entry.organizationId, entry.ipAddress, now, settings, random, s);
    } else {
      assert FailedRuleSpec(entry, now, settings, random, s) == s;
    }
  }

  /**
   * When the repeated-failure rule fires and the sampling keeps its breach entry, it
   * commits that entry, the pending violations and a high
   * "multiple_failed_attempts" violation naming the count.
   */
  lemma FailedRuleFires(entry: AuditLog, now: Moment, settings: seq<AuditSetting>, random: nat -> int, s: Session)
    requires Consistent(s) && FailedAttemptsBreach(entry, s.logs, now)
    requires ShouldLog(entry.organizationId, BREACH_DETECTED, settings, random(s.drawn))
    ensures var count := CountFailuresSince(s.logs, entry.userId.value, Stamp(now) - FAILED_ATTEMPT_WINDOW_SECONDS);
      var r := FailedRuleSpec(entry, now, settings, random, s);
      r.logs == s.logs + [BreachEntry(entry.userId, "authentication", None, FailedAttemptsDescription(count), entry.organizationId, entry.ipAddress, now, |s.logs|)]
      && r.violations == s.violations + s.pending + [NewViolation(entry.organizationId, |s.logs|, "multiple_failed_attempts", "high", FailedAttemptsDescription(count), now)]
      && r.pending == []
  {
    var count := CountFailuresSince(s.logs, entry.userId.value, Stamp(now) - FAILED_ATTEMPT_WINDOW_SECONDS);
    BreachSpecOutcome(entry.userId, "authentication", None, "multiple_failed_attempts", FailedAttemptsDescription(count), "high",
                      entry.organizationId, entry.ipAddress, now, settings, random, s);
    assert FailedRuleSpec(entry, now, settings, random, s) == BreachSpec(entry.userId, "authentication", None, "multiple_failed_attempts", FailedAttemptsDescription(count), "high",
                      entry.organizationId, entry.ipAddress, now, settings, random, s);
  }

  /** What was committed or pending stays so when pending items are committed or nothing happens. */
  lemma StillRecorded<T>(x: T, v0: seq<T>, p0: seq<T>, v1: seq<T>, p1: seq<T>)
    requires x in v0 + p0
    requires (v1 == v0 && p1 == p0) || v0 + p0 <= v1
    ensures x in v1 + p1
  {
    if v0 + p0 <= v1 {
      var i :| 0 <= i < |v0 + p0| && (v0 + p0)[i] == x;
      assert (v1 + p1)[i] == x;
    }
  }
}
