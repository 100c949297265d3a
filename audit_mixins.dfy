/**
 * Model-level audit hooks: the per-class audit configuration, the values
 * recorded for a row, its human-readable name, PHI-field detection, the
 * insert/update/delete hooks and the routing of the PHI variant.
 */
module AuditMixins {
  import opened Common
  import opened AuditLogModel
  import opened AuditService
  import opened AuditSessionStore

  /** The columns that every audited class leaves out of its audit values. */
  const DEFAULT_EXCLUDES: seq<string> := ["password_hash", "created_at", "updated_at"]

  /** The class attributes `__audit_resource_type__`, `__audit_phi_fields__`, `__audit_exclude_fields__`. */
  datatype AuditConfig = AuditConfig(className: string, resourceType: string, phiFields: seq<string>, excludeFields: seq<string>)

  /** The configuration a class inherits from `AuditMixin` without overriding it. */
  function MixinDefaults(className: string): (r: AuditConfig)
    ensures r.resourceType == "unknown" && r.phiFields == [] && r.excludeFields == DEFAULT_EXCLUDES
  {
    AuditConfig(className, "unknown", [], DEFAULT_EXCLUDES)
  }

  /** `audit_decorator(resource_type, phi_fields, exclude_fields)`: the configuration it installs. */
  function DecoratorConfig(className: string, resourceType: string, phiFields: Option<seq<string>>,
                           excludeFields: Option<seq<string>>): (r: AuditConfig)
    ensures r.resourceType == resourceType
    ensures r.excludeFields == (if excludeFields.Some? then excludeFields.value else []) + DEFAULT_EXCLUDES
    ensures forall f :: f in DEFAULT_EXCLUDES ==> f in r.excludeFields
    ensures phiFields.None? ==> r.phiFields == []
  {
    AuditConfig(className, resourceType,
                if phiFields.Some? && phiFields.value != [] then phiFields.value else [],
                (if excludeFields.Some? && excludeFields.value != [] then excludeFields.value else []) + DEFAULT_EXCLUDES)
  }

  /**
   * A mapped object: its attributes by name (`hasattr` is presence of a key)
   * and the names of its table's columns.
   */
  datatype Target = Target(attrs: Dict, columns: seq<string>)

  /** Table columns have distinct names. */
  predicate WellFormed(t: Target)
  {
    forall i, j :: 0 <= i < j < |t.columns| ==> t.columns[i] != t.columns[j]
  }

  /**
   * `_serialize_value`: `None` stays `None`; dates and datetimes (they have
   * `isoformat`) become their ISO text; enum members and other objects (they
   * have `__dict__`) become their `str()`; everything else is unchanged.
   */
  function SerializeValue(v: Value): (r: Value)
    ensures v.VNone? ==> r.VNone?
    ensures v.VDateTime? ==> r == VStr(DateTimeIso(v.t))
    ensures v.VDate? ==> r == VStr(DateIso(v.d))
    ensures v.VEnum? || v.VObject? ==> r == VStr(Str(v))
    ensures !(v.VDateTime? || v.VDate? || v.VEnum? || v.VObject?) ==> r == v
  {
    match v
    case VDateTime(t) => VStr(DateTimeIso(t))
    case VDate(d) => VStr(DateIso(d))
    case VEnum(_, text) => VStr(text)
    case VObject(text) => VStr(text)
    case _ => v
  }

  /** Serialising a serialised value changes nothing. */
  lemma SerializeValueIdempotent(v: Value)
    ensures SerializeValue(SerializeValue(v)) == SerializeValue(v)
  {
  }

  /** The audit values that `_get_audit_values` records: non-excluded columns, in table order. */
  function AuditValues(cfg: AuditConfig, t: Target, columns: seq<string>): (r: Dict)
    ensures Keys(r) == Filter(columns, (c: string) => c !in cfg.excludeFields)
    ensures forall k :: 0 <= k < |r| ==> r[k].1 == SerializeValue(Get(t.attrs, r[k].0))
  {
    if columns == [] then []
    else
      var rest := AuditValues(cfg, t, columns[1..]);
      if columns[0] !in cfg.excludeFields then [(columns[0], SerializeValue(Get(t.attrs, columns[0])))] + rest else rest
  }

  /** `_get_audit_values`: the loop over the table's columns that fills the dict. */
  method GetAuditValues(cfg: AuditConfig, t: Target) returns (values: Dict)
    requires WellFormed(t)
    ensures values == AuditValues(cfg, t, t.columns)
    ensures forall k :: 0 <= k < |values| ==> values[k].0 in t.columns && values[k].0 !in cfg.excludeFields
  {
    values := [];
    var i := |t.columns|;
    // Built from the back so that each step prepends the next column's entry.
    while i > 0
      invariant 0 <= i <= |t.columns|
      invariant values == AuditValues(cfg, t, t.columns[i..])
    {
      i := i - 1;
      assert t.columns[i..][1..] == t.columns[i + 1..];
      if t.columns[i] !in cfg.excludeFields {
        values := [(t.columns[i], SerializeValue(Get(t.attrs, t.columns[i])))] + values;
      }
    }
    assert t.columns[0..] == t.columns;
    forall k | 0 <= k < |values| ensures values[k].0 in t.columns && values[k].0 !in cfg.excludeFields {
      assert Keys(values)[k] == values[k].0;
    }
  }

  /** The attributes `_get_resource_name` tries, in order. */
  const NAME_FIELDS: seq<string> := ["name", "title", "full_name", "email", "username", "first_name"]

  /** The position of the first attribute in `fields` that is present and truthy. */
  function FirstTruthy(attrs: Dict, fields: seq<string>): (r: Option<nat>)
    ensures r.Some? ==> r.value < |fields| && HasKey(attrs, fields[r.value]) && PyTruthy(Get(attrs, fields[r.value]))
    ensures r.Some? ==> forall j :: 0 <= j < r.value ==> !(HasKey(attrs, fields[j]) && PyTruthy(Get(attrs, fields[j])))
    ensures r.None? ==> forall j :: 0 <= j < |fields| ==> !(HasKey(attrs, fields[j]) && PyTruthy(Get(attrs, fields[j])))
  {
    if fields == [] then None
    else if HasKey(attrs, fields[0]) && PyTruthy(Get(attrs, fields[0])) then Some(0)
    else
      var rest := FirstTruthy(attrs, fields[1..]);
      if rest.Some? then Some(rest.value + 1) else None
  }

  /**
   * `_get_resource_name`: the `str()` of the first truthy name attribute;
   * otherwise "<resource type>:<id>" when the object has an id; otherwise None.
   */
  function ResourceName(cfg: AuditConfig, t: Target): (r: Option<string>)
    ensures FirstTruthy(t.attrs, NAME_FIELDS).Some? ==>
      r == Some(Str(Get(t.attrs, NAME_FIELDS[FirstTruthy(t.attrs, NAME_FIELDS).value])))
    ensures FirstTruthy(t.attrs, NAME_FIELDS).None? && HasKey(t.attrs, "id") ==>
      r == Some(cfg.resourceType + ":" + Str(Get(t.attrs, "id")))
    ensures FirstTruthy(t.attrs, NAME_FIELDS).None? && !HasKey(t.attrs, "id") ==> r.None?
  {
    var first := FirstTruthy(t.attrs, NAME_FIELDS);
    if first.Some? then Some(Str(Get(t.attrs, NAME_FIELDS[first.value])))
    else if HasKey(t.attrs, "id") then Some(cfg.resourceType + ":" + Str(Get(t.attrs, "id")))
    else None
  }

  /** Whether some field of `fields` is a key of a truthy payload. */
  predicate MentionsAny(fields: seq<string>, values: Option<Dict>)
  {
    TruthyDict(values) && exists f :: f in fields && HasKey(values.value, f)
  }

  /** `_contains_phi`: the loops over both payloads and the configured PHI fields. */
  function ContainsPhi(cfg: AuditConfig, oldValues: Option<Dict>, newValues: Option<Dict>): (r: bool)
    ensures cfg.phiFields == [] ==> !r
    ensures r <==> MentionsAny(cfg.phiFields, oldValues) || MentionsAny(cfg.phiFields, newValues)
  {
    if cfg.phiFields == [] then false
    else AnyFieldIn(cfg.phiFields, oldValues) || AnyFieldIn(cfg.phiFields, newValues)
  }

  function AnyFieldIn(fields: seq<string>, values: Option<Dict>): (r: bool)
    ensures r <==> MentionsAny(fields, values)
  {
    if !TruthyDict(values) || fields == [] then false
    else if HasKey(values.value, fields[0]) then true
    else
      var r := AnyFieldIn(fields[1..], values);
      assert MentionsAny(fields, values) ==> r by {
        if MentionsAny(fields, values) {
          var f :| f in fields && HasKey(values.value, f);
          assert f != fields[0];
          assert f in fields[1..];
        }
      }
      r
  }

  /** `str(getattr(target, 'id', None)) if hasattr(target, 'id') else None`. */
  function ResourceIdOf(t: Target): (r: Option<string>)
    ensures r.Some? <==> HasKey(t.attrs, "id")
  {
    if HasKey(t.attrs, "id") then Some(Str(Get(t.attrs, "id"))) else None
  }

  /** The organization the object belongs to, when it holds one. */
  function OrganizationOf(t: Target): (r: Option<Id>)
    ensures r.Some? ==> HasKey(t.attrs, "organization_id")
  {
    if HasKey(t.attrs, "organization_id") && Get(t.attrs, "organization_id").VInt? && Get(t.attrs, "organization_id").i >= 0
    then Some(Get(t.attrs, "organization_id").i as nat)
    else None
  }

  /** The `log_action` call of `AuditMixin._create_audit_log`, tagged as a model trigger. */
  function MixinRequest(cfg: AuditConfig, t: Target, action: AuditAction, oldValues: Option<Dict>, newValues: Option<Dict>): (r: LogRequest)
    ensures r.action == action && r.resourceType == cfg.resourceType
    ensures r.resourceId == ResourceIdOf(t) && r.resourceName == ResourceName(cfg, t) && r.organizationId == OrganizationOf(t)
    ensures r.oldValues == oldValues && r.newValues == AsPayload(newValues) && r.userId.None?
    ensures r.metadata == Some([("model_class", VStr(cfg.className)),
                                ("phi_accessed", VBool(ContainsPhi(cfg, oldValues, newValues))),
                                ("audit_source", VStr("model_trigger"))])
  {
    LogRequest(action, cfg.resourceType, None, OrganizationOf(t), ResourceIdOf(t), ResourceName(cfg, t), oldValues, AsPayload(newValues),
               None, None, None, None, None, None, None, None, None,
               Some([("model_class", VStr(cfg.className)),
                     ("phi_accessed", VBool(ContainsPhi(cfg, oldValues, newValues))),
                     ("audit_source", VStr("model_trigger"))]))
  }

  /**
   * `PHIAuditMixin._create_audit_log`: a READ goes to `log_phi_access` (the
   * client id only for the "client" resource type); every other action goes
   * to `log_action` tagged as PHI data.
   */
  function PhiMixinRequest(cfg: AuditConfig, t: Target, action: AuditAction, oldValues: Option<Dict>, newValues: Option<Dict>): (r: LogRequest)
    ensures action == READ ==> r == PhiAccessRequest(None, if cfg.resourceType == "client" then ResourceIdOf(t) else None,
                                                     cfg.resourceType, "Model access", OrganizationOf(t), None)
    ensures action != READ ==> (r.action == action && r.resourceType == cfg.resourceType
      && r.oldValues == oldValues && r.newValues == AsPayload(newValues)
      && r.metadata == Some([("model_class", VStr(cfg.className)), ("phi_data", VBool(true)),
                             ("audit_source", VStr("phi_model_trigger"))]))
  {
    if action == READ then
      PhiAccessRequest(None, if cfg.resourceType == "client" then ResourceIdOf(t) else None,
                       cfg.resourceType, "Model access", OrganizationOf(t), None)
    else
      LogRequest(action, cfg.resourceType, None, OrganizationOf(t), ResourceIdOf(t), ResourceName(cfg, t), oldValues, AsPayload(newValues),
                 None, None, None, None, None, None, None, None, None,
                 Some([("model_class", VStr(cfg.className)), ("phi_data", VBool(true)),
                       ("audit_source", VStr("phi_model_trigger"))]))
  }

  /**
   * The module-level `log_phi_access(model_instance, user_id, purpose)`:
   * the client id is the object's own id for the "client" resource type,
   * else its `client_id` attribute, else its id; the data type is the
   * configured resource type, or the lower-cased class name for a class
   * without audit configuration.
   */
  function ManualPhiAccessRequest(cfg: Option<AuditConfig>, className: string, t: Target, userId: Option<Id>,
                                  purpose: string): (r: LogRequest)
    ensures r.action == READ && r.resourceType == "phi_access"
    ensures cfg.Some? && cfg.value.resourceType == "client" ==> r.resourceId == ResourceIdOf(t)
    ensures cfg.None? ==> r.resourceId == ResourceIdOf(t) && r.resourceName == Some("Client PHI - " + Lower(className))
    ensures cfg.Some? ==> r.resourceName == Some("Client PHI - " + cfg.value.resourceType)
  {
    var resourceId := ResourceIdOf(t);
    var clientId: Option<string> :=
      if cfg.None? then None
      else if cfg.value.resourceType == "client" then resourceId
      else if HasKey(t.attrs, "client_id") then Some(Str(Get(t.attrs, "client_id")))
      else None;
    var dataType := if cfg.Some? then cfg.value.resourceType else Lower(className);
    PhiAccessRequest(userId, if Truthy(clientId) then clientId else resourceId, dataType, purpose, OrganizationOf(t), None)
  }

  /** The attributes whose values differ between the two views, in column order, excluded ones left out. */
  function ChangedColumns(cfg: AuditConfig, columns: seq<string>, before: Dict, after: Dict): (r: seq<string>)
    ensures forall k :: 0 <= k < |r| ==> (r[k] in columns && r[k] !in cfg.excludeFields
      && HasKey(before, r[k]) && HasKey(after, r[k]) && Get(before, r[k]) != Get(after, r[k]))
    ensures forall c :: (c in columns && c !in cfg.excludeFields && HasKey(before, c) && HasKey(after, c)
      && Get(before, c) != Get(after, c)) ==> c in r
  {
    if columns == [] then []
    else
      var c := columns[0];
      var rest := ChangedColumns(cfg, columns[1..], before, after);
      if HasKey(before, c) && HasKey(after, c) && Get(before, c) != Get(after, c) && c !in cfg.excludeFields
      then [c] + rest else rest
  }

  /** The serialised `view` values of the changed columns, in column order. */
  function ChangeEntries(cfg: AuditConfig, columns: seq<string>, before: Dict, after: Dict, view: Dict): (r: Dict)
  {
    if columns == [] then []
    else
      var c := columns[0];
      var rest := ChangeEntries(cfg, columns[1..], before, after, view);
      if HasKey(before, c) && HasKey(after, c) && Get(before, c) != Get(after, c) && c !in cfg.excludeFields
      then [(c, SerializeValue(Get(view, c)))] + rest else rest
  }

  /** The entries are keyed by exactly the changed columns and carry the serialised `view` values. */
  lemma {:induction false} ChangeEntriesMeaning(cfg: AuditConfig, columns: seq<string>, before: Dict, after: Dict, view: Dict)
    ensures Keys(ChangeEntries(cfg, columns, before, after, view)) == ChangedColumns(cfg, columns, before, after)
    ensures forall k :: 0 <= k < |ChangeEntries(cfg, columns, before, after, view)| ==>
      ChangeEntries(cfg, columns, before, after, view)[k].1 == SerializeValue(Get(view, ChangeEntries(cfg, columns, before, after, view)[k].0))
  {
    if columns != [] {
      ChangeEntriesMeaning(cfg, columns[1..], before, after, view);
      var rest := ChangeEntries(cfg, columns[1..], before, after, view);
      var c := columns[0];
      if HasKey(before, c) && HasKey(after, c) && Get(before, c) != Get(after, c) && c !in cfg.excludeFields {
        var e := [(c, SerializeValue(Get(view, c)))] + rest;
        assert e[1..] == rest;
        assert Keys(e) == [c] + Keys(rest);
      }
    }
  }

  /**
   * The loop of `_audit_after_update`: for each column present in both
   * views whose values differ and that is not excluded, record the
   * serialised old and new values.
   */
  method CollectChanges(cfg: AuditConfig, columns: seq<string>, before: Dict, after: Dict)
    returns (oldValues: Dict, newValues: Dict)
    ensures Keys(oldValues) == ChangedColumns(cfg, columns, before, after)
    ensures Keys(newValues) == ChangedColumns(cfg, columns, before, after)
    ensures forall k :: 0 <= k < |oldValues| ==> oldValues[k].1 == SerializeValue(Get(before, oldValues[k].0))
    ensures forall k :: 0 <= k < |newValues| ==> newValues[k].1 == SerializeValue(Get(after, newValues[k].0))
  {
    oldValues := [];
    newValues := [];
    var i := |columns|;
    while i > 0
      invariant 0 <= i <= |columns|
      invariant oldValues == ChangeEntries(cfg, columns[i..], before, after, before)
      invariant newValues == ChangeEntries(cfg, columns[i..], before, after, after)
    {
      i := i - 1;
      var c := columns[i];
      assert columns[i..][1..] == columns[i + 1..];
      if HasKey(before, c) && HasKey(after, c) && Get(before, c) != Get(after, c) && c !in cfg.excludeFields {
        oldValues := [(c, SerializeValue(Get(before, c)))] + oldValues;
        newValues := [(c, SerializeValue(Get(after, c)))] + newValues;
      }
    }
    assert columns[0..] == columns;
    ChangeEntriesMeaning(cfg, columns, before, after, before);
    ChangeEntriesMeaning(cfg, columns, before, after, after);
  }

  /** Comparing a view with itself finds no change. */
  lemma {:induction false} NoChangeAgainstItself(cfg: AuditConfig, columns: seq<string>, attrs: Dict)
    ensures ChangedColumns(cfg, columns, attrs, attrs) == []
  {
    if columns != [] {
      NoChangeAgainstItself(cfg, columns[1..], attrs);
    }
  }

  /** The request `_create_audit_log` passes on, for `AuditMixin` or, for `phiMixin`, for `PHIAuditMixin`. */
  function HookRequest(cfg: AuditConfig, phiMixin: bool, t: Target, action: AuditAction,
                       oldValues: Option<Dict>, newValues: Option<Dict>): (r: LogRequest)
    ensures action != READ ==>
      r.action == action && r.resourceType == cfg.resourceType && r.oldValues == oldValues && r.newValues == AsPayload(newValues)
  {
    if phiMixin then PhiMixinRequest(cfg, t, action, oldValues, newValues) else MixinRequest(cfg, t, action, oldValues, newValues)
  }

  /**
   * The row a hook writes for an action other than READ carries that action
   * and the configured resource type, and a payload exactly where the hook
   * passed one, keyed as that payload.
   */
  lemma HookEntry(cfg: AuditConfig, phiMixin: bool, t: Target, action: AuditAction, oldValues: Option<Dict>,
                  newValues: Option<Dict>, settings: seq<AuditSetting>, now: Moment, id: Id)
    requires action != READ
    ensures var e := BuildLog(HookRequest(cfg, phiMixin, t, action, oldValues, newValues), settings, now, id);
      e.action == action && e.resourceType == cfg.resourceType
      && (e.oldValues.None? <==> oldValues.None?) && (e.newValues.None? <==> newValues.None?)
      && (oldValues.Some? ==> Keys(e.oldValues.value) == Keys(oldValues.value))
  {
    var req := HookRequest(cfg, phiMixin, t, action, oldValues, newValues);
    if ShouldMaskData(req.organizationId, settings) {
      assert MaskSensitiveData(oldValues).None? <==> oldValues.None?;
    }
  }

  /**
   * `_audit_after_insert` and `_audit_after_delete`: the object's audit
   * values as the new (insert) or old (delete) payload.
   */
  method AfterInsert(store: AuditStore, cfg: AuditConfig, phiMixin: bool, t: Target, now: Moment)
    returns (r: Option<AuditLog>)
    requires store.Valid() && WellFormed(t)
    modifies store`logs, store`violations, store`pending, store`drawn
    ensures store.Valid() && store.pending == []
    ensures r.Some? ==> r.value.action == CREATE && r.value.oldValues.None? && r.value.newValues.Some?
                        && r.value.resourceType == cfg.resourceType
  {
    var values := GetAuditValues(cfg, t);
    r := CreateAuditLog(store, cfg, phiMixin, t, CREATE, None, Some(values), now);
    HookEntry(cfg, phiMixin, t, CREATE, None, Some(values), store.settings, now, if r.Some? then r.value.id else 0);
  }

  method AfterDelete(store: AuditStore, cfg: AuditConfig, phiMixin: bool, t: Target, now: Moment)
    returns (r: Option<AuditLog>)
    requires store.Valid() && WellFormed(t)
    modifies store`logs, store`violations, store`pending, store`drawn
    ensures store.Valid() && store.pending == []
    ensures r.Some? ==> r.value.action == DELETE && r.value.newValues.None? && r.value.oldValues.Some?
                        && r.value.resourceType == cfg.resourceType
  {
    var values := GetAuditValues(cfg, t);
    r := CreateAuditLog(store, cfg, phiMixin, t, DELETE, Some(values), None, now);
    HookEntry(cfg, phiMixin, t, DELETE, Some(values), None, store.settings, now, if r.Some? then r.value.id else 0);
  }

  /** The end of a mapper hook: it returns, or an exception escapes from it into the flush. */
  datatype HookOutcome = Completed | Failed(error: string)

  /** The error `getattr(cls, attr).property.history` raises: a column property has no `history`. */
  const NO_HISTORY: string := "AttributeError: 'ColumnProperty' object has no attribute 'history'"

  /**
   * `_audit_after_update` as written. Its loop starts every column with
   * `getattr(target.__class__, attr).property.history`, which raises, so for
   * a mapper with any column the hook fails before anything is audited and
   * the exception escapes into the flush of the update. Even past that
   * line, the "new" value is read from a copy of the object's own
   * `__dict__`, so it equals the "old" one and no row would be written.
   */
  method AfterUpdateAsWritten(cfg: AuditConfig, phiMixin: bool, t: Target) returns (outcome: HookOutcome)
    ensures t.columns != [] ==> outcome == Failed(NO_HISTORY)
    ensures t.columns == [] ==> outcome == Completed
  {
    if t.columns != [] {
      return Failed(NO_HISTORY);
    }
    var state := t.attrs;
    var oldValues, newValues := CollectChanges(cfg, t.columns, t.attrs, state);
    NoChangeAgainstItself(cfg, t.columns, t.attrs);
    if oldValues != [] || newValues != [] {
      assert false;
    }
    outcome := Completed;
  }

  /**
   * `_audit_after_update` with the attribute lookup that raises left out and
   * the old values taken from the attribute history (`committed`): it writes
   * an UPDATE exactly when some non-excluded column changed, recording just
   * the changed columns.
   */
  method AfterUpdate(store: AuditStore, cfg: AuditConfig, phiMixin: bool, t: Target, committed: Dict, now: Moment)
    returns (r: Option<AuditLog>)
    requires store.Valid()
    modifies store`logs, store`violations, store`pending, store`drawn
    ensures store.Valid()
    ensures ChangedColumns(cfg, t.columns, committed, t.attrs) == [] ==> r.None? && store.Tables() == old(store.Tables())
    ensures r.Some? ==> r.value.action == UPDATE && ChangedColumns(cfg, t.columns, committed, t.attrs) != []
    ensures r.Some? ==> r.value.oldValues.Some? && Keys(r.value.oldValues.value) == ChangedColumns(cfg, t.columns, committed, t.attrs)
  {
    var oldValues, newValues := CollectChanges(cfg, t.columns, committed, t.attrs);
    r := None;
    if oldValues != [] || newValues != [] {
      r := CreateAuditLog(store, cfg, phiMixin, t, UPDATE, Some(oldValues), Some(newValues), now);
      HookEntry(cfg, phiMixin, t, UPDATE, Some(oldValues), Some(newValues), store.settings, now, if r.Some? then r.value.id else 0);
    }
  }

  /**
   * `_create_audit_log` of `AuditMixin` or, for `phiMixin`, of
   * `PHIAuditMixin`, on its own session: `log_action` (or `log_phi_access`
   * for a PHI read), then the session is closed.
   */
  method CreateAuditLog(store: AuditStore, cfg: AuditConfig, phiMixin: bool, t: Target, action: AuditAction,
                        oldValues: Option<Dict>, newValues: Option<Dict>, now: Moment)
    returns (r: Option<AuditLog>)
    requires store.Valid()
    modifies store`logs, store`violations, store`pending, store`drawn
    ensures store.Valid()
    ensures var (e, s) := LogActionSpec(HookRequest(cfg, phiMixin, t, action, oldValues, newValues), now,
                                        store.settings, store.random, old(store.Tables()));
      r == e && store.Tables() == s.(pending := [])
    ensures r.Some? ==> r.value == BuildLog(HookRequest(cfg, phiMixin, t, action, oldValues, newValues), store.settings, now,
                                            |old(store.logs)|)
  {
    ghost var s0 := store.Tables();
    var req := HookRequest(cfg, phiMixin, t, action, oldValues, newValues);
    r := store.LogAction(req, now);
    LogActionWrites(req, now, store.settings, store.random, s0);
    store.Close();
  }
}
