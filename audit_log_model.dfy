/**
 * The audit tables: the data-classification and action enumerations, the
 * audit-log row with its column defaults, the per-organization audit
 * settings with their check constraints, exports and compliance violations.
 */
module AuditLogModel {
  import opened Common

  datatype DataClassification = PHI | PII | FINANCIAL | ADMINISTRATIVE | GENERAL

  const ALL_CLASSIFICATIONS: seq<DataClassification> := [PHI, PII, FINANCIAL, ADMINISTRATIVE, GENERAL]

  function ClassificationValue(c: DataClassification): string
  {
    match c
    case PHI => "phi"
    case PII => "pii"
    case FINANCIAL => "financial"
    case ADMINISTRATIVE => "administrative"
    case GENERAL => "general"
  }

  /** `DataClassification(s)`: the member whose value is `s`, if any. */
  function ParseClassification(s: string): (r: Option<DataClassification>)
    ensures r.Some? ==> ClassificationValue(r.value) == s
    ensures r.None? ==> forall c: DataClassification :: ClassificationValue(c) != s
  {
    if s == "phi" then Some(PHI)
    else if s == "pii" then Some(PII)
    else if s == "financial" then Some(FINANCIAL)
    else if s == "administrative" then Some(ADMINISTRATIVE)
    else if s == "general" then Some(GENERAL)
    else None
  }

  datatype AuditAction =
    | CREATE | READ | UPDATE | DELETE | LOGIN | LOGOUT | EXPORT | PRINT | SHARE
    | CONSENT_CHANGE | ACCESS_DENIED | CONFIGURATION_CHANGE | BREACH_DETECTED

  const ALL_ACTIONS: seq<AuditAction> :=
    [CREATE, READ, UPDATE, DELETE, LOGIN, LOGOUT, EXPORT, PRINT, SHARE,
     CONSENT_CHANGE, ACCESS_DENIED, CONFIGURATION_CHANGE, BREACH_DETECTED]

  function ActionValue(a: AuditAction): string
  {
    match a
    case CREATE => "create"
    case READ => "read"
    case UPDATE => "update"
    case DELETE => "delete"
    case LOGIN => "login"
    case LOGOUT => "logout"
    case EXPORT => "export"
    case PRINT => "print"
    case SHARE => "share"
    case CONSENT_CHANGE => "consent_change"
    case ACCESS_DENIED => "access_denied"
    case CONFIGURATION_CHANGE => "configuration_change"
    case BREACH_DETECTED => "breach_detected"
  }

  /** `AuditAction(s)`: the member whose value is `s`, if any. */
  function ParseAction(s: string): (r: Option<AuditAction>)
    ensures r.Some? ==> ActionValue(r.value) == s
    ensures r.None? ==> forall a: AuditAction :: ActionValue(a) != s
  {
    if s == "create" then Some(CREATE)
    else if s == "read" then Some(READ)
    else if s == "update" then Some(UPDATE)
    else if s == "delete" then Some(DELETE)
    else if s == "login" then Some(LOGIN)
    else if s == "logout" then Some(LOGOUT)
    else if s == "export" then Some(EXPORT)
    else if s == "print" then Some(PRINT)
    else if s == "share" then Some(SHARE)
    else if s == "consent_change" then Some(CONSENT_CHANGE)
    else if s == "access_denied" then Some(ACCESS_DENIED)
    else if s == "configuration_change" then Some(CONFIGURATION_CHANGE)
    else if s == "breach_detected" then Some(BREACH_DETECTED)
    else None
  }

  /** The classification has exactly 5 members, and parsing a member's value gives that member back. */
  lemma ClassificationsComplete()
    ensures |ALL_CLASSIFICATIONS| == 5
    ensures forall c: DataClassification :: c in ALL_CLASSIFICATIONS && ParseClassification(ClassificationValue(c)) == Some(c)
  {
    forall c: DataClassification
      ensures c in ALL_CLASSIFICATIONS && ParseClassification(ClassificationValue(c)) == Some(c)
    {
      match c
      case PHI => assert ALL_CLASSIFICATIONS[0] == c;
      case PII => assert ALL_CLASSIFICATIONS[1] == c;
      case FINANCIAL => assert ALL_CLASSIFICATIONS[2] == c;
      case ADMINISTRATIVE => assert ALL_CLASSIFICATIONS[3] == c;
      case GENERAL => assert ALL_CLASSIFICATIONS[4] == c;
    }
  }

  /** The action has exactly 13 members, all listed. */
  lemma ActionsComplete()
    ensures |ALL_ACTIONS| == 13
    ensures forall a: AuditAction :: a in ALL_ACTIONS
  {
    forall a: AuditAction ensures a in ALL_ACTIONS {
      assert ALL_ACTIONS[ActionOrdinal(a)] == a;
    }
  }

  /** Parsing a member's value gives that member back. */
  lemma ActionValuesParse()
    ensures forall a: AuditAction :: ParseAction(ActionValue(a)) == Some(a)
  {
    forall a: AuditAction ensures ParseAction(ActionValue(a)) == Some(a) {
      match a
      case CREATE =>
      case READ =>
      case UPDATE =>
      case DELETE =>
      case LOGIN =>
      case LOGOUT =>
      case EXPORT =>
      case PRINT =>
      case SHARE =>
      case CONSENT_CHANGE =>
      case ACCESS_DENIED =>
      case CONFIGURATION_CHANGE =>
      case BREACH_DETECTED =>
    }
  }

  /** The position of each action in the enumeration's declaration order. */
  function ActionOrdinal(a: AuditAction): nat
  {
    match a
    case CREATE => 0 case READ => 1 case UPDATE => 2 case DELETE => 3 case LOGIN => 4
    case LOGOUT => 5 case EXPORT => 6 case PRINT => 7 case SHARE => 8 case CONSENT_CHANGE => 9
    case ACCESS_DENIED => 10 case CONFIGURATION_CHANGE => 11 case BREACH_DETECTED => 12
  }

  /** Each action is listed once: the list is in declaration order. */
  lemma ActionsDistinct()
    ensures forall i, j :: 0 <= i < j < |ALL_ACTIONS| ==> ALL_ACTIONS[i] != ALL_ACTIONS[j]
  {
    forall i | 0 <= i < |ALL_ACTIONS| ensures ActionOrdinal(ALL_ACTIONS[i]) == i {
    }
  }

  /** One row of `audit_logs`. Optional JSON payloads are dicts. */
  datatype AuditLog = AuditLog(
    id: Id,
    organizationId: Option<Id>,
    userId: Option<Id>,
    action: AuditAction,
    resourceType: string,
    resourceId: Option<string>,
    resourceName: Option<string>,
    oldValues: Option<Dict>,
    newValues: Option<Value>,
    changesSummary: Option<string>,
    dataClassification: DataClassification,
    phiAccessed: bool,
    consentVerified: bool,
    ipAddress: Option<string>,
    userAgent: Option<string>,
    sessionId: Option<string>,
    requestId: Option<string>,
    httpMethod: Option<string>,
    endpoint: Option<string>,
    responseStatus: Option<int>,
    errorMessage: Option<string>,
    durationMs: Option<int>,
    createdAt: Moment)

  /**
   * The column defaults of `AuditLog` for the three compliance columns when
   * a constructor leaves them out: GENERAL, not PHI, consent verified.
   */
  function LogComplianceDefaults(classification: Option<DataClassification>, phi: Option<bool>, consent: Option<bool>)
    : (r: (DataClassification, bool, bool))
    ensures classification.None? ==> r.0 == GENERAL
    ensures phi.None? ==> !r.1
    ensures consent.None? ==> r.2
    ensures classification.Some? ==> r.0 == classification.value
    ensures phi.Some? ==> r.1 == phi.value
    ensures consent.Some? ==> r.2 == consent.value
  {
    (if classification.Some? then classification.value else GENERAL,
     if phi.Some? then phi.value else false,
     if consent.Some? then consent.value else true)
  }

  const MIN_RETENTION_DAYS: int := 2555

  /** One row of `audit_settings`. */
  datatype AuditSetting = AuditSetting(
    organizationId: Option<Id>,
    retentionDays: int,
    archiveAfterDays: int,
    enableAsyncLogging: bool,
    batchSize: int,
    samplingRate: int,
    alertOnPhiAccess: bool,
    alertOnBreach: bool,
    alertOnFailedLogin: bool,
    alertEmailAddresses: seq<string>,
    requireConsentVerification: bool,
    maskSensitiveData: bool,
    enableIntegrityCheck: bool,
    logReadOperations: bool,
    logAdministrativeActions: bool,
    logApiResponses: bool,
    updatedAt: Option<Moment>)

  /** The table's check constraints `check_min_retention` and `check_sampling_rate`. */
  predicate SettingConstraints(s: AuditSetting)
  {
    s.retentionDays >= MIN_RETENTION_DAYS && 0 <= s.samplingRate <= 100
  }

  /** A row holding every column default, for organization `org` (the column is nullable). */
  function DefaultAuditSetting(org: Option<Id>): (r: AuditSetting)
    ensures r.organizationId == org
    ensures SettingConstraints(r)
    ensures r.retentionDays == MIN_RETENTION_DAYS && r.samplingRate == 100
    ensures r.logReadOperations && r.maskSensitiveData && !r.logApiResponses
  {
    AuditSetting(org, 2555, 90, true, 100, 100, true, true, true, [], true, true, true, true, true, false, None)
  }

  /**
   * `organization_id` is unique in `audit_settings`; as in SQL, the
   * constraint does not apply to rows whose organization is NULL.
   */
  predicate OneSettingPerOrganization(settings: seq<AuditSetting>)
  {
    forall i, j :: 0 <= i < j < |settings| && settings[i].organizationId.Some? ==>
      settings[i].organizationId != settings[j].organizationId
  }

  /** One row of `audit_exports` (the `filters_applied` copy of the request's filters is not kept). */
  datatype AuditExport = AuditExport(
    id: Id,
    organizationId: Option<Id>,
    exportedBy: Id,
    exportFormat: string,
    dateFrom: Moment,
    dateTo: Moment,
    recordCount: int,
    filePath: Option<string>,
    fileSizeBytes: Option<int>,
    purpose: Option<string>,
    authorizedBy: Option<string>,
    externalAuditRef: Option<string>,
    createdAt: Moment,
    expiresAt: Option<Moment>)

  /** One row of `compliance_violations`. */
  datatype ComplianceViolation = ComplianceViolation(
    organizationId: Option<Id>,
    auditLogId: Id,
    violationType: string,
    severity: string,
    description: string,
    status: string,
    detectedAt: Moment,
    acknowledgedAt: Option<Moment>,
    acknowledgedBy: Option<Id>,
    resolutionNotes: Option<string>)

  /** A freshly detected violation: status "open", nothing acknowledged yet. */
  function NewViolation(org: Option<Id>, logId: Id, violationType: string, severity: string,
                        description: string, detectedAt: Moment): (r: ComplianceViolation)
    ensures r.status == "open"
    ensures r.acknowledgedAt.None? && r.acknowledgedBy.None? && r.resolutionNotes.None?
    ensures r.auditLogId == logId && r.violationType == violationType && r.severity == severity
  {
    ComplianceViolation(org, logId, violationType, severity, description, "open", detectedAt, None, None, None)
  }
}
