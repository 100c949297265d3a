# Starline backend model

Starline is a multi-tenant care-management backend. Organizations run it to keep client records, staff, schedules, time
clocks, training, notices and an audit trail of who touched protected health information (PHI). This project is a Dafny model of
the rules inside its request handlers. Each handler is modelled as a function or method over in-memory tables. The current
user, the request body, the clock and the random draws are explicit inputs.

How the model is laid out:

- One module per source file, named after it. `Common` holds the shared pieces: `Option`/`Result`, HTTP status codes,
  civil dates and times, and the list helpers that stand for SQL filters, counts, sorts and pages.
- Tables are `seq` fields of classes. `AuditSessionStore.AuditStore` holds the audit log, violations and settings.
  `SchedulingDb.Db` holds the scheduling tables. `IdentityDb.Directory` holds organizations, users, roles, permissions,
  sessions, clients and staff. Each workflow area keeps its own table in its own class: `Tasks.TaskBoard`,
  `Notices.NoticeBoard`, `Notifications.Inbox`, `Training.TrainingBoard`, `SpecialRequirements.RequirementBoard`,
  `Manager.TimeOffDesk` and `Manager.TrainingDesk`. Handlers that write are methods with `modifies` clauses, and each
  one's `ensures` states the whole new state. Read-only handlers are functions over the tables.
- An answer is a `Result`: `Ok(value)` or `Err(status, detail)` with the status code and detail text the handler raises.
  A handler's generic `except Exception` wrapper is `Handlers.Caught`, which turns an error into a 500 with the prefixed
  message.
- The source's session does not autoflush, so a query inside a handler sees only the rows committed before it. Audit
  violations that are added but never committed are dropped when the session closes.
- The audit pipeline is modelled in full: the middleware's path parsing and action map, the ORM hooks, and `log_action`
  with its classification, masking, change summary and sampling. It also covers the three compliance rules, the breach
  log and the audit API's queries, acknowledgement, exports and settings.
- The scheduling engine covers conflict detection, schedule copy and publication, the shift, appointment and
  availability handlers, recurrence expansion, the time clock with the weekly 40-hour overtime split, and the calendar
  with its iCalendar (RFC 5545) export.
- Identity covers token checks, role guards, `require_permission`, the login lockout, e-mail and reset codes, the
  password policy and history, role, user, client and staff administration, and the idempotent seeding of the database.
- The workflow handlers are tasks, help requests, notices, notifications, training, special requirements, the manager
  desk and the client portal. They are modelled as status machines over their tables.

Where verifying a natural contract showed that the code does not do what it evidently means to do, the model keeps both
versions. A member whose name ends in `AsWritten` follows the code, and a lemma exhibits the failing input. The corrected
member is what the rest of the model uses. Each such pair is listed under "## Findings".

## Model

| member | source | states |
|---|---|---|
| AuditLogModel.ParseClassification | app/models/audit_log.py:14-20 | parsing yields the member whose value is the text, and fails exactly when no member has that value |
| AuditLogModel.ParseAction | app/models/audit_log.py:23-37 | parsing yields the member whose value is the text, and fails exactly when no member has that value |
| AuditLogModel.ClassificationsComplete | app/models/audit_log.py:14-20 | the classification has exactly five members, all listed, and each member's value parses back to it |
| AuditLogModel.ActionsComplete | app/models/audit_log.py:23-37 | the action has exactly thirteen members, all listed |
| AuditLogModel.ActionValuesParse | app/models/audit_log.py:23-37 | each action's value parses back to that action |
| AuditLogModel.ActionsDistinct | app/models/audit_log.py:23-37 | no action is listed twice |
| AuditLogModel.LogComplianceDefaults | app/models/audit_log.py:60-62 | a row built without them is GENERAL, not PHI and consent-verified; given values are kept |
| AuditLogModel.DefaultAuditSetting | app/models/audit_log.py:129-168 | the column defaults: 2555 retention days, sampling 100, read logging and masking on, API responses off, within both check constraints |
| AuditLogModel.NewViolation | app/models/audit_log.py:175-194 | a new violation is open, unacknowledged, with no resolution notes, and carries the given row, type and severity |
| AuditSchemas.FirstIndex | app/schemas/audit.py:193 | the first position of the character, or None when it does not occur |
| AuditSchemas.LastIndex | app/schemas/audit.py:193 | the last position of the character, or None when it does not occur |
| AuditSchemas.MatchesEmailIsPattern | app/schemas/audit.py:193 | the single scan accepts exactly the addresses the pattern `[a-zA-Z0-9._%+-]+@[a-zA-Z0-9.-]+\.[a-zA-Z]{2,}` matches in full |
| AuditSchemas.EmailAcceptedIsPatternUpToNewline | app/schemas/audit.py:193-195 | `re.match` with `$` accepts exactly the pattern's addresses and those followed by one newline |
| AuditSchemas.ExampleAddressMatches | app/schemas/audit.py:193 | an ordinary address is in the pattern's language |
| AuditSchemas.EmailAcceptsTrailingNewline | app/schemas/audit.py:193-195 | an address is accepted both plain and with a trailing newline |
| AuditSchemas.EmailRejectsShortLabel | app/schemas/audit.py:193-195 | an address whose top-level label has one letter is rejected |
| AuditSchemas.ValidateEmails | app/schemas/audit.py:189-197 | None passes; a list passes unchanged exactly when every address is accepted; otherwise a 422 |
| AuditSchemas.FirstRejected | app/schemas/audit.py:194-196 | the first address the pattern rejects, None exactly when all are accepted |
| AuditSchemas.ValidateExportRequest | app/schemas/audit.py:229-239 | accepted unchanged exactly when start ≤ end ≤ now; a reversed range gives "end_date must be after start_date"; every refusal is a 422 |
| AuditSchemas.ValidateResolutionNotes | app/schemas/audit.py:304-306 | notes of 10 or more characters pass unchanged; shorter ones are a 422 |
| AuditSchemas.ValidateSeverity | app/schemas/audit.py:271 | a missing severity becomes "high"; a given one passes exactly when it is low, medium, high or critical; otherwise a 422 |
| AuditService.SerializeForJson | app/services/audit_service.py:27-40 | UUIDs become their text, datetimes their ISO text, enum members their value; dicts keep their keys and lists and tuples their length (tuples become lists); every other value is returned as it is |
| AuditService.SerializeDict | app/services/audit_service.py:112 | serialising an optional dict payload keeps None as None and keeps the keys of a dict |
| AuditService.SerializePayload | app/services/audit_service.py:113 | serialising a payload of any type keeps None as None and serialises a dict entry by entry |
| AuditService.SerializeMakesJson | app/services/audit_service.py:27-40 | a value built from JSON values, UUIDs, datetimes and enum members becomes JSON-compatible |
| AuditService.SerializeFixesJson | app/services/audit_service.py:27-40 | a JSON-compatible value is returned unchanged |
| AuditService.SerializeIdempotent | app/services/audit_service.py:27-40 | serialising twice gives the same value as serialising once |
| AuditService.ClassifyData | app/services/audit_service.py:389-404 | PHI exactly for the five PHI resource types, PII for user/staff/contact, FINANCIAL for billing/payment/invoice, ADMINISTRATIVE for organization/role/permission, GENERAL for every other type; the payloads play no part |
| AuditService.SetIfPresent | app/services/audit_service.py:415-416 | assigning to a present key replaces that entry only; the length and the other entries stay |
| AuditService.MaskFields | app/services/audit_service.py:414-416 | after the loop over the field names, each entry whose key is one of them shows the mask and every other entry is untouched |
| AuditService.MaskSensitiveData | app/services/audit_service.py:406-418 | None and an empty dict come back unchanged; otherwise the same keys in the same order, the six sensitive fields masked and the rest untouched |
| AuditService.MaskIdempotent | app/services/audit_service.py:406-418 | masking a masked payload changes nothing |
| AuditService.MaskFieldsTwice | app/services/audit_service.py:414-416 | running the field loop on its own result changes nothing |
| AuditService.MaskPayload | app/services/audit_service.py:406-418 | a dict payload is masked as a dict; any other payload the function returns for comes back as it is |
| AuditService.TextIsNotMaskable | app/services/audit_service.py:408-412 | a non-empty text payload reaches `data.copy()`, which a string lacks, so masking raises |
| AuditService.PlainListMasksToItself | app/services/audit_service.py:412-418 | a list payload with no sensitive field name among its items is copied and comes back equal to itself |
| AuditService.ChangeLine | app/services/audit_service.py:431 | a change line holds the arrow between the old and the new value |
| AuditService.ChangedKeys | app/services/audit_service.py:428-431 | exactly the keys of the new payload whose value differs from the old payload's value for that key (missing keys read as None) |
| AuditService.ChangeLines | app/services/audit_service.py:427-431 | one change line, holding an arrow, per changed key |
| AuditService.SummaryDetectsChanges | app/services/audit_service.py:426-432 | for an update with both payloads non-empty the summary is "No changes detected" exactly when every new value equals the old one; otherwise it starts with the first change line |
| AuditService.NoChangeLinesIffUnchanged | app/services/audit_service.py:427-432 | no change line exactly when every key of the new payload keeps its old value |
| AuditService.JoinedChangeLinesNotEmptySummary | app/services/audit_service.py:432 | joined change lines are never the text "No changes detected" and start with the first line |
| AuditService.SummaryOfOtherActions | app/services/audit_service.py:422-434 | "Record created" for CREATE, "Record deleted" for DELETE, "Performed <action> action" for any other action and for an update that lacks a payload |
| AuditService.DictPayload | app/services/audit_service.py:426-428 | a payload is seen as a dict exactly when it is present and a dict |
| AuditService.AsPayload | app/services/audit_service.py:58-59 | a dict payload passed to `log_action` is seen again as that dict, and None as None |
| AuditService.SettingsFor | app/services/audit_service.py:522-526 | the settings row returned belongs to the organization; None only when no row does |
| AuditService.ShouldLog | app/services/audit_service.py:368-387 | always log without an organization or without settings; otherwise drop a draw above a sampling rate below 100 and drop READ when read logging is off |
| AuditService.FullSamplingNeverDrops | app/services/audit_service.py:378-381 | with a sampling rate of 100 the draw never matters, and every action other than READ is logged |
| AuditService.ShouldMaskData | app/services/audit_service.py:528-534 | masking is off exactly when the organization has a settings row that turns it off |
| AuditService.BareRequest | app/services/audit_service.py:50-70 | a call of `log_action` with only the action and resource type leaves user, organization and status unset |
| AuditService.BuildLog | app/services/audit_service.py:102-147 | the row written: classification from the resource type, PHI flag exactly for PHI, consent always true, payloads masked when the settings ask and then serialised, the change summary of the stored payloads, and every passed field copied |
| AuditService.MaskKeepsSerializable | app/services/audit_service.py:406-418 | masking keeps a serialisable payload serialisable |
| AuditService.MaskFieldsSerializable | app/services/audit_service.py:414-416 | the field loop only writes strings, so it keeps a dict serialisable |
| AuditService.SerializedPayloadStorable | app/services/audit_service.py:112-150 | a serialised old payload built from serialisable values can be stored by the JSON column |
| AuditService.SerializedNewStorable | app/services/audit_service.py:107-113 | a serialisable new payload, masked or not, becomes JSON-compatible |
| AuditService.SerializablePayloadsAreStored | app/services/audit_service.py:107-150 | a request whose payloads are serialisable always produces a row the commit accepts |
| AuditService.DateEntryUnstorable | app/services/audit_service.py:27-40 | a `date` value is left as it is by serialisation, which is not JSON |
| AuditService.DatePayloadIsNotStored | app/services/audit_service.py:112-150 | a payload holding a `date` gives a row the JSON column refuses, so `log_action` rolls back |
| AuditService.PhiAccessRequest | app/services/audit_service.py:165-184 | a READ of resource type "phi_access" for the client, named "Client PHI - <data type>", with the data type and purpose as new values |
| AuditService.PhiAccessEntriesAreNotFlagged | app/services/audit_service.py:175-177 | the entries `log_phi_access` writes are classified GENERAL and not flagged as PHI, so no compliance rule is triggered by them |
| AuditService.BreachRequest | app/services/audit_service.py:199-207 | a BREACH_DETECTED request of the given resource type, the description as error message and no status |
| AuditService.CountPhiSince | app/services/audit_service.py:463-469 | the count of the user's PHI rows since the cut-off is at most the number of rows |
| AuditService.CountFailuresSince | app/services/audit_service.py:503-509 | the count of the user's rows with status 400 or more since the cut-off is at most the number of rows |
| AuditService.AfterHoursViolation | app/services/audit_service.py:485-493 | an open low-severity "after_hours_phi_access" violation pointing at the entry and its organization |
| AuditService.CountsGrowWithEntries | app/services/audit_service.py:463-509 | one more row can raise each rule's count by at most one and never lowers it |
| AuditService.OldEntriesDoNotCount | app/services/audit_service.py:467-507 | a row older than the window never changes either count |
| AuditService.AlertsFor | app/services/audit_service.py:536-553 | no alert without an organization; a PHI alert only for a PHI row, a failed-login alert only for a failing LOGIN row |
| AuditService.UserActivity | app/services/audit_service.py:226-246 | the user's rows in the period (and organization when given), newest first, as many as match up to `limit`; a matching row left out is no newer than any row returned, and when at most `limit` rows match every one of them is returned |
| AuditService.ResourceHistory | app/services/audit_service.py:248-265 | a permutation of the resource's rows (in the organization when given), newest first |
| AuditService.PhiAccessLogs | app/services/audit_service.py:267-289 | a permutation of the PHI rows matching the given client, organization and period, newest first |
| AuditService.DistinctUsers | app/services/audit_service.py:313-323 | the group keys: distinct user ids, each the id of some row, and every row's user among them |
| AuditService.UserBreakdown | app/services/audit_service.py:313-354 | one line per group, holding that user's row count and PHI row count |
| AuditService.ViolationLines | app/services/audit_service.py:355-364 | one line per violation with its type and status |
| AuditService.ComplianceReportOf | app/services/audit_service.py:291-366 | the total counts the organization's rows in the period; PHI and failure counts never exceed it; the violation count is the number of violations listed; each user line has PHI at most its total and no user appears twice |
| AuditService.PhiWithinTotal | app/services/audit_service.py:315-316 | a user's PHI count never exceeds the user's row count |
| AuditService.BreakdownCoversRows | app/services/audit_service.py:313-323 | with distinct groups covering every row, the line totals add up to the number of rows |
| AuditService.ReportTotalsAgree | app/services/audit_service.py:308-323 | in the report the per-user totals add up to the total activity count |
| AuditService.RuleBreachesAreInert | app/services/audit_service.py:472-520 | the breach entries the two rules log are of resource types "phi_access" and "authentication", not PHI, with no status, so they cannot trigger a rule in turn |
| AuditService.BreachEntry | app/services/audit_service.py:199-207 | the breach row: BREACH_DETECTED, no payloads, the description as error message, no status, the given user |
| AuditService.BreachRequestIsStored | app/services/audit_service.py:199-207 | a breach request has no payload, so it is always processed, becomes its breach row and is stored |
| AuditService.AfterDraw | app/services/audit_service.py:378-381 | drawing the sampling number changes no table |
| AuditService.LogActionSpec | app/services/audit_service.py:97-163 | `log_action` keeps the session consistent: row ids are positions and every violation is open |
| AuditService.WriteSpec | app/services/audit_service.py:102-163 | after the sampling decision, the write keeps the session consistent |
| AuditService.CommitSpec | app/services/audit_service.py:149-153 | the commit of a row with the pending violations, then the rules, keeps the session consistent |
| AuditService.LogActionOutcome | app/services/audit_service.py:97-163 | the tables only grow; None exactly when the entry is not sampled, cannot be processed or cannot be stored; an entry not sampled changes nothing; a None leaves logs and violations and, after sampling, drops the pending violations |
| AuditService.LogActionWrites | app/services/audit_service.py:124-158 | a written entry is the row built from the request at the next position, committed with the pending violations; an entry that cannot trigger a rule adds only itself |
| AuditService.CommitBreach | app/services/audit_service.py:209-221 | the violation commit of `log_breach_attempt` keeps the session consistent |
| AuditService.LogBreachSpec | app/services/audit_service.py:186-224 | `log_breach_attempt` keeps the session consistent |
| AuditService.BreachSpec | app/services/audit_service.py:186-224 | the breach as the rules use it keeps the session consistent |
| AuditService.BreachSpecOutcome | app/services/audit_service.py:199-221 | a breach either changes no table, when sampling drops it, or commits the breach row at the next position, the pending violations and a violation pointing at that row |
| AuditService.BreachSpecIsLogged | app/services/audit_service.py:199-221 | for a non-PHI resource type the breach row cannot trigger a rule, so `log_breach_attempt` has exactly the effect of the breach step |
| AuditService.ComplianceSpec | app/services/audit_service.py:442-454 | the three rules in order keep the session consistent |
| AuditService.ComplianceOutcome | app/services/audit_service.py:442-454 | the rules only grow the tables, and an entry that is neither PHI nor after hours nor failing changes nothing |
| AuditService.AfterHoursRecorded | app/services/audit_service.py:449-494 | a PHI entry outside 06:00-22:59 leaves its after-hours violation committed or pending after the rules |
| AuditService.Grows | app/services/audit_service.py:442-454 | a rule step only grows the committed tables |
| AuditService.PhiRuleSpec | app/services/audit_service.py:456-480 | the PHI-volume rule keeps the session consistent |
| AuditService.PhiRuleOutcome | app/services/audit_service.py:456-480 | the PHI-volume rule is a step that changes nothing unless more than 50 PHI rows in the last hour and sampling keeps the breach |
| AuditService.PhiRuleFires | app/services/audit_service.py:471-480 | when it fires, it commits a breach row of type "phi_access", the pending violations and a medium "excessive_phi_access" violation naming the count |
| AuditService.FlagSpec | app/services/audit_service.py:482-494 | the after-hours flag adds its violation to the pending list for a PHI entry only, and commits nothing |
| AuditService.FailedRuleSpec | app/services/audit_service.py:496-520 | the repeated-failure rule keeps the session consistent |
| AuditService.FailedRuleOutcome | app/services/audit_service.py:496-520 | the repeated-failure rule is a step that changes nothing unless more than 5 failing rows in 15 minutes and sampling keeps the breach |
| AuditService.FailedRuleFires | app/services/audit_service.py:511-520 | when it fires, it commits a breach row of type "authentication" with the IP address, the pending violations and a high "multiple_failed_attempts" violation naming the count |
| AuditSessionStore.AuditStore.constructor | app/services/audit_service.py:46-48 | a new service starts with empty tables and the given settings and random source |
| AuditSessionStore.AuditStore.Close | app/middleware/audit_middleware.py:198-199 | closing the session drops what was added and not committed |
| AuditSessionStore.AuditStore.ShouldLogAction | app/services/audit_service.py:368-387 | the answer is the sampling decision on the next draw, and the draw changes no table |
| AuditSessionStore.AuditStore.LogAction | app/services/audit_service.py:50-163 | the result and the new tables are those `LogActionSpec` gives |
| AuditSessionStore.AuditStore.Write | app/services/audit_service.py:102-163 | the result and the new tables are those of the write step |
| AuditSessionStore.AuditStore.Commit | app/services/audit_service.py:149-153 | the new tables are those of the commit step |
| AuditSessionStore.AuditStore.LogPhiAccess | app/services/audit_service.py:165-184 | a written PHI-access row is never flagged PHI and is the only row added; violations only gain the pending ones |
| AuditSessionStore.AuditStore.LogBreachAttempt | app/services/audit_service.py:186-224 | the new tables are those of `log_breach_attempt`, and for a non-PHI type those of the breach step |
| AuditSessionStore.AuditStore.RecordViolation | app/services/audit_service.py:209-221 | the violation is committed only when the entry was written |
| AuditSessionStore.AuditStore.CheckComplianceViolations | app/services/audit_service.py:442-454 | the new tables are those of the three rules in order |
| AuditSessionStore.AuditStore.CheckUnusualPhiAccess | app/services/audit_service.py:456-480 | the new tables are those of the PHI-volume rule |
| AuditSessionStore.AuditStore.FlagAfterHoursAccess | app/services/audit_service.py:482-494 | the new tables are those of the after-hours flag |
| AuditSessionStore.AuditStore.CheckFailedAttempts | app/services/audit_service.py:496-520 | the new tables are those of the repeated-failure rule |
| AuditApi.ParseEnumFilters | app/api/v1/audit.py:69-96 | an action or classification string outside its enumeration is answered with 400 naming the value, the action checked first; otherwise each given filter parses to the member whose value is that string |
| AuditApi.ListAuditLogs | app/api/v1/audit.py:28-109 | 422 for a limit outside 1..1000 and 400 for an unknown enum filter, and no other error; otherwise the total is the number of matching rows, and the page is the matching rows newest first from position skip, at most limit of them |
| AuditApi.ListedLogsAreScoped | app/api/v1/audit.py:56-57 | a page holds at most limit rows, newest first, each a stored row that passes every filter; for a caller who is not super_admin each belongs to the caller's organization |
| AuditApi.GetAuditLog | app/api/v1/audit.py:112-135 | on the corrected route: the row with the id if the caller's tenant holds it, and 404 "Audit log not found" exactly when no such row exists |
| AuditApi.DaysAgo | app/api/v1/audit.py:149 | the moment lies exactly days × 86400 seconds before now |
| AuditApi.UserActivityEndpoint | app/api/v1/audit.py:138-159 | an error exactly for days outside 1..365 or limit outside 1..1000; otherwise at most limit rows, newest first, each a row of the user from the last days days, within the caller's organization when the caller is not super_admin and has one; a matching row left out is no newer than any row returned, and a page shorter than limit holds every matching row |
| AuditApi.ResourceHistoryEndpoint | app/api/v1/audit.py:162-180 | exactly the rows of the resource within the service scope, newest first; for a caller who is not super_admin and has an organization, only that organization's rows |
| AuditApi.PhiAccessEndpoint | app/api/v1/audit.py:183-203 | an error exactly for days or limit out of bounds; otherwise at most limit PHI rows of the last days days, newest first, scoped to the caller's organization when the caller is not super_admin and has one; a matching row left out is no newer than any row returned, and a page shorter than limit holds every matching row |
| AuditApi.OrganizationlessCallerSeesOtherTenants | app/api/v1/audit.py:172 | a caller who is not super_admin but has no organization is given no scope, so the resource history shows a row of another organization that the tenant filter of get_audit_logs would hide |
| AuditApi.ComplianceReportEndpoint | app/api/v1/audit.py:206-231 | on the corrected route: 400 exactly for a super_admin without an organization; otherwise the report is of the caller's organization and counts its rows in the period |
| AuditApi.ListViolations | app/api/v1/audit.py:234-265 | on the corrected route: an error exactly for days out of bounds; otherwise every matching violation of the tenant from the last days days, newest first, as many as match, each passing the status and severity filters |
| AuditApi.Acknowledged | app/api/v1/audit.py:289-292 | an acknowledged row has status "acknowledged", the time, the acknowledger and the notes, and keeps every other field, whatever its former status |
| AuditApi.AcknowledgeOverwrites | app/api/v1/audit.py:289-292 | acknowledging twice leaves the row as the second acknowledgement made it |
| AuditApi.ValidateRows | app/schemas/audit.py:57-60 | a list response as written passes exactly when it is empty; an error is kept, and a list holding a row becomes a 500 |
| AuditApi.ListAuditLogsAsWritten | app/api/v1/audit.py:104-109 | as written, the request errors of get_audit_logs are kept and an empty page is served, while a page holding a row is answered 500 |
| AuditApi.GetAuditLogAsWritten | app/api/v1/audit.py:112-135 | as written, get_audit_log never succeeds: 404 exactly when the intended route gives 404, and 500 for a row it finds |
| AuditApi.UserActivityAsWritten | app/api/v1/audit.py:138-159 | as written, get_user_activity succeeds exactly when the intended answer is an empty list; with valid bounds any other answer is 500 |
| AuditApi.ResourceHistoryAsWritten | app/api/v1/audit.py:162-180 | as written, get_resource_history succeeds, with an empty list, exactly when no row of the resource lies in the scope, and answers 500 otherwise |
| AuditApi.PhiAccessAsWritten | app/api/v1/audit.py:183-203 | as written, get_phi_access_logs succeeds exactly when the intended answer is an empty list; with valid bounds any other answer is 500 |
| AuditApi.ListViolationsAsWritten | app/api/v1/audit.py:234-265 | as written, get_compliance_violations succeeds exactly when days is in bounds and no stored violation matches; with days in bounds any other answer is 500 |
| AuditApi.ComplianceReportAsWritten | app/api/v1/audit.py:206-231 | as written, generate_compliance_report never succeeds: 400 exactly when the intended route gives 400, and 500 otherwise |
| AuditApi.ReportIsRefused | app/schemas/audit.py:134-142 | any caller except a super_admin without an organization gets a report from the intended route, and a 500 from the route as written |
| AuditApi.FetchedLogIsRefused | app/schemas/audit.py:57-60 | a stored row of the caller's own organization is served by the intended get_audit_log and answered 500 as written |
| AuditApi.ListedViolationIsRefused | app/schemas/audit.py:97-101 | a violation of the caller's organization detected now is listed by the intended route and answered 500 as written |
| AuditApi.ExportStatusText | app/api/v1/audit.py:421 | the status is "completed" exactly when a file path is set, and "processing" otherwise |
| AuditApi.FindExport | app/api/v1/audit.py:409-414 | the position found holds the export with the id in the caller's tenant, and none is found exactly when no such export exists |
| AuditApi.ExportStatus | app/api/v1/audit.py:402-430 | 404 "Export not found" exactly outside the tenant; otherwise the view reports the id, the record count and "completed" exactly when a file path is set |
| AuditApi.DownloadExport | app/api/v1/audit.py:433-467 | 404 outside the tenant, 400 while no file is recorded, 410 once expires_at is before now, and otherwise the recorded path, in that order of checks |
| AuditApi.Utf8Length | app/api/v1/audit.py:508 | the UTF-8 size of a text lies between its length and four times its length |
| AuditApi.ExportPath | app/api/v1/audit.py:507 | the export path is never empty, so a completed export counts as having a file |
| AuditApi.Completed | app/api/v1/audit.py:511-517 | the completed export records the path, the size, the count and an expiry exactly seven days after now, keeping its id, organization and creation time |
| AuditApi.CompletedExportDownloadWindow | app/api/v1/audit.py:452-467 | a completed export can be downloaded, returning its path, until its seven days have passed, and is answered 410 afterwards |
| AuditApi.CsvCells | app/api/v1/audit.py:538-550 | a row gives eleven cells, as many as the header: its id, its ISO time, its action value, its resource type, its PHI flag as True/False; the user cell is empty exactly when there is no user and the status cell exactly when the status is missing or 0 |
| AuditApi.DoubleQuotes | app/api/v1/audit.py:528 | doubling the quotes of a cell never shortens it |
| AuditApi.CsvField | app/api/v1/audit.py:528 | a cell holding a comma, a quote, CR or LF is written between quotes; any other cell is written as it is |
| AuditApi.UndoubleDoubled | app/api/v1/audit.py:528 | reading the doubled quotes back gives the original text |
| AuditApi.CsvFieldRoundTrip | app/api/v1/audit.py:528 | every cell reads back as written, so the quoting loses nothing |
| AuditApi.CsvLine | app/api/v1/audit.py:528 | every record ends with CRLF, the excel dialect's line end |
| AuditApi.CsvRecords | app/api/v1/audit.py:531-550 | the export is the header followed by exactly one record per row, in the rows' order, each eleven cells wide |
| AuditApi.GenerateCsvExport | app/api/v1/audit.py:525-552 | the text the loop writes is the CSV text of the header and one record per row |
| AuditApi.CsvTextStep | app/api/v1/audit.py:536-550 | writing one more row appends exactly that row's record line to the text |
| AuditApi.ApplySettingsUpdate | app/api/v1/audit.py:347-351 | only the fields that were sent change, each to the value sent; the organization is kept and updated_at becomes now |
| AuditApi.ValidUpdateKeepsConstraints | app/api/v1/audit.py:325-355 | an update the request schema accepts keeps the settings row within the table's check constraints |
| AuditApi.EmptySettingsUpdate | app/api/v1/audit.py:347-351 | an update that sends no field changes nothing but the timestamp |
| AuditApi.SettingsForIsFirstMatch | app/api/v1/audit.py:311-313 | the settings row found is the first row of the organization, and one is found exactly when such a row exists |
| AuditApi.AuditTables.constructor | app/api/v1/audit.py:28 | the tables start with the given logs and violations and with no exports and no settings |
| AuditApi.AuditTables.AcknowledgeViolation | app/api/v1/audit.py:268-296 | 404 "Violation not found" exactly when the caller's tenant holds no such violation, changing nothing; otherwise only that row changes, to its acknowledged form |
| AuditApi.AuditTables.GetAuditSettings | app/api/v1/audit.py:299-322 | on the corrected route: 400 exactly for a super_admin without an organization; otherwise the organization's existing row unchanged, or a new row with every default appended when there was none |
| AuditApi.AuditTables.UpdateAuditSettings | app/api/v1/audit.py:325-355 | 400 exactly for a super_admin without an organization; otherwise the row (existing, or created with the defaults) with only the sent fields changed, keeping the check constraints; a missing row is appended and nothing else is added, while an existing row is the only row that changes |
| AuditApi.AuditTables.GetAuditSettingsAsWritten | app/api/v1/audit.py:299-322 | as written the read never succeeds: 400 exactly for a super_admin without an organization, otherwise 500, after committing the default row when the organization had none |
| AuditApi.AuditTables.UpdateAuditSettingsAsWritten | app/api/v1/audit.py:325-355 | as written the update is committed exactly as intended (the missing row appended, or only the organization's row changed) and the answer is then 500; 400 for a super_admin without an organization, changing nothing |
| AuditApi.AuditTables.CreateExport | app/api/v1/audit.py:358-399 | a new export row with the request's period and purpose and no records is appended, and is reported as "processing" |
| AuditApi.AuditTables.ProcessAuditExport | app/api/v1/audit.py:470-522 | the organization's matching rows, oldest first, are rendered as CSV or JSON and the export row records the path, the UTF-8 size, the number of matching rows and a seven-day expiry; a PDF request or an unknown id changes nothing |
| AuditMiddleware.ExcludePaths | app/middleware/audit_middleware.py:28-33 | an absent or empty configured list falls back to the five default prefixes; any other list is used as given |
| AuditMiddleware.AuditListingIsExcluded | app/middleware/audit_middleware.py:30-32 | every path under /api/v1/audit/logs is excluded by the defaults, so reading the audit log does not add to it |
| AuditMiddleware.ClientIp | app/middleware/audit_middleware.py:132-146 | the first element of a non-empty X-Forwarded-For, stripped; else a non-empty X-Real-IP; else the client host; else "unknown" |
| AuditMiddleware.ForwardedIpHasNoComma | app/middleware/audit_middleware.py:135-138 | the address taken from a forwarded chain never contains a comma |
| AuditMiddleware.ActionForMethod | app/middleware/audit_middleware.py:162-169 | GET reads, POST creates, PUT and PATCH update, DELETE deletes, and any other method counts as a read |
| AuditMiddleware.OnlyWritesAreNotReads | app/middleware/audit_middleware.py:162-169 | a request is logged as something other than a read exactly when its method is POST, PUT, PATCH or DELETE |
| AuditMiddleware.PathParts | app/middleware/audit_middleware.py:212 | the segments of a path are the non-empty pieces between slashes, none holding a slash |
| AuditMiddleware.MapResourceType | app/middleware/audit_middleware.py:239-253 | each of the eleven segments maps to its resource type (auth to authentication, clients to client, incidents to incident_report, …) and any other segment is kept as it is |
| AuditMiddleware.FirstPresentName | app/middleware/audit_middleware.py:232-236 | no name exactly when the body has none of the name fields; otherwise the text of the body's value for one of them |
| AuditMiddleware.ApiRelative | app/middleware/audit_middleware.py:214-216 | a leading "api", "v1" pair is dropped only when both are present |
| AuditMiddleware.ResourceOf | app/middleware/audit_middleware.py:204-259 | an empty relative path gives type "unknown"; otherwise the mapped first segment; the id is set exactly when a second segment looks like a UUID (36 characters, four dashes); a name only comes from a dict body |
| AuditMiddleware.ExtractResourceInfo | app/middleware/audit_middleware.py:204-259 | the loop over the path and the name fields computes exactly the resource information specified |
| AuditMiddleware.FindBodyName | app/middleware/audit_middleware.py:232-236 | the loop stops at the first name field the body holds and returns its value's text, or nothing |
| AuditMiddleware.VersionedEntityPath | app/middleware/audit_middleware.py:215-227 | a path /api/v1/segment/uuid names the mapped type of the segment and the UUID |
| AuditMiddleware.PhiSegmentsMapToPhiTypes | app/middleware/audit_middleware.py:239-253 | request logs under clients are classified PHI and under users PII, through the renaming of their segments |
| AuditMiddleware.ErrorMessageFor | app/middleware/audit_middleware.py:175-177 | an error message is recorded exactly for statuses of 400 and more, as "HTTP <status> error" |
| AuditMiddleware.CapturedBody | app/middleware/audit_middleware.py:99-111 | no body for reads or an empty body; the decoded JSON when it parses, else the text cut to its first 1000 characters |
| AuditMiddleware.MiddlewareRequest | app/middleware/audit_middleware.py:180-197 | the logged action follows the method, the resource follows the path, the status is recorded with an error message exactly from 400, no old values, and the body as new values except for reads |
| AuditMiddleware.Dispatch | app/middleware/audit_middleware.py:35-71 | an excluded path leaves the audit tables alone; any other request goes through log_action, and closing the session drops what it left uncommitted |
| AuditMiddleware.TextBodyIsNotAudited | app/middleware/audit_middleware.py:109 | a non-empty text body of a write request, for an organization that masks data, makes masking fail, so no row and no violation is written |
| AuditMiddleware.ListBodyStoredAsIs | app/middleware/audit_middleware.py:188 | a JSON list body without sensitive field names is written to the row unchanged, masked or not |
| AuditMiddleware.WrapperRequest | app/middleware/audit_middleware.py:331-340 | the decorator logs the function's name and its arguments cut to 500 characters, with status 500 when the error message is non-empty and 200 otherwise |
| AuditMiddleware.AuditedCall | app/middleware/audit_middleware.py:296-347 | the wrapper returns the function's value or re-raises its exception unchanged; the tables only grow, and a row written records status 500 for a non-empty error and 200 otherwise |
| AuditMiddleware.OrganizationlessRequest | app/middleware/audit_middleware.py:84-95 | a request whose token carries no organization, as every token this system issues, is always logged, always masked, logged without an organization, and raises no organization alert |
| AuditMixins.MixinDefaults | app/core/audit_mixins.py:22-25 | a class that does not override the mixin's settings audits as type "unknown", with no PHI fields and the three default exclusions |
| AuditMixins.DecoratorConfig | app/core/audit_mixins.py:258-262 | the decorator installs the given resource type, the given PHI fields or none, and the given exclusions followed by the three defaults, so the defaults are always excluded |
| AuditMixins.SerializeValue | app/core/audit_mixins.py:142-152 | None stays None, dates and datetimes become their ISO text, enum members and other objects their text, and every other value is kept |
| AuditMixins.SerializeValueIdempotent | app/core/audit_mixins.py:142-152 | serialising a serialised value changes nothing |
| AuditMixins.AuditValues | app/core/audit_mixins.py:128-140 | the audit values are keyed by exactly the non-excluded columns, in table order, each holding the serialised attribute |
| AuditMixins.GetAuditValues | app/core/audit_mixins.py:128-140 | the loop over the table's columns builds exactly those audit values, each key a column that is not excluded |
| AuditMixins.FirstTruthy | app/core/audit_mixins.py:160-164 | the position found is the first name field present with a truthy value, and none is found exactly when no such field exists |
| AuditMixins.ResourceName | app/core/audit_mixins.py:154-170 | the text of the first truthy name attribute; otherwise "<resource type>:<id>" when the object has an id; otherwise no name |
| AuditMixins.ContainsPhi | app/core/audit_mixins.py:172-187 | never PHI without configured PHI fields; otherwise PHI exactly when a truthy payload holds a configured PHI field as a key |
| AuditMixins.AnyFieldIn | app/core/audit_mixins.py:181-185 | the loop over the fields finds a match exactly when the payload mentions one of them |
| AuditMixins.ResourceIdOf | app/core/audit_mixins.py:100 | a resource id is recorded exactly when the object has an id attribute |
| AuditMixins.OrganizationOf | app/core/audit_mixins.py:102 | an organization is recorded only when the object has an organization_id attribute |
| AuditMixins.MixinRequest | app/core/audit_mixins.py:85-126 | the row is written with the given action, the configured type, the object's id, name and organization, both payloads as given, no user, and metadata naming the class, the PHI flag and the "model_trigger" source |
| AuditMixins.PhiMixinRequest | app/core/audit_mixins.py:196-246 | a READ goes to log_phi_access for the "Model access" purpose, with the client id only for the client type; any other action is logged with both payloads and metadata marking PHI data from "phi_model_trigger" |
| AuditMixins.ManualPhiAccessRequest | app/core/audit_mixins.py:284-322 | a PHI read of type "phi_access"; the client id is the object's own id for the client type or for an object without audit settings; the data type is the configured type or the lower-cased class name |
| AuditMixins.ChangedColumns | app/core/audit_mixins.py:55-65 | exactly the non-excluded columns present in both views whose values differ, in column order |
| AuditMixins.ChangeEntriesMeaning | app/core/audit_mixins.py:62-65 | the change payload is keyed by exactly the changed columns and carries the serialised values of the view it was taken from |
| AuditMixins.CollectChanges | app/core/audit_mixins.py:47-65 | the loop records, for exactly the changed columns, the serialised old and new values |
| AuditMixins.NoChangeAgainstItself | app/core/audit_mixins.py:62 | comparing an object's values with themselves finds no change |
| AuditMixins.HookRequest | app/core/audit_mixins.py:85-126 | for an action other than READ, either mixin logs the given action, the configured type and the given payloads |
| AuditMixins.HookEntry | app/core/audit_mixins.py:107-120 | the row a hook writes for an action other than READ carries that action and type, and a payload exactly where the hook passed one, with the same keys |
| AuditMixins.AfterInsert | app/core/audit_mixins.py:34-42 | a row written after an insert is a CREATE of the configured type, with the audit values as new values and no old values |
| AuditMixins.AfterDelete | app/core/audit_mixins.py:75-83 | a row written after a delete is a DELETE of the configured type, with the audit values as old values and no new values |
| AuditMixins.AfterUpdateAsWritten | app/core/audit_mixins.py:44-73 | the hook fails at the first column with an AttributeError, before any row is written; only a mapper without columns completes |
| AuditMixins.AfterUpdate | app/core/audit_mixins.py:44-73 | in the corrected mixin: nothing is written when no non-excluded column changed; otherwise an UPDATE whose old values are keyed by exactly the changed columns |
| AuditMixins.CreateAuditLog | app/core/audit_mixins.py:85-126 | the hook's request goes through log_action (log_phi_access for a PHI read) on its own session, and closing it drops what it left uncommitted; a row written is the one log_action builds |
| Common.AppendNoteEndsWithLine | app/api/v1/scheduling/router.py:661 | a remark appended to a notes column with no whitespace at its ends always ends the stripped notes, and is the whole of them when the notes were absent or blank |
| Common.PageCount | app/api/v1/scheduling/router.py:231 | the page count is the least number of pages of limit items that holds every item |
| Common.PageOf | app/api/v1/scheduling/router.py:236 | the 1-based page of an offset is the one whose range of limit positions contains it |
| Common.Paginate | app/api/v1/scheduling/router.py:225-240 | the page holds the window of at most limit rows starting at skip, with the total of all rows, the page number of skip and the page count |
| Common.SortedPage | app/api/v1/scheduling/router.py:225-240 | a page of the matching rows in ascending order holds only stored matching rows, still in that order, and its total counts every match |
| Common.Window | app/api/v1/scheduling/router.py:229 | the window holds the rows from position skip on, at most limit of them, as many as remain |
| Common.PyIntOfDigits | app/api/v1/staff/router.py:54 | int() of a run of digits is its decimal value |
| Common.ZeroPad | app/api/v1/staff/router.py:61 | the zero-padded text is all digits, at least width long, and exactly the number's text when that is already long enough |
| Common.DigitsValueOfZeroPad | app/api/v1/staff/router.py:54-61 | reading a zero-padded number back gives the number |
| Common.DigitsValueOfNatToString | app/api/v1/staff/router.py:54-61 | reading a number's decimal text back gives the number |
| Common.DateTimeIso | app/services/audit_service.py:32 | the ISO text of a datetime begins with the ISO text of its date and a "T" |
| Handlers.Caught | app/api/v1/notifications.py:106-110 | an HTTPException raised inside a handler's try is caught by its generic except and answered with 500, its detail being the prefix, the inner status and the inner detail |
| Handlers.FilterSplits | app/api/v1/roles/router.py:89-91 | a filter and its complement split the rows between them and lose none |
| Handlers.CountDisjoint | app/api/v1/notifications.py:100-104 | two filters no row satisfies together count, added, as their disjunction |
| IdentityModel.StatusValue | app/models/user.py:9-13 | each account status has a non-empty stored value |
| IdentityModel.NewAccount | app/models/user.py:54-86 | a new account carries the given key, e-mail, organization, role, hash and status, and the column defaults: not verified, no failed attempts, no lockout, no forced change, no custom permissions, no reset token and no code |
| IdentityModel.FindAccount | app/core/dependencies.py:31 | an account is found exactly when one with the key exists, and it is a stored account with that key |
| IdentityModel.UniqueKeyFinds | app/core/dependencies.py:31 | with unique keys, looking an account up by its own key finds that very account |
| IdentityModel.ParseId | app/core/dependencies.py:19-31 | a subject names a key only when it is all digits |
| IdentityModel.ParseIdText | app/core/dependencies.py:19-31 | the text of a key, as a token carries it, reads back as that key |
| IdentityModel.FindByEmail | app/api/v1/auth/login.py:176 | the position found is the first account with the e-mail, and none is found exactly when no account has it |
| IdentityModel.RoleOf | app/models/user.py:88 | an account's role is the role row its role key names, and there is none exactly when it has no role key or no row has it |
| IdentityModel.Resolve | app/api/v1/roles/router.py:89-91 | the rows loaded for a list of permission keys are exactly the catalog rows whose key is in the list, each once |
| IdentityModel.KeySetSize | app/api/v1/roles/router.py:92 | a list holds at most as many keys as it is long, and exactly as many when no key repeats |
| IdentityModel.FilterKeepsKeysUnique | app/api/v1/roles/router.py:89-91 | filtering a catalog with unique keys keeps its keys unique |
| IdentityModel.ResolvedKeys | app/api/v1/roles/router.py:89-91 | the keys loaded are distinct and are exactly the requested keys the catalog holds |
| IdentityModel.AllResolveIffSubset | app/api/v1/roles/router.py:92 | every requested key names a catalog row exactly when the requested set lies within the catalog's keys |
| IdentityModel.ResolvesAll | app/api/v1/roles/router.py:88-96 | the test that as many rows load as keys were sent passes exactly when the keys are distinct and all name catalog rows, so a repeated key is refused like an unknown one |
| IdentityDb.Directory.constructor | app/models/user.py:33-162 | the tables start with the given organizations, accounts, roles and catalog, and every other table empty |
| IdentityDb.FreshKey | app/models/user.py:57 | a new key is above every key the table holds, so it is fresh |
| IdentityDb.NewEvent | app/models/user.py:139-152 | an authentication event records the account, the action, the outcome, the error and the request's address and user agent |
| IdentityDb.AccountIndex | app/core/dependencies.py:31 | the position found holds the account with the key, the one the lookup finds, and there is none exactly when the lookup finds none |
| AuthMiddleware.GetCurrentUser | app/middleware/auth.py:14-79 | refuses, in order, an undecodable token (401), claims without sub or type or with a fractional expiry (500), a token that is not an access token (401), a token with no unrevoked session (401); an account returned is stored, active, and owns an unrevoked, unexpired session with the token; a 403 names the inactive status |
| AuthMiddleware.AcceptsTheSessionsAccount | app/middleware/auth.py:45-79 | for the one live session of an access token, the dependency accepts exactly when the session is unexpired and its account exists and is active, and then returns that account |
| AuthMiddleware.GetCurrentActiveUser | app/middleware/auth.py:81-89 | accepts exactly the authenticated accounts whose e-mail is verified, passes other errors on, and refuses an unverified one with 403 |
| AuthMiddleware.PermissionCheck | app/middleware/auth.py:91-115 | accepts exactly when the account's role holds a permission with this resource and action, returning the account; 403 without a role and 403 naming the permission otherwise |
| AuthMiddleware.RequirePermission | app/middleware/auth.py:91-115 | accepts exactly an active, verified account whose role grants the permission; an authentication error is passed on unchanged |
| AuthMiddleware.CustomPermissionsNeverConsulted | app/middleware/auth.py:100-106 | the custom-permission flag and list of an account never change whether the permission check accepts |
| AuthMiddleware.GetOptionalCurrentUser | app/middleware/auth.py:117-127 | no credentials and every HTTP error give no account; an accepted token gives its account; it fails exactly for claims without sub or type or with a fractional expiry |
| AuthMiddleware.OptionalUserNeverFailsOnIssuedTokens | app/middleware/auth.py:117-127 | for a token whose claims carry sub, type and a whole expiry (every access and refresh token this system issues) the optional dependency never fails |
| Security.Lifetime | app/core/security.py:15-18 | a token lives for the given delta when it is truthy, and otherwise for the default, a zero delta included |
| Security.AccessClaims | app/core/security.py:12-27 | an access token names its subject, has type "access" and expires its lifetime after now, 30 minutes by default, as a whole number of seconds |
| Security.RefreshClaims | app/core/security.py:29-44 | a refresh token names its subject, has type "refresh" and expires its lifetime after now, seven days by default, as a whole number of seconds |
| Security.ResetClaims | app/core/security.py:59-69 | a reset token carries the e-mail, has type "password_reset", expires 48 hours after issue and carries that expiry as a float |
| Security.VerificationClaims | app/core/security.py:80-90 | a verification token carries the e-mail, has type "email_verification", expires 48 hours after issue and carries that expiry as a float |
| Security.VerifyTypedToken | app/core/security.py:71-78 | the subject of a decodable token of the expected type; nothing for an undecodable token or another type; a token of that type without a subject is a server error |
| Security.ResetTokenRoundTrip | app/core/security.py:59-78 | a reset token gives back its e-mail until 48 hours after issue, and nothing afterwards |
| Security.VerificationTokenRoundTrip | app/core/security.py:80-99 | a verification token gives back its e-mail until 48 hours after issue |
| Security.SessionTokensAreNotResetTokens | app/core/security.py:71-99 | an access or refresh token is never taken for a reset or verification token |
| Security.GenerateOtp | app/core/security.py:101-102 | a code has the requested length and holds only decimal digits |
| Security.EveryDigitStringIsACode | app/core/security.py:101-102 | every string of decimal digits is a code the generator can produce |
| Security.OtpAcceptsTheIssuedCode | app/core/security.py:104-108 | a stored digest accepts the code it was made from, and with an injective digest no other code |
| Security.PasswordAlphabet | app/core/security.py:111 | the alphabet holds the 52 letters, the 10 digits and the 8 specials, 70 characters |
| Security.GenerateRandomPassword | app/core/security.py:110-113 | a generated password has the requested length and only letters, digits and the eight specials |
| Security.ValidatePassword | app/core/security.py:115-131 | valid exactly when the policy holds; otherwise the message of the first rule that fails, in the order length, uppercase, lowercase, digit, special character |
| Security.GeneratedPasswordCanFailPolicy | app/core/security.py:110-131 | a generated password can fail the policy: drawing the first letter every time gives no uppercase letter |
| Dependencies.CurrentUser | app/core/dependencies.py:12-44 | accepts exactly a decodable token with a subject naming an active account, returning it; 401 for an undecodable token or one without subject; a 403 names the account's status |
| Dependencies.RefreshTokenPassesHere | app/core/dependencies.py:12-44 | a refresh token, which the session-checking dependency refuses as the wrong type, is accepted here for its whole seven-day life |
| Dependencies.RevokedSessionPassesHere | app/core/dependencies.py:12-44 | an access token whose sessions are all revoked still authenticates here until it expires, while the session-checking dependency refuses it |
| Dependencies.RequireRole | app/core/dependencies.py:46-63 | accepts exactly an account whose role's name is one of the allowed names, returning it; 403 without a role and 403 naming the allowed roles otherwise |
| Dependencies.GuardsAreNested | app/core/dependencies.py:65-79 | each of the four guards admits every role name the one above it admits, and one name more |
| Dependencies.NotAGuardName | app/core/dependencies.py:65-79 | a role name with a capital letter or a space is admitted by no guard |
| Dependencies.SeededRolesFailEveryGuard | app/core/dependencies.py:55-59 | an account whose role has one of the seeded names ("Super Admin", "Organization Admin", "Support Staff", "Billing Admin") is refused by every guard |
| Login.FindLogin | app/api/v1/auth/login.py:21-25 | the first account whose e-mail or username is the login, and none exactly when no account matches |
| Login.MinutesLeft | app/api/v1/auth/login.py:44 | the whole minutes left of a lockout, rounded down |
| Login.MinutesAfter | app/api/v1/auth/login.py:54 | the moment lies exactly m minutes after now |
| Login.AfterFailure | app/api/v1/auth/login.py:50-55 | a wrong password adds one failed attempt, and from the fifth sets a lockout of 30 minutes from now; nothing else changes |
| Login.AfterUnverified | app/api/v1/auth/login.py:83-87 | an unverified account gets the digest of a new code valid for ten minutes; nothing else changes |
| Login.AfterSuccess | app/api/v1/auth/login.py:97-99 | a successful login clears the failed attempts and the lockout and records the login time; nothing else changes |
| Login.Decide | app/api/v1/auth/login.py:43-99 | a live lockout refuses with 423 and the minutes left; else a wrong password counts a failure; else an inactive account is refused naming its status; else an unverified one is sent a code; else the login succeeds |
| Login.DecideAsWritten | app/api/v1/auth/login.py:43 | an account that carries a stored lockout always fails with a server error, since the naive stored time is compared with an aware now; any other account is decided as intended |
| Login.AccessLifetime | app/api/v1/auth/login.py:101-104 | an access token lives 30 days with remember-me and the 30-minute default otherwise, always a positive time |
| Login.SessionExpiry | app/api/v1/auth/login.py:109-112 | a session expires after now |
| Login.NewSession | app/api/v1/auth/login.py:114-123 | the stored session belongs to the account, holds the new access and refresh tokens, records remember-me, is not revoked and expires at the session expiry |
| Login.Response | app/api/v1/auth/login.py:159-168 | the answer is a bearer token with the access lifetime, the account and its forced-change flag |
| Login.PermissionStrings | app/api/v1/auth/login.py:138-149 | one "resource:action" string per permission of the account's role, and none without a role |
| Login.PermissionStringsCoverGrants | app/api/v1/auth/login.py:138-149 | every permission the permission check grants appears among the strings, and the custom permissions change none of them |
| Login.Login | app/api/v1/auth/login.py:15-168 | an unknown login records a failure without an account and answers 401; a wrong password stores the failure, records it and answers 401; a refusal changes nothing; a code sent stores its digest and answers 403; a success stores the account, a new session and a login event, unless a token collides |
| Login.WrongPasswordsCount | app/api/v1/auth/login.py:50-55 | below the limit every wrong password counts once, and the account stays unlocked and otherwise unchanged |
| Login.FiveWrongPasswordsLock | app/api/v1/auth/login.py:50-55 | five wrong passwords in a row lock a fresh account for 30 minutes from the last of them |
| Login.LockoutRefusesEveryAttempt | app/api/v1/auth/login.py:43-48 | while a lockout lasts every attempt, the right password included, is refused with 423 and the minutes left |
| Login.LockoutLapses | app/api/v1/auth/login.py:43-99 | on the corrected route: once the lockout has passed, the right password of an active, verified account logs in and clears the failures and the lockout |
| Login.LockedForeverAsWritten | app/api/v1/auth/login.py:43 | as written, after five wrong passwords every later attempt fails with a server error, even with the right password after the 30 minutes, where the intended check admits it |
| Login.AdmittedTokenAuthenticates | app/api/v1/auth/login.py:101-123 | the access token of a successful login authenticates as the account until its expiry, which is also the session's, and is refused afterwards |
| Login.CheckEmailCode | app/api/v1/auth/login.py:184-208 | on the corrected route: accepted exactly for an unverified account with a stored, unexpired code that the given code matches; already verified, no code and an expired code are each refused with 400 |
| Login.CheckEmailCodeAsWritten | app/api/v1/auth/login.py:196 | as written no code is ever accepted: once a code is stored, the naive expiry makes the comparison raise |
| Login.AfterEmailVerified | app/api/v1/auth/login.py:209-215 | a verified account has its code spent and a pending account becomes active; nothing else changes |
| Login.VerifyEmailOtp | app/api/v1/auth/login.py:170-231 | 404 for an unknown e-mail; a failed check changes nothing; success stores the verified account and records an event |
| Login.SentCodeVerifies | app/api/v1/auth/login.py:83-208 | the code a refused login sends verifies the e-mail within ten minutes, and with an injective digest no other code does; as written the same request fails with a server error |
| Login.PendingAccountVerifiesThenLogsIn | app/api/v1/auth/login.py:77-99 | a pending account is refused as pending at login; once its e-mail is verified it becomes active and logs in |
| Logout.HeaderToken | app/api/v1/auth/logout.py:24 | the token is the whole header when it has no space, and otherwise a part without spaces |
| Logout.BearerHeaderGivesItsToken | app/api/v1/auth/logout.py:24 | for "Bearer <token>" the handler reads back exactly the token |
| Logout.SignedOut | app/api/v1/auth/logout.py:26-33 | only the first live session of the account with the token is revoked, at now, and nothing changes without one |
| Logout.SignOut | app/api/v1/auth/logout.py:11-43 | 401 without an Authorization header; otherwise the matching live session is revoked and a logout event recorded, or nothing changes when there is none |
| Logout.SignedOutTokenIsRefused | app/api/v1/auth/logout.py:26-33 | a token that authenticated the account is refused as revoked at any later moment, while every session with another token is unchanged |
| Logout.Revoked | app/api/v1/auth/logout.py:56-57 | a live session of the account is revoked at now and any other session is kept |
| Logout.SignedOutEverywhere | app/api/v1/auth/logout.py:51-57 | every live session of the account is revoked, row for row, and no other row changes |
| Logout.SignOutEverywhere | app/api/v1/auth/logout.py:45-72 | every live session of the account is revoked, a logout_all event is recorded, and the message counts the revoked sessions |
| Logout.EverywhereMeansEverySession | app/api/v1/auth/logout.py:45-72 | afterwards the account has no live session and each of its tokens is refused as revoked; every other account's sessions are as they were |
| Logout.CountIsRowsChanged | app/api/v1/auth/logout.py:70 | the number in the message is the number of rows the handler changed |
| PasswordFlows.AfterResetRequest | app/api/v1/auth/password.py:43-49 | a reset request stores a 48-hour reset token and the digest of a ten-minute code, replacing any code; nothing else changes |
| PasswordFlows.RequestPasswordReset | app/api/v1/auth/password.py:29-71 | the same answer whether or not the e-mail has an account; only an existing account is changed and an event recorded |
| PasswordFlows.CheckResetCode | app/api/v1/auth/password.py:87-103 | on the corrected route: accepted exactly for a stored, unexpired code that the given code matches; no code, an expired code and a wrong code are each refused with 400 |
| PasswordFlows.CheckResetCodeAsWritten | app/api/v1/auth/password.py:93 | as written no code is accepted: once a code is stored, the naive expiry makes the comparison raise |
| PasswordFlows.VerifyResetOtp | app/api/v1/auth/password.py:73-108 | 404 for an unknown e-mail; success exactly when the account's code check passes |
| PasswordFlows.ResetCodeAlsoVerifiesEmail | app/api/v1/auth/password.py:48-49 | the code a reset request sends passes both the reset check and, on an unverified account, the e-mail check for ten minutes: the two flows share one code; as written both checks raise |
| PasswordFlows.Recent | app/api/v1/auth/password.py:149-151 | at most five of the account's history entries, newest first |
| PasswordFlows.NewestEntryIsRecent | app/api/v1/auth/password.py:149-151 | an entry newer than every other entry of its account is the first recent one |
| PasswordFlows.ResetChecks | app/api/v1/auth/password.py:116-158 | on the corrected route: passes exactly for a token that decodes as a reset token of an existing account, equals its stored token, is unexpired, and a new password that meets the policy and is not recently used; an invalid token is refused with 400 |
| PasswordFlows.ResetChecksAsWritten | app/api/v1/auth/password.py:136 | as written no reset completes: the naive stored expiry makes the comparison raise |
| PasswordFlows.AfterPasswordReset | app/api/v1/auth/password.py:165-172 | the new hash, the token and code spent, the change time, no forced change; nothing else changes |
| PasswordFlows.Retired | app/api/v1/auth/password.py:162-166 | the history entry keeps the replaced hash of the account, dated now |
| PasswordFlows.ResetPassword | app/api/v1/auth/password.py:110-189 | a failed check changes nothing; otherwise the old hash is retired into the history, the account updated and an event recorded |
| PasswordFlows.ResetLinkCompletes | app/api/v1/auth/password.py:29-189 | the link a reset request sends completes a reset within 48 hours for an acceptable new password; as written the same request fails with a server error |
| PasswordFlows.ResetTokenIsSingleUse | app/api/v1/auth/password.py:130-169 | a completed reset clears the token, so the same token is then refused |
| PasswordFlows.ChangeChecks | app/api/v1/auth/password.py:198-227 | passes exactly when the current password verifies, differs from the new one, and the new one meets the policy and is not recently used; each refusal is a 400 |
| PasswordFlows.AfterPasswordChange | app/api/v1/auth/password.py:230-237 | the new hash, the change time, no forced change; nothing else changes |
| PasswordFlows.ChangePassword | app/api/v1/auth/password.py:191-253 | a failed check changes nothing; otherwise the old hash is retired, the account updated and an event recorded |
| PasswordFlows.ChangeBackIsRefused | app/api/v1/auth/password.py:217-227 | changing a password and straight back is refused as recently used |
| PasswordFlows.ResetIgnoresTheCurrentHash | app/api/v1/auth/password.py:110-189 | a reset never looks at the current hash, so the current password is accepted as the new one unless the history holds it, while a change to the same password is refused |
| AuthMiddleware.FloatExpiryIsServerError | app/schemas/auth.py:54-57 | a reset or verification token the system issues, presented before it expires, makes the current-user dependency answer 500 and the optional one fail |
| UserSchemas.Bounds | app/schemas/user.py:15 | a `min_length`/`max_length` bound passes exactly when the length lies within both bounds, and its violation names the field |
| UserSchemas.OptionalBounds | app/schemas/user.py:48 | the same bound on an optional field passes an absent value and otherwise exactly the lengths within the bounds |
| UserSchemas.Range | app/schemas/documentation.py:15-16 | a `ge`/`le` bound on an optional number passes an absent value and otherwise exactly the values within the bounds, naming the field when it fails |
| UserSchemas.AtLeast | app/schemas/scheduling.py:44-45 | a `ge` bound on an optional number passes an absent value and otherwise exactly the values at or above the bound |
| UserSchemas.ItemBounds | app/schemas/scheduling.py:21 | a `min_items`/`max_items` bound passes exactly the lists whose length lies within both bounds |
| UserSchemas.MinItems | app/schemas/admin.py:89 | a `min_items` bound passes exactly the lists with at least that many items |
| UserSchemas.Then | app/schemas/user.py:46-54 | the violations of a body are empty exactly when no field has one, with at most one violation per field |
| UserSchemas.SchemaValidator | app/schemas/user.py:61-73 | the validator accepts exactly the passwords of at least 8 characters with an upper-case letter, a lower-case letter, a digit and one of the schema's special characters |
| UserSchemas.PasswordViolation | app/schemas/user.py:57-73 | a password field is accepted exactly when it has 8 to 100 characters and passes the validator; a short one is refused for its length, one within the bounds with the validator's message |
| UserSchemas.SchemaValidatorAgainstPolicy | app/schemas/user.py:61-73 | the schema refuses every password the security module's validator refuses, with the same message; of the passwords that validator accepts it refuses exactly those whose only special character is `\|` |
| UserSchemas.PipePasswordSplitsTheChecks | app/schemas/user.py:71 | "Aa1\|aaaa" passes the security module's validator and is refused by the schema for lacking a special character |
| UserSchemas.NewOrganizationCreate | app/schemas/user.py:14-22 | an omitted timezone becomes "UTC" and omitted colours become "#4F46E5" and "#FFFFFF"; given values are kept |
| UserSchemas.SubdomainViolation | app/schemas/user.py:16 | a subdomain is accepted exactly when it has 3 to 100 characters, each a lower-case letter, a digit or `-` |
| UserSchemas.ColourViolation | app/schemas/user.py:21-22 | a colour is accepted exactly when it is `#` followed by six hexadecimal digits |
| UserSchemas.OrganizationViolations | app/schemas/user.py:14-24 | an organisation body is accepted exactly when its name has 1 to 255 characters, its subdomain fits the pattern, its phone at most 20, its timezone at most 50 and both colours fit the colour pattern |
| UserSchemas.DefaultColoursAreValid | app/schemas/user.py:21-22 | the default colours fit the colour pattern, so a body that omits them is never refused for its colours |
| UserSchemas.UserCreateViolations | app/schemas/user.py:46-73 | a user body is accepted exactly when username, names, phone, employee id and timezone keep their bounds and the password meets the schema's password rules |
| UserSchemas.AcceptedUserPasswordMeetsPolicy | app/schemas/user.py:56-73 | an accepted user body carries a password the security module's validator accepts too |
| UserSchemas.ChangePasswordViolations | app/schemas/user.py:109-125 | a change-password body is accepted exactly when the new password meets the schema's password rules; the current password is not checked |
| UserSchemas.ResetConfirmViolations | app/schemas/auth.py:30-32 | a reset-confirm body is accepted exactly when the new password has 8 to 100 characters, with no character-class rule |
| UserSchemas.NewRoleCreate | app/schemas/user.py:127-133 | an omitted permission list becomes the empty list; name, description and organisation are kept |
| UserSchemas.RoleCreateViolations | app/schemas/user.py:127-133 | a role body is accepted exactly when its name has 1 to 100 characters |
| UserSchemas.RoleUpdateViolations | app/schemas/user.py:135-138 | a role update is accepted exactly when its name is absent or has 1 to 100 characters |
| AdminSchemas.ParseBulkAction | app/schemas/admin.py:12-17 | a text parses to the action whose value it is, and to nothing when no action has that value |
| AdminSchemas.BulkActionsParse | app/schemas/admin.py:12-17 | every action's value parses back to that action |
| AdminSchemas.BulkViolations | app/schemas/admin.py:87-90 | a bulk-action body is accepted exactly when its action parses, it names at least one target and its reason has at most 500 characters |
| AdminSchemas.Broadcast | app/schemas/admin.py:73-85 | a broadcast naming only title and message is of type "info" and category "system" and targets no organisation, role or user |
| AdminSchemas.BroadcastViolations | app/schemas/admin.py:73-79 | a broadcast body is accepted exactly when its title has 1 to 200 characters, its message 1 to 1000, its action URL at most 500 and its action text at most 100 |
| AdminSchemas.SubdomainField | app/schemas/admin.py:108-118 | the subdomain is accepted exactly when it has 3 to 100 characters, all letters or digits, and the lower-cased text is handed on; within the bounds a refusal is 422 with the validator's message |
| AdminSchemas.SubdomainFieldIdempotent | app/schemas/admin.py:114-118 | the value handed on keeps the length, has no capitals and passes the field again unchanged |
| AdminSchemas.CaseIsFolded | app/schemas/admin.py:118 | two accepted subdomains that differ only in case are stored alike |
| AdminSchemas.AdminSubdomainFitsOrganizationPattern | app/schemas/admin.py:114-118 | every subdomain this validator hands on fits the organisation pattern of the user schemas |
| AdminSchemas.HyphenRefusedHere | app/schemas/admin.py:116 | "my-org" fits the organisation pattern of the user schemas but is refused here |
| AdminSchemas.NewAdminOrganization | app/schemas/admin.py:106-112 | a body that leaves the timezone out gets "UTC" and no phone or address |
| AdminSchemas.ValidateAdminOrganization | app/schemas/admin.py:106-118 | the body is accepted exactly when its name has 1 to 255 characters and its subdomain passes the field, and the accepted body carries the lower-cased subdomain |
| DocumentationSchemas.PressureViolation | app/schemas/documentation.py:24-30 | the pressure validator only ever reports the pressure message on the diastolic field |
| DocumentationSchemas.VitalsAcceptedExactly | app/schemas/documentation.py:12-30 | a vitals body is accepted exactly when every present number lies in its range, the notes have at most 1000 characters and a diastolic value given with a systolic one is strictly below it |
| DocumentationSchemas.EqualPressuresRefused | app/schemas/documentation.py:28-29 | a diastolic reading equal to the systolic one is refused with the pressure message alone |
| DocumentationSchemas.InvalidSystolicSkipsPressureRule | app/schemas/documentation.py:26 | with the systolic value out of range the pressure rule is skipped, so the diastolic field reports nothing |
| DocumentationSchemas.ShiftNoteViolations | app/schemas/documentation.py:53-60 | a shift note is accepted exactly when its narrative has 10 to 2000 characters and challenges, support and observations at most 1000 each |
| DocumentationSchemas.PlainIncident | app/schemas/documentation.py:101-111 | a report that leaves the optional fields out has no location, no witnesses and no follow-up |
| DocumentationSchemas.IncidentViolations | app/schemas/documentation.py:101-111 | an incident report is accepted exactly when its description has 10 to 2000 characters, its action 5 to 1000, its location at most 200 and its witnesses at most 500 |
| DocumentationSchemas.ParseTaskStatus | app/schemas/documentation.py:167-172 | a text parses to the status whose value it is, and to nothing when no status has that value |
| DocumentationSchemas.ParseTaskPriority | app/schemas/documentation.py:174-178 | a text parses to the priority whose value it is, and to nothing when no priority has that value |
| DocumentationSchemas.TaskValuesParse | app/schemas/documentation.py:167-178 | every status and priority value parses back to itself |
| DocumentationSchemas.MinimalTask | app/schemas/documentation.py:180-186 | a task naming only client and title has medium priority, no assignee and no due date |
| DocumentationSchemas.TaskCreateViolations | app/schemas/documentation.py:180-186 | a task body is accepted exactly when its title has 5 to 200 characters and its description at most 1000 |
| DocumentationSchemas.TaskUpdateViolations | app/schemas/documentation.py:208-215 | a task update is accepted exactly when a given title has 5 to 200 characters, a description at most 1000 and notes at most 500 |
| NotificationSchemas.ParseType | app/schemas/notification.py:6-11 | a text parses to the type whose value it is, and to nothing when no type has that value |
| NotificationSchemas.ParseCategory | app/schemas/notification.py:13-20 | a text parses to the category whose value it is, and to nothing when no category has that value |
| NotificationSchemas.ParsesEveryValue | app/schemas/notification.py:6-20 | every type's and every category's value parses back to itself |
| NotificationSchemas.MinimalNotification | app/schemas/notification.py:22-33 | a body naming only user, title and message is an information notice of the general category with no action and no expiry |
| NotificationSchemas.NotificationCreateViolations | app/schemas/notification.py:22-33 | a notification body is accepted exactly when its title has 1 to 200 characters, its message 1 to 1000, its action URL at most 500, its action text at most 100 and its entity type at most 50 |
| NotificationSchemas.ParseClock | app/schemas/notification.py:87-88 | a parsed quiet-hours value has exactly one ':' and an hour in 0..23 and a minute in 0..59 |
| NotificationSchemas.ClockViolation | app/schemas/notification.py:83-102 | a quiet-hours value is accepted exactly when it is absent or parses, and every refusal carries the one format message |
| NotificationSchemas.PreferencesViolations | app/schemas/notification.py:74-102 | preferences are accepted exactly when both quiet-hours values are |
| NotificationSchemas.ClockParts | app/schemas/notification.py:87 | digits around one ':' split into exactly those two parts |
| NotificationSchemas.ParsesPaddedClock | app/schemas/notification.py:83-92 | every "HH:MM" time with two-digit padding parses back to its hour and minute |
| NotificationSchemas.ParsesUnpaddedClock | app/schemas/notification.py:83-92 | unpadded times such as "7:5" are accepted too and read as their hour and minute |
| NotificationSchemas.RefusesOutOfRange | app/schemas/notification.py:88-89 | an hour above 23 or a minute above 59 is refused even in the right shape |
| SchedulingSchemas.ValidateTemplate | app/schemas/scheduling.py:14-34 | a shift template is accepted unchanged exactly when its name fits, its duration is positive, break and meal minutes are not negative, it has one to seven weekdays each in 1..7 and it ends after it starts; a refusal is 422 |
| SchedulingSchemas.ValidateSchedule | app/schemas/scheduling.py:60-71 | a schedule is accepted unchanged exactly when its name fits and it does not end before it starts, so a one-day schedule passes; a reversed range is refused with the validator's message |
| SchedulingSchemas.ValidateShift | app/schemas/scheduling.py:99-115 | a shift is accepted unchanged exactly when it ends after it starts, and refused otherwise with the validator's message |
| SchedulingSchemas.ValidateBulk | app/schemas/scheduling.py:147-151 | a bulk body is accepted unchanged exactly when every one of its shifts is |
| SchedulingSchemas.ValidateAvailability | app/schemas/scheduling.py:175-188 | an availability slot is accepted unchanged exactly when its weekday lies in 0..6 and it ends after it starts |
| SchedulingSchemas.ValidateAvailabilityUpdate | app/schemas/scheduling.py:193-200 | an availability update is accepted unchanged exactly when a given weekday lies in 0..6 |
| SchedulingSchemas.ValidateTimeOff | app/schemas/scheduling.py:217-229 | time off is accepted unchanged exactly when it ends after it starts, and refused otherwise with the validator's message |
| SchedulingSchemas.ValidateAppointment | app/schemas/scheduling.py:299-313 | an appointment is accepted unchanged exactly when its title fits and it ends after it starts |
| SchedulingSchemas.ValidateRecurring | app/schemas/scheduling.py:349-360 | a recurring appointment is accepted unchanged exactly when type and title fit and duration and a given occurrence cap are positive; the end date is not compared with the start |
| SchedulingSchemas.ValidateEvent | app/schemas/scheduling.py:434-452 | a calendar event is accepted unchanged exactly when its title fits, its colour fits `#` and six hexadecimal digits and it ends after it starts |
| SchedulingSchemas.DefaultColourMatches | app/schemas/scheduling.py:445 | the default event colour fits the colour pattern |
| SchedulingSchemas.ValidateEventUpdate | app/schemas/scheduling.py:457-469 | an event update is accepted unchanged exactly when a given title fits and a given colour fits the pattern; times are not compared |
| SchedulingDb.Db.constructor | app/models/scheduling.py:125-130 | a session opens over the given staff, users and clients with every scheduling table empty |
| SchedulingDb.NextKey | app/models/scheduling.py:128 | a new row's key lies above every key the table holds, so it names no existing row |
| SchedulingDb.FreshKeyKeepsKeysUnique | app/models/scheduling.py:128 | adding a row keyed with a new key keeps the table's keys unique |
| SchedulingDb.RemoveAt | app/api/v1/scheduling/availability.py:223 | deleting a row leaves every other row, in order, and one row fewer |
| SchedulingDb.RemoveAtForgetsKey | app/api/v1/scheduling/availability.py:223 | with unique keys the deleted row's key is gone and every other row stays |
| SchedulingDb.InsertLoop | app/api/v1/scheduling/router.py:488-514 | a handler's insert loop adds, in order, one row per element that passes the handler's test, each under the next new key |
| SchedulingDb.InsertedIsFilterThenNumber | app/api/v1/scheduling/router.py:488-514 | the rows the loop adds are the passing elements, in order, keyed consecutively from the first new key |
| SchedulingDb.FilterNone | app/api/v1/scheduling/router.py:488-514 | when no element passes, the loop adds nothing |
| SchedulingDb.FilterAll | app/api/v1/scheduling/router.py:488-514 | when every element passes, the loop adds one row for each of them |
| SchedulingDb.ChainStep | app/api/v1/scheduling/router.py:727-735 | a handler run once per key, each run committing before the next, adds what the earlier runs added followed by what the next run adds |
| SchedulingModel.OverlapsSymmetricAndStrict | app/api/v1/scheduling/router.py:690-691 | the overlap test of the conflict queries is symmetric, intervals that only touch do not overlap, and on non-empty intervals it holds exactly when some instant lies in both |
| SchedulingModel.IsoWeekday | app/api/v1/scheduling/router.py:703 | a weekday number lies in 1..7 |
| SchedulingModel.ClockTime | app/api/v1/scheduling/router.py:138-139 | a 12-hour clock time is eight characters with ':' and ' ' in place and ends in AM before noon and PM after |
| ShiftConflicts.FindShiftById | app/api/v1/scheduling/router.py:675-677 | the lookup returns the position of a shift with that key, and nothing exactly when no shift has it |
| ShiftConflicts.FreshShiftFound | app/api/v1/scheduling/router.py:675 | a shift appended under a new key is the one the lookup finds |
| ShiftConflicts.DetectionOfFreshShift | app/api/v1/scheduling/router.py:672-738 | the detection run for a shift just stored examines that shift, which is not its own rival |
| ShiftConflicts.ColumnWeekday | app/api/v1/scheduling/router.py:703-706 | the stored weekday lies in 0..6 and agrees with the handler's weekday number from Monday to Saturday |
| ShiftConflicts.AvailabilityDrafts | app/api/v1/scheduling/router.py:702-724 | on the corrected route: the availability check raises at most one conflict, the MEDIUM one |
| ShiftConflicts.AvailabilityDraftsAsWritten | app/api/v1/scheduling/router.py:703 | looking slots up by `weekday() + 1` agrees with the stored numbering from Monday to Saturday |
| ShiftConflicts.SundaySlotMissedAsWritten | app/api/v1/scheduling/router.py:703 | a Sunday shift inside a Sunday slot marked unavailable raises no conflict as written, and raises it when the lookup uses the stored numbering |
| ShiftConflicts.SundayNeverCheckedAsWritten | app/api/v1/scheduling/router.py:703-711 | with slots numbered 0..6 the lookup as written finds nothing on a Sunday, whatever the slots say |
| ShiftConflicts.DoubleBookedMutualAndStrict | app/api/v1/scheduling/router.py:682-691 | shifts that only touch are not double-booked; between two uncancelled shifts being double-booked is mutual; a cancelled shift under detection still finds uncancelled rivals that do not find it |
| ShiftConflicts.DoubleBookingsShape | app/api/v1/scheduling/router.py:693-699 | each double-booking conflict is a HIGH conflict of the shift under detection and its staff member |
| ShiftConflicts.DoubleBookingsNameRivals | app/api/v1/scheduling/router.py:682-700 | a shift is named by a double-booking conflict exactly when it is double-booked with the shift under detection |
| ShiftConflicts.DoubleBookedRivalIsNamed | app/api/v1/scheduling/router.py:689-700 | every rival double-booked with the shift is named by some conflict |
| ShiftConflicts.NamedRivalIsDoubleBooked | app/api/v1/scheduling/router.py:689-700 | every shift a conflict names is a rival double-booked with the shift |
| ShiftConflicts.DescriptionNamesOneShift | app/api/v1/scheduling/router.py:697 | different shifts are named by different descriptions |
| ShiftConflicts.AvailabilityConflictCases | app/api/v1/scheduling/router.py:702-724 | the check raises a conflict exactly when the first slot in force for the day is UNAVAILABLE and overlaps the shift; with no unavailable slot, or none overlapping, nothing is raised; what is raised is MEDIUM |
| ShiftConflicts.DetectionStoresUnmatched | app/api/v1/scheduling/router.py:726-738 | the stored conflicts are the computed ones with no unresolved conflict of the same shift and type among the committed ones, in order, each under the next key |
| ShiftConflicts.DetectionSettles | app/api/v1/scheduling/router.py:672-738 | running the detection again after its conflicts are committed, with shifts and slots unchanged, stores nothing more |
| ShiftConflicts.DoubleBookingStep | app/api/v1/scheduling/router.py:689-700 | one more rival adds its conflict when it overlaps and nothing otherwise |
| ShiftConflicts.FindDoubleBookings | app/api/v1/scheduling/router.py:682-700 | the double-booking loop computes one conflict per overlapping rival, in the query's order |
| ShiftConflicts.ComputeDrafts | app/api/v1/scheduling/router.py:679-724 | the conflicts computed for the shift are its double bookings followed by the availability clash |
| ShiftConflicts.DetectedConflicts | app/api/v1/scheduling/router.py:675-736 | the handler's lookup, checks and dedupe loop store exactly the detection's conflicts, keyed consecutively |
| ShiftConflicts.DetectShiftConflicts | app/api/v1/scheduling/router.py:672-738 | the conflicts table gains exactly the conflicts the detection stores, and nothing else changes |
| ShiftConflicts.DetectEach | app/api/v1/scheduling/router.py:523-525 | after a bulk insert the conflicts table gains what one detection per new shift stores, each seeing the conflicts the earlier ones stored |
| CurrentShiftView.ElapsedParts | app/api/v1/scheduling/router.py:124-126 | the minutes lie in 0..59 and hours and minutes account for the elapsed seconds to within a minute |
| CurrentShiftView.ClientBlock | app/api/v1/scheduling/router.py:84-89 | on the corrected route (CurrentShift): the client block is built from the shift's first assignment: it names that assignment's client when the client exists, and is "Unknown Client" with no ids when there is no assignment or no such client |
| CurrentShiftView.Tracking | app/api/v1/scheduling/router.py:111-157 | the caller is clocked in exactly when a clock-in of theirs for the shift exists, and then both time on shift and clock-in time are shown |
| CurrentShiftView.CurrentShift | app/api/v1/scheduling/router.py:44-163 | on the corrected route, which imports the task model's own status enum and reads the client through the first assignment: 404 exactly when the caller has no staff record in their organisation; otherwise "no active shift" exactly when none of theirs today is scheduled or in progress, and else one of those shifts with the task counts of its first assigned client |
| CurrentShiftView.CurrentShiftAsWritten | app/api/v1/scheduling/router.py:100 | as written the handler answers 404 exactly when the caller has no staff record, and a shift it finds fails at the `TaskStatus` import |
| CurrentShiftView.ActiveShiftFailsAsWritten | app/api/v1/scheduling/router.py:100 | whenever the corrected view shows an active shift the handler as written fails with 500; otherwise the two agree |
| CurrentShiftView.OneShiftTodayFailsAsWritten | app/api/v1/scheduling/router.py:100 | one staff record with one scheduled shift today is enough for the handler as written to answer 500 |
| CurrentShiftView.FirstAssignedClient | app/api/v1/scheduling/router.py:84-89 | on the corrected route (CurrentShift): no client exactly when the shift has no assignment; otherwise the client of the first assignment of the shift |
| CurrentShiftView.TaskBlock | app/api/v1/scheduling/router.py:99-107 | on the corrected route (CurrentShift): no client gives zero counts; otherwise the total counts the caller's tasks for that client due today, completed counts those completed, and pending is the difference |
| SchedulingRouter.FindSchedule | app/api/v1/scheduling/router.py:250-253 | the lookup returns the position of the schedule with that key in the organisation, and nothing exactly when there is none |
| SchedulingRouter.FindShift | app/api/v1/scheduling/router.py:592-595 | the lookup returns the position of the shift with that key whose schedule is in the organisation, and nothing exactly when there is none |
| SchedulingRouter.CreateSchedule | app/api/v1/scheduling/router.py:167-197 | the new schedule, under a new key and created by the caller, is appended to the table and returned |
| SchedulingRouter.GetSchedule | app/api/v1/scheduling/router.py:241-260 | a schedule is returned exactly when one with that key belongs to the caller's organisation; otherwise 404 |
| SchedulingRouter.CreatedScheduleReadBack | app/api/v1/scheduling/router.py:179-197 | a schedule just created can be read back by its creator exactly when the body named the creator's own organisation |
| SchedulingRouter.ListSchedules | app/api/v1/scheduling/router.py:199-239 | invalid paging is refused with 422; otherwise the total counts the caller's schedules passing the status and date filters, and the page is exactly the window at skip, at most `limit` long, over those schedules in stored order |
| SchedulingRouter.ApplyScheduleUpdate | app/api/v1/scheduling/router.py:283-287 | an update keeps key, organisation, creator and approval and stamps the update time |
| SchedulingRouter.ScheduleUpdateProperties | app/api/v1/scheduling/router.py:283-286 | applying an update twice is applying it once; an empty update only stamps the time; an update can mark a schedule PUBLISHED with no approver; an end date alone before the start is refused by the response, and a dates-free update keeps a valid range valid |
| SchedulingRouter.UpdateSchedule | app/api/v1/scheduling/router.py:262-291 | 404 with the table unchanged when the schedule is not the caller's; otherwise exactly that row is replaced by the updated one and committed, and the answer is that row, or a 500 when the update leaves its end date before its start date |
| SchedulingRouter.Publish | app/api/v1/scheduling/router.py:312-322 | publishing is refused with 400 exactly when the schedule is already PUBLISHED; otherwise it becomes PUBLISHED with the caller as approver at this time and nothing else changes |
| SchedulingRouter.PublishSchedule | app/api/v1/scheduling/router.py:293-328 | 404 when the schedule is not the caller's; a refused publish leaves the table unchanged; otherwise exactly that row is replaced by the published one |
| SchedulingRouter.CopiedSchedule | app/api/v1/scheduling/router.py:354-364 | the copy is named "<name> (Copy)", keeps the organisation, is created by the caller and is a DRAFT with no approver |
| SchedulingRouter.CopiedShiftsContent | app/api/v1/scheduling/router.py:366-390 | the copy holds, in order, one shift for each original whose moved date falls in the new range, dated exactly `offset` days later under the next key in the new schedule, with the same staff, times, type and flag and status SCHEDULED |
| SchedulingRouter.ReversedRangeCopiesNothing | app/api/v1/scheduling/router.py:366-378 | a new end date before the new start copies no shift at all |
| SchedulingRouter.CopySchedule | app/api/v1/scheduling/router.py:330-397 | 404 with nothing changed when the original is not the caller's; otherwise the copy is appended to the schedules and its shifts to the shifts, nothing else changes, and the answer is the copy, or a 500 when the new range is reversed |
| SchedulingRouter.NewShift | app/api/v1/scheduling/router.py:432-448 | a new shift keeps the body's schedule, staff member, date, times and notes under the given key and is SCHEDULED |
| SchedulingRouter.CreateShift | app/api/v1/scheduling/router.py:399-463 | 404 with nothing changed when the schedule, then the staff member, is not the caller's; otherwise the new shift is appended and the conflicts table gains what the detection for it stores |
| SchedulingRouter.CreatedShiftIsChecked | app/api/v1/scheduling/router.py:450-461 | the detection run by shift creation examines the new shift among all committed shifts, never as its own rival |
| SchedulingRouter.BulkShiftsContent | app/api/v1/scheduling/router.py:488-515 | a bulk insert creates, in order, the shift of each item whose staff member is in the organisation under the next key, and skips every other item |
| SchedulingRouter.BulkItemKeepsItsOwnSchedule | app/api/v1/scheduling/router.py:476-514 | an accepted item is stored under its own schedule key, which is never checked against the organisation |
| SchedulingRouter.CreateShiftsBulk | app/api/v1/scheduling/router.py:465-535 | 404 with nothing changed when the body's schedule is not the caller's; otherwise the accepted shifts are appended and one detection per created shift runs, in order |
| SchedulingRouter.InsertShifts | app/api/v1/scheduling/router.py:488-525 | the insert loop appends exactly the accepted shifts and then the conflicts table gains what their detections store |
| SchedulingRouter.ListShifts | app/api/v1/scheduling/router.py:537-582 | invalid paging is refused with 422; otherwise the total counts the shifts of the caller's schedules passing every filter, and the page is exactly the window at skip, at most `limit` long, over those shifts in stored order |
| SchedulingRouter.GetShift | app/api/v1/scheduling/router.py:584-603 | a shift is returned exactly when one with that key belongs to a schedule of the caller's organisation; otherwise 404 |
| SchedulingRouter.ApplyShiftUpdate | app/api/v1/scheduling/router.py:626-630 | an update keeps key, schedule, staff member and location and stamps the update time |
| SchedulingRouter.ShiftUpdateProperties | app/api/v1/scheduling/router.py:626-629 | applying an update twice is applying it once; an empty update only stamps the time; an end alone no later than the start makes the response refuse the shift; a time-free update keeps a valid shift valid |
| SchedulingRouter.UpdateShift | app/api/v1/scheduling/router.py:605-637 | 404 with nothing changed when the shift is not the caller's; otherwise exactly that row is replaced and committed, the conflicts table gains what a new detection stores, and the answer is the shift, or a 500 when it ends no later than it starts |
| SchedulingRouter.CancelRemark | app/api/v1/scheduling/router.py:661 | the remark is "Cancelled: " followed by the reason |
| SchedulingRouter.CancelledShift | app/api/v1/scheduling/router.py:659-663 | a cancelled shift is CANCELLED and stamped, its notes change only when a non-empty reason is given, and nothing else changes |
| SchedulingRouter.CancelRecordsReason | app/api/v1/scheduling/router.py:660-661 | a reason without trailing whitespace ends the notes, and is the whole of them when there were none |
| SchedulingRouter.CancelledShiftIsNoRival | app/api/v1/scheduling/router.py:659-686 | a cancelled shift is nobody's double booking any more |
| SchedulingRouter.CancelShift | app/api/v1/scheduling/router.py:639-669 | 404 with nothing changed when the shift is not the caller's; otherwise exactly that row is replaced by the cancelled one and no conflict is touched |
| SchedulingRouter.ListConflicts | app/api/v1/scheduling/router.py:741-771 | on the corrected route: every listed conflict belongs to the organisation's staff, passes the resolution and severity filters and, under a date bound, has its own shift in the range; every conflict passing all filters is listed |
| SchedulingRouter.DateBoundHidesShiftlessConflicts | app/api/v1/scheduling/router.py:762-767 | on the corrected route (ListConflicts): a date bound never lists a conflict recorded without a shift (as written it does, see `JoinOnStaffListsShiftlessConflict`) |
| SchedulingRouter.ListConflictsAsWritten | app/api/v1/scheduling/router.py:741-771 | as written: every conflict of the organisation's staff passing the filters whose staff member has some shift in the date range is listed, and only such conflicts |
| SchedulingRouter.JoinOnStaffListsOffRangeConflict | app/api/v1/scheduling/router.py:762-767 | a conflict whose own shift lies before the range is listed as written when its staff member has another shift in the range, and is not in the corrected list |
| SchedulingRouter.JoinOnStaffListsShiftlessConflict | app/api/v1/scheduling/router.py:762-767 | a conflict recorded without a shift is listed as written under a date bound when its staff member has a shift in the range, and is not in the corrected list |
| Routing.WithoutHyphens | app/api/v1/scheduling/appointments.py:212-214 | every character but the hyphens is kept and no hyphen remains |
| Routing.NotUuid | app/api/v1/scheduling/appointments.py:212-214 | a segment holding a character that is neither a hexadecimal digit nor a hyphen is no UUID |
| Routing.UuidTextNotEmpty | app/api/v1/scheduling/appointments.py:212-214 | a UUID text is never empty, so it fills a parameter segment |
| Routing.Resolve | app/api/v1/scheduling/appointments.py:29-519 | 404 or 405 exactly when no route matches method and path, 405 only when some route matches the path, 404 only when none does; otherwise the first fully matching route answers, converting its parameters or refusing with 422 |
| Routing.FirstMatchingRouteAnswers | app/api/v1/scheduling/appointments.py:212 | the first route that matches the request answers it, whatever the later routes are |
| Routing.Swap | app/api/v1/scheduling/appointments.py:212 | exchanging two neighbouring declarations leaves every other route in place |
| Routing.SwapKeepsDispatch | app/api/v1/scheduling/appointments.py:212 | exchanging two neighbouring routes changes nothing for a request that does not match both of them |
| Routing.SwapKeepsAnswer | app/api/v1/scheduling/appointments.py:212 | the route answering a request still answers it after a swap of neighbours it does not both match |
| Routing.SwapKeepsMiss | app/api/v1/scheduling/appointments.py:212 | a request no route matches gets the same 404 or 405 after a swap of neighbours |
| Routing.MoveBack | app/api/v1/scheduling/appointments.py:212 | declaring one route earlier keeps the order of all the others |
| Routing.MoveKeepsDispatch | app/api/v1/scheduling/appointments.py:212 | declaring a route earlier changes nothing for a request that it and none of the routes it overtakes both match |
| Routing.MoveBackBySwap | app/api/v1/scheduling/appointments.py:212 | moving a route back by one more place is a swap with its neighbour followed by the shorter move |
| AvailabilityApi.SlotOrderIsDayThenTime | app/api/v1/scheduling/availability.py:62-64 | the sort key orders slots by weekday first and by start time within a weekday |
| AvailabilityApi.SortedBySlotOrder | app/api/v1/scheduling/availability.py:62-64 | slots sorted by the key are ordered by weekday and then start time |
| AvailabilityApi.ListAvailability | app/api/v1/scheduling/availability.py:29-67 | 404 exactly when the staff member is not in the caller's organisation; otherwise exactly the staff member's slots (in effect on the date, when one is given), as a permutation, by weekday and then start time |
| AvailabilityApi.ClashMeansInEffectAndOverlapping | app/api/v1/scheduling/availability.py:91-100 | a slot clashes exactly when it is in effect on the new slot's effective date, on the same weekday, with overlapping hours |
| AvailabilityApi.CreateAvailability | app/api/v1/scheduling/availability.py:69-135 | 404 when the staff member is not the caller's and 400 on a clash, each leaving the table unchanged; otherwise the new slot is appended under a new key and returned |
| AvailabilityApi.LaterSlotIsNotChecked | app/api/v1/scheduling/availability.py:91-100 | a slot taking effect after the new one is not checked, so two overlapping slots can both be in effect from the later date on |
| AvailabilityApi.ApplyAvailabilityUpdate | app/api/v1/scheduling/availability.py:172-176 | an update keeps the key and the staff member and stamps the update time |
| AvailabilityApi.AvailabilityUpdateProperties | app/api/v1/scheduling/availability.py:172-176 | applying an update twice is applying it once; an empty update only stamps the time; a sent start alone at or after the end makes the response refuse the slot; a time-free update keeps a valid slot valid |
| AvailabilityApi.UpdateAvailability | app/api/v1/scheduling/availability.py:137-188 | 404 for an unknown staff member or slot, with the table unchanged; otherwise exactly that slot is replaced and committed, with no overlap check, and the answer is the slot, or 500 "Failed to update availability slot" when it ends no later than it starts |
| AvailabilityApi.DeleteAvailability | app/api/v1/scheduling/availability.py:190-237 | 404 for an unknown staff member or slot, with the table unchanged; otherwise exactly that slot is removed |
| AvailabilityApi.DeletedSlotIsGone | app/api/v1/scheduling/availability.py:211-223 | with unique keys a deleted slot can no longer be found and every other slot stays |
| AvailabilityApi.ReplacementSlotsContent | app/api/v1/scheduling/availability.py:266-279 | every listed slot is stored for the staff member of the path, with consecutive keys |
| AvailabilityApi.ReplaceAvailability | app/api/v1/scheduling/availability.py:239-298 | 404 with the table unchanged when the staff member is not the caller's; otherwise all the staff member's slots are removed and the listed ones appended, with no overlap check |
| AvailabilityApi.ReplacementIsExactlyTheList | app/api/v1/scheduling/availability.py:261-279 | after a replacement the staff member's slots are exactly the listed ones and every other staff member's are as they were |
| AvailabilityApi.NewTimeOff | app/api/v1/scheduling/availability.py:320-329 | a new time-off request is PENDING and belongs to the staff member of the body |
| AvailabilityApi.CreateTimeOff | app/api/v1/scheduling/availability.py:300-343 | 404 with the table unchanged when the staff member is not the caller's; otherwise the new request is appended and returned |
| AvailabilityApi.EndOfDayBound | app/api/v1/scheduling/availability.py:367 | a datetime lies at or before the last second of a day exactly when its date is not later |
| AvailabilityApi.StartOfDayBound | app/api/v1/scheduling/availability.py:364 | a datetime lies at or after the first second of a day exactly when its date is not earlier |
| AvailabilityApi.TimeOffListedByDates | app/api/v1/scheduling/availability.py:356-370 | a request is listed exactly when its staff member is in the organisation and it passes the staff and status filters, starts on or after the start date and ends on or before the end date |
| AvailabilityApi.ListTimeOff | app/api/v1/scheduling/availability.py:345-376 | exactly the requests passing the filters, as a permutation, earliest start first |
| AvailabilityApi.NewCoverage | app/api/v1/scheduling/availability.py:424-430 | a new coverage request is PENDING, requested now and not yet answered |
| AvailabilityApi.CreateCoverage | app/api/v1/scheduling/availability.py:378-444 | 404 for a shift or staff member outside the organisation and 400 when the shift already has a PENDING request, each leaving the table unchanged; otherwise the new request is appended |
| AvailabilityApi.CreateKeepsOnePending | app/api/v1/scheduling/availability.py:412-421 | a request the duplicate check lets through keeps at most one PENDING request per shift |
| AvailabilityApi.ListCoverage | app/api/v1/scheduling/availability.py:446-486 | invalid paging is refused with 422; otherwise the total counts the matching requests, and the page is exactly the window at skip, at most `limit` long, over the matching requests latest first |
| AvailabilityApi.ApplyCoverageUpdate | app/api/v1/scheduling/availability.py:510-519 | the sent status is set and the caller and time are recorded as the response; notes change only when sent, and nothing else changes |
| AvailabilityApi.UpdateCanDuplicatePending | app/api/v1/scheduling/availability.py:510-519 | the update can set a request back to PENDING for a shift that already has a pending one |
| AvailabilityApi.UpdateCoverage | app/api/v1/scheduling/availability.py:488-531 | 404 with the table unchanged for an unknown request; otherwise exactly that request is replaced by the updated one |
| AvailabilityApi.ApprovalRemark | app/api/v1/scheduling/availability.py:566 | the remark is "Approval Notes: " followed by the notes |
| AvailabilityApi.Approve | app/api/v1/scheduling/availability.py:555-566 | approval is refused with 400 exactly when the request is not PENDING; otherwise it becomes APPROVED, answered now by the approver, its notes extended only when notes are given, and nothing else changes |
| AvailabilityApi.ApprovalRecordsNotes | app/api/v1/scheduling/availability.py:565-566 | notes without trailing whitespace end the request's notes |
| AvailabilityApi.ApprovalFreesTheShift | app/api/v1/scheduling/availability.py:555-566 | a request is approved at most once, and approving a shift's pending request leaves the shift without one and keeps one pending request per shift |
| AvailabilityApi.ApproveCoverage | app/api/v1/scheduling/availability.py:533-583 | 404 for an unknown request and a refused approval leave the table unchanged; otherwise exactly that request is replaced by the approved one |
| AvailabilityApi.NewSwap | app/api/v1/scheduling/availability.py:628-637 | a new swap is pending and not yet approved |
| AvailabilityApi.CreateSwap | app/api/v1/scheduling/availability.py:585-650 | 404 when either shift, then either staff member, is outside the organisation, with the table unchanged; the swap is stored exactly when all four belong to it |
| AvailabilityApi.ListSwaps | app/api/v1/scheduling/availability.py:652-685 | exactly the matching swaps, as a permutation, latest swap date first, each with a staff member in the caller's organisation |
| AvailabilityApi.CrossOrganisationSwapIsListed | app/api/v1/scheduling/availability.py:662-666 | a swap with one staff member inside the organisation and one outside it is listed to the organisation |
| AvailabilityApi.Routes | app/api/v1/scheduling/availability.py:137 | the corrected router declares the bulk route before the single-slot update and keeps the same routes |
| AvailabilityApi.BulkReplaceUnreachableAsWritten | app/api/v1/scheduling/availability.py:137 | as declared, a bulk replacement is answered by the single-slot update route and refused with 422, since "bulk" is no UUID |
| AvailabilityApi.BulkPathMatchesOneSlot | app/api/v1/scheduling/availability.py:137 | the bulk path fills the single-slot template, and "bulk" does not convert |
| AvailabilityApi.BulkReplaceReached | app/api/v1/scheduling/availability.py:239 | on the corrected route: with the bulk route declared first, a bulk replacement for a well-formed staff id reaches its handler |
| AvailabilityApi.BulkPathMatchesBulk | app/api/v1/scheduling/availability.py:239 | a bulk path with a well-formed staff id fills the bulk template and converts |
| AvailabilityApi.OnlyBulkPathMatchesBoth | app/api/v1/scheduling/availability.py:137 | a request matching both PUT routes of a slot is a bulk replacement |
| AvailabilityApi.ReorderOnlyAffectsBulk | app/api/v1/scheduling/availability.py:137 | declaring the bulk route first changes the dispatch of no other request |
| Appointments.AddingUnconflictedKeepsNoDoubleBooking | app/api/v1/scheduling/appointments.py:76-87 | an appointment the conflict check lets through keeps every staff member free of overlapping live appointments |
| Appointments.NewAppointment | app/api/v1/scheduling/appointments.py:89-103 | the new row carries the body's organisation, client, staff, transport, times and notes under the given key and is SCHEDULED |
| Appointments.CreateAppointment | app/api/v1/scheduling/appointments.py:29-117 | 404 for a client, staff member or transport staff member outside the caller's organisation, in that order; 400 exactly when those pass and the staff member has a conflicting appointment; each leaves the table unchanged; otherwise the new appointment is appended |
| Appointments.CreatedUnderBodyOrganisation | app/api/v1/scheduling/appointments.py:89-91 | a body naming another organisation files the new appointment under that organisation, not the caller's |
| Appointments.GetAppointment | app/api/v1/scheduling/appointments.py:212-231 | an appointment is returned exactly when one with that key belongs to the caller's organisation; otherwise 404 |
| Appointments.Cancelled | app/api/v1/scheduling/appointments.py:332-335 | a cancelled appointment is CANCELLED and stamped, its notes change only when a non-empty reason is given, and nothing else changes |
| Appointments.CancelRecordsReason | app/api/v1/scheduling/appointments.py:333-334 | a reason without trailing whitespace ends the notes |
| Appointments.CancelledNeverConflicts | app/api/v1/scheduling/appointments.py:76-82 | a cancelled appointment no longer blocks its staff member's time |
| Appointments.CancelAppointment | app/api/v1/scheduling/appointments.py:306-342 | 404 for an unknown appointment and 400 for one already cancelled, each leaving the table unchanged; otherwise exactly that row is replaced by the cancelled one |
| Appointments.CancelTwiceRefused | app/api/v1/scheduling/appointments.py:326-330 | after a cancellation the same appointment is found again and is CANCELLED, so a second cancellation is refused |
| Appointments.Sent | app/api/v1/scheduling/appointments.py:288-290 | a field after an update is the value sent, or the stored one when nothing was sent |
| Appointments.ApplyAppointmentUpdate | app/api/v1/scheduling/appointments.py:288-292 | an update keeps keys, organisation, client and staff member, takes the sent times and status and stamps the update time |
| Appointments.UpdateAppointmentAsWritten | app/api/v1/scheduling/appointments.py:254 | as written the update answers 404 exactly when no appointment of the caller has that key |
| Appointments.NoUpdateSucceedsAsWritten | app/api/v1/scheduling/appointments.py:254-303 | as written every update of an appointment that was found ends in 500 |
| Appointments.UpdateAppointment | app/api/v1/scheduling/appointments.py:233-304 | on the corrected route: 404 for an unknown appointment; when a time is sent and the merged times conflict with another live appointment of the staff member, 400; each leaves the table unchanged; otherwise exactly that row is replaced by the merged one |
| Appointments.TimeChangeKeepsNoDoubleBooking | app/api/v1/scheduling/appointments.py:268-284 | a time change the check lets through keeps every staff member free of overlapping live appointments |
| Appointments.OwnStaffId | app/api/v1/scheduling/appointments.py:141 | the caller has an own staff id exactly when some staff record is linked to their user |
| Appointments.ClientName | app/api/v1/scheduling/appointments.py:180-186 | the client name is "Unknown" when no client has the key |
| Appointments.StaffNameAsWritten | app/api/v1/scheduling/appointments.py:181-188 | as written the staff name is "Unknown" when no user has the appointment's staff key |
| Appointments.StaffName | app/api/v1/scheduling/appointments.py:181-188 | through the staff record the name is "Unknown" when no staff record has the key |
| Appointments.StaffNameLookup | app/api/v1/scheduling/appointments.py:181 | contrasts the route as written with the corrected route: a staff member whose user has another key is shown as "Unknown" as written, and by name through the staff record |
| Appointments.EarliestFirstPage | app/api/v1/scheduling/appointments.py:170-176 | a page counts all matching rows, and its items are exactly the window at skip, at most `limit` long, over the matching rows sorted earliest start first |
| Appointments.ListAppointments | app/api/v1/scheduling/appointments.py:119-210 | invalid paging is refused with 422; otherwise the total counts the matching appointments, and the items are the listed views of exactly the window at skip over the matching appointments sorted earliest start first |
| Appointments.SupportStaffSeesOnlyTheirOwn | app/api/v1/scheduling/appointments.py:139-155 | a Support Staff caller sees only appointments of their own staff record, none without one, whatever `staff_id` they pass |
| Appointments.OtherCallersFilterByStaff | app/api/v1/scheduling/appointments.py:152-155 | any other caller's `staff_id` filter keeps exactly that staff member's appointments |
| Appointments.ListClientAppointments | app/api/v1/scheduling/appointments.py:344-386 | refused exactly when the limit is outside 1..100 or the client is not the caller's (404); otherwise the lesser of the limit and the number of matching appointments, earliest first, no matching appointment left out starting before one returned, and all of them when fewer than the limit match |
| Appointments.NewRecurring | app/api/v1/scheduling/appointments.py:420-436 | the new recurrence is active and carries the body's organisation, pattern, dates, cap and duration under the given key |
| Appointments.CreateRecurring | app/api/v1/scheduling/appointments.py:388-450 | 404 for a client, then a staff member, outside the caller's organisation, with the table unchanged; created exactly when both belong to it, and then appended |
| Appointments.ListRecurring | app/api/v1/scheduling/appointments.py:452-477 | exactly the recurrences of the caller's organisation passing the client, staff and active filters are listed |
| Appointments.ApplyRecurringUpdate | app/api/v1/scheduling/appointments.py:500-505 | an update keeps keys, organisation, client and staff member, takes the sent flag, pattern and start and stamps the update time |
| Appointments.UpdateRecurring | app/api/v1/scheduling/appointments.py:479-517 | 404 with the table unchanged for an unknown recurrence; otherwise exactly that row is replaced by the updated one |
| Appointments.Cap | app/api/v1/scheduling/appointments.py:552 | an unset cap means 1000 and a positive one is kept |
| Appointments.LaterDay | app/api/v1/scheduling/appointments.py:547-549 | the later of two days is one of them and not before either |
| Appointments.EarlierDay | app/api/v1/scheduling/appointments.py:547-549 | the earlier of two days is one of them and not after either |
| Appointments.Occurrence | app/api/v1/scheduling/appointments.py:582-604 | the generated appointment starts on its day at the recurrence's time, lasts `duration_minutes`, keeps the recurrence's parties and is a SCHEDULED medical appointment with the generated note |
| Appointments.NextMonthSameDay | app/api/v1/scheduling/appointments.py:570-576 | the same day a month later is later and keeps the day of the month, and is missing exactly when that month lacks the day |
| Appointments.Next | app/api/v1/scheduling/appointments.py:557-579 | the loop's next date is always later, and stepping day by day it is the next day |
| Appointments.Run | app/api/v1/scheduling/appointments.py:554-615 | a run only adds to what was created, and a failure is 500 with the generation message |
| Appointments.Visit | app/api/v1/scheduling/appointments.py:581-607 | visiting a due day not already booked adds its occurrence under the next key; any other day adds nothing |
| Appointments.RunCreatesDueOccurrences | app/api/v1/scheduling/appointments.py:554-607 | every appointment a run creates is the occurrence of a due, unbooked day of the window, keyed in creation order |
| Appointments.RunDaysIncrease | app/api/v1/scheduling/appointments.py:554-607 | the days of the created appointments strictly increase, so no two share a start |
| Appointments.RunIsBounded | app/api/v1/scheduling/appointments.py:552-554 | a run creates at most one appointment per day of the window and never passes the cap |
| Appointments.DailyRunIsComplete | app/api/v1/scheduling/appointments.py:554-607 | stepping day by day, a run that stops short of the cap has created the occurrence of every due, unbooked day of the window |
| Appointments.DailyRunNeverFails | app/api/v1/scheduling/appointments.py:559-566 | on the corrected route: stepping day by day never raises |
| Appointments.MonthlyRunOffTheDayCreatesNothing | app/api/v1/scheduling/appointments.py:568-576 | as written a MONTHLY run starting on another day of the month than the recurrence creates nothing |
| Appointments.GenerationLoop | app/api/v1/scheduling/appointments.py:554-610 | the loop computes exactly the run from the window's first day |
| Appointments.GenerateInstances | app/api/v1/scheduling/appointments.py:519-626 | 404 for an unknown recurrence and 400 for an inactive one, each leaving the table unchanged; otherwise the run over the window is computed and its appointments appended when it succeeds |
| Appointments.MonthlyFromOtherDayAsWritten | app/api/v1/scheduling/appointments.py:568-576 | as written a recurrence started on 15 January generated for February yields nothing |
| Appointments.MonthlyFromOtherDay | app/api/v1/scheduling/appointments.py:568-576 | on the corrected route: walking day by day the same recurrence yields the appointment of 15 February |
| Appointments.MonthlyOnThe31stFailsAsWritten | app/api/v1/scheduling/appointments.py:575 | as written a recurrence started on 31 January fails as a whole because February has no 31st |
| Appointments.RecurringListUnreachableAsWritten | app/api/v1/scheduling/appointments.py:212 | as declared `GET /recurring` is taken by the single-appointment route and refused with 422 |
| Appointments.NonUuidSegmentTakenByParameter | app/api/v1/scheduling/appointments.py:212 | any single segment that is no UUID is answered by the single-appointment route with 422 |
| Appointments.RecurringListReached | app/api/v1/scheduling/appointments.py:452 | on the corrected route: with the list declared first `GET /recurring` reaches it |
| Appointments.ReorderOnlyAffectsRecurringList | app/api/v1/scheduling/appointments.py:212 | declaring the recurrence list earlier changes the dispatch of no other request |
| Calendar.KeysWhere | app/api/v1/scheduling/calendar.py:35-38 | a key is in the set exactly when some staff row satisfying the query filter carries it |
| Calendar.CountIsKeyCount | app/api/v1/scheduling/calendar.py:35-38 | with unique staff keys, the `count()` of the attendee query equals the number of distinct keys it finds |
| Calendar.ElementsCount | app/api/v1/scheduling/calendar.py:40 | a list has at least as many entries as distinct values, and exactly as many when it has no repeats |
| Calendar.FoundAttendees | app/api/v1/scheduling/calendar.py:35-38 | the keys the attendee query finds are exactly the listed keys naming a staff member of the caller's organisation |
| Calendar.AttendeesAcceptedIff | app/api/v1/scheduling/calendar.py:34-44 | with unique staff keys, a non-empty attendee list passes the count check exactly when it has no repeats and every entry is a staff member of the caller's organisation, so a list naming one person twice is refused |
| Calendar.NewEvent | app/api/v1/scheduling/calendar.py:47-63 | the new event carries the body's organisation, visibility, attendees, times and title, with the caller as creator |
| Calendar.CreateEvent | app/api/v1/scheduling/calendar.py:25-76 | 400 "Some attendees are not valid staff members" exactly when the attendee check fails, leaving the table unchanged; otherwise the new event, filed under the organisation the body names, is appended |
| Calendar.GetEvent | app/api/v1/scheduling/calendar.py:132-151 | 404 exactly when no event with that key belongs to the caller's organisation; otherwise a stored event with that key in that organisation |
| Calendar.ApplyEventUpdate | app/api/v1/scheduling/calendar.py:187-191 | sent fields replace the stored ones, fields not sent keep their value, key, organisation and creator are kept and `updated_at` is stamped |
| Calendar.UpdateEvent | app/api/v1/scheduling/calendar.py:153-204 | 404 when the event is not in the caller's organisation, then 400 when the new attendee list fails the check, each leaving the table unchanged; otherwise exactly that row is replaced and committed, and the answer is the event, or 500 "Failed to update calendar event" when it ends no later than it starts |
| Calendar.DeleteEvent | app/api/v1/scheduling/calendar.py:206-240 | 404 when the event is not in the caller's organisation, leaving the table unchanged; otherwise exactly that row is removed |
| Calendar.DeletedEventIsGone | app/api/v1/scheduling/calendar.py:226 | with unique keys, a deleted event can no longer be fetched |
| Calendar.ListEvents | app/api/v1/scheduling/calendar.py:78-130 | 422 exactly for bad paging; otherwise `total` counts the matching events, the page is exactly the window at skip over the matching events ordered by start time, and page and page count follow the paging arithmetic |
| Calendar.DefaultListHidesConfidential | app/api/v1/scheduling/calendar.py:110-114 | unless CONFIDENTIAL events are asked for by name, the list never holds one |
| Calendar.Collect | app/api/v1/scheduling/calendar.py:280-282 | the loop that appends a query's rows one by one yields exactly the rows the filter keeps, in table order |
| Calendar.CalendarView | app/api/v1/scheduling/calendar.py:242-395 | each requested section holds exactly the rows its filter keeps, each section not requested is empty, and the period is echoed in ISO form |
| Calendar.ViewEventsAreVisible | app/api/v1/scheduling/calendar.py:322-357 | the view never shows a CONFIDENTIAL event, shows a PRIVATE one only to its creator or a listed attendee, and shows every PUBLIC event of the organisation within the period |
| Calendar.SpanningTimeOffShownAppointmentNot | app/api/v1/scheduling/calendar.py:363-367 | an appointment and a time off over the same interval that spans the whole period: the time off is shown, the appointment is not |
| Calendar.LeadingZerosValue | app/api/v1/scheduling/calendar.py:483 | leading zeros do not change the value of a string of digits |
| Calendar.PaddedReadsBack | app/api/v1/scheduling/calendar.py:483 | a zero-padded number of the width it fits reads back as itself |
| Calendar.DatePartReadsBack | app/api/v1/scheduling/calendar.py:483 | `%Y%m%d` of a valid date in years 1 to 9999 is eight digits that read back as the date |
| Calendar.TimePartReadsBack | app/api/v1/scheduling/calendar.py:483 | `%H%M%S` of a second of the day is six digits that read back as that second |
| Calendar.IcsStampRoundTrip | app/api/v1/scheduling/calendar.py:483-484 | DTSTART and DTEND are 16 characters, `T` at position 8 and `Z` last, and read back as the event's moments for every year Python's dates allow |
| Calendar.EventLines | app/api/v1/scheduling/calendar.py:486-496 | an event gives exactly nine lines |
| Calendar.BlocksLayout | app/api/v1/scheduling/calendar.py:482-496 | with nine-line blocks, item `k`'s line `j` is line `9k + j` of the blocks |
| Calendar.CalendarLayout | app/api/v1/scheduling/calendar.py:457-498 | the file opens with the five header lines, closes with END:VCALENDAR, and event `k` takes lines `5 + 9k` to `13 + 9k` |
| Calendar.JoinSplitRoundTrip | app/api/v1/scheduling/calendar.py:500 | lines without carriage returns, joined by CRLF, split back into themselves |
| Calendar.EventLinesPlain | app/api/v1/scheduling/calendar.py:486-496 | an event's block holds a carriage return only where its title, description or location does |
| Calendar.CalendarRoundTrip | app/api/v1/scheduling/calendar.py:457-500 | texts go out neither escaped nor folded, so when no event's free text holds a carriage return the file cut at every CRLF gives back exactly the lines of the layout |
| Calendar.ExtendWithBlocks | app/api/v1/scheduling/calendar.py:482-496 | extending the lines with each event's block in turn yields the original lines followed by all the blocks in order |
| Calendar.GenerateCalendar | app/api/v1/scheduling/calendar.py:447-504 | the text is the header, the blocks of the organisation's events within the dates in table order, and END:VCALENDAR, joined by CRLF |
| Calendar.ExportIncludesConfidential | app/api/v1/scheduling/calendar.py:467-480 | the export filters on organisation and dates only: a CONFIDENTIAL event that no caller may see in the view is exported |
| Calendar.ExportCalendar | app/api/v1/scheduling/calendar.py:397-429 | the content is the calendar of the caller's organisation whatever calendar key is given; the key only names the `text/calendar` attachment |
| Calendar.SyncExternalCalendar | app/api/v1/scheduling/calendar.py:431-445 | the sync is a placeholder that always reports failure |
| Calendar.EventUpdateAnswerable | app/schemas/scheduling.py:448-452 | an end alone no later than the start makes the response refuse the event; an update that sends neither time keeps a valid event valid |
| TimeClock.Latest | app/api/v1/scheduling/time_clock.py:47-50 | the staff member's entry of that kind with the latest stamp, or none exactly when the staff member has no entry of that kind |
| TimeClock.ClockedInMeansOpenClockIn | app/api/v1/scheduling/time_clock.py:46-59 | being clocked in means some clock-in is as late as every other and no clock-out is stamped after it, whichever of several equally late clock-ins the lookup returns |
| TimeClock.NewestIsLatest | app/api/v1/scheduling/time_clock.py:47-50 | an entry stamped after every other one is the latest of any kind that includes it |
| TimeClock.Advance | app/api/v1/scheduling/time_clock.py:88-92 | only the first shift with the given key, in any organisation, changes, and only when it is in the `from` status: it moves to `to` and is stamped; every other shift stays as it is |
| TimeClock.ClockInEntry | app/api/v1/scheduling/time_clock.py:68-83 | the clock-in entry is stamped now for the sent staff member and shift, and its location is verified exactly when a geolocation was sent |
| TimeClock.ClockIn | app/api/v1/scheduling/time_clock.py:26-105 | 404 for a staff member outside the caller's organisation, 400 exactly when the staff member is already clocked in, each changing nothing; otherwise the entry is appended and the shift, if SCHEDULED, moves to IN_PROGRESS |
| TimeClock.ClockOutEntry | app/api/v1/scheduling/time_clock.py:154-169 | the clock-out entry is stamped now for the given shift, its location verified exactly when a geolocation was sent |
| TimeClock.ShiftOrClockIns | app/api/v1/scheduling/time_clock.py:175 | the shift sent, or else the shift of the clock-in |
| TimeClock.ClockOut | app/api/v1/scheduling/time_clock.py:107-201 | 404 for a staff member outside the organisation, 400 with no clock-in, 400 when already clocked out, each changing nothing; succeeds exactly when clocked in, appending the entry, completing an IN_PROGRESS shift and booking the worked time on the week's overtime record |
| TimeClock.ClockInThenClockedIn | app/api/v1/scheduling/time_clock.py:46-65 | after a clock-in stamped later than every entry so far the staff member is clocked in, so a second clock-in is refused and a clock-out accepted |
| TimeClock.ClockOutThenClockedOut | app/api/v1/scheduling/time_clock.py:128-151 | after a clock-out stamped later than every entry so far the staff member is no longer clocked in |
| TimeClock.BreakEntryRow | app/api/v1/scheduling/time_clock.py:238-245 | a break entry of the given kind stamped now, its location not verified |
| TimeClock.StartBreak | app/api/v1/scheduling/time_clock.py:203-259 | 404 for a staff member outside the organisation, 400 exactly when the latest break entry is a break start, each changing nothing; otherwise the break start is appended, whether or not the staff member is clocked in |
| TimeClock.EndBreak | app/api/v1/scheduling/time_clock.py:261-330 | 404 for a staff member outside the organisation, 400 with no break start, 400 when the latest break start is already ended, each changing nothing; otherwise the break end is appended with the sent shift or the break start's |
| TimeClock.StartBreakThenOnBreak | app/api/v1/scheduling/time_clock.py:225-235 | after a break start stamped later than every entry so far the staff member is on a break that can be ended |
| TimeClock.EndBreakThenOffBreak | app/api/v1/scheduling/time_clock.py:225-235 | after a break end stamped later than every entry so far a new break can start and this one cannot end twice |
| TimeClock.AdjustRemark | app/api/v1/scheduling/time_clock.py:407 | the remark opens with both times and who made the change and closes with the reason |
| TimeClock.Adjusted | app/api/v1/scheduling/time_clock.py:405-407 | the adjusted entry takes the new time and the remark appended to its notes; nothing else changes |
| TimeClock.AdjustRecordsOriginal | app/api/v1/scheduling/time_clock.py:407 | with a reason that does not end in whitespace, the stripped notes still end with the whole remark, original time included |
| TimeClock.AdjustTimeEntry | app/api/v1/scheduling/time_clock.py:383-420 | 404 when no entry with that key belongs to a staff member of the caller's organisation, changing nothing; otherwise exactly that entry is replaced by its adjusted form |
| TimeClock.ListTimeEntries | app/api/v1/scheduling/time_clock.py:332-381 | 422 for bad paging, 404 for a staff member outside the organisation; otherwise `total` counts the entries within the dates, and the page is exactly the window at skip, at most `limit` long, over those entries latest first |
| TimeClock.StaffOvertime | app/api/v1/scheduling/time_clock.py:422-456 | 404 exactly for a staff member outside the organisation; otherwise the staff member's weekly records within the dates, each once, latest week first |
| TimeClock.WeekStart | app/api/v1/scheduling/time_clock.py:468-471 | the Monday of the week, at most six days before the date |
| TimeClock.SameWeekSameStart | app/api/v1/scheduling/time_clock.py:468-471 | days of the same week share their Monday |
| TimeClock.Split | app/api/v1/scheduling/time_clock.py:496-514 | the total grows by the worked time, which is split between regular and overtime: all regular while the total stays within 40 hours, regular up to 40 hours and overtime past them when it crosses, all overtime once 40 hours are reached |
| TimeClock.SplitKeepsWeekConsistent | app/api/v1/scheduling/time_clock.py:496-514 | booking worked time keeps a week consistent: regular plus overtime is the total and regular time never passes 40 hours |
| TimeClock.NewWeek | app/api/v1/scheduling/time_clock.py:483-494 | a new week's record starts consistent with all counters at zero |
| TimeClock.WithOvertime | app/api/v1/scheduling/time_clock.py:458-519 | the staff member's record for the week of the clock-in, the first found or a new one, has the worked time split onto it; the other records are unchanged |
| TimeClock.WithOvertimeKeepsWeeksConsistent | app/api/v1/scheduling/time_clock.py:458-519 | every week record stays consistent when a shift of non-negative length is booked |
| TimeClock.RecordOvertime | app/api/v1/scheduling/time_clock.py:458-519 | `calculate_overtime` leaves the overtime table as the booking function describes |
| UsersApi.TakenQuery | app/api/v1/users/crud.py:28-31 | on the corrected route: the duplicate query: true exactly when some account has the email or, when one is given, the username |
| UsersApi.TakenQueryAsWritten | app/api/v1/users/crud.py:28-31 | the query as written: true exactly when some account has the email or a username equal to the one sent, a missing one matching every account without a username |
| UsersApi.NamelessAccountBlocksCreationAsWritten | app/api/v1/users/crud.py:28-36 | as written, one account without a username blocks the creation of every other account without one whatever its email, which the intended query lets through |
| UsersApi.CreateChecks | app/api/v1/users/crud.py:28-57 | succeeds exactly when the email and username are free, a named organisation exists and a named role exists (in any organisation); a taken identifier gives 400, the others 404 |
| UsersApi.CreatedAccount | app/api/v1/users/crud.py:62-77 | the new account is pending and unverified, in the named organisation or else the caller's, with the password's digest and the digest of a fresh six-digit code that expires ten minutes later |
| UsersApi.CreateUser | app/api/v1/users/crud.py:22-86 | a failed check is returned with the table unchanged; otherwise the created account is appended under a fresh key |
| UsersApi.CreateKeepsIdentifiersUnique | app/api/v1/users/crud.py:28-80 | an account that passes the checks keeps emails, usernames and keys unique |
| UsersApi.CreatedAccountVerifiesWithItsCode | app/api/v1/users/crud.py:75-77 | the created account stays pending until its owner enters the emailed code, which verifies it within ten minutes |
| UsersApi.Target | app/api/v1/users/crud.py:126-139 | 404 exactly when no account has the key, 403 exactly when it is of another organisation and the caller's role is not a system role; otherwise the account's index |
| UsersApi.GetUser | app/api/v1/users/crud.py:120-141 | the account with that key, within the caller's reach; otherwise the target's 404 or 403 |
| UsersApi.ListUsers | app/api/v1/users/crud.py:88-118 | exactly the window at skip, at most `limit` long, over the accounts the filters select, in stored order; from the first page, every selected account when they fit on it |
| UsersApi.ListingCrossesTenantsOnRequest | app/api/v1/users/crud.py:100-139 | a caller without a system role lists another organisation's accounts by naming it, though the same account is refused by `get_user` and absent from the default listing |
| UsersApi.Patched | app/api/v1/users/crud.py:189-193 | every sent field replaces the stored one and `updated_at` is stamped; key, organisation and password digest are kept |
| UsersApi.EmailQuery | app/api/v1/users/crud.py:166 | true exactly when some account holds the email |
| UsersApi.UsernameQuery | app/api/v1/users/crud.py:174 | true exactly when some account holds the username |
| UsersApi.UserEdit | app/api/v1/users/crud.py:150-193 | the target's error first; then accepted exactly when a changed email or username is free, a sent role exists, no required column is cleared and the unique indexes accept the row; the accepted row is the patched account |
| UsersApi.UpdateUser | app/api/v1/users/crud.py:143-197 | a refused edit leaves the table unchanged; an accepted one replaces exactly the target's row |
| UsersApi.OwnValuesNeverConflict | app/api/v1/users/crud.py:165-179 | sending an account's own email and username back is never a conflict |
| UsersApi.ChecksLeaveNoDuplicate | app/api/v1/users/crud.py:165-179 | once the handler's own look-ups pass, the unique indexes have nothing to refuse, except for an empty email or username, which is sent without a look-up |
| UsersApi.EditKeepsIdentifiersUnique | app/api/v1/users/crud.py:143-197 | an accepted edit keeps emails and usernames unique |
| UsersApi.SelfPromotionToSystemRole | app/api/v1/users/crud.py:181-191 | the role check accepts any existing role, so a caller without a system role can give its own account a system role, after which no account is outside its reach |
| UsersApi.WithoutAccount | app/api/v1/users/crud.py:226 | the table without the row at the index, the others in order |
| UsersApi.Removal | app/api/v1/users/crud.py:205-224 | the target's error, then 400 exactly for the caller's own account; otherwise the target's index |
| UsersApi.DeleteUser | app/api/v1/users/crud.py:199-232 | a refusal changes nothing; an account that a staff profile or a created task still references fails at commit with a 500 and nothing is deleted; otherwise the account goes with its sessions, authentication events and password history |
| UsersApi.DeletedAccountNoLongerAuthenticates | app/api/v1/users/crud.py:199-232 | the caller is never the one deleted; afterwards no account has the key and no token authenticates as it |
| UsersApi.WithStatus | app/api/v1/users/crud.py:255-292 | the account with the new status and `updated_at` stamped; nothing else changes |
| UsersApi.ActivateUser | app/api/v1/users/crud.py:234-262 | the target's error with the table unchanged; otherwise the target, the caller's own account included, becomes active |
| UsersApi.Deactivation | app/api/v1/users/crud.py:270-289 | the target's error, then 400 exactly for the caller's own account; otherwise the target's index |
| UsersApi.DeactivateUser | app/api/v1/users/crud.py:264-298 | a refusal changes nothing; otherwise exactly the target becomes inactive |
| UsersApi.DeactivationLocksOut | app/api/v1/users/crud.py:264-298 | a deactivated account no longer authenticates whatever its sessions, and activating it again restores it as it was apart from the stamp |
| UsersApi.AfterAdminReset | app/api/v1/users/crud.py:321-324 | the new digest and the change time are stored; nothing else changes |
| UsersApi.AdminResetPassword | app/api/v1/users/crud.py:300-332 | the target's error with the table unchanged; otherwise a random twelve-character password replaces the target's and the answer shows it |
| UsersApi.AdminResetReplacesThePassword | app/api/v1/users/crud.py:321-324 | after the reset the new password opens the account, the old one no longer does, and nothing forces the owner to change it |
| ClientModel.NewClient | app/models/client.py:10-47 | a new client is "active", unlinked and not discharged, and meets the check constraints exactly when its gender is one of the allowed values |
| ClientModel.FullName | app/models/client.py:63-65 | first name, one space, last name, both parts readable back |
| ClientModel.FindClient | app/api/v1/clients/router.py:234-250 | a stored client with that key in that organisation, found exactly when one exists |
| ClientModel.ClientAuditConfig | app/models/client.py:68-74 | resource type "client", first name and date of birth among the PHI fields, the timestamps excluded |
| ClientsApi.FiveDigits | app/api/v1/clients/router.py:37 | a number from 10000 to 99999 prints as five digits |
| ClientsApi.ClientIdText | app/api/v1/clients/router.py:37 | "CL" followed by five digits that read back as the number |
| ClientsApi.ClientIdTextInjective | app/api/v1/clients/router.py:37 | different numbers give different client numbers |
| ClientsApi.FirstUnused | app/api/v1/clients/router.py:33-43 | the first draw whose number no client of the organisation holds, with every earlier draw taken; none exactly when every draw is taken |
| ClientsApi.FirstUnusedStep | app/api/v1/clients/router.py:36-43 | a free number ends the search, a taken one moves on to the next draw |
| ClientsApi.GenerateClientId | app/api/v1/clients/router.py:33-43 | the loop over the random draws returns the first number unused in the organisation |
| ClientsApi.RequestedKeys | app/api/v1/clients/router.py:79-88 | no keys unless the flag is on and a list is given; then the list resolved against the permission table, 400 when some key does not resolve |
| ClientsApi.ClientChecks | app/api/v1/clients/router.py:60-88 | accepted exactly when the email is new, a named role exists in any organisation and the custom keys resolve; an email in use gives 400 |
| ClientsApi.LocalPart | app/api/v1/clients/router.py:97 | the part of the email before the first `@`, the whole email when it has none |
| ClientsApi.ClientAccount | app/api/v1/clients/router.py:93-108 | the login account is active but unverified, in the caller's organisation, named after the email's local part, with a temporary password that must be changed and the requested custom permissions |
| ClientsApi.ClientRow | app/api/v1/clients/router.py:113-131 | the client row is active, not discharged, linked to the new account, admitted on the given date or today |
| ClientsApi.ClientCreation | app/api/v1/clients/router.py:52-167 | the checks' error first; then succeeds exactly when the local part is no one's username, the caller has an organisation and the number is held by no client of any organisation; those failures are 500 |
| ClientsApi.CreateClient | app/api/v1/clients/router.py:52-167 | a refusal changes nothing; otherwise the account and the client row, carrying the generated number, are appended |
| ClientsApi.CreatedClientIsLinked | app/api/v1/clients/router.py:91-135 | the created client is active in the caller's organisation and linked to its new account, which has the request's email, is unverified, must change its password and holds the requested permissions; emails and client numbers stay unique |
| ClientsApi.SharedLocalPartFailsCreation | app/api/v1/clients/router.py:97 | a new email whose local part is an existing username fails with 500 even though the email itself is free |
| ClientsApi.ListClients | app/api/v1/clients/router.py:169-224 | `total` counts the selected clients; the page holds at most `page_size` of them and the page count is the ceiling of the total over the page size |
| ClientsApi.PagesCoverTheSelection | app/api/v1/clients/router.py:205-223 | the selected client at position `k` is item `k % page_size` of page `k / page_size + 1`, a counted page |
| ClientsApi.NoItemsPastTheLastPage | app/api/v1/clients/router.py:205-223 | a page after the last counted one is empty |
| ClientsApi.ClientAt | app/api/v1/clients/router.py:312-321 | the index of the client with that key in the organisation, none exactly when there is none |
| ClientsApi.GetClient | app/api/v1/clients/router.py:226-257 | the caller's organisation's client with that key, otherwise 404 |
| ClientsApi.LinkedAccount | app/api/v1/clients/router.py:328-329 | the index of the linked account, none when the client has no account |
| ClientsApi.WithLinkedStatus | app/api/v1/clients/router.py:328-329 | only the linked account, if any, takes the new status |
| ClientsApi.DeleteClient | app/api/v1/clients/router.py:304-332 | 404 changes nothing; otherwise the client becomes "inactive" and its account INACTIVE, and nothing is removed |
| ClientsApi.DischargeClient | app/api/v1/clients/router.py:334-376 | 404 changes nothing; otherwise the client is "discharged" on the given day or today and each of its current placements ends that day |
| ClientsApi.DischargeEndsEveryPlacement | app/api/v1/clients/router.py:359-366 | after a discharge the client has no current placement, each ended placement ends on the discharge day, and every other placement is as it was |
| ClientsApi.Readmission | app/api/v1/clients/router.py:387-402 | 404 outside the organisation, 400 for a client that is not discharged; accepted exactly otherwise |
| ClientsApi.Readmitted | app/api/v1/clients/router.py:404-406 | the client is "active", admitted on the day, with no discharge date; nothing else changes |
| ClientsApi.ReadmitClient | app/api/v1/clients/router.py:378-423 | a refusal changes nothing; otherwise the client is readmitted and its account becomes ACTIVE |
| ClientsApi.ReadmissionFollowsDischarge | app/api/v1/clients/router.py:354-411 | after a discharge the client can be readmitted, after which it is active with no discharge date, a second readmission is refused and the ended placements stay ended |
| ClientsApi.WithPermissions | app/api/v1/clients/router.py:570-605 | the account takes the named role, the flag and the granted keys, and is stamped; key, status and organisation are kept |
| ClientsApi.PermissionChange | app/api/v1/clients/router.py:548-602 | accepted exactly when the client is in the organisation, has an account, a named role exists and the custom keys resolve; 404 for a client outside the organisation |
| ClientsApi.UpdateClientPermissions | app/api/v1/clients/router.py:541-621 | a refusal changes nothing; otherwise exactly the client's account is replaced |
| ClientsApi.PermissionUpdateGrantsTheRequested | app/api/v1/clients/router.py:580-602 | the account uses custom permissions exactly when the flag says so; with the flag on and a list given it holds exactly the listed keys, once each, and otherwise none |
| ClientsApi.AnyExistingRoleIsAccepted | app/api/v1/clients/router.py:570-577 | any existing role of any organisation, a system role among them, is accepted and given to the account |
| StaffModel.NewStaff | app/models/staff.py:29-54 | a row completed by the column defaults is ACTIVE, paid HOURLY at full time and hired today, with no preferred name, supervisor or termination date |
| StaffModel.UserById | app/models/staff.py:80-84 | the linked user's name exactly when a user with that key exists |
| StaffModel.FullName | app/models/staff.py:80-84 | the user's first and last name joined by a space, "" when no user is linked |
| StaffModel.DisplayName | app/models/staff.py:86-90 | the preferred name and the user's last name when a preferred name is set, otherwise the full name; an error exactly when a preferred name is set and no user is linked |
| StaffModel.FindStaff | app/models/staff.py:21-29 | a stored row with that key in that organisation; none only when there is no such row |
| StaffModel.FindStaffIffInOrg | app/models/staff.py:21-29 | the lookup finds a row exactly when the staff member belongs to the organisation |
| StaffApi.SuffixOfNumbered | app/api/v1/staff/router.py:35 | a numbered username reads back its number |
| StaffApi.FewerAtLeast | app/api/v1/staff/router.py:34-36 | each taken candidate leaves one account fewer carrying a number at least as large, so the search ends |
| StaffApi.FreeNumber | app/api/v1/staff/router.py:32-36 | the first number from the counter on whose numbered username is free, every number before it taken |
| StaffApi.FreeUsername | app/api/v1/staff/router.py:28-38 | a username no account holds: the lower-cased `first.last` when free, otherwise it followed by the smallest free number from 1 on |
| StaffApi.FreeNumberStep | app/api/v1/staff/router.py:34-36 | a taken candidate passes the search on to the next number; a free one ends it |
| StaffApi.GenerateUsername | app/api/v1/staff/router.py:28-38 | the loop returns the free username the search describes |
| StaffApi.OrgPrefix | app/api/v1/staff/router.py:43-44 | at most three characters: the organisation name's first three upper-cased, or "EMP" |
| StaffApi.GreatestEmployeeId | app/api/v1/staff/router.py:47-49 | an employee id of the organisation, none exactly when it has no staff |
| StaffApi.GreatestEmployeeIdIsGreatest | app/api/v1/staff/router.py:47-49 | no employee id of the organisation sorts after the one the query returns |
| StaffApi.PyIntOfPadded | app/api/v1/staff/router.py:54-61 | a number below 1000 padded to three digits reads back as itself |
| StaffApi.LastThree | app/api/v1/staff/router.py:54 | the last three characters, which complete the id |
| StaffApi.FirstEmployeeId | app/api/v1/staff/router.py:51-61 | an organisation without staff gets its prefix and "001" |
| StaffApi.ProposalAfter | app/api/v1/staff/router.py:51-61 | after a greatest id ending in a number `v` comes the prefix and `v + 1` padded to three digits |
| StaffApi.EmployeeIdCountsOn | app/api/v1/staff/router.py:51-61 | after an id ending in three digits below 999 comes the id with the next number, which reads back from its last three characters |
| StaffApi.ProposalAfter999 | app/api/v1/staff/router.py:51-61 | after the greatest id "<prefix>999" comes "<prefix>1000" |
| StaffApi.GreatestSkips1000 | app/api/v1/staff/router.py:47-49 | "<prefix>1000" sorts before "<prefix>999", so adding it leaves the greatest id unchanged |
| StaffApi.EmployeeIdRepeatsAfter999 | app/api/v1/staff/router.py:40-61 | past 999 the proposal stops moving: once a staff member holds "<prefix>1000" the same id is proposed again |
| StaffApi.StaffChecks | app/api/v1/staff/router.py:66-110 | accepted exactly when the stripped employee id is not blank, the email is new, the employee id is unused in the caller's organisation, the role exists and a named supervisor is in the organisation; 422 for a blank id, then 400 for a used email |
| StaffApi.StaffAccount | app/api/v1/staff/router.py:114-134 | the new account is active, verified, bound to change its password, in the caller's organisation with the requested role, under a key above every existing one |
| StaffApi.StaffRow | app/api/v1/staff/router.py:136-170 | the new row is linked to the account, in the organisation, with the stripped employee id, the requested status and supervisor, and no termination date |
| StaffApi.StaffCreation | app/api/v1/staff/router.py:63-216 | the checks' status first; then succeeds exactly when the caller has an organisation and the employee id and username are held by no one in any organisation; otherwise 500 |
| StaffApi.CreateStaff | app/api/v1/staff/router.py:63-216 | a refusal changes nothing; otherwise the account and the row are appended and the answer carries the row and the generated twelve-character password |
| StaffApi.CreateStaffKeepsIdentifiersUnique | app/api/v1/staff/router.py:63-216 | a created staff member keeps emails, usernames, account keys and employee ids unique, and the new row points at the new account |
| StaffApi.StaffCreationAcceptsAnyRole | app/api/v1/staff/router.py:92-98 | the role check only asks that the role exist: a system role or another organisation's role is given to the new account |
| StaffApi.ParsesIsoFormat | app/api/v1/staff/router.py:386 | every date of years 1 to 9999 written as `YYYY-MM-DD` parses back to itself |
| StaffApi.ParsesShortForms | app/api/v1/staff/router.py:386 | the parser also accepts a one-digit month and a one-digit day after a space |
| StaffApi.StaffTarget | app/api/v1/staff/router.py:364-369 | the caller's organisation's row with that key and the account behind it; 404 exactly when the row is missing, 500 when the account is |
| StaffApi.TerminationDay | app/api/v1/staff/router.py:383-393 | the parsed date when one is given, 400 exactly when it does not parse; today otherwise |
| StaffApi.Termination | app/api/v1/staff/router.py:364-393 | the target, then 400 for a staff member already terminated, then the date; the accepted date is the parsed one or today |
| StaffApi.Terminated | app/api/v1/staff/router.py:396-399 | TERMINATED on the date, the reason appended to the notes when one is given; nothing else changes |
| StaffApi.TerminateStaff | app/api/v1/staff/router.py:355-411 | a refusal changes nothing; otherwise the row is terminated and the account behind it deactivated |
| StaffApi.Reactivation | app/api/v1/staff/router.py:422-437 | accepted exactly when the target is found and terminated |
| StaffApi.Reactivated | app/api/v1/staff/router.py:439-440 | ACTIVE with no termination date; nothing else changes |
| StaffApi.ReactivateStaff | app/api/v1/staff/router.py:413-452 | a refusal changes nothing; otherwise the row is reactivated and the account made active |
| StaffApi.ReactivationUndoesTermination | app/api/v1/staff/router.py:355-452 | termination then reactivation gives back the row as it was apart from the notes, and a terminated member cannot be terminated again |
| StaffApi.TerminationLocksOut | app/api/v1/staff/router.py:402-403 | a terminated staff member's account no longer authenticates whatever its sessions and tokens |
| StaffApi.AfterStaffReset | app/api/v1/staff/router.py:476-480 | the new digest, a forced change and the change time |
| StaffApi.ResetStaffPassword | app/api/v1/staff/router.py:454-517 | the target's error with nothing changed; otherwise only the account behind the row is replaced by its reset form |
| StaffApi.StaffResetForcesChange | app/api/v1/staff/router.py:476-480 | a staff reset is the users router's reset plus a forced change: the new password opens the account and the previous one no longer does |
| StaffRecords.TimeOffStatusValue | app/models/staff.py:353-357 | each status's value reads back as that status |
| StaffRecords.TimeOffStatusFromValue | app/models/staff.py:353-357 | a status exactly for the four values |
| StaffRecords.TrainingStatusByName | app/models/staff.py:199-204 | a member exactly for the five names |
| InitDb.Fetch | app/init_db.py:67-80 | a row with the entry's key leaves the table as it is; otherwise the made row is appended |
| InitDb.GetOrCreateStep | app/init_db.py:66-121 | the get-or-create loop fetches the entry at `i` and then runs the rest over the rows it leaves |
| InitDb.GetOrCreateExtends | app/init_db.py:66-121 | rows that were there stay, in place; only new rows are appended |
| InitDb.GetOrCreateCovers | app/init_db.py:66-121 | every entry ends up with a row of its key, and the id kept for it is that of the first such row |
| InitDb.GetOrCreateKeepsKeysUnique | app/init_db.py:71-110 | a row is only added for a key no row has, so unique keys stay unique |
| InitDb.GetOrCreateStable | app/init_db.py:71-110 | when every entry's key is already there nothing is added and the kept ids are those of the first rows |
| InitDb.GetOrCreateIdempotent | app/init_db.py:66-121 | running the same entries again over the result changes nothing and keeps the same ids |
| InitDb.AppendedKeysAreNew | app/init_db.py:71-110 | a key an original row has is never given to an appended row |
| InitDb.DefaultOrganization | app/init_db.py:18-30 | the organisation with subdomain "starline": the existing one with the table unchanged, or a new active "Starline Organization" in UTC with the administrator's email as contact |
| InitDb.MakePermission | app/init_db.py:72-76 | the new permission has the entry's pair and description, under a key above every existing one |
| InitDb.CatalogSeeded | app/init_db.py:66-80 | after the catalog loop every pair has a permission row, the kept id is that of the first such row, earlier rows stay, and with unique pairs it is the only one |
| InitDb.CatalogSeedingIdempotent | app/init_db.py:66-80 | seeding the catalog a second time creates no permission and keeps the same ids |
| InitDb.SeedCatalog | app/init_db.py:65-80 | the catalog loop leaves the permission table and the kept ids as the seeding function describes |
| InitDb.MemberIds | app/init_db.py:84-101 | a bundle's permission ids are the kept ids at the catalog positions it names |
| InitDb.MakeRoleKeyed | app/init_db.py:111-116 | a made role carries its bundle's name and system flag |
| InitDb.RolesSeeded | app/init_db.py:104-121 | after the roles loop each built-in role has a row found by name and system flag, the kept role is the first such row, and existing roles stay as they were |
| InitDb.WholeCatalogBundle | app/init_db.py:85-117 | the created role of a bundle naming every catalog position holds every kept permission, each the row of its catalog pair |
| InitDb.ForeignRoleStandsIn | app/init_db.py:106-109 | roles are found by name and system flag in any organisation, so another organisation's role named like a built-in one stands in for it and no role is created |
| InitDb.RolesStable | app/init_db.py:104-121 | seeding the roles again over the result, at any later time, changes nothing and keeps the same ids |
| InitDb.SeedBuiltInRoles | app/init_db.py:104-121 | the roles loop leaves the role table and the kept ids as the seeding function describes |
| InitDb.OrganizationAdminPermissions | app/init_db.py:86-91 | Organization Admin holds the four user permissions, reading roles, and reading and updating organisations |
| InitDb.SupportStaffPermissions | app/init_db.py:92-96 | Support Staff holds reading and updating clients, creating, reading and updating documentation, and reading reports |
| InitDb.BillingAdminPermissions | app/init_db.py:97-101 | Billing Admin holds the four billing permissions and reading and exporting reports |
| InitDb.SeedIsWellFormed | app/init_db.py:31-101 | 27 catalog entries and four roles with different keys, every named position in the catalog, Super Admin first as the only system role, holding the whole catalog |
| InitDb.LeadingWord | app/init_db.py:134-135 | the leading run of non-space characters |
| InitDb.Words | app/init_db.py:134-135 | `split()` yields only non-empty words |
| InitDb.WordsOfName | app/init_db.py:134-135 | one word, or two words with a space between, split back into those words |
| InitDb.AdminNames | app/init_db.py:134-135 | "Admin User" for an empty full name; otherwise the first and last word, "User" without a second word, and a failure exactly when the full name has no word |
| InitDb.AdminNamesExamples | app/init_db.py:134-135 | the default full name "Admin" gives "Admin User" and a full name of spaces fails |
| InitDb.EnsureAdmin | app/init_db.py:125-147 | nothing is added exactly when an account has the email; otherwise, when the name splits, the Super Admin role exists and the username is free, one active verified account with that role in the default organisation is appended; failures are 500 and change nothing |
| InitDb.SuperAdminId | app/init_db.py:137 | an id exactly when some built-in role is named Super Admin |
| InitDb.Initialization | app/init_db.py:12-155 | the organisation, the catalog, the roles and the administrator in that order; existing organisations, permissions and roles stay in place, and a failure adds no account |
| InitDb.InitDatabase | app/init_db.py:12-155 | the script leaves the four tables and its answer as the initialisation function describes |
| InitDb.DefaultOrganizationStable | app/init_db.py:18-30 | once the default organisation is there it is found again and nothing is added |
| InitDb.EnsureAdminStable | app/init_db.py:125-147 | once the administrator exists it is found again and nothing is added |
| InitDb.InitializationIdempotent | app/init_db.py:12-155 | running the script again after a successful run changes no table and creates no administrator |
| InitDb.FirstRunCreatesSuperAdmin | app/init_db.py:12-155 | on an empty database, with a full name that splits, the script creates one administrator whose role is a system role of no organisation holding every catalog permission |
| InitDb.SuperAdminRoleSeeded | app/init_db.py:85-121 | seeding an empty database gives Super Admin a role holding the whole catalog |
| InitDb.FirstRunWithTheSeed | app/init_db.py:12-155 | the script's own seed data on an empty database creates the administrator |
| RolesApi.View | app/api/v1/roles/router.py:42-62 | the response holds the role and exactly the stored permissions whose keys the role lists |
| RolesApi.ListRoles | app/api/v1/roles/router.py:22-43 | one entry per listed role, each a role of the caller's organisation or, with `include_system`, a system role, shown with its permissions; every listed role appears |
| RolesApi.IncludeSystemAddsOnlySystemRoles | app/api/v1/roles/router.py:33-40 | the listing with `include_system` holds every role of the listing without it, and only system roles besides |
| RolesApi.GetRole | app/api/v1/roles/router.py:45-64 | the role with that key exactly when it belongs to the caller's organisation or is a system role; 404 otherwise |
| RolesApi.GetAgreesWithListing | app/api/v1/roles/router.py:33-56 | a single role can be read exactly when it appears in the listing with `include_system` |
| RolesApi.GrantedKeys | app/api/v1/roles/router.py:87-96 | none for an empty list; otherwise as many resolved keys as requested, each a requested key, or 400 |
| RolesApi.GrantedKeysAreTheRequested | app/api/v1/roles/router.py:87-96 | with unique catalog keys a non-empty request is accepted exactly when its keys are distinct and all name catalog rows, a repeated key being refused, and grants exactly those keys |
| RolesApi.NameTakenQuery | app/api/v1/roles/router.py:75-78 | true exactly when another role of the organisation has the name |
| RolesApi.NewRole | app/api/v1/roles/router.py:100-112 | a custom role of the caller's organisation, whatever the body's `organization_id`, with the body's name and description and the granted keys |
| RolesApi.CreateRole | app/api/v1/roles/router.py:66-130 | 400 for a name the organisation already uses, then 400 for keys that do not resolve, each changing nothing; otherwise the new role is appended and returned with its permissions |
| RolesApi.CreateKeepsNamesUnique | app/api/v1/roles/router.py:75-112 | a role created after the name check keeps names unique per organisation and keys unique |
| RolesApi.EditableIndex | app/api/v1/roles/router.py:141-151 | the index of the custom role of the caller's organisation with that key, none exactly when there is none |
| RolesApi.Edited | app/api/v1/roles/router.py:155-190 | a given name or description replaces the old one, given permission keys replace the old ones, an empty list clearing them, and `updated_at` is stamped; key, organisation and system flag are kept |
| RolesApi.RoleEdit | app/api/v1/roles/router.py:141-190 | 404 unless the key names an editable role; accepted exactly when a new name is not held by another role of the organisation and given keys resolve; other refusals are 400 |
| RolesApi.UpdateRole | app/api/v1/roles/router.py:132-210 | a refusal changes nothing; otherwise exactly the role's row is replaced |
| RolesApi.EditTouchesOneCustomRole | app/api/v1/roles/router.py:132-210 | an edit changes one custom role of the caller's organisation and no other row, so system roles survive, and names stay unique per organisation |
| RolesApi.RoleRemoval | app/api/v1/roles/router.py:220-238 | 404 unless the key names an editable role, 400 exactly while an account holds it |
| RolesApi.Without | app/api/v1/roles/router.py:241 | the table without the row at the index, the others in order |
| RolesApi.DeleteRole | app/api/v1/roles/router.py:212-255 | a refusal changes nothing; otherwise exactly the role is removed and the message names it |
| RolesApi.RemovalKeepsHeldRoles | app/api/v1/roles/router.py:220-241 | the deleted role is a custom role no account holds, every system role survives, and every account's role still exists |
| RolesApi.TextLeTotal | app/api/v1/roles/router.py:264 | text order is total |
| RolesApi.TextLeTransitive | app/api/v1/roles/router.py:264 | text order is transitive |
| RolesApi.TextLeAntisymmetric | app/api/v1/roles/router.py:264 | text order is antisymmetric |
| RolesApi.InsertPermission | app/api/v1/roles/router.py:264 | inserting into a sorted list keeps it sorted and adds exactly that permission |
| RolesApi.ListAllPermissions | app/api/v1/roles/router.py:257-265 | the whole catalog, each permission as often as stored, ordered by resource and then action |
| Notifications.Filters | app/api/v1/notifications.py:48-60 | an absent or empty `type`/`category` filters nothing; a value outside its enum is a 400 naming it; otherwise the filter keeps exactly the rows of that kind |
| Notifications.UnreadFirst | app/api/v1/notifications.py:67-70 | the ordering is a permutation of its input with every unread row before every read row, newer first within the same read state |
| Notifications.SortedMatching | app/api/v1/notifications.py:35-70 | every row of an ordered, filtered selection satisfies the filter |
| Notifications.UnreadThenRead | app/api/v1/notifications.py:67-70 | unread rows newest first followed by read rows newest first are in the listing's order |
| Notifications.ListNotifications | app/api/v1/notifications.py:21-104 | the listing holds only the caller's unexpired notifications passing the read-state and kind filters, in listing order, the page being the window at `(page-1)*page_size` of the unread-first ordering, `total` counting all that match and `pages` the page count; a bad filter's 400 is caught and reported as a 500, exactly when the filters fail |
| Notifications.Offset | app/api/v1/notifications.py:66 | the offset of page `p` skips exactly the `p - 1` earlier pages |
| Notifications.ListingPage | app/api/v1/notifications.py:67-70 | the page's totals and window over the unread-first ordering of the selection, and every row on it comes from the selection |
| Notifications.Stats | app/api/v1/notifications.py:112-162 | every count ranges over the caller's unexpired notifications: total, unread, and unread of each of the three kinds |
| Notifications.StatsNest | app/api/v1/notifications.py:131-154 | unread never exceeds total, and the critical, reminder and info counts together never exceed the unread count |
| Notifications.UnreadCountIsUnreadListing | app/api/v1/notifications.py:45-46 | the stats' unread count equals the `total` of the unread-only listing |
| Notifications.ReadAt | app/api/v1/notifications.py:190-193 | a read notification stays as it was; an unread one becomes read, stamped `now`; no other field changes |
| Notifications.ReadAtChangesOnlyReadState | app/api/v1/notifications.py:190-193 | marking read changes nothing but the read flag and its stamp |
| Notifications.ReadAtIdempotent | app/api/v1/notifications.py:190-193 | marking read twice equals marking read once; the first stamp stays |
| Notifications.MarkStep | app/api/v1/notifications.py:236-239 | one more row processed: marked and counted exactly when the update matches it |
| Notifications.MarkedAll | app/api/v1/notifications.py:236-239 | the row-by-row loop, completed, yields the bulk update's rows and count |
| Notifications.MarkAllLeavesNonePending | app/api/v1/notifications.py:214-241 | after mark-all, no matched row is unread, and a second run matches nothing and changes nothing |
| Notifications.MarkAllCountsChangedRows | app/api/v1/notifications.py:236-243 | the reported count is the number of rows the update changed |
| Notifications.MarkAllCoversUnreadCount | app/api/v1/notifications.py:132 | without filters, mark-all changes at least as many rows as the unread count reports, since it also reaches expired ones |
| Notifications.MarkReadLowersUnread | app/api/v1/notifications.py:132 | marking one unread unexpired notification read lowers the unread count by exactly one |
| Notifications.Sweep | app/api/v1/notifications.py:296-302 | every row the predicate selects is deleted and counted; every other row is kept, in order |
| Notifications.ClearingKeeps | app/api/v1/notifications.py:294-302 | clearing keeps every unread row, every other user's row and every row created at or after the cutoff; kept plus deleted equals the rows before |
| Notifications.NewNotification | app/api/v1/notifications.py:329-342 | the created row is unread, without a read stamp, created `now`, in the given organization, with the body's recipient, kind, category, title, message and expiry |
| Notifications.CreatedIsCountedUnread | app/api/v1/notifications.py:131-132 | a notification created without expiry raises its recipient's unread count by exactly one |
| Notifications.Inbox.constructor | app/api/v1/notifications.py:21-30 | an inbox holding exactly the given rows |
| Notifications.Inbox.MarkRead | app/api/v1/notifications.py:170-202 | the caller's notification with that id becomes `ReadAt` of itself (stamped only the first time) and no other row changes; any other id is a 404 surfaced as a 500 and changes nothing |
| Notifications.Inbox.MarkAllRead | app/api/v1/notifications.py:204-250 | each unread notification of the caller passing the filters, expired or not, is marked read at `now`, the others are unchanged, and the message counts the matched rows; a bad filter is reported as a 500 and changes nothing |
| Notifications.Inbox.MarkEach | app/api/v1/notifications.py:236-239 | the loop's result is the bulk update: matched rows marked read, the rest unchanged, the count of matched rows returned |
| Notifications.Inbox.Delete | app/api/v1/notifications.py:252-282 | the caller's first notification with that id is removed and every other row kept in order; any other id is a 404 surfaced as a 500 and changes nothing |
| Notifications.Inbox.ClearOld | app/api/v1/notifications.py:284-313 | the caller's read notifications created before `now - days_old` are deleted, the rest kept in order, and the number deleted reported |
| Notifications.Inbox.Create | app/api/v1/notifications.py:316-370 | no permission is checked: the row `NewNotification` describes is appended under a key above every existing key; exactly when the caller has no organization or the recipient is no user, the commit fails, the rows stay unchanged and a 500 carries the database's message |
| NoticeModel.DefaultNoticeCreate | app/schemas/notice.py:11-26 | a body with only title and content takes the declared defaults: medium priority, general category, no targets, no dates, no acknowledgment required |
| NoticeModel.NoticeCreateViolations | app/schemas/notice.py:12-14 | no violation exactly when the title has 1 to 255 characters, the content at least one, and the summary, if given, at most 500 |
| Notices.UntargetedNoticeReachesEveryone | app/api/v1/notices.py:25-48 | an active notice in its publish window with no target roles or users is visible to every user |
| Notices.TargetingOnlyNarrows | app/api/v1/notices.py:38-46 | adding target roles or users never makes a notice visible to a user who could not see it before |
| Notices.AddressedNoticeReachesOnlyItsUser | app/api/v1/notices.py:43-46 | a notice targeted at one user's key is visible to that user (while active and in its window) and to no other user |
| Notices.RolelessUserMissesRoleTargeted | app/api/v1/notices.py:39-41 | a user with no role reads as "None" and sees no notice whose target roles are all role keys |
| Notices.ReadTexts | app/api/v1/notices.py:87-90 | every element of `read_notice_ids` is a string, never a key, which is why the list's membership tests against keys cannot succeed |
| Notices.ReadIds | app/api/v1/notices.py:87-90 | a key is in the set exactly when the user holds a receipt for that notice |
| Notices.FilterKeepsOrder | app/api/v1/notices.py:81-97 | filtering a list keeps the relative order of what it keeps |
| Notices.Shown | app/api/v1/notices.py:63-84 | exactly the listable notices (the caller's organization, active, matching priority and category, visible to the caller), newest first |
| Notices.ShownHoldsListable | app/api/v1/notices.py:64-84 | every listable notice passes each of the three filters on the way to the list |
| Notices.ListWith | app/api/v1/notices.py:92-140 | `total` counts the listable (or, with `unread_only`, the unread) notices, `unread_count` the unread ones, and the page is the slice `[(page-1)*size, page*size)` of them, each marked read as the given reading says and never acknowledged; `unread_count` never exceeds `total` and equals it under `unread_only` |
| Notices.ListAlike | app/api/v1/notices.py:92-129 | two readings of "read" that agree on every notice give the same list |
| Notices.NoticesStayUnreadAsWritten | app/api/v1/notices.py:90-129 | as written, the list is the same whatever receipts the caller holds and whether or not `unread_only` is set; every notice on it is unread and the unread count equals the total |
| Notices.ReadingLowersUnreadCount | app/api/v1/notices.py:100 | on the corrected route: with keys compared as keys, first reading a listed notice lowers the unread count and keeps the total |
| Notices.ReadingOnlyAdds | app/api/v1/notices.py:214-229 | every notice a user had read stays read after any reading |
| Notices.UnreadCountDrops | app/api/v1/notices.py:100 | a notice becoming read, with none becoming unread, lowers the unread count |
| Notices.ReceiptOf | app/api/v1/notices.py:215-218 | the position of the user's receipt for the notice exists exactly when the user has read it, and points at a matching receipt |
| Notices.AfterRead | app/api/v1/notices.py:214-229 | with a receipt, the receipts are unchanged; without, exactly one receipt is added, read `now` and unacknowledged |
| Notices.AfterAcknowledge | app/api/v1/notices.py:254-269 | the user's receipt, found or created, carries `acknowledged_at = now`; every other receipt is unchanged |
| Notices.ReadIsIdempotent | app/api/v1/notices.py:220-221 | reading twice leaves what reading once left |
| Notices.ReadAddsOnlyItsNotice | app/api/v1/notices.py:214-229 | reading adds that notice to that user's read ids and nothing to anyone else's |
| Notices.ReadingKeepsAcknowledgements | app/api/v1/notices.py:214-229 | reading never sets or clears any acknowledgement |
| Notices.ReceiptsStayUnique | app/api/v1/notices.py:214-265 | reading and acknowledging keep at most one receipt per user and notice |
| Notices.Access | app/api/v1/notices.py:203-212 | a 404 when the caller's organization has no notice with the key, a 403 when the caller may not see it, otherwise the notice |
| Notices.NoticeById | app/api/v1/notices.py:274-330 | on the corrected route: the answer is the notice, marked read exactly when a receipt existed before the call and acknowledged exactly when that receipt was acknowledged; the access errors otherwise |
| Notices.OpeningMarksRead | app/api/v1/notices.py:317-328 | on the corrected route (NoticeById): after opening a notice, opening it again answers "read", with its acknowledgement unchanged |
| Notices.AcknowledgedOpensAcknowledged | app/api/v1/notices.py:254-269 | on the corrected route (NoticeById): after acknowledging, the notice opens as read and acknowledged |
| Notices.NewNotice | app/api/v1/notices.py:151-166 | the new notice is active, in the caller's organization, created by the caller `now`, with the body's fields |
| Notices.OpenNoticeReachesOrganization | app/api/v1/notices.py:25-48 | a notice created with no targets or dates reaches every member of its organization at any moment and heads their list |
| Notices.NoticeBoard.constructor | app/api/v1/notices.py:51-60 | a board over the given notices and receipts |
| Notices.NoticeBoard.GetNotices | app/api/v1/notices.py:51-140 | the response built notice by notice equals `NoticesPage`, the list with receipts' notice keys compared as keys |
| Notices.NoticeBoard.Items | app/api/v1/notices.py:108-132 | one response per notice of the page, in order, with its read flag as the reading says and never acknowledged |
| Notices.NoticeBoard.CreateNotice | app/api/v1/notices.py:143-191 | no permission is checked: the `NewNotice` under the next key is appended and answered unread and unacknowledged; a caller with no organization fails with an unhandled 500 and nothing changes; receipts never change |
| Notices.NoticeBoard.MarkRead | app/api/v1/notices.py:194-231 | after the access checks the receipts become `AfterRead` of the old ones, answered "already marked" exactly when a receipt existed; on an access error nothing changes |
| Notices.NoticeBoard.Acknowledge | app/api/v1/notices.py:234-271 | after the access checks the receipts are `AfterAcknowledge` of the old ones; on an access error nothing changes |
| Notices.NoticeBoard.GetNotice | app/api/v1/notices.py:274-330 | on the corrected route: the answer is `NoticeById` over the receipts before the call; on success the receipts become `AfterRead` of the old ones, on an error they stay |
| Notices.NoticeByIdAsWritten | app/api/v1/notices.py:274-330 | as written the route never succeeds: the access errors are kept and a notice it finds is answered 500 |
| Notices.ShownNoticeIsRefused | app/schemas/notice.py:45 | every notice the corrected route shows passes the access checks and is answered 500 as written |
| Notices.NoticeBoard.GetNoticeAsWritten | app/api/v1/notices.py:274-330 | as written the answer is `NoticeByIdAsWritten`, and the receipt is still stored, as `AfterRead` of the old receipts, whenever the access checks pass |
| Tasks.OverdueIgnoresOverdueStatus | app/api/v1/tasks.py:145-151 | a task whose status is OVERDUE is never counted overdue, nor is a completed one: only pending and in-progress tasks past their due date are |
| Tasks.ClientName | app/api/v1/tasks.py:168 | "Unknown" exactly when no client has that id |
| Tasks.UserName | app/api/v1/tasks.py:162 | a name exactly when an assignee is set and a user with that id exists |
| Tasks.ViewOf | app/api/v1/tasks.py:159-181 | the response carries the task itself, and an assignee name only when the task has an assignee |
| Tasks.CreateChecks | app/api/v1/tasks.py:33-53 | passes exactly when the client is of the caller's organization, the assignee is not empty, and a named assignee is a user of that organization; a missing client is a 404 surfaced as a 500, and every failure is a 500; the found client and assignee are the ones named |
| Tasks.NewTask | app/api/v1/tasks.py:55-69 | the new task is pending, not completed, created `now` by the caller, with no update stamp and the body's assignee |
| Tasks.TaskFilters | app/api/v1/tasks.py:125-137 | an absent or empty status/priority filters nothing; the first one outside its enum is a 400 naming it; otherwise the parsed value is the one given |
| Tasks.ListTasks | app/api/v1/tasks.py:97-189 | exactly when the filters parse and limit and offset are not negative, the views of the window at offset over the selected tasks sorted by priority (highest first), then due date (earliest first, none last), then newest; a bad filter's 400 and the database's refusal of a negative window are reported as 500s |
| Tasks.OverdueOnlyListsOpenTasks | app/api/v1/tasks.py:145-151 | with `overdue_only`, every listed task is overdue and none is completed |
| Tasks.GetTask | app/api/v1/tasks.py:191-237 | the organization's task with that id, with its names, exactly when one exists; otherwise a 404 surfaced as a 500 |
| Tasks.ApplyUpdate | app/api/v1/tasks.py:260-296 | identity, client, organization, creator and creation time are kept, `updated_at` is stamped `now`, and the status changes only when one is given, the completion time with it |
| Tasks.UpdateKeepsCompletionConsistent | app/api/v1/tasks.py:267-275 | a task whose completion time is in step with its status stays so after any update |
| Tasks.CompletionStampedOnce | app/api/v1/tasks.py:271-275 | completing an open task stamps `now`; completing it again keeps the first stamp; moving it to any other status clears the stamp |
| Tasks.UpdateChecks | app/api/v1/tasks.py:250-291 | passes exactly when the organization has the task, the assignee is not empty, and a named assignee is of the organization, returning the task's position; a missing task is a 404 surfaced as a 500, and every failure a 500 |
| Tasks.CompletionRate | app/api/v1/tasks.py:393 | between 0 and 100, 100 exactly when there are tasks and all are completed, 0 exactly when none is completed |
| Tasks.Summary | app/api/v1/tasks.py:362-407 | total, completed, pending and overdue count the scoped tasks with that status; completed plus pending and completed plus overdue never exceed the total; the rate is `CompletionRate` of completed over total |
| Tasks.SummaryCountsNest | app/api/v1/tasks.py:383-391 | completed and pending tasks are disjoint parts of the total, as are overdue and completed ones |
| Tasks.TaskBoard.constructor | app/api/v1/tasks.py:21-30 | a board holding exactly the given tasks |
| Tasks.TaskBoard.CreateTask | app/api/v1/tasks.py:21-95 | when `CreateChecks` fails nothing changes and its error is answered; otherwise the `NewTask` under the next key is appended and answered with the client's, the assignee's and the caller's names |
| Tasks.TaskBoard.UpdateTask | app/api/v1/tasks.py:239-328 | when `UpdateChecks` fails nothing changes; otherwise only the task found becomes `ApplyUpdate` of itself and is answered with its names |
| Tasks.TaskBoard.DeleteTask | app/api/v1/tasks.py:330-360 | the organization's first task with that id is removed and the rest kept in order; otherwise a 404 surfaced as a 500 and nothing changes |
| Tasks.PriorityRank | app/models/task.py:16-20 | the rank of a priority lies in 0..3, LOW alone ranks 0 and URGENT alone ranks 3 |
| Tasks.ListOrder | app/api/v1/tasks.py:153-157 | a higher priority comes strictly first; at equal priority a task with a due date comes before one without and an earlier due date comes first; at equal priority and due date the newer task comes first |
| HelpRequests.StaffGate | app/api/v1/help_requests.py:58-71 | refused with a 403 exactly when the caller has a role whose name lower-cases to "client"; a caller without a role passes |
| HelpRequests.Underscored | app/api/v1/help_requests.py:87 | the same length, every space turned into '_' and every other character kept |
| HelpRequests.NormalizedRole | app/api/v1/help_requests.py:86-87 | "" without a role; otherwise as long as the role name, with no space and no upper-case letter |
| HelpRequests.SuperAdminIsManager | app/api/v1/help_requests.py:86-89 | the seeded "Super Admin" role normalizes to "super_admin" and is a manager |
| HelpRequests.OrganizationAdminIsManager | app/api/v1/help_requests.py:86-89 | the seeded "Organization Admin" role normalizes to "organization_admin" and is a manager |
| HelpRequests.SupportStaffIsNotManager | app/api/v1/help_requests.py:86-89 | the seeded "Support Staff" role normalizes to "support_staff" and is not a manager |
| HelpRequests.ManagersAreNotClients | app/api/v1/help_requests.py:66-89 | a caller without a role is no manager, and every manager passes the staff gate |
| HelpRequests.StaffRecord | app/api/v1/help_requests.py:92 | a staff row of the caller when there is one; none exactly when no staff row belongs to the caller |
| HelpRequests.ActiveClientIds | app/api/v1/help_requests.py:96-101 | exactly the clients of the staff member's active assignments |
| HelpRequests.CountScope | app/api/v1/help_requests.py:90-109 | managers see everything, and only they; the scope is never empty; a client scope comes from a staff row and names at least one client; otherwise the caller's own assigned requests |
| HelpRequests.ListScope | app/api/v1/help_requests.py:184-204 | the list shows nothing exactly for a non-manager with a staff row and no active clients |
| HelpRequests.ScopesDifferOnlyWithoutClients | app/api/v1/help_requests.py:103-106 | the list's narrowing equals the counts', except when the list shows nothing and the counts fall back to requests assigned to the caller |
| HelpRequests.Counts | app/api/v1/help_requests.py:115-148 | on the corrected route: a 403 exactly when the gate refuses; otherwise pending, in-progress and urgent-open counts over the narrowed help requests, `total_active` their pending plus in-progress sum, and urgent never above it |
| HelpRequests.RequestType | app/api/v1/help_requests.py:234-292 | "other" without a non-empty dict or without a "request_type" entry; the entry's text when it is text; an unhandled 500 when it is not |
| HelpRequests.HelpView | app/api/v1/help_requests.py:224-256 | a response exactly when the request type is readable, carrying the task's id, client, status, priority, completion time as `resolved_at`, notes as `response`, due date as `preferred_time` and description; a 500 otherwise |
| HelpRequests.Views | app/api/v1/help_requests.py:223-257 | one response per task, in order, exactly when every task's response succeeds; a 500 otherwise |
| HelpRequests.StatusFilter | app/api/v1/help_requests.py:207-213 | a filter exactly when the text is non-empty, not "all" and a status value, and then that status |
| HelpRequests.Chosen | app/api/v1/help_requests.py:216-219 | the lesser of `limit` and the number of matching rows, each from the input and passing the filter, in priority-then-newest order; no matching row left out ranks before one chosen, and all are chosen when they fit |
| HelpRequests.ViewsShowOnly | app/api/v1/help_requests.py:197-257 | responses built from rows that pass the listing's filter all have the status asked for and, in a client scope, only those clients |
| HelpRequests.ListHelpRequests | app/api/v1/help_requests.py:151-257 | a 403 when the gate refuses; nothing for a staff member without active clients; a negative limit is a 500; otherwise the views of the first `limit` requests in the scope and status, highest priority then newest first |
| HelpRequests.UnknownStatusIsIgnored | app/api/v1/help_requests.py:207-213 | a status text that is "all" or no status value lists exactly what no status filter lists |
| HelpRequests.BadgeWithoutList | app/api/v1/help_requests.py:103-106 | a non-manager with a staff row and no active clients counts a pending request assigned to them, yet lists nothing |
| HelpRequests.GetHelpRequest | app/api/v1/help_requests.py:260-310 | a 403 when the gate refuses; a 404 when the organization has no help request with that id; any result is that request, whatever the caller's narrowing |
| HelpRequests.HelpUpdateChecks | app/api/v1/help_requests.py:327-369 | passes exactly when the organization has the request, a given status parses and a given assignee is a user of the organization; 404 and then 400 naming the status are raised in that order; the parsed status is the one given |
| HelpRequests.ApplyHelpUpdate | app/api/v1/help_requests.py:340-372 | identity, client, organization, kind, title, priority, due date, creation and extra data are kept; `updated_at` is `now`; setting completed stamps `resolved_at` `now` every time; any other status keeps the stamp; no response keeps the notes |
| HelpRequests.ReopeningKeepsResolution | app/api/v1/help_requests.py:340-345 | reopening a completed request keeps its resolution time, leaving status and completion time out of step; completing again moves the stamp to `now` |
| HelpRequests.CompletingIsConsistent | app/api/v1/help_requests.py:344-345 | completing a request from any status leaves its completion time in step with its status |
| HelpRequests.UpdateHelpRequest | app/api/v1/help_requests.py:313-411 | a 403 when the gate refuses; a failed check changes nothing and is answered; otherwise only the request found becomes `ApplyHelpUpdate` of itself and the answer is its response |
| HelpRequests.EndpointAsWritten | app/api/v1/help_requests.py:78-83 | every endpoint fails: a 403 at the staff gate, otherwise an unhandled 500 because `Task.task_type` is not a column of the task model |
| HelpRequests.PendingRequestUnseenAsWritten | app/api/v1/help_requests.py:78-83 | a manager whose organization has a pending help request sees at least one pending in the corrected counts, while the endpoint as written answers 500 |
| HelpRequests.HelpOrder | app/api/v1/help_requests.py:216-219 | a higher priority comes strictly first, and at equal priority the newer request comes first |
| ClientPortal.GetClientUser | app/api/v1/client_portal.py:87-102 | a 403 exactly when the caller has no role or one whose name does not lower-case to "client"; a client without a profile gets a 404; the profile returned is the caller's own |
| ClientPortal.GatesAreComplementary | app/api/v1/client_portal.py:87-94 | a caller passes the portal's role check exactly when the staff help-request gate refuses it |
| ClientPortal.Age | app/api/v1/client_portal.py:224 | the difference of the years, or one less |
| ClientPortal.AgeCountsWholeYears | app/api/v1/client_portal.py:224 | 0 on the day of birth, never negative from then on, never decreasing as days pass, and exactly the difference of the years on a birthday |
| ClientPortal.TrendOf | app/api/v1/client_portal.py:273-278 | up or down only when both readings are truthy and differ, up only when the latest is larger |
| ClientPortal.TrendReverses | app/api/v1/client_portal.py:273-278 | swapping the readings swaps up and down and keeps stable; a value against itself is stable |
| ClientPortal.AsReal | app/api/v1/client_portal.py:275-276 | a heart rate is a truthy reading exactly when present and non-zero |
| ClientPortal.ReadingTrends | app/api/v1/client_portal.py:264-278 | all stable unless both readings exist; then temperature, heart rate and weight trend as `TrendOf` says, and blood pressure is always stable |
| ClientPortal.FirstOfMonth | app/api/v1/client_portal.py:281 | the first day of the same year and month |
| ClientPortal.VitalsSummaryOf | app/api/v1/client_portal.py:247-300 | the latest reading is the client's with no later reading of theirs; without one the client has no readings and all trends are stable; the month's count is the client's readings from the first of the month on |
| ClientPortal.MealStatus | app/api/v1/client_portal.py:388 | "completed" exactly when the meal is completed: nothing refused and an intake other than none |
| ClientPortal.MealClasses | app/api/v1/client_portal.py:348-388 | no meal is both completed and missed; one with no refusal and no intake is neither, yet the list shows it as missed |
| ClientPortal.MealsSummary | app/api/v1/client_portal.py:335-360 | total, completed and missed count the client's meals of the last seven days; completed plus missed never exceed the total |
| ClientPortal.ShiftNotesSummary | app/api/v1/client_portal.py:457-480 | total, positive and concern count the client's notes of the last thirty days, and positive plus concerns equal the total |
| ClientPortal.NotePreview | app/api/v1/client_portal.py:195 | a narrative of at most 100 characters unchanged; a longer one cut to its first 100 characters followed by "..." |
| ClientPortal.PriorityFor | app/api/v1/client_portal.py:526-534 | read case-blind, low, high and urgent exactly for their own names, medium for everything else |
| ClientPortal.PriorityForValues | app/api/v1/client_portal.py:65 | every priority's own value reads back as itself, and the default "normal" as medium |
| ClientPortal.HelpRequestCreateViolations | app/api/v1/client_portal.py:63-68 | no violation exactly when the title has 1 to 200 characters and the description at least one |
| ClientPortal.Midnight | app/api/v1/client_portal.py:545 | the same date at second zero |
| ClientPortal.NewHelpRequest | app/api/v1/client_portal.py:536-549 | a pending, uncompleted help request of the client's organization and client, created by the client's user, unassigned, with the mapped priority and no stored request type |
| ClientPortal.CreateHelpRequest | app/api/v1/client_portal.py:517-564 | on the corrected route: a failed access check is answered and nothing changes; otherwise the `NewHelpRequest` under the next key is appended and answered with the request type and preferred time sent, pending |
| ClientPortal.PortalView | app/api/v1/client_portal.py:581-594 | the client's view shows the type as "other", no preferred time, and the task's status, completion time and notes |
| ClientPortal.OwnHelpRequests | app/api/v1/client_portal.py:567-595 | a failed access check is answered; a negative limit is a 500; a list exactly otherwise, of the lesser of the limit and the client's request count, newest first, each a view of one of the client's own help requests, none newer left out, and all of them when they fit |
| ClientPortal.OnlyRequestIsListed | app/api/v1/client_portal.py:575-595 | a client's only help request is the one listed back |
| ClientPortal.FiledRequestIsListed | app/api/v1/client_portal.py:536-595 | a request just filed by a client with no earlier one is listed back to it |
| ClientPortal.FiledRequestReachesStaff | app/api/v1/client_portal.py:536-549 | a manager of the client's organization counts the filed request as pending, but staff see its type as "other" |
| ClientPortal.HelpRequestsAsWritten | app/api/v1/client_portal.py:540-578 | past the access check, filing and listing both end in an unhandled 500 because `task_type` is not a task column |
| ClientPortal.FilingFailsAsWritten | app/api/v1/client_portal.py:517-595 | as written a client with a profile never gets an answer; as intended the request it files is listed back |
| ClientPortal.NewestRequests | app/api/v1/client_portal.py:575-579 | the newest `n` matching requests: min(n, count) of them, newest first, each matching, none newer left out, and all of them when they fit |
| ClientPortal.NewestViews | app/api/v1/client_portal.py:575-595 | the views of the newest `n` matching requests number min(n, count), each of a matching request, newest first, none newer left out, and all of them when they fit |
| SpecialRequirementModel.PriorityValue | app/schemas/special_requirement.py:8-13 | every priority level's value parses back to that level |
| SpecialRequirementModel.PriorityFromValue | app/schemas/special_requirement.py:8-13 | no level exactly for a text other than "low", "medium", "high" and "critical" |
| SpecialRequirementModel.StatusValue | app/schemas/special_requirement.py:16-21 | every requirement status's value parses back to that status |
| SpecialRequirementModel.StatusFromValue | app/schemas/special_requirement.py:16-21 | no status exactly for a text other than "active", "inactive", "expired" and "draft" |
| SpecialRequirementModel.ItemViolations | app/schemas/special_requirement.py:24-28 | no violation exactly when every item's text has 1 to 500 characters and its order is given and at least 0 |
| SpecialRequirementModel.CreateViolations | app/schemas/special_requirement.py:33-55 | no violation exactly when the title has 3 to 255 characters, the instructions 10 to 5000, there are 1 to 20 valid items, and the end date is not before the start date |
| SpecialRequirementModel.UpdateViolations | app/schemas/special_requirement.py:58-75 | no violation exactly when each given title and instructions is within its bounds and given items number 1 to 20 and are valid |
| SpecialRequirementModel.UpdateMayInvertDates | app/schemas/special_requirement.py:58-75 | an update setting an end date before its start date passes validation |
| SpecialRequirementModel.ResponseViolations | app/schemas/special_requirement.py:104-129 | no violation exactly when the instructions are acknowledged, at least one item is acknowledged, the notes have 10 to 2000 characters, and the response is certified |
| SpecialRequirements.ZoneName | app/api/v1/special_requirements.py:356 | the caller's time zone when it is a non-empty text, "UTC" otherwise |
| SpecialRequirements.LocalNow | app/api/v1/special_requirements.py:356-365 | the current moment shifted by the zone's offset; a zone name the zone table does not know falls back to UTC |
| SpecialRequirements.StaffOf | app/api/v1/special_requirements.py:73-112 | a staff record of the user in the organization, none exactly when there is no such record |
| SpecialRequirements.ClientAssigned | app/api/v1/special_requirements.py:44-65 | true exactly when the user has a staff record in the organization with an active assignment to the client |
| SpecialRequirements.ActiveShift | app/api/v1/special_requirements.py:68-103 | on the corrected route: a shift from the roster of the user's staff record, for the client, today's, begun, not ended and still open; none exactly when there is no staff record or no such shift |
| SpecialRequirements.ShiftTimeAsWritten | app/api/v1/special_requirements.py:78-95 | succeeds, with no shift, exactly when the user has no staff record; with one, reading `Shift.client_id` fails with a 500 |
| SpecialRequirements.ClockedInCheck | app/api/v1/special_requirements.py:106-141 | a 404 without a staff record; with one, passes exactly when the staff member is clocked in, and is a 403 otherwise |
| SpecialRequirements.NormalizedItems | app/api/v1/special_requirements.py:197-203 | one stored item per item given, in order: its text, its id when non-empty (else the uuid drawn for that position), its order when given (else its position) |
| SpecialRequirements.NormalizeItems | app/api/v1/special_requirements.py:197-203 | the loop's items are `NormalizedItems` of the input |
| SpecialRequirements.ValidItemsKeepTheirOrder | app/api/v1/special_requirements.py:197-203 | for items the schema accepts, every stored order is the one given, and at least 0 |
| SpecialRequirements.NormalizedIdsAreNonEmpty | app/api/v1/special_requirements.py:200 | with non-empty drawn uuids, every stored item has a non-empty id |
| SpecialRequirements.RequiredIds | app/api/v1/special_requirements.py:885 | exactly the ids of the requirement's items |
| SpecialRequirements.MissingIds | app/api/v1/special_requirements.py:885-892 | nothing is missing exactly when every item's id was acknowledged |
| SpecialRequirements.FindRequirement | app/api/v1/special_requirements.py:517-568 | the position of the organization's requirement with that key; a 404 exactly when the organization has none |
| SpecialRequirements.ClientName | app/api/v1/special_requirements.py:301 | "Unknown" when no client has the id, otherwise some matching client's "first last" |
| SpecialRequirements.CreatorName | app/api/v1/special_requirements.py:296-305 | no name without a creator; otherwise a name exactly when a user with that key exists |
| SpecialRequirements.GetRequirement | app/api/v1/special_requirements.py:508-549 | a result exactly when the organization has the requirement; it is that requirement, active exactly as `is_requirement_active` says for the day, with its count of responses |
| SpecialRequirements.PaginationOf | app/api/v1/special_requirements.py:318-324 | total and page size as given; page and pages 1 for a limit of 0 or less; otherwise the offset falls in the reported page, and the pages cover the total with no empty page beyond |
| SpecialRequirements.ParsedFilter | app/api/v1/special_requirements.py:270-274 | no filter for an absent or empty text; otherwise a result exactly when the text parses, and then the parsed value |
| SpecialRequirements.ListRequirements | app/api/v1/special_requirements.py:248-329 | a result exactly when status and priority parse and limit and offset are not negative; then the pagination counts every selected requirement, and the views are those of exactly the window at offset over the selected requirements newest first |
| SpecialRequirements.ResponseOnShift | app/api/v1/special_requirements.py:867-873 | a response of the user to the requirement on that shift, from the rows; none exactly when there is no such response |
| SpecialRequirements.AnsweredIff | app/api/v1/special_requirements.py:404-410 | the recursive `Answered` holds exactly when some response matches requirement, user and shift, and exactly when `ResponseOnShift` finds one |
| SpecialRequirements.Rank | app/api/v1/special_requirements.py:388 | a rank between 1 and 4, and 1 exactly for low |
| SpecialRequirements.PendingComesFromAShift | app/api/v1/special_requirements.py:390-425 | every requirement on the alert is a row that is live on one of the shifts and unanswered there |
| SpecialRequirements.PendingReachesEveryShift | app/api/v1/special_requirements.py:390-425 | every row live and unanswered on one of the shifts is on the alert |
| SpecialRequirements.PendingIsTheUnanswered | app/api/v1/special_requirements.py:390-425 | on the corrected route: a requirement is on the alert exactly when it is a row live and unanswered on some shift under way |
| SpecialRequirements.Highest | app/api/v1/special_requirements.py:387-424 | ranks at least as high as every requirement, and is low or the priority of one of them |
| SpecialRequirements.AlertOf | app/api/v1/special_requirements.py:412-430 | one entry per requirement, in order, with its key and priority; the total is their number; the highest priority parses and ranks at least as high as each of them |
| SpecialRequirements.PendingAlertFor | app/api/v1/special_requirements.py:331-430 | an empty alert at "low" without a staff record; otherwise the alert of the requirements pending on the staff member's shifts under way at the local moment, dated by the local day |
| SpecialRequirements.PendingAsWritten | app/api/v1/special_requirements.py:390-400 | a 500 exactly when the caller has a staff record and a shift under way; otherwise the empty alert |
| SpecialRequirements.PendingAlertFailsAsWritten | app/api/v1/special_requirements.py:390-400 | whenever the corrected alert has something pending, the handler as written answers a 500 |
| SpecialRequirements.HistoryEntries | app/api/v1/special_requirements.py:460-490 | no more entries than responses, each pairing a response of the page with its own requirement from the rows |
| SpecialRequirements.HistoryKeepsKnownResponses | app/api/v1/special_requirements.py:460-490 | when every response's requirement exists, the history shows every response of the page, in order |
| SpecialRequirements.History | app/api/v1/special_requirements.py:433-506 | a result exactly when limit and offset are not negative; the pagination counts all the caller's responses, and the entries are those of exactly the window at offset over the caller's responses newest first, each with its requirement |
| SpecialRequirements.StaffName | app/api/v1/special_requirements.py:699 | "Unknown" without a responding user |
| SpecialRequirements.ResponsesFor | app/api/v1/special_requirements.py:650-725 | a 404 unless the requirement is the organization's; a result exactly when it is and limit and offset are not negative; then the pagination counts the selected responses, and the data is the views of exactly the window at offset over them newest first |
| SpecialRequirements.ActiveForClient | app/api/v1/special_requirements.py:727-801 | on the corrected route: a 404 unless the client is the organization's, a 403 unless the caller is assigned to it; otherwise one entry per requirement of the client live on the day, highest priority first, each saying whether the caller answered it on the shift under way |
| SpecialRequirements.ActiveForClientAsWritten | app/api/v1/special_requirements.py:759-760 | always fails; once client and assignment pass, with an unhandled 500 from the shift lookup |
| SpecialRequirements.ActiveListFailsAsWritten | app/api/v1/special_requirements.py:727-801 | every request the corrected view answers with a list fails with a 500 as written |
| SpecialRequirements.CertificationStatement | app/api/v1/special_requirements.py:154-171 | the statement begins "I, first last, certify that on <day>, " and ends with the caller's staff id line |
| SpecialRequirements.FramedBy | app/api/v1/special_requirements.py:154-171 | a text made of head, body and tail starts with the head and ends with the tail |
| SpecialRequirements.PendingIsActive | app/api/v1/special_requirements.py:392-400 | every requirement on an alert is ACTIVE and within its dates on the day, so a deactivated one is on none |
| SpecialRequirements.RequirementChecks | app/api/v1/special_requirements.py:820-855 | a 404 for a requirement the organization lacks, then a 400 when it is not active today; every error is a 400, 403 or 404; a pass yields the active requirement for that client and the organization's client, to which the caller is assigned |
| SpecialRequirements.SubmitChecks | app/api/v1/special_requirements.py:820-893 | the first checks' error is kept; otherwise no shift under way is a 403 and a response already given on it a 400; a pass means a shift under way, clocked in, not yet answered, and every item acknowledged |
| SpecialRequirements.NewResponse | app/api/v1/special_requirements.py:899-915 | the inserted row is the user's response to the requirement on that shift |
| SpecialRequirements.SubmitOutcome | app/api/v1/special_requirements.py:804-945 | a response exactly when every check passes, and otherwise the first failing check's error; the response answers the requirement on the shift under way, is keyed above every earlier response, and is certified at the current moment |
| SpecialRequirements.SecondSubmitIsRefused | app/api/v1/special_requirements.py:867-880 | submitting the same response again on the same shift is refused with a 400 |
| SpecialRequirements.SubmitKeepsOneResponsePerShift | app/api/v1/special_requirements.py:867-915 | on the corrected route: an accepted submission keeps at most one response per requirement, user and shift |
| SpecialRequirements.AddingAnUnansweredResponseKeepsOnePerShift | app/api/v1/special_requirements.py:867-915 | adding a response for a triple not yet answered keeps one response per requirement, user and shift |
| SpecialRequirements.SubmitAsWritten | app/api/v1/special_requirements.py:857-859 | always fails; once the first checks pass, with an unhandled 500 from the shift lookup |
| SpecialRequirements.AcceptedSubmitFailsAsWritten | app/api/v1/special_requirements.py:804-945 | every submission the corrected handler accepts fails with a 500 as written |
| SpecialRequirements.Updated | app/api/v1/special_requirements.py:570-596 | keys, organization, client, creator and creation moment are kept, `updated_at` is `now`, and each field the update does not give keeps its value |
| SpecialRequirements.UpdateIsIdempotent | app/api/v1/special_requirements.py:570-596 | applying the same update twice equals applying it once |
| SpecialRequirements.EmptyUpdateOnlyStamps | app/api/v1/special_requirements.py:570-596 | an update giving no field changes nothing but `updated_at` |
| SpecialRequirements.UpdateItems | app/api/v1/special_requirements.py:575-583 | given items are stored normalised as `NormalizedItems` says |
| SpecialRequirements.HighestSnoc | app/api/v1/special_requirements.py:422-424 | one more requirement raises the highest priority exactly when it ranks higher |
| SpecialRequirements.FilterStep | app/api/v1/special_requirements.py:402-425 | filtering one more element appends it exactly when it passes |
| SpecialRequirements.AddPending | app/api/v1/special_requirements.py:412-424 | the found list grows by the requirement, and entries and highest priority stay those of the found list |
| SpecialRequirements.PendingOfShift | app/api/v1/special_requirements.py:402-425 | the found list grows by the shift's live requirements that are unanswered, entries and highest priority kept in step |
| SpecialRequirements.PendingOfShifts | app/api/v1/special_requirements.py:387-425 | the entries and highest priority are those of `PendingOn` over all the shifts |
| SpecialRequirements.PendingStep | app/api/v1/special_requirements.py:390-425 | one more shift appends exactly its live requirements unanswered on it |
| SpecialRequirements.RequirementBoard.constructor | app/api/v1/special_requirements.py:173-182 | an empty board: no requirements and no responses |
| SpecialRequirements.RequirementBoard.CreateRequirement | app/api/v1/special_requirements.py:173-245 | a 404 and no change unless the client is the organization's; otherwise an ACTIVE requirement keyed above every other is appended, with the body's fields, normalised items, the caller as creator and `now` as both stamps, shown with its names and no responses |
| SpecialRequirements.RequirementBoard.UpdateRequirement | app/api/v1/special_requirements.py:552-622 | a 404 and no change unless the requirement is the organization's; otherwise only it becomes `Updated` of itself and is shown |
| SpecialRequirements.RequirementBoard.Deactivate | app/api/v1/special_requirements.py:625-647 | a 404 and no change unless the requirement is the organization's; otherwise only it becomes INACTIVE, stamped `now` |
| SpecialRequirements.RequirementBoard.Submit | app/api/v1/special_requirements.py:804-945 | the answer is `SubmitOutcome`; on success the response is appended, otherwise nothing changes; one response per requirement, user and shift is kept |
| SpecialRequirements.RequirementBoard.Pending | app/api/v1/special_requirements.py:331-430 | the alert built shift by shift equals `PendingAlertFor` |
| Manager.DaysRequested | app/api/v1/manager.py:482 | a request counts both of its end days: one day when start equals end, and at least one day exactly when the end is not before the start |
| Manager.SplitRequestKeepsDays | app/api/v1/manager.py:482 | splitting a request after any of its days into two back-to-back requests keeps the total number of days |
| Manager.ApprovalValue | app/schemas/manager.py:6-12 | the action's value is the text "APPROVED" exactly for the uppercase member APPROVED_UPPER |
| Manager.ApprovalViolations | app/schemas/manager.py:115-117 | an approval action is accepted exactly when its notes are absent or at most 1000 characters long |
| Manager.Reviewed | app/api/v1/manager.py:533-540 | the request is approved exactly when the action's value is "APPROVED"; otherwise it is denied and the notes become the denial reason; the reviewer and review time are recorded; nothing else about the request changes |
| Manager.LowercaseApprovedDenies | app/api/v1/manager.py:533-537 | the lowercase "approved" action, which the schema accepts, denies the request and records the notes as the denial reason |
| Manager.FindRequest | app/api/v1/manager.py:523-526 | the lookup finds a request with the given key whose staff member belongs to the caller's organization, and reports none only when no such request exists |
| Manager.ReviewIsFinal | app/api/v1/manager.py:523-531 | after a review the same request is found at the same place and is no longer pending, so a second review is refused |
| Manager.TimeOffDesk.constructor | app/api/v1/manager.py:509-557 | the desk starts with the given time-off requests |
| Manager.TimeOffDesk.Approve | app/api/v1/manager.py:509-557 | 404 and no change when the request is not found in the caller's organization; 400 and no change when it is no longer pending; otherwise exactly that request is replaced by its review and the reply echoes the action's value, the key and the new status |
| Manager.CertificationAlertStatus | app/api/v1/manager.py:650-657 | the status is "expired" exactly for a negative number of days, "expiring_soon" exactly for 0 to 30 days, and "active" exactly beyond 30 days |
| Manager.AlertStatusIsMonotone | app/api/v1/manager.py:650-657 | a certificate that expires later is never in a more urgent alert state |
| Manager.CertificationAlerts | app/api/v1/manager.py:627-674 | one alert per active certificate of the organization's staff expiring within the horizon, ordered by days until expiry, each carrying those days and the status they give |
| Manager.ShortHorizonHasNoActiveAlert | app/api/v1/manager.py:640-657 | looking at most 30 days ahead, no alert has the status "active" |
| Manager.ExpiredAlertsComeFirst | app/api/v1/manager.py:645-657 | every expired alert comes before every alert that is not expired |
| Manager.TrainingPriority | app/api/v1/manager.py:917-924 | "medium" without a due date; with one, "high" exactly when it is fewer than 7 days away and "low" exactly when it is more than 30 days away; always one of the three |
| Manager.LaterDueNeverRaisesPriority | app/api/v1/manager.py:917-924 | moving a due date later never raises the priority |
| Manager.ProgressPercentage | app/api/v1/manager.py:926-931 | the progress is 100 exactly for a completed record, 50 exactly for one in progress, and 0 exactly for every other status |
| Manager.StatusFilter | app/api/v1/manager.py:897-903 | an empty or missing status filters nothing; otherwise the filter is the status whose name is the upper-cased text, or nothing when no status has that name |
| Manager.ProgramById | app/api/v1/manager.py:915 | the program found has the requested key, and none is found only when no program has it |
| Manager.AssignmentPage | app/api/v1/manager.py:884-909 | a negative limit or offset is refused with a 500; otherwise exactly the window at offset over the records of organization staff joined to a program and passing the status and staff filters, newest enrollment first |
| Manager.TrainingAssignments | app/api/v1/manager.py:869-955 | on the corrected route: fails exactly when the page does; otherwise one summary per record of that window, in order, with its key, its program's name as course title, its progress and its priority |
| Manager.TrainingAssignmentsAsWritten | app/api/v1/manager.py:912-955 | as written, every non-empty page fails with a 500 because the summary reads a title the program does not have; only an empty list comes back |
| Manager.AssignmentsFailAsWritten | app/api/v1/manager.py:935 | a matching record on the first page makes the list as written fail, while the corrected list succeeds |
| Manager.TrainingAssignmentViolations | app/schemas/manager.py:156-160 | a training assignment is accepted exactly when it lists at least one staff key and its notes are absent or at most 500 characters long |
| Manager.NewRecord | app/api/v1/manager.py:1158-1165 | the new record is for the staff member and the course, not started, enrolled today, with the assignment's due date and notes and no start or completion date |
| Manager.Enrolments | app/api/v1/manager.py:1137-1168 | one new row per enrolled staff key |
| Manager.EnrolmentsSnoc | app/api/v1/manager.py:1137-1168 | enrolling one more key appends exactly one new record, keyed above every row before it |
| Manager.EnrolmentsAreNewRecords | app/api/v1/manager.py:1158-1168 | each added row is the new record for its staff key, and its key is above those of all rows before it |
| Manager.CourseInOrg | app/api/v1/manager.py:1129-1135 | the course found has the requested key and belongs to the caller's organization, and none is found only when no such course exists |
| Manager.EnrolEach | app/api/v1/manager.py:1137-1168 | the loop adds exactly the new records of the eligible staff keys, in order, and counts them |
| Manager.EnrolStep | app/api/v1/manager.py:1137-1168 | one more key of the loop adds one record exactly when that key is eligible, and none otherwise |
| Manager.TrainingDesk.constructor | app/api/v1/manager.py:1116-1185 | the desk starts with the given programs and records |
| Manager.TrainingDesk.AssignTraining | app/api/v1/manager.py:1116-1185 | 404 and no change when the course is not a program of the caller's organization; otherwise the records gain exactly the new records of the eligible staff keys and the reply reports their number |
| Manager.AssignedCountIsEligibleCount | app/api/v1/manager.py:1137-1175 | the count reported equals the number of listed staff keys that are eligible |
| Manager.SkippedKeysGetNoRecord | app/api/v1/manager.py:1140-1156 | a staff key outside the organization, or already enrolled in the course, gets no new record |
| Manager.RepeatedAssignmentEnrolsNobody | app/api/v1/manager.py:1149-1156 | repeating the same assignment after it is committed enrols nobody |
| Manager.ListedTwiceEnrolledTwice | app/api/v1/manager.py:1149-1168 | a staff key listed twice is enrolled twice, because the second check does not see the first, unflushed record |
| Manager.StartOfDay | app/api/v1/manager.py:787 | midnight of a day falls on that day at second 0 |
| Manager.PyHead | app/api/v1/manager.py:858 | the slice `[:n]` is a prefix; for a non-negative n it has n items or all of them; for a negative n it drops the last -n items |
| Manager.ActivityPool | app/api/v1/manager.py:763-853 | the entries before sorting are at most 5 completions, 3 trainings under way and 2 due-date groups |
| Manager.RecentActivityIsTheNewest | app/api/v1/manager.py:856-858 | the activity list holds min(limit, pool size) entries for a non-negative limit (Python's negative slice drops that many from the end otherwise), at most 10, newest first, every entry from the pool, and no entry newer than one it keeps is dropped |
| Manager.HeadOfSorted | app/api/v1/manager.py:856-858 | a head of a newest-first sort is sorted, has exactly the length the slice gives (min(limit, size), or size + limit for a negative limit), and outranks everything after it |
| Manager.AppendEntries | app/api/v1/manager.py:780-790 | one query's loop appends, in order, the entry of every row that passes the check |
| Manager.CollectActivity | app/api/v1/manager.py:780-853 | the three loops append the completion entries, then the under-way entries, then the due-date entries |
| Manager.RecentTrainingActivity | app/api/v1/manager.py:754-858 | the endpoint returns the collected entries sorted newest first and cut to the limit |
| Manager.Percent | app/api/v1/manager.py:121 | a share of a non-empty whole is between 0 and 100, is 100 exactly when the part is the whole and 0 exactly when the part is nothing; an empty whole gives the fallback |
| Manager.DocumentationRate | app/api/v1/manager.py:119-121 | the documentation rate is between 0 and 100, is 100 exactly when nothing is pending, and 0 exactly when nothing was completed and something is pending |
| Manager.TrainingCompletion | app/api/v1/manager.py:289-297 | a staff member's training completion is between 0 and 100, is 0 exactly when none of their records is completed, and 100 exactly when they have records and all are completed |
| Manager.ClientDocumentationCompletion | app/api/v1/manager.py:372-384 | a client's documentation completion is between 0 and 100, and is 100 exactly when every task of the client is completed |
| Manager.CountNone | app/api/v1/manager.py:119-121 | no row is counted exactly when no row passes the test |
| Manager.CountEvery | app/api/v1/manager.py:119-121 | every row is counted exactly when every row passes the test |
| Manager.WeekWindow | app/api/v1/manager.py:974-978 | the window starts at the given start, or else at the Monday of this week, and ends at the given end, or else six days after its start |
| Manager.MondayOf | app/api/v1/manager.py:976 | the day found is a Monday, at most six days before today |
| Manager.DefaultWindowIsThisWeek | app/api/v1/manager.py:974-978 | without dates the window runs from Monday to Sunday of the week that holds today |
| Training.FindCourse | app/api/v1/training.py:263-269 | the course found is in the list, has the requested key and belongs to the caller's organization; a 404 exactly when the organization has no course with that key |
| Training.RecordOf | app/api/v1/training.py:272-276 | the position found holds the caller's record for the course, and none is found exactly when the caller has no record for it |
| Training.Started | app/api/v1/training.py:278-284 | starting moves a record that was not started to IN_PROGRESS, started and accessed now; a record in any other state is left as it is; the result is never NOT_STARTED and keeps its keys |
| Training.AfterStart | app/api/v1/training.py:271-298 | after starting, the caller has a started record for the course; an existing record is updated in place, otherwise one record is appended; the other users' and courses' records are unchanged |
| Training.StartIsIdempotent | app/api/v1/training.py:278-298 | starting a course a second time changes nothing |
| Training.StartKeepsCompletion | app/api/v1/training.py:280 | starting never takes a completed course back |
| Training.Passes | app/api/v1/training.py:360-370 | a completion passes exactly when it has no score, the course sets no passing score, or the score reaches it |
| Training.DaysAfter | app/api/v1/training.py:377 | the expiry moment lies exactly the given number of days after now |
| Training.Completed | app/api/v1/training.py:353-378 | a completed record is COMPLETED at 100, completed and accessed now; a given score is kept and adds one attempt; `passed` follows the passing rule; a certificate is issued now, with its expiry when the course sets valid days, exactly when the course provides one and the completion passed; otherwise those stamps and the keys are kept |
| Training.AfterComplete | app/api/v1/training.py:335-378 | on the corrected route: after completing, the caller has a completed record for the course whose `passed` follows the passing rule; an existing record is updated in place, otherwise one is appended; no other record changes |
| Training.CompleteAsWritten | app/api/v1/training.py:320-382 | as written, a course outside the caller's organization gives the 404 |
| Training.FirstScoredCompletionFailsAsWritten | app/api/v1/training.py:344-362 | as written, the first completion of a course with a quiz score fails with a 500, while the corrected completion counts one attempt, keeps the score and passes by the passing rule |
| Training.CertificateRule | app/api/v1/training.py:373-374 | a completion issues a certificate exactly when the course provides one and the completion passed |
| Training.ScorelessCompletionPasses | app/api/v1/training.py:360-370 | with a passing score set, a completion without a score still passes, and one with a score below it fails |
| Training.Updated | app/api/v1/training.py:401-417 | an update sets the percentage and the status when given; `started_at` is set exactly when it was set before or the status becomes IN_PROGRESS, and `completed_at` likewise for COMPLETED, and neither stamp is ever overwritten; a score adds one attempt; access is stamped now; keys, result and certificate are kept |
| Training.StampsAreSetOnce | app/api/v1/training.py:408-411 | `started_at` and `completed_at`, once set, survive any series of later updates |
| Training.Replay | app/api/v1/training.py:385-422 | a series of updates never lowers the attempts and keeps the record's keys |
| Training.ProgressFor | app/api/v1/training.py:114-119 | the record found is the caller's record for the course, and none is found exactly when the caller has none |
| Training.ProgressForIsTheRecord | app/api/v1/training.py:114-119 | with one record per course and user, the dictionary finds the same record as the lookup by course and user |
| Training.CoursesPage | app/api/v1/training.py:74-132 | `total` counts the listed courses of the organization with the asked status, active by default, and required when asked; the page is the slice from `(page - 1) * page_size` of at most `page_size` of them, each with the caller's record |
| Training.DefaultListIsActive | app/api/v1/training.py:90-98 | without a status the list holds active courses only, and asking for required ones keeps only required ones |
| Training.RequiredCourses | app/api/v1/training.py:155-201 | the list holds exactly the active courses of the caller's organization required of all or naming the caller's role, each with the caller's record, on one page whose total is its length |
| Training.RequiredReachesTheRole | app/api/v1/training.py:166-172 | an active course of the caller's organization that is required of all, or names the caller's role, is on the caller's required list |
| Training.MyProgress | app/api/v1/training.py:135-152 | the list holds exactly the caller's records in the caller's organization that have the status asked for |
| Training.TrainingBoard.constructor | app/api/v1/training.py:74-422 | the board starts with the given courses and records |
| Training.TrainingBoard.GetCourses | app/api/v1/training.py:74-132 | the course loop builds exactly the page the course list describes |
| Training.TrainingBoard.GetRequiredCourses | app/api/v1/training.py:155-201 | the course loop builds exactly the required list |
| Training.TrainingBoard.Items | app/api/v1/training.py:117-125 | the loop pairs each course of the page, in order, with the caller's record for it |
| Training.TrainingBoard.CreateCourse | app/api/v1/training.py:204-252 | with an organization, one active course with a fresh key, the caller as author and the body's title, passing score and certificate settings is appended; without one the insert fails with a 500 and nothing changes |
| Training.TrainingBoard.StartCourse | app/api/v1/training.py:255-317 | 404 and no change when the organization has no such course; otherwise the records become those after starting, and the reply is the caller's record |
| Training.TrainingBoard.CompleteCourse | app/api/v1/training.py:320-382 | 404 and no change when the organization has no such course; otherwise the records become those after completing, and the reply is the caller's record |
| Training.TrainingBoard.UpdateProgress | app/api/v1/training.py:385-422 | 404 and no change unless the caller owns a record of that key; otherwise exactly that record is replaced by its update, which is the reply |
| Training.SameKeysStayUnique | app/api/v1/training.py:271-298 | records whose course and user keys stay in place stay one per course and user |
| Training.NewKeyStaysUnique | app/api/v1/training.py:287-298 | appending a record for a course and user that have none keeps one record per course and user |
| Training.StartKeepsRecordsUnique | app/api/v1/training.py:271-298 | starting keeps one record per course and user |
| Training.CompleteKeepsRecordsUnique | app/api/v1/training.py:335-351 | completing keeps one record per course and user |
| TrainingModel.NewProgress | app/models/training.py:74-99 | an inserted progress row takes the column defaults: not started, 0 %, no attempts, not passed, and no stamps, score or certificate |
| TrainingModel.CourseCreateViolations | app/schemas/training.py:11-23 | a course body is accepted exactly when its title has 1 to 255 characters, its duration and certificate validity are absent or not negative, and its passing score is absent or from 0 to 100 |
| TrainingModel.ProgressUpdateViolations | app/schemas/training.py:68-71 | a progress update is accepted exactly when its percentage and its quiz score are each absent or from 0 to 100 |
| LocationModel.NewLocation | app/models/location.py:14-39 | a new location is in the USA and active, with the address fields it was given |
| LocationModel.AddressParts | app/models/location.py:54-62 | at most four parts are shown, each a non-empty address field |
| LocationModel.FullAddress | app/models/location.py:51-63 | the full address is "No address" when no field is filled in, and otherwise the filled-in parts joined by ", " |
| LocationModel.AddressPartsCollected | app/models/location.py:54-62 | the parts are the filled-in fields in the order address, city, state, zip code |
| LocationModel.NoAddressExactly | app/models/location.py:54-63 | "No address" is shown exactly when none of the four fields is filled in |
| LocationModel.CityAndState | app/models/location.py:54-63 | a city and a state alone show as "city, state" |

## Left out

- Identifiers: UUID keys are `Id = nat`. A new row takes a key above every key of its table (`SchedulingDb.NextKey`), not a random `uuid4`. A key's text is its decimal numeral. A path parameter is accepted as a UUID when it has 32 hexadecimal digits once its hyphens are removed; the braced and `urn:uuid:` forms that `uuid.UUID` also takes are not.
- Floating point: percentages, rates and averages are exact `real`s without rounding (`Tasks.CompletionRate`, `Manager.Percent`). Worked and overtime hours are kept as whole seconds, and the DECIMAL(5,2) column limit on overtime is not enforced.
- Clock and time zones: `datetime.now`, `utcnow` and `date.today` are parameters. The pytz conversion in the special-requirement shift check is not modelled; the local date and time are passed in.
- Randomness and cryptography: `random.randint` (audit sampling) is a stream of draws passed in. One-time codes, generated passwords, bcrypt digests, SHA-256 code hashes and JWT encoding and decoding are parameters or uninterpreted inputs, so no property of them is proved.
- E-mail and notification I/O: the compliance alert e-mails are reduced to `AuditService.AlertsFor`, the list of recipients an alert would go to. The verification, reset and welcome e-mails and the e-mail service are not modelled.
- Concurrency: the middleware's `asyncio.create_task` audit write and the alert e-mails scheduled in the background are modelled as running to completion, in order, inside the request.
- Database plumbing: SQLAlchemy sessions, joins and relationship loading are modelled as in-memory tables with explicit lookups. A database error the model cannot name, such as a unique index violated at commit or a negative LIMIT, is a 500 whose message is a parameter. The foreign keys that block an account's deletion are summarised by the `pinned` set of `UsersApi.DeleteUser` rather than computed from the staff and task tables.
- Row order on ties: SQL `ORDER BY` leaves the order of equal keys open. The model keeps stored order among equals (a stable sort), and no contract depends on it.
- Manager.ActivityPool: the `GROUP BY` count of records per program and due date is an input (`DueGroup` rows). The model filters those groups to the coming week and orders them, but does not compute them from the records.
- Python values: dynamic JSON payloads are a `Value` datatype, and dicts are lists of pairs in insertion order. Equality is structural, so Python's `1 == True`, `1 == 1.0` and order-insensitive dict equality are not modelled, and `repr` escaping in change summaries is simplified.
- AdminSchemas.SubdomainField: letters and digits are ASCII only, so "münchen" is refused here while `str.isalnum()` accepts it.
- Common.Lower: only ASCII letters are lowered ("ÄBC1" becomes "Äbc1", where Python gives "äbc1"), and likewise `Common.LowerChar` and `Common.Upper`.
- Common.Strip: only ASCII whitespace is stripped, so U+00A0 and other Unicode spaces are kept where Python's `str.strip()` removes them. `Common.IsSpace` and `Common.IsAlnumAscii` share this limit.
- ClientPortal.ShiftNotesSummary: because of `Common.Strip`, a note whose challenges are only non-ASCII spaces counts as a concern here and as positive in client_portal.py:471-474.
- SpecialRequirements.RequirementBoard.UpdateRequirement: the update routes for clients, special requirements and their responses are modelled as if the flush succeeds. As written, the mixin's update hook raises in that flush (`AuditMixins.AfterUpdateAsWritten`, see Findings), so each such UPDATE fails at commit and nothing is changed.
- Notices.ReadingLowersUnreadCount: proves that a first reading lowers the unread count, not that it lowers it by exactly one, which would need unique notice keys in the list.
- Notices.OpeningMarksRead: stated of the corrected route `NoticeById`; as written every opening that passes the access checks answers 500, after the receipt is committed at app/api/v1/notices.py:328, because the UUID key goes into `NoticeResponse.id: str` (see `NoticeByIdAsWritten`).
- Notices.AcknowledgedOpensAcknowledged: stated of the corrected route `NoticeById`; as written the opening after an acknowledgement answers 500 in the same way, so the acknowledged notice is never shown (see `ShownNoticeIsRefused`).
- Training.Replay: states only that a series of updates keeps the keys and never lowers the attempts. The per-step effect is `Training.Updated`.
- Manager.Enrolments: its own contract gives only the number of rows. What each row is comes from `Manager.EnrolmentsAreNewRecords` and `Manager.EnrolmentsSnoc`.
- The audit export's JSON rendering is a parameter (`renderJson`), and the export's `filters_applied` column is only stored. The CSV export is modelled character by character.
- `acknowledge_violation` takes its notes as a plain query string, so the 10-character minimum of `ViolationAcknowledgment` does not apply there, and the model does not enforce it.
- Stubs and placeholders: the documents, reports and dashboard routers and `app/api/v1/admin.py` are not part of this model. The admin handlers read an attribute the user model lacks; only the admin schemas are modelled.
- Endpoints not in the modelled core: `update_client` and the client contact endpoints (the contacts table is not modelled), and `generate_secure_password`, whose draw is a parameter.
- Staff endpoints not modelled: `get_staff_list`, `get_staff` and `update_staff`, which are field listings without rules of their own.
- Client portal endpoints not modelled: the dashboard, the profile, and the vitals, meals and activities lists with the activity summary and average intake. The age, trend, meal and note rules they use are modelled.
- Manager endpoints not modelled: the dashboard's counting queries (only its rates are), the staff and client oversight lists, the time-off list (only its day count is), `create_staff_assignment`, training program listing and creation, and the shift and appointment lists (only their default week window is).
- Column-only models and response-only schemas are transcribed only as far as the handlers read them. Explicit `null` in an update body is treated as a field not sent.
- File I/O (incident attachments), seed and test scripts, and the deployment script are not part of this model.
- Security.ValidatePassword: upper-case, lower-case and digit tests are ASCII only, so "Äbcdefg1!" is refused here while Python's Unicode `isupper`, `islower` and `isdigit` accept it.
- UserSchemas.SchemaValidator: reads the `\d` of the password pattern as an ASCII digit, where Python's `re` matches any Unicode decimal digit.
- UserSchemas.SchemaValidatorAgainstPolicy: the agreement is proved for the ASCII reading of both checks; for non-ASCII letters the schema's pattern and the service's `isupper`/`islower` can disagree in the source, and that disagreement is not modelled.
- Common.ILike: matches the search text as a plain case-insensitive substring; a `%` or `_` inside the search text, which PostgreSQL reads as a wildcard, is matched literally here.
- RolesApi.TextLe: compares texts by code point, where PostgreSQL's `ORDER BY` follows the database collation.
- RolesApi.ListAllPermissions: sorts the permission catalogue by code point through `RolesApi.TextLe`, not by the database collation.
- StaffApi.GreatestEmployeeId: takes the greatest employee number by code point, where the source's `ORDER BY employee_id DESC` follows the database collation.
- CurrentShiftView.CurrentShift: the response's location block is not modelled, because the staff assignment it reads has no location relationship and the location lookup is not part of this model; the task block is (`CurrentShiftView.TaskBlock`).
- Stored reversed ranges: a schedule, shift, availability slot or calendar event committed with its end before its start by an update makes its own update answer 500 (modelled); the later reads and lists that would meet the same response validator and fail are not modelled and answer as usual.
- AuthMiddleware.GetCurrentUser: a reset or verification token's expiry is treated as always fractional; a token issued on an exact whole second, whose float expiry `TokenPayload` would accept, is not distinguished.
- SchedulingRouter.ListConflictsAsWritten: the SQL join returns one row per matching shift of the staff member; the model lists each conflict once, as the ORM's de-duplication of identical entities does.
- AuditApi.ListAuditLogs: gives the response the route evidently intends. As written, a page that holds a row fails response validation, because the response model declares UUID ids as `str`, and the route answers 500 (the `AsWritten` member beside it, and "## Findings").
- AuditApi.GetAuditLog: gives the response the route evidently intends. As written, a row that is found fails response validation, because the response model declares UUID ids as `str`, and the route answers 500 (the `AsWritten` member beside it, and "## Findings").
- AuditApi.UserActivityEndpoint: gives the response the route evidently intends. As written, a non-empty list fails response validation, because the response model declares UUID ids as `str`, and the route answers 500 (the `AsWritten` member beside it, and "## Findings").
- AuditApi.ResourceHistoryEndpoint: gives the response the route evidently intends. As written, a non-empty history fails response validation, because the response model declares UUID ids as `str`, and the route answers 500 (the `AsWritten` member beside it, and "## Findings").
- AuditApi.PhiAccessEndpoint: gives the response the route evidently intends. As written, a non-empty list fails response validation, because the response model declares UUID ids as `str`, and the route answers 500 (the `AsWritten` member beside it, and "## Findings").
- AuditApi.OrganizationlessCallerSeesOtherTenants: gives the response the route evidently intends. As written, the history that shows the other tenant's row fails response validation, because the response model declares UUID ids as `str`, and the route answers 500 (the `AsWritten` member beside it, and "## Findings").
- AuditApi.ComplianceReportEndpoint: gives the response the route evidently intends. As written, every report fails response validation, because the response model declares UUID ids as `str`, and the route answers 500 (the `AsWritten` member beside it, and "## Findings").
- AuditApi.ListViolations: gives the response the route evidently intends. As written, a non-empty list fails response validation, because the response model declares UUID ids as `str`, and the route answers 500 (the `AsWritten` member beside it, and "## Findings").
- AuditApi.AuditTables.GetAuditSettings: gives the response the route evidently intends. As written, every settings row fails response validation, because the response model declares UUID ids as `str`, and the route answers 500 (the `AsWritten` member beside it, and "## Findings").
- AuditApi.AuditTables.UpdateAuditSettings: gives the response the route evidently intends. As written, every updated row fails response validation, because the response model declares UUID ids as `str`, and the route answers 500 (the `AsWritten` member beside it, and "## Findings").

## Findings

| source | as written | input that shows it | evidently intended | confidence | as-written member | corrected member |
|---|---|---|---|---|---|---|
| app/core/audit_mixins.py:56 | the update hook reads `getattr(cls, attr).property.history`; a column property has no `history`, so the hook raises during the flush | any UPDATE of a client row, which carries the mixin | the old values of the changed columns are logged as an UPDATE | not executed | AuditMixins.AfterUpdateAsWritten | AuditMixins.AfterUpdate |
| app/api/v1/auth/login.py:43 | the naive stored `lockout_until` is compared with an aware `now`, which raises, so a 500 | five wrong passwords, then the right one 31 minutes later | the lockout lapses after 30 minutes and the login succeeds | not executed | Login.LockedForeverAsWritten | Login.LockoutLapses |
| app/api/v1/auth/login.py:196 | the naive stored code expiry is compared with an aware `now`, which raises | any e-mail verification once a code is stored | an unexpired matching code verifies the account | not executed | Login.CheckEmailCodeAsWritten | Login.CheckEmailCode |
| app/api/v1/auth/password.py:93 | the naive stored reset-code expiry is compared with an aware `now`, which raises | any reset-code check once a code is stored | an unexpired matching code is accepted | not executed | PasswordFlows.CheckResetCodeAsWritten | PasswordFlows.CheckResetCode |
| app/api/v1/auth/password.py:136 | the naive stored reset-token expiry is compared with an aware `now`, which raises | any reset with a valid reset token | an unexpired token with a valid new password resets the password | not executed | PasswordFlows.ResetChecksAsWritten | PasswordFlows.ResetChecks |
| app/api/v1/scheduling/router.py:703 | availability is looked up by `weekday() + 1`, so Sunday is 7, while slots store days 0 to 6 with Sunday 0 | a Sunday shift inside a Sunday slot marked unavailable | a conflict is raised for the Sunday slot | not executed | ShiftConflicts.SundaySlotMissedAsWritten | ShiftConflicts.AvailabilityDrafts |
| app/api/v1/scheduling/router.py:100 | once an active shift is found, the handler imports `TaskStatus` from app.models.task, which defines only `TaskStatusEnum` and `TaskPriorityEnum`, so the import fails with a 500 (and past it, router.py:144-147 reads `current_shift.client`, which a shift does not have) | one staff record with one scheduled shift today | the active shift is shown with its client | not executed | CurrentShiftView.OneShiftTodayFailsAsWritten | CurrentShiftView.CurrentShift |
| app/api/v1/scheduling/availability.py:137,239 | the single-slot update route is declared before the bulk route and takes its path; "bulk" is no UUID, so a 422 | any `PUT /staff/{id}/availability/bulk` | the bulk replacement reaches its handler | not executed | AvailabilityApi.BulkReplaceUnreachableAsWritten | AvailabilityApi.BulkReplaceReached |
| app/api/v1/scheduling/appointments.py:254 | the update reads `staff_id` from a body that declares no such field, so a 500 | any update of an existing appointment | the update is applied, with its conflict check | not executed | Appointments.NoUpdateSucceedsAsWritten | Appointments.UpdateAppointment |
| app/api/v1/scheduling/appointments.py:181,188 | the staff name is looked up with `User.id == appointment.staff_id`, which is a staff key | a staff member whose user key differs from the staff key is shown as "Unknown" | the name of the staff member's user | not executed | Appointments.StaffNameAsWritten | Appointments.StaffNameLookup |
| app/api/v1/scheduling/appointments.py:568-576 | MONTHLY steps a month at a time from the window's first day, so it only lands on that day of the month | a recurrence started on 15 January, generated for 1 to 29 February, makes nothing | the appointment of 15 February | not executed | Appointments.MonthlyFromOtherDayAsWritten | Appointments.MonthlyFromOtherDay |
| app/api/v1/scheduling/appointments.py:575 | `replace(month=month + 1)` raises for a day the next month lacks, and the whole generation fails | a recurrence started on 31 January, generated from that day | the generation completes | not executed | Appointments.MonthlyOnThe31stFailsAsWritten | Appointments.DailyRunNeverFails |
| app/api/v1/scheduling/appointments.py:212,452 | `GET /{appointment_id}` is declared before `GET /recurring` and takes its path; "recurring" is no UUID, so a 422 | any `GET /appointments/recurring` | the recurrence list is returned | not executed | Appointments.RecurringListUnreachableAsWritten | Appointments.RecurringListReached |
| app/api/v1/users/crud.py:28-31 | `User.username == None` becomes `username IS NULL`, so a request without a username matches every account without one | one stored account without a username, then a new one without a username and a fresh e-mail | the new account is created | not executed | UsersApi.NamelessAccountBlocksCreationAsWritten | UsersApi.TakenQuery |
| app/api/v1/notices.py:90,96,100 | the receipts become a set of strings, and a notice's UUID key is looked up in it, so it is never found | a notice the caller has read | the read notice leaves the unread list and the unread count | not executed | Notices.NoticesStayUnreadAsWritten | Notices.ReadingLowersUnreadCount |
| app/api/v1/help_requests.py:82,175,273,331 | every query filters on `Task.task_type`, which the task model does not define, so a 500 | a manager whose organization has a pending help request | the counts and lists of help requests are returned | not executed | HelpRequests.PendingRequestUnseenAsWritten | HelpRequests.Counts |
| app/api/v1/client_portal.py:542,578 | filing sets and listing filters on `task_type`, which is not a task column, so a 500 | a client with a profile files a help request | the request is stored and listed back | not executed | ClientPortal.FilingFailsAsWritten | ClientPortal.CreateHelpRequest |
| app/api/v1/special_requirements.py:93-95 | the shift check filters on `Shift.client_id`, which the shift model lacks, so a 500 | a staff member checking a shift for a client | the shift under way for that client is found | not executed | SpecialRequirements.ShiftTimeAsWritten | SpecialRequirements.ActiveShift |
| app/api/v1/special_requirements.py:394 | the pending list reads `shift.client_id`, which a shift row lacks, so a 500 | a staff member on a shift with a requirement left to answer | the alert lists that requirement | not executed | SpecialRequirements.PendingAlertFailsAsWritten | SpecialRequirements.PendingIsTheUnanswered |
| app/api/v1/special_requirements.py:760 | the view calls the shift check above, which fails with a 500 | any request by an assigned staff member for a client of the organization | the client's live requirements are listed | not executed | SpecialRequirements.ActiveListFailsAsWritten | SpecialRequirements.ActiveForClient |
| app/api/v1/special_requirements.py:858 | the submission calls the shift check above, which fails with a 500 | any submission that passes the first checks | the response is stored, once per shift | not executed | SpecialRequirements.AcceptedSubmitFailsAsWritten | SpecialRequirements.SubmitKeepsOneResponsePerShift |
| app/api/v1/manager.py:935 | the summary reads `program.title`, which a training program does not have, so a 500 | one training record of the organization on the first page | the list shows the program's name as course title | not executed | Manager.AssignmentsFailAsWritten | Manager.TrainingAssignments |
| app/api/v1/training.py:362 | a row created in the handler has `quiz_attempts` None until it is flushed, so `+= 1` raises | the first completion of a course, with a quiz score | one attempt is counted and the score is kept | not executed | Training.FirstScoredCompletionFailsAsWritten | Training.AfterComplete |
| app/schemas/audit.py:59 | `AuditLogResponse.id` is declared `str`, the row's id is a UUID, and pydantic refuses it, so every audit-log response holding a row is a 500 | `GET /audit/logs/{id}` for a stored row of the caller's organization | the row is returned with its id as text | not executed | AuditApi.GetAuditLogAsWritten | AuditApi.GetAuditLog |
| app/schemas/audit.py:99 | `ComplianceViolationResponse.id` is declared `str` and receives a UUID, so a non-empty violation list is a 500 | one open violation of the caller's organization detected today, listed with days=1 | the violations are listed | not executed | AuditApi.ListViolationsAsWritten | AuditApi.ListViolations |
| app/schemas/audit.py:137 | `ComplianceReportResponse.organization_id` is declared `str` and receives the caller's UUID, or None, so every report is a 500 | a compliance report requested by an admin of an organization | the report of the caller's organization is returned | not executed | AuditApi.ComplianceReportAsWritten | AuditApi.ComplianceReportEndpoint |
| app/schemas/audit.py:147-148 | `AuditSettingsResponse.id` and `organization_id` are declared `str` and receive UUIDs, so reading or updating the settings is a 500 after the row is committed | `GET /audit/settings` by an admin of an organization | the settings row is returned | not executed | AuditApi.AuditTables.GetAuditSettingsAsWritten | AuditApi.AuditTables.GetAuditSettings |
| app/schemas/notice.py:45 | `NoticeResponse.id` is declared `str` and receives the notice's UUID key, so opening a notice answers 500, after its receipt has been committed | `GET /notices/{id}` for a live notice of the caller's organization | the notice is returned, marked read | not executed | Notices.NoticeBoard.GetNoticeAsWritten | Notices.NoticeBoard.GetNotice |
| app/api/v1/scheduling/router.py:762 | `.join(Staff).join(Shift)` joins the shifts on the staff member, so the date bounds test every shift of the conflict's staff member rather than the conflict's own shift | a conflict on a shift dated before `start_date`, whose staff member has another shift dated on or after it | only conflicts whose own shift lies within the dates are listed | not executed | SchedulingRouter.JoinOnStaffListsOffRangeConflict | SchedulingRouter.ListConflicts |
