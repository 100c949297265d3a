/**
 * `AuditService` bound to a database session.
 */
module AuditSessionStore {
  import opened Common
  import opened AuditLogModel
  import opened AuditService

  // ---------------------------------------------------------------------
  // The service bound to a session
  // ---------------------------------------------------------------------

  /**
   * `AuditService` bound to a session: its tables, the settings table, and
   * the stream of `random.randint(1, 100)` draws. Each operation changes
   * the tables as its specification function says.
   */
  class AuditStore {
    var logs: seq<AuditLog>
    var violations: seq<ComplianceViolation>
    var pending: seq<ComplianceViolation>
    var settings: seq<AuditSetting>
    var random: nat -> int
    var drawn: nat

    /** The session's tables as a value. */
    function Tables(): Session
      reads this`logs, this`violations, this`pending, this`drawn
    {
      Session(logs, violations, pending, drawn)
    }

    ghost predicate Valid()
      reads this`logs, this`violations, this`pending, this`drawn
    {
      Consistent(Tables())
    }

    constructor(settings: seq<AuditSetting>, random: nat -> int)
      ensures Valid() && this.settings == settings && this.random == random
      ensures Tables() == Session([], [], [], 0)
    {
      this.logs := [];
      this.violations := [];
      this.pending := [];
      this.settings := settings;
      this.random := random;
      this.drawn := 0;
    }

    /** The end of the request's session: what was added and not committed is dropped. */
    method Close()
      requires Valid()
      modifies this`pending
      ensures Valid() && Tables() == old(Tables()).(pending := [])
    {
      pending := [];
    }

    /** `_should_log_action`, drawing a number only when the sampling rate is below 100. */
    method ShouldLogAction(org: Option<Id>, action: AuditAction) returns (b: bool)
      modifies this`drawn
      ensures b == ShouldLog(org, action, settings, random(old(drawn)))
      ensures Tables() == AfterDraw(org, settings, old(Tables()))
    {
      b := ShouldLog(org, action, settings, random(drawn));
      if SamplingApplies(org, settings) {
        drawn := drawn + 1;
      }
    }

    /** `log_action`, as `LogActionSpec` says. */
    method LogAction(req: LogRequest, now: Moment) returns (r: Option<AuditLog>)
      requires Valid()
      modifies this`logs, this`violations, this`pending, this`drawn
      decreases RequestRank(req), 5
      ensures Valid()
      ensures (r, Tables()) == LogActionSpec(req, now, settings, random, old(Tables()))
    {
      var should := ShouldLogAction(req.organizationId, req.action);
      if should {
        r := Write(req, now);
      } else {
        r := None;
      }
    }

    /** The part of `log_action` after the sampling decision, as `WriteSpec` says. */
    method Write(req: LogRequest, now: Moment) returns (r: Option<AuditLog>)
      requires Valid()
      modifies this`logs, this`violations, this`pending, this`drawn
      decreases RequestRank(req), 4
      ensures Valid()
      ensures (r, Tables()) == WriteSpec(req, now, settings, random, old(Tables()))
    {
      if Processable(req, settings) && Storable(BuildLog(req, settings, now, |logs|)) {
        var entry := BuildLog(req, settings, now, |logs|);
        Commit(entry, now);
        r := Some(entry);
      } else {
        // Masking, the change summary or the commit raises; `log_action` rolls back and returns None.
        pending := [];
        r := None;
      }
    }

    /** The commit of a written entry, as `CommitSpec` says. */
    method Commit(entry: AuditLog, now: Moment)
      requires Valid() && entry.id == |logs|
      modifies this`logs, this`violations, this`pending, this`drawn
      decreases EntryRank(entry), 3
      ensures Valid()
      ensures Tables() == CommitSpec(entry, now, settings, random, old(Tables()))
    {
      OpenConcat(violations, pending);
      IdsAppend(logs, entry);
      logs := logs + [entry];
      violations := violations + pending;
      pending := [];
      CheckComplianceViolations(entry, now);
    }

    /** `log_phi_access`: a READ of resource type "phi_access" naming the data type, never flagged as PHI. */
    method LogPhiAccess(userId: Option<Id>, clientId: Option<string>, dataType: string, purpose: string,
                        org: Option<Id>, ip: Option<string>, now: Moment) returns (r: Option<AuditLog>)
      requires Valid()
      modifies this`logs, this`violations, this`pending, this`drawn
      ensures Valid()
      ensures (r, Tables()) == LogActionSpec(PhiAccessRequest(userId, clientId, dataType, purpose, org, ip), now, settings, random, old(Tables()))
      ensures r.Some? ==> !r.value.phiAccessed && logs == old(logs) + [r.value]
      ensures r.None? ==> logs == old(logs)
      ensures violations == old(violations) || violations == old(violations) + old(pending)
    {
      ghost var s0 := Tables();
      var req := PhiAccessRequest(userId, clientId, dataType, purpose, org, ip);
      PhiAccessEntriesAreNotFlagged(userId, clientId, dataType, purpose, org, ip, settings, now, |logs|);
      r := LogAction(req, now);
      LogActionOutcome(req, now, settings, random, s0);
      LogActionWrites(req, now, settings, random, s0);
    }

    /** `log_breach_attempt`, as `LogBreachSpec` says. */
    method LogBreachAttempt(userId: Option<Id>, resourceType: string, resourceId: Option<string>,
                            violationType: string, description: string, severity: string,
                            org: Option<Id>, ip: Option<string>, now: Moment)
      requires Valid()
      modifies this`logs, this`violations, this`pending, this`drawn
      decreases RequestRank(BreachRequest(userId, resourceType, resourceId, description, org, ip)), 6
      ensures Valid()
      ensures Tables() == LogBreachSpec(userId, resourceType, resourceId, violationType, description, severity, org, ip, now,
                                        settings, random, old(Tables()))
      ensures resourceType !in PHI_RESOURCES ==>
        Tables() == BreachSpec(userId, resourceType, resourceId, violationType, description, severity, org, ip, now,
                               settings, random, old(Tables()))
    {
      if resourceType !in PHI_RESOURCES {
        BreachSpecIsLogged(userId, resourceType, resourceId, violationType, description, severity, org, ip, now,
                           settings, random, Tables());
      }
      var entry := LogAction(BreachRequest(userId, resourceType, resourceId, description, org, ip), now);
      RecordViolation(entry, violationType, description, severity, org, now);
    }

    /** The violation `log_breach_attempt` commits after its `log_action` call, as `CommitBreach` says. */
    method RecordViolation(entry: Option<AuditLog>, violationType: string, description: string, severity: string,
                           org: Option<Id>, now: Moment)
      requires Valid()
      modifies this`violations, this`pending
      ensures Valid()
      ensures Tables() == CommitBreach((entry, old(Tables())), violationType, description, severity, org, now)
    {
      if entry.Some? {
        var v := NewViolation(org, entry.value.id, violationType, severity, description, now);
        OpenConcat(violations, pending);
        OpenConcat(violations + pending, [v]);
        violations := violations + pending + [v];
        pending := [];
      }
    }

    /** `_check_compliance_violations`, as `ComplianceSpec` says. */
    method CheckComplianceViolations(entry: AuditLog, now: Moment)
      requires Valid()
      modifies this`logs, this`violations, this`pending, this`drawn
      decreases EntryRank(entry), 2
      ensures Valid()
      ensures Tables() == ComplianceSpec(entry, now, settings, random, old(Tables()))
    {
      if entry.phiAccessed {
        CheckUnusualPhiAccess(entry, now);
      }
      if AfterHours(entry.createdAt) {
        FlagAfterHoursAccess(entry, now);
      }
      if Failing(entry.responseStatus) {
        CheckFailedAttempts(entry, now);
      }
    }

    /** `_check_unusual_phi_access`, as `PhiRuleSpec` says. */
    method CheckUnusualPhiAccess(entry: AuditLog, now: Moment)
      requires Valid() && entry.phiAccessed
      modifies this`logs, this`violations, this`pending, this`drawn
      decreases EntryRank(entry), 1
      ensures Valid()
      ensures Tables() == PhiRuleSpec(entry, now, settings, random, old(Tables()))
    {
      if entry.userId.None? {
        return;
      }
      var count := CountPhiSince(logs, entry.userId.value, Stamp(now) - PHI_VOLUME_WINDOW_SECONDS);
      if count > PHI_VOLUME_THRESHOLD {
        RuleBreachesAreInert(entry.userId, entry.resourceId, PhiVolumeDescription(count), entry.organizationId, None);
        LogBreachAttempt(entry.userId, "phi_access", entry.resourceId, "excessive_phi_access",
                         PhiVolumeDescription(count), "medium", entry.organizationId, None, now);
      }
    }

    /** `_flag_after_hours_access`, as `FlagSpec` says. */
    method FlagAfterHoursAccess(entry: AuditLog, now: Moment)
      requires Valid()
      modifies this`pending
      ensures Valid()
      ensures Tables() == FlagSpec(entry, now, old(Tables()))
    {
      if entry.phiAccessed {
        OpenConcat(pending, [AfterHoursViolation(entry, now)]);
        pending := pending + [AfterHoursViolation(entry, now)];
      }
    }

    /** `_check_failed_attempts`, as `FailedRuleSpec` says. */
    method CheckFailedAttempts(entry: AuditLog, now: Moment)
      requires Valid() && Failing(entry.responseStatus)
      modifies this`logs, this`violations, this`pending, this`drawn
      decreases EntryRank(entry), 1
      ensures Valid()
      ensures Tables() == FailedRuleSpec(entry, now, settings, random, old(Tables()))
    {
      if entry.userId.None? {
        return;
      }
      var count := CountFailuresSince(logs, entry.userId.value, Stamp(now) - FAILED_ATTEMPT_WINDOW_SECONDS);
      if count > FAILED_ATTEMPT_THRESHOLD {
        RuleBreachesAreInert(entry.userId, None, FailedAttemptsDescription(count), entry.organizationId, entry.ipAddress);
        LogBreachAttempt(entry.userId, "authentication", None, "multiple_failed_attempts",
                         FailedAttemptsDescription(count), "high", entry.organizationId, entry.ipAddress, now);
      }
    }
  }
}
