/** The verification snapshot of a case, report persistence and the verified closure transition. */
module ClosureTransactions {
  import opened Domain
  import opened Tables
  import opened CaseTransactions
  import opened AuthorizationTransactions
  import opened EvidenceVerification
  import Index

  const EVALUATION_POLICY_VERSION: Id := 1
  const VERIFICATION_CONTRACT_VERSION: Id := 1

  datatype EvaluationPolicy = EvaluationPolicy(maxAge: nat, grace: nat)

  // An effect whose stored authorization binds it, with the target of its intent.
  datatype BoundEffect = BoundEffect(ledger: Ledger, target: Target)

  // `refused` when the evidence index rejects the current evidence, so that no state can be read.
  datatype EvaluationState = EvaluationState(
    refused: bool, caseId: Id, row: CaseRow, evidence: set<Evidence>, provenanceValid: bool, latest: set<Evidence>,
    current: set<Evidence>, effects: map<EffectKey, BoundEffect>, policyInvalid: bool, recoveryUnresolved: bool,
    pendingReads: bool, inGrace: bool, snapshot: Snapshot)

  /** Facts observed at the newest instant of their tool and query scope. */
  function LatestObservations(evidence: set<Evidence>): set<Evidence> {
    set e | e in evidence && (forall o :: o in evidence && o.tool == e.tool && o.scope == e.scope ==> o.observedAt <= e.observedAt)
  }

  predicate Eligible(e: Evidence, now: Time, policy: EvaluationPolicy) {
    && e.claim != SourceLookupStatus && e.freshness == Freshness.Current && e.completeness == Complete
    && e.sourceKind == Primary && e.sourceAsOf.Some? && e.observedAt <= now
    && 0 <= now - e.sourceAsOf.value <= policy.maxAge
  }

  function RiskOf(a: Action): Risk {
    match a
    case NoRemediation => ReadOnlyRisk
    case RequestReview => AdministrativeRisk
    case CreateReconciliation => AdministrativeRisk
    case ReplayCallback => SingleOrderRisk
    case RedeliverAsset => SingleOrderRisk
  }

  /** The stored intent, capability and approval bind this ledger row to this case. */
  predicate Bound(t: Tables, c: Id, key: EffectKey)
    requires c in t.cases && key in t.effects
  {
    var row, ledger := t.cases[c], t.effects[key];
    && ledger.effectId == key && ledger.tenant == row.tenant && ledger.caseId == c && ledger.order == row.order
    && ledger.intentId in t.intents && ledger.capabilityId in t.capabilities
    && var intent, held := t.intents[ledger.intentId], t.capabilities[ledger.capabilityId];
    var cap := held.payload;
    && (cap.approvalId.Some? ==> cap.approvalId.value in t.approvals)
    && intent.intentId == IntentDigest(intent.body)
    && held.usedEffect == Some(ledger.effectId) && cap.caseId == c && cap.tenant == row.tenant
    && cap.intentId == ledger.intentId && cap.action == ledger.action && cap.targetHash == ledger.targetHash
    && cap.payloadHash == ledger.payloadHash && cap.approvalId == ledger.approvalId
    && KeyOf(cap) == ledger.effectId
    && Build(intent, cap).Some?
  }

  function BindingOf(t: Tables, key: EffectKey): Binding
    requires key in t.effects && t.effects[key].intentId in t.intents && t.effects[key].capabilityId in t.capabilities
  {
    var held := t.capabilities[t.effects[key].capabilityId];
    Binding(t.intents[t.effects[key].intentId], held,
            if held.payload.approvalId.Some? && held.payload.approvalId.value in t.approvals
            then Some(t.approvals[held.payload.approvalId.value]) else None)
  }

  function BoundEffects(t: Tables, c: Id): map<EffectKey, BoundEffect>
    requires c in t.cases
  {
    map k | k in t.effects && t.effects[k].caseId == c && Bound(t, c, k)
      :: BoundEffect(t.effects[k], t.intents[t.effects[k].intentId].body.target)
  }

  predicate PolicyInvalid(t: Tables, c: Id)
    requires c in t.cases
  {
    exists k :: k in t.effects && t.effects[k].caseId == c
      && (!Bound(t, c, k) || t.intents[t.effects[k].intentId].body.risk != RiskOf(t.effects[k].action))
  }

  predicate Unsettled(row: RecoveryRow, tenant: Id, now: Time) {
    row.tenant != tenant || row.requiresEscalation || (row.leaseToken.Some? && Leased(row, now))
  }

  predicate Unfinished(t: Tables, c: Id, a: Id)
    requires a in t.attempts
  {
    var attempt := t.attempts[a];
    attempt.completedAt.None? && attempt.effect in t.effects && t.effects[attempt.effect].caseId == c
  }

  predicate RecoveryUnresolved(t: Tables, c: Id, now: Time)
    requires c in t.cases
  {
    || (exists k :: k in t.recoveries && t.recoveries[k].caseId == c && Unsettled(t.recoveries[k], t.cases[c].tenant, now))
    || (exists a :: a in t.attempts && Unfinished(t, c, a))
  }

  predicate PendingReads(t: Tables, c: Id) {
    exists k :: k in t.calls && t.calls[k].caseId == c && t.calls[k].state != CallObserved
  }

  predicate InGrace(effects: map<EffectKey, BoundEffect>, current: set<Evidence>, now: Time, policy: EvaluationPolicy) {
    if exists k :: k in effects && effects[k].ledger.status.Applied? then
      exists k :: k in effects && effects[k].ledger.status.Applied? && now - effects[k].ledger.updatedAt < policy.grace
    else
      exists e :: e in current && e.eventTime.Some? && now - e.eventTime.value < policy.grace
  }

  /** The verified facts of the newest lookups that are eligible at `now`. */
  function CurrentAt(t: Tables, x: Extractor, digest: Content -> Id, policy: EvaluationPolicy, c: Id, now: Time): set<Evidence>
    requires c in t.cases
  {
    set e | e in LatestObservations(Read(t, x, digest, c).evidence) && Eligible(e, now, policy)
  }

  function ReadState(t: Tables, x: Extractor, digest: Content -> Id, policy: EvaluationPolicy, c: Id, now: Time): EvaluationState
    requires c in t.cases
  {
    var row := t.cases[c];
    var read := Read(t, x, digest, c);
    var latest := LatestObservations(read.evidence);
    var current := CurrentAt(t, x, digest, policy, c, now);
    var effects := BoundEffects(t, c);
    var inGrace := InGrace(effects, current, now, policy);
    EvaluationState(!Index.Accepts(row, c, current), c, row, read.evidence, read.valid, latest, current, effects, PolicyInvalid(t, c),
      RecoveryUnresolved(t, c, now), PendingReads(t, c), inGrace,
      Snapshot(c, row.tenant, row.revision, row, DigestOf(t, c), current, inGrace, read.valid, EffectsOf(t.effects, c),
        RecoveriesOf(t.recoveries, c), CallsOf(t.calls, c),
        map k | k in t.effects && t.effects[k].caseId == c && t.effects[k].intentId in t.intents
                && t.effects[k].capabilityId in t.capabilities :: BindingOf(t, k),
        EVALUATION_POLICY_VERSION, VERIFICATION_CONTRACT_VERSION))
  }

  /** The evaluator's snapshot reader, the collaborator that closure shares with evaluation. */
  type Reader = (Tables, Id, Time) -> EvaluationState

  ghost predicate Faithful(reader: Reader, x: Extractor, digest: Content -> Id, policy: EvaluationPolicy) {
    forall t: Tables, c, now :: c in t.cases ==> reader(t, c, now) == ReadState(t, x, digest, policy, c, now)
  }

  /** The independent judgement of a state; None when the policy leaves out a verification domain. */
  type Judge = (EvaluationState, Time) -> Option<ReportBody>

  /** What a PASS of the judge must rule out; module Evaluator proves it of the V1 evaluator. */
  predicate Settled(s: EvaluationState) {
    && !s.pendingReads && !s.recoveryUnresolved && s.provenanceValid && !s.policyInvalid
    && forall k :: k in s.effects ==> !s.effects[k].ledger.status.Unresolved()
  }

  ghost predicate Sound(judge: Judge) {
    forall s, now :: judge(s, now).Some? && judge(s, now).value.verdict == PASS ==>
      && Settled(s) && judge(s, now).value.snapshot == s.snapshot
      && judge(s, now).value.caseId == s.caseId && judge(s, now).value.snapshotId == s.snapshot
      && judge(s, now).value.policyVersion == s.snapshot.policyVersion
      && judge(s, now).value.contractVersion == s.snapshot.contractVersion
  }

  predicate WellFormed(r: Report, tenant: Id) {
    r.reportId == r.body && r.body.caseId == r.body.snapshot.caseId && r.body.snapshot.tenant == tenant
    && r.body.snapshotId == r.body.snapshot
  }

  function Record(t: Tables, tenant: Id, r: Report): (tx: Tx<Report>)
    ensures tx.Committed? ==> tx.tables == t.(reports := tx.tables.reports)
  {
    if !WellFormed(r, tenant) then RolledBack(ReportInvalid)
    else if !Owns(t, tenant, r.body.caseId) then RolledBack(CaseUnavailable)
    else if r.runId in t.reports then
      if t.reports[r.runId] != r then RolledBack(ReportInvalid) else Committed(t, r)
    else if t.cases[r.body.caseId].status.Terminal() then RolledBack(StaleEvaluation)
    else Committed(t.(reports := t.reports[r.runId := r]), r)
  }

  datatype ClosureResult = ClosedNow(record: ClosureRecord) | AlreadyClosed(record: ClosureRecord)

  function ClosureRecordOf(r: Report, now: Time): ClosureRecord {
    ClosureRecord(ClosureDigest(r.body.caseId, r.reportId, r.body.snapshotId), r.body.caseId, r.runId, r.reportId,
                  r.body.snapshotId, r.body.snapshot.evidenceDigest, r.body.snapshot.ledgerDigest,
                  r.body.policyVersion, r.body.contractVersion, now)
  }

  /** A closed case still stands as its report saw it. */
  predicate StillStands(s: EvaluationState, r: Report) {
    && !s.pendingReads && !s.recoveryUnresolved && s.provenanceValid
    && (forall k :: k in s.effects ==> !s.effects[k].ledger.status.Unresolved())
    && s.snapshot.evidenceDigest == r.body.snapshot.evidenceDigest
    && s.snapshot.ledgerDigest == r.body.snapshot.ledgerDigest
    && s.snapshot.callDigest == r.body.snapshot.callDigest
  }

  function Close(t: Tables, reader: Reader, judge: Judge, tenant: Id, r: Report, now: Time): (tx: Tx<ClosureResult>)
    ensures tx.Committed? ==> tx.tables == t.(cases := tx.tables.cases, closures := tx.tables.closures)
  {
    var c := r.body.caseId;
    if r.body.verdict != PASS then RolledBack(PassRequired)
    else if r.reportId != r.body then RolledBack(ReportInvalid)
    else if !Owns(t, tenant, c) then RolledBack(CaseUnavailable)
    else if r.runId !in t.reports || t.reports[r.runId] != r then RolledBack(ReportNotPersisted)
    else if c in t.closures then
      if t.cases[c].status != ClosedVerified || t.closures[c].reportId != r.reportId then RolledBack(StaleEvaluation)
      else if reader(t, c, now).refused then RolledBack(PolicyRefused)
      else if !StillStands(reader(t, c, now), r) then RolledBack(ClosureViolation)
      else Committed(t, AlreadyClosed(t.closures[c]))
    else if t.cases[c].status.Terminal() then RolledBack(ClosureViolation)
    else
      var judged := judge(reader(t, c, now), now);
      if reader(t, c, now).refused || judged.None? then RolledBack(PolicyRefused)
      else if judged.value.verdict != PASS || judged.value.snapshot != r.body.snapshot || judged.value != r.reportId then
        RolledBack(StaleEvaluation)
      else if t.cases[c].revision != r.body.snapshot.caseRevision then RolledBack(StaleEvaluation)
      else
        var revision := NextRevision(r.body.snapshot.caseRevision, now);
        Committed(t.(cases := t.cases[c := t.cases[c].(status := ClosedVerified, revision := revision)],
                     closures := t.closures[c := ClosureRecordOf(r, now)]), ClosedNow(ClosureRecordOf(r, now)))
  }

  /** The read-side binding check of a verified closure, independent of the status label. */
  predicate CheckedClosure(t: Tables, c: Id) {
    && c in t.cases && c in t.closures && t.closures[c].runId in t.reports
    && var row, record, r := t.cases[c], t.closures[c], t.reports[t.closures[c].runId];
    && row.status == ClosedVerified
    && record.caseId == c && r.body.caseId == c
    && r.body.snapshot.tenant == row.tenant && r.body.snapshot.caseId == c
    && record.closureId == ClosureDigest(c, r.reportId, r.body.snapshotId)
    && record.runId == r.runId
    && record.reportId == r.reportId == r.body
    && record.snapshotId == r.body.snapshotId == r.body.snapshot
    && record.evidenceDigest == r.body.snapshot.evidenceDigest == DigestOf(t, c)
    && record.ledgerDigest == r.body.snapshot.ledgerDigest == EffectsOf(t.effects, c)
    && r.body.snapshot.callDigest == CallsOf(t.calls, c)
    && record.policyVersion == r.body.policyVersion == r.body.snapshot.policyVersion
    && record.contractVersion == r.body.contractVersion == r.body.snapshot.contractVersion
    && row.revision == NextRevision(r.body.snapshot.caseRevision, record.closedAt)
    && r.body.verdict == PASS
  }
}
