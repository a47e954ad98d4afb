/** The whole system: many workers over one database, one transaction or one adapter call
    at a time, any of them able to crash between two steps. */
module Protocol {
  import opened Domain
  import opened Tables
  import opened CaseTransactions
  import opened AuthorizationTransactions
  import opened ClosureTransactions

  // The collaborators every transaction shares.
  datatype Env = Env(extract: Extractor, reader: Reader, judge: Judge, recovery: RecoveryPolicy)

  datatype CaseTxn =
    | OpenCase(c: Id, row: CaseRow, grant: Option<Grant>, clock: Option<Time>)
    | Reserve(c: Id, tool: Tool, query: Query, pre: Option<Precondition>, guards: Guards, callId: Id, now: Time)
    | FailCall(c: Id, callId: Id)
    | PauseCase(c: Id, status: CaseStatus, seen: Time, now: Time)
    | PauseCurrent(c: Id, status: CaseStatus, current: Precondition, leased: bool, atLimit: bool, now: Time)
    | ReopenCase(c: Id, escalate: bool, now: Time)

  datatype EvidenceTxn =
    | Observe(oid: Id, row: ObservationRow)
    | Publication(c: Id, callId: Id, observed: Observation, now: Time)
    | ReadRecovery(c: Id, callId: Id, oid: Id, now: Time)

  datatype GrantTxn =
    | AskApproval(approvalId: Id, request: Approval, revision: Time)
    | Decide(approvalId: Id, decision: ApprovalStatus, actor: Id, now: Time)
    | IssueCap(intent: Intent, capabilityId: Id, approval: Option<Id>, seen: Time, mintedAt: Time, ttl: Time, now: Time)
    | FindEffect(cap: Capability, now: Time)

  datatype EffectTxn =
    | PrepareEffect(cap: Capability, correlation: Id, clock: Time, now: Time)
    | DispatchEffect(cap: Capability, claim: Option<RecoveryClaim>, now: Time)
    | SettleEffect(key: EffectKey, expected: EffectStatus, to: EffectStatus, now: Time, receipt: Option<Receipt>,
                   failure: Option<Failure>)

  datatype RecoveryTxn =
    | StartRecovery(key: EffectKey, worker: Id, recoveryId: Id, now: Time)
    | KeepLookup(claim: RecoveryClaim, proof: LookupProof, now: Time)
    | RecoverEffect(claim: RecoveryClaim, now: Time)
    | FailRecovery(claim: RecoveryClaim, escalate: bool, now: Time)
    | EndResume(claim: RecoveryClaim, now: Time)

  datatype ClosureTxn =
    | KeepReport(report: Report)
    | CloseCase(report: Report, now: Time)

  datatype Txn =
    | Nothing
    | OnCase(ofCase: CaseTxn)
    | OnEvidence(ofEvidence: EvidenceTxn)
    | OnGrant(ofGrant: GrantTxn)
    | OnEffect(ofEffect: EffectTxn)
    | OnRecovery(ofRecovery: RecoveryTxn)
    | OnClosure(ofClosure: ClosureTxn)

  function CommitCase(t: Tables, tenant: Id, txn: CaseTxn): (t': Tables)
    ensures t' == t.(cases := t'.cases, calls := t'.calls)
  {
    match txn
    case OpenCase(c, row, grant, clock) => Create(t, tenant, c, row, grant, clock).After(t)
    case Reserve(c, tool, query, pre, guards, callId, now) => ReserveCall(t, tenant, c, tool, query, pre, guards, callId, now).After(t)
    case FailCall(c, callId) => MarkError(t, tenant, c, callId).After(t)
    case PauseCase(c, status, seen, now) => Pause(t, tenant, c, status, seen, now).After(t)
    case PauseCurrent(c, status, current, leased, atLimit, now) => PauseIfCurrent(t, tenant, c, status, current, leased, atLimit, now).After(t)
    case ReopenCase(c, escalate, now) => Reopen(t, tenant, c, escalate, now).After(t)
  }

  function CommitEvidence(env: Env, t: Tables, tenant: Id, txn: EvidenceTxn): (t': Tables)
    ensures t' == t.(cases := t'.cases, calls := t'.calls, observations := t'.observations, evidence := t'.evidence,
                  origins := t'.origins)
  {
    match txn
    case Observe(oid, row) => InsertObservation(t, oid, row).After(t)
    case Publication(c, callId, observed, now) =>
      RecordCall(t, env.extract, tenant, c, callId, observed, false, now).After(t)
    case ReadRecovery(c, callId, oid, now) => RecoverRead(t, env.extract, tenant, c, callId, oid, now).After(t)
  }

  function CommitGrant(t: Tables, tenant: Id, txn: GrantTxn): (t': Tables)
    ensures t' == t.(intents := t'.intents, approvals := t'.approvals, capabilities := t'.capabilities)
  {
    match txn
    case AskApproval(approvalId, request, revision) => RequestApproval(t, tenant, approvalId, request, revision).After(t)
    case Decide(approvalId, decision, actor, now) => DecideApproval(t, tenant, approvalId, decision, actor, now).After(t)
    case IssueCap(intent, capabilityId, approval, seen, mintedAt, ttl, now) =>
      IssueCapability(t, tenant, intent, capabilityId, approval, seen, mintedAt, ttl, now).After(t)
    case FindEffect(cap, now) => ExistingEffect(t, tenant, cap, now).After(t)
  }

  function CommitEffect(t: Tables, tenant: Id, txn: EffectTxn): (t': Tables)
    ensures t' == t.(cases := t'.cases, capabilities := t'.capabilities, effects := t'.effects, recoveries := t'.recoveries)
  {
    match txn
    case PrepareEffect(cap, correlation, clock, now) => Prepare(t, tenant, cap, correlation, clock, now).After(t)
    case DispatchEffect(cap, claim, now) => DispatchPrepared(t, tenant, cap, claim, now).After(t)
    case SettleEffect(key, expected, to, now, receipt, failure) =>
      Transition(t, tenant, key, expected, to, now, receipt, failure).After(t)
  }

  function CommitRecovery(env: Env, t: Tables, tenant: Id, txn: RecoveryTxn): (t': Tables)
    ensures t' == t.(effects := t'.effects, attempts := t'.attempts, recoveries := t'.recoveries)
  {
    match txn
    case StartRecovery(key, worker, recoveryId, now) =>
      ClaimRecovery(t, tenant, key, worker, recoveryId, env.recovery, now).After(t)
    case KeepLookup(claim, proof, now) => PersistLookup(t, tenant, claim, proof, now).After(t)
    case RecoverEffect(claim, now) => RecoverTransition(t, tenant, claim, env.recovery, now).After(t)
    case FailRecovery(claim, escalate, now) => FinishError(t, tenant, claim, env.recovery, escalate, now).After(t)
    case EndResume(claim, now) => FinishResume(t, tenant, claim, env.recovery, now).After(t)
  }

  function CommitClosure(env: Env, t: Tables, tenant: Id, txn: ClosureTxn): (t': Tables)
    ensures t' == t.(cases := t'.cases, reports := t'.reports, closures := t'.closures)
  {
    match txn
    case KeepReport(report) => Record(t, tenant, report).After(t)
    case CloseCase(report, now) => Close(t, env.reader, env.judge, tenant, report, now).After(t)
  }

  /** The rows after one transaction of a repository bound to `tenant`. */
  function Commit(env: Env, t: Tables, tenant: Id, txn: Txn): Tables {
    match txn
    case Nothing => t
    case OnCase(x) => CommitCase(t, tenant, x)
    case OnEvidence(x) => CommitEvidence(env, t, tenant, x)
    case OnGrant(x) => CommitGrant(t, tenant, x)
    case OnEffect(x) => CommitEffect(t, tenant, x)
    case OnRecovery(x) => CommitRecovery(env, t, tenant, x)
    case OnClosure(x) => CommitClosure(env, t, tenant, x)
  }

  // ---- workers around the non-transactional adapter call ----

  // What the remote side answered: a well-formed receipt, something malformed, or no answer.
  datatype Reply = Replied(receipt: Receipt) | Malformed | NoAnswer

  datatype Outcome = Outcome(status: EffectStatus, receipt: Option<Receipt>, failure: Option<Failure>)

  predicate WellFormedReceipt(r: Receipt) { r.outcome.Accepted? || r.outcome.Applied? || r.outcome.FailedConfirmed? }

  /** What the ledger records of a reply to the dispatch `correlation`: a well-formed receipt of that very dispatch
      gives its own outcome and reference; anything else is UNKNOWN, for the reason it was not usable. */
  predicate Recognised(reply: Reply, correlation: Id, status: EffectStatus, externalRef: Option<Id>, failure: Option<Failure>) {
    match reply
    case Replied(r) =>
      if r.correlation == correlation && r.outcome in {Accepted, Applied, FailedConfirmed} then
        && status == r.outcome && externalRef == r.externalRef
        && (if r.outcome == FailedConfirmed then failure == Some(RemoteRejected) else failure == None)
      else status == Unknown && externalRef == None && failure == Some(InvalidReceipt)
    case Malformed => status == Unknown && externalRef == None && failure == Some(InvalidReceipt)
    case NoAnswer => status == Unknown && externalRef == None && failure == Some(TransportUncertain)
  }

  /** The ledger status a reply supports: anything short of a matching receipt is UNKNOWN. */
  function Classify(reply: Reply, correlation: Id): (o: Outcome)
    ensures TransitionAllowed(Dispatched, o.status)
    ensures Recognised(reply, correlation, o.status, if o.receipt.Some? then o.receipt.value.externalRef else None, o.failure)
    ensures o.receipt.Some? ==> o.receipt.value.outcome == o.status && o.receipt.value.correlation == correlation
    ensures o.receipt.None? ==> o.status.Unknown?
  {
    match reply
    case Replied(receipt) =>
      if !WellFormedReceipt(receipt) || receipt.correlation != correlation then Outcome(Unknown, None, Some(InvalidReceipt))
      else Outcome(receipt.outcome, Some(receipt), if receipt.outcome.FailedConfirmed? then Some(RemoteRejected) else None)
    case Malformed => Outcome(Unknown, None, Some(InvalidReceipt))
    case NoAnswer => Outcome(Unknown, None, Some(TransportUncertain))
  }

  datatype Worker =
    | Checked(cap: Capability)                                  // signature verified, no effect found
    | Verified(cap: Capability, command: Built)                 // intent verified afresh, command rebuilt
    // PREPARED has committed and this worker owns it, or resumes it under a recovery claim
    | Owning(cap: Capability, command: Built, claim: Option<RecoveryClaim>)
    | Sending(cap: Capability, command: Built, ledger: Ledger)  // DISPATCHED has committed; the adapter is next
    | Reporting(key: EffectKey, outcome: Outcome)               // the adapter returned or raised
    | Finished

  // One call of the remote side-effect adapter.
  datatype Sent = Sent(key: EffectKey, capabilityId: Id, correlation: Id, command: Built)

  datatype System = System(t: Tables, workers: map<Id, Worker>, sent: seq<Sent>)

  datatype Step =
    | Transact(tenant: Id, txn: Txn)  // any transaction a worker step below does not own
    | Begin(tenant: Id, w: Id, cap: Capability, now: Time)
    | Verify(w: Id, intent: Intent, seen: Time)
    | WorkerPrepare(tenant: Id, w: Id, correlation: Id, clock: Time, now: Time)
    | Resume(w: Id, key: EffectKey, claim: RecoveryClaim)
    | WorkerDispatch(tenant: Id, w: Id, now: Time)
    | CallAdapter(w: Id, reply: Reply)
    | Report(tenant: Id, w: Id, now: Time)
    | Crash(w: Id)

  // Only a worker prepares or dispatches an effect.
  predicate Direct(txn: Txn) { txn.OnEffect? ==> txn.ofEffect.SettleEffect? }

  predicate Enabled(s: System, step: Step) {
    match step
    case Transact(_, txn) => Direct(txn)
    case Begin(_, w, _, _) => w !in s.workers
    case Verify(w, intent, seen) =>
      w in s.workers && s.workers[w].Checked? && seen == s.workers[w].cap.expectedRevision
      && Build(intent, s.workers[w].cap).Some? && !Build(intent, s.workers[w].cap).value.Unbuildable?
    case WorkerPrepare(_, w, _, _, _) => w in s.workers && s.workers[w].Verified?
    case Resume(w, key, claim) =>
      w !in s.workers && key in s.t.effects && s.t.effects[key].status.Prepared? && claim.key == key && claim.source.Prepared?
      && s.t.effects[key].capabilityId in s.t.capabilities && s.t.effects[key].intentId in s.t.intents
      && Build(s.t.intents[s.t.effects[key].intentId], s.t.capabilities[s.t.effects[key].capabilityId].payload).Some?
    case WorkerDispatch(_, w, _) => w in s.workers && s.workers[w].Owning?
    case CallAdapter(w, _) => w in s.workers && s.workers[w].Sending?
    case Report(_, w, _) => w in s.workers && s.workers[w].Reporting?
    case Crash(w) => w in s.workers
  }

  function TenantOf(step: Step): Id {
    match step
    case Transact(tenant, _) => tenant
    case Begin(tenant, _, _, _) => tenant
    case WorkerPrepare(tenant, _, _, _, _) => tenant
    case WorkerDispatch(tenant, _, _) => tenant
    case Report(tenant, _, _) => tenant
    case _ => 0
  }

  /** The transaction a step commits, if any. */
  function TxnOf(s: System, step: Step): Txn
    requires Enabled(s, step)
  {
    match step
    case Transact(_, txn) => txn
    case Begin(_, w, cap, now) => OnGrant(FindEffect(cap, now))
    case WorkerPrepare(_, w, correlation, clock, now) => OnEffect(PrepareEffect(s.workers[w].cap, correlation, clock, now))
    case WorkerDispatch(_, w, now) => OnEffect(DispatchEffect(s.workers[w].cap, s.workers[w].claim, now))
    case Report(_, w, now) =>
      var o := s.workers[w].outcome;
      OnEffect(SettleEffect(s.workers[w].key, Dispatched, o.status, now, o.receipt, o.failure))
    case _ => Nothing
  }

  function WorkerAfter(s: System, step: Step): map<Id, Worker>
    requires Enabled(s, step)
  {
    match step
    case Transact(_, _) => s.workers
    case Begin(tenant, w, cap, now) =>
      var found := ExistingEffect(s.t, tenant, cap, now);
      s.workers[w := if found.Committed? && found.value.None? then Checked(cap) else Finished]
    case Verify(w, intent, _) => s.workers[w := Verified(s.workers[w].cap, Build(intent, s.workers[w].cap).value)]
    case WorkerPrepare(tenant, w, correlation, clock, now) =>
      var prepared := Prepare(s.t, tenant, s.workers[w].cap, correlation, clock, now);
      s.workers[w := if prepared.Committed? && prepared.value.ownsDispatch
                     then Owning(s.workers[w].cap, s.workers[w].command, None) else Finished]
    case Resume(w, key, claim) =>
      var cap := s.t.capabilities[s.t.effects[key].capabilityId].payload;
      s.workers[w := Owning(cap, Build(s.t.intents[s.t.effects[key].intentId], cap).value, Some(claim))]
    case WorkerDispatch(tenant, w, now) =>
      var dispatched := DispatchPrepared(s.t, tenant, s.workers[w].cap, s.workers[w].claim, now);
      s.workers[w := if dispatched.Committed? then Sending(s.workers[w].cap, s.workers[w].command, dispatched.value) else Finished]
    case CallAdapter(w, reply) =>
      var ledger := s.workers[w].ledger;
      s.workers[w := Reporting(ledger.effectId, Classify(reply, ledger.correlation))]
    case Report(_, w, _) => s.workers[w := Finished]
    case Crash(w) => s.workers - {w}
  }

  function SentAfter(s: System, step: Step): seq<Sent>
    requires Enabled(s, step)
  {
    if step.CallAdapter? then
      var w := s.workers[step.w];
      s.sent + [Sent(w.ledger.effectId, w.cap.capabilityId, w.ledger.correlation, w.command)]
    else s.sent
  }

  function Next(env: Env, s: System, step: Step): System
    requires Enabled(s, step)
  {
    System(Commit(env, s.t, TenantOf(step), TxnOf(s, step)), WorkerAfter(s, step), SentAfter(s, step))
  }

  const INITIAL := System(EMPTY, map[], [])

  /** `states` is a run: it starts empty and every successor is one enabled step. */
  ghost predicate IsRun(env: Env, states: seq<System>, steps: seq<Step>) {
    && |states| == |steps| + 1
    && states[0] == INITIAL
    && forall i :: 0 <= i < |steps| ==> Enabled(states[i], steps[i]) && states[i + 1] == Next(env, states[i], steps[i])
  }
}
