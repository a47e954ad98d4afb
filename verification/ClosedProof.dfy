/** Once a verified closure commits, nothing in the system ever touches its case again. */
module ClosedProof {
  import opened Domain
  import opened Tables
  import opened CaseTransactions
  import opened AuthorizationTransactions
  import opened ClosureTransactions
  import opened Protocol
  import opened Publication
  import opened History
  import opened EffectSteps
  import opened DispatchProof
  import opened RevisionProof

  predicate OfCase(t: Tables, key: EffectKey, c: Id) { key in t.effects && t.effects[key].caseId == c }

  predicate CallQuiet(t: Tables, k: Id)
    requires k in t.calls
  {
    t.calls[k].state.CallObserved? && t.calls[k].observationId.Some? && t.calls[k].observationId.value in t.observations
  }

  /** Nothing about case `c` is pending: no read, no effect, no recovery attempt. */
  predicate Quiet(t: Tables, c: Id) {
    && c in t.cases && t.cases[c].status.Terminal()
    && (forall k :: k in t.calls && t.calls[k].caseId == c ==> CallQuiet(t, k))
    && (forall key :: key in t.effects && t.effects[key].caseId == c ==> !t.effects[key].status.Unresolved())
    && (forall a :: a in t.attempts ==> !Unfinished(t, c, a))
  }

  /** A recovery row belongs to an effect of the same case. */
  predicate Linked(t: Tables, key: EffectKey) {
    key in t.recoveries ==> key in t.effects && t.recoveries[key].caseId == t.effects[key].caseId
  }

  /** What closure bound about case `c` is the same in `t'` as in `t`. */
  predicate Frozen(t: Tables, t': Tables, c: Id) {
    && c in t.cases && c in t'.cases && t'.cases[c] == t.cases[c]
    && CallsOf(t'.calls, c) == CallsOf(t.calls, c)
    && EvidenceOf(t'.evidence, c) == EvidenceOf(t.evidence, c)
    && OriginsOf(t'.origins, t'.calls, c) == OriginsOf(t.origins, t.calls, c)
    && EffectsOf(t'.effects, c) == EffectsOf(t.effects, c)
    && RecoveriesOf(t'.recoveries, c) == RecoveriesOf(t.recoveries, c)
    && (forall o :: o in t.observations ==> o in t'.observations && t'.observations[o] == t.observations[o])
    && (forall r :: r in t.reports ==> r in t'.reports && t'.reports[r] == t.reports[r])
    && (c in t.closures ==> c in t'.closures && t'.closures[c] == t.closures[c])
  }

  // ---- calls, evidence and origins ----

  /** The reads of `c` are the same rows. */
  predicate ReadsFrozen(t: Tables, t': Tables, c: Id) {
    && CallsOf(t'.calls, c) == CallsOf(t.calls, c)
    && EvidenceOf(t'.evidence, c) == EvidenceOf(t.evidence, c)
    && OriginsOf(t'.origins, t'.calls, c) == OriginsOf(t.origins, t.calls, c)
    && (forall o :: o in t.observations ==> o in t'.observations && t'.observations[o] == t.observations[o])
  }

  lemma ReserveFrozen(t: Tables, tenant: Id, k: Id, tool: Tool, query: Query, pre: Option<Precondition>, guards: Guards, callId: Id, now: Time, c: Id)
    requires c in t.cases && t.cases[c].status.Terminal()
    ensures ReadsFrozen(t, ReserveCall(t, tenant, k, tool, query, pre, guards, callId, now).After(t), c)
  {
    hide InScope, Holds;
    var t' := ReserveCall(t, tenant, k, tool, query, pre, guards, callId, now).After(t);
    assert CallsOf(t'.calls, c) == CallsOf(t.calls, c);
    assert OriginsOf(t'.origins, t'.calls, c) == OriginsOf(t.origins, t.calls, c);
  }

  lemma FailureFrozen(t: Tables, tenant: Id, k: Id, callId: Id, c: Id)
    requires Quiet(t, c)
    ensures ReadsFrozen(t, MarkError(t, tenant, k, callId).After(t), c)
  {
    hide Unfinished;
    var t' := MarkError(t, tenant, k, callId).After(t);
    assert CallsOf(t'.calls, c) == CallsOf(t.calls, c);
    assert OriginsOf(t'.origins, t'.calls, c) == OriginsOf(t.origins, t.calls, c);
  }

  lemma PublicationOrigins(t: Tables, x: Extractor, k: Id, callId: Id, oid: Id, now: Time, c: Id)
    requires c != k && Publishable(t, x, k, callId, oid)
    ensures var t' := Published(t, x, k, callId, oid, now);
      OriginsOf(t'.origins, t'.calls, c) == OriginsOf(t.origins, t.calls, c)
  {
    hide EnvelopeOk, DispatchMatches, CorrelationMatches, Assigned, DistinctIds, FactsOf, NewRows;
  }

  lemma PublicationFrozen(t: Tables, x: Extractor, k: Id, callId: Id, oid: Id, now: Time, c: Id)
    requires c in t.cases && t.cases[c].status.Terminal() && Publishable(t, x, k, callId, oid)
    ensures ReadsFrozen(t, Published(t, x, k, callId, oid, now), c)
  {
    PublicationOrigins(t, x, k, callId, oid, now, c);
    var items := FactsOf(t, x, k, oid).value;
    RowsElsewhere(t.evidence, k, oid, items, c);
    CallElsewhere(t.calls, callId, t.calls[callId].(observationId := Some(oid), state := CallObserved), c);
    hide EnvelopeOk, DispatchMatches, CorrelationMatches, Assigned, DistinctIds, FactsOf, OriginsOf, OriginsFor, EvidenceOf,
         CallsOf, NewRows;
  }

  lemma SameReads(t: Tables, t': Tables, c: Id)
    requires t'.calls == t.calls && t'.evidence == t.evidence && t'.origins == t.origins
    requires t'.observations == t.observations
    ensures ReadsFrozen(t, t', c)
  {
  }

  lemma CaseTxnFrozen(t: Tables, tenant: Id, txn: CaseTxn, c: Id)
    requires Quiet(t, c)
    ensures ReadsFrozen(t, CommitCase(t, tenant, txn), c)
  {
    hide Create, ReserveCall, MarkError, Pause, PauseIfCurrent, Reopen, ReadsFrozen, Unfinished;
    match txn
    case Reserve(k, tool, query, pre, guards, callId, now) => ReserveFrozen(t, tenant, k, tool, query, pre, guards, callId, now, c);
    case FailCall(k, callId) => FailureFrozen(t, tenant, k, callId, c);
    case _ => SameReads(t, CommitCase(t, tenant, txn), c);
  }

  lemma ObservationFrozen(t: Tables, oid: Id, row: ObservationRow, c: Id)
    ensures ReadsFrozen(t, InsertObservation(t, oid, row).After(t), c)
  {
  }

  lemma EvidenceTxnFrozen(env: Env, t: Tables, tenant: Id, txn: EvidenceTxn, c: Id)
    requires c in t.cases && t.cases[c].status.Terminal()
    ensures ReadsFrozen(t, CommitEvidence(env, t, tenant, txn), c)
  {
    hide InsertObservation, RecordCall, RecoverRead, ReadsFrozen, Publishable, Published;
    match txn
    case Observe(oid, row) => ObservationFrozen(t, oid, row, c);
    case Publication(k, callId, observed, now) =>
      RecordStep(t, env.extract, tenant, k, callId, observed, false, now);
      var t' := RecordCall(t, env.extract, tenant, k, callId, observed, false, now).After(t);
      if t' == t { SameReads(t, t', c); }
      else { PublicationFrozen(t, env.extract, k, callId, observed.observationId, now, c); }
    case ReadRecovery(k, callId, oid, now) =>
      RecoverStep(t, env.extract, tenant, k, callId, oid, now);
      var t' := RecoverRead(t, env.extract, tenant, k, callId, oid, now).After(t);
      if t' == t { SameReads(t, t', c); }
      else { PublicationFrozen(t, env.extract, k, callId, oid, now, c); }
  }

  lemma ReadsStayFrozen(env: Env, t: Tables, tenant: Id, txn: Txn, c: Id)
    requires Quiet(t, c)
    ensures ReadsFrozen(t, Commit(env, t, tenant, txn), c)
  {
    hide CommitCase, CommitEvidence, CommitGrant, CommitEffect, CommitRecovery, CommitClosure, ReadsFrozen, Unfinished;
    match txn
    case OnCase(y) => CaseTxnFrozen(t, tenant, y, c);
    case OnEvidence(y) => EvidenceTxnFrozen(env, t, tenant, y, c);
    case _ => SameReads(t, Commit(env, t, tenant, txn), c);
  }

  // ---- effects ----

  /** A settled effect of a closed case stays, and no effect of that case is ever added. */
  lemma EffectFrozen(env: Env, t: Tables, tenant: Id, txn: Txn, c: Id, key: EffectKey)
    requires Quiet(t, c)
    ensures var t' := Commit(env, t, tenant, txn);
      && (OfCase(t', key, c) <==> OfCase(t, key, c))
      && (OfCase(t, key, c) ==> t'.effects[key] == t.effects[key])
  {
    hide Commit, CheckCapability, Synchronize, Unfinished, KeyOf;
    CommitEffectStep(env, t, tenant, txn, key);
  }

  lemma EffectsFrozen(env: Env, t: Tables, tenant: Id, txn: Txn, c: Id)
    requires Quiet(t, c)
    ensures var t' := Commit(env, t, tenant, txn);
      && EffectsOf(t'.effects, c) == EffectsOf(t.effects, c)
      && (forall key :: OfCase(t', key, c) <==> OfCase(t, key, c))
      && (forall key :: OfCase(t, key, c) ==> t'.effects[key] == t.effects[key])
  {
    hide Commit, Quiet;
    forall key
      ensures OfCase(Commit(env, t, tenant, txn), key, c) <==> OfCase(t, key, c)
      ensures OfCase(t, key, c) ==> Commit(env, t, tenant, txn).effects[key] == t.effects[key]
    {
      EffectFrozen(env, t, tenant, txn, c, key);
    }
  }

  // ---- recovery ----

  /** Recovery state of `key` after a transaction: still linked, unchanged if its effect belongs to the
      quiet case `c`, and never an unfinished attempt at an effect of `c`. */
  predicate RecoveryKept(t: Tables, t': Tables, c: Id, key: EffectKey) {
    && Linked(t', key)
    && (Quiet(t, c) && OfCase(t, key, c) ==>
          && (key in t'.recoveries <==> key in t.recoveries)
          && (key in t.recoveries ==> t'.recoveries[key] == t.recoveries[key]))
  }

  /** Attempt `a`, if unfinished, is at an effect of another case. */
  predicate AttemptKept(t: Tables, attempts: map<Id, Attempt>, c: Id, a: Id) {
    a in attempts && attempts[a].completedAt.None? ==> !OfCase(t, attempts[a].effect, c)
  }

  lemma InsertRecovery(t: Tables, tenant: Id, cap: Capability, correlation: Id, clock: Time, now: Time, c: Id, key: EffectKey)
    requires Linked(t, key) && Insertable(t, tenant, cap, now)
    ensures RecoveryKept(t, Insert(t, cap, correlation, clock, now), c, key)
  {
    hide CheckCapability, KeyOf, Unfinished;
  }

  lemma DispatchRecovery(t: Tables, tenant: Id, cap: Capability, claim: Option<RecoveryClaim>, now: Time, c: Id, key: EffectKey)
    requires Linked(t, key) && forall k :: k in t.effects ==> t.effects[k].effectId == k
    ensures RecoveryKept(t, DispatchPrepared(t, tenant, cap, claim, now).After(t), c, key)
  {
    hide CheckCapability, Unfinished, CallQuiet;
  }

  lemma SettleRecovery(t: Tables, tenant: Id, txn: EffectTxn, c: Id, key: EffectKey)
    requires txn.SettleEffect?
    requires Linked(t, key) && forall k :: k in t.effects ==> t.effects[k].effectId == k
    ensures RecoveryKept(t, Transition(t, tenant, txn.key, txn.expected, txn.to, txn.now, txn.receipt, txn.failure).After(t), c, key)
  {
    hide Unfinished, CallQuiet, TransitionFault;
  }

  /** A claim touches only the recovery row of an unresolved effect. */
  lemma ClaimStep(t: Tables, tenant: Id, k: EffectKey, worker: Id, recoveryId: Id, policy: RecoveryPolicy, now: Time)
    ensures var t' := ClaimRecovery(t, tenant, k, worker, recoveryId, policy, now).After(t);
      t' == t || (&& k in t.effects && k in t.recoveries && t.effects[k].status.Unresolved() && k in t'.recoveries
                  && t'.recoveries[k].caseId == t.recoveries[k].caseId && t'.effects == t.effects
                  && t'.recoveries == t.recoveries[k := t'.recoveries[k]])
  {
    hide Locked, Due, Abandon;
  }

  lemma ClaimRecoveryKept(t: Tables, tenant: Id, k: EffectKey, worker: Id, recoveryId: Id, policy: RecoveryPolicy, now: Time, c: Id, key: EffectKey)
    requires Linked(t, key)
    ensures RecoveryKept(t, ClaimRecovery(t, tenant, k, worker, recoveryId, policy, now).After(t), c, key)
  {
    hide ClaimRecovery, Unfinished, CallQuiet;
    ClaimStep(t, tenant, k, worker, recoveryId, policy, now);
  }

  lemma RecoverRecoveryKept(t: Tables, tenant: Id, claim: RecoveryClaim, policy: RecoveryPolicy, now: Time, c: Id, key: EffectKey)
    requires Linked(t, key) && forall k :: k in t.effects ==> t.effects[k].effectId == k
    ensures RecoveryKept(t, RecoverTransition(t, tenant, claim, policy, now).After(t), c, key)
  {
    hide Locked, Leased, CallQuiet, FinishAttempt;
  }

  lemma FailRecoveryKept(t: Tables, tenant: Id, claim: RecoveryClaim, policy: RecoveryPolicy, escalate: bool, now: Time, c: Id, key: EffectKey)
    requires Linked(t, key) && forall k :: k in t.effects ==> t.effects[k].effectId == k
    ensures RecoveryKept(t, FinishError(t, tenant, claim, policy, escalate, now).After(t), c, key)
  {
    hide Locked, Leased, CallQuiet, FinishAttempt;
  }

  lemma ResumeRecoveryKept(t: Tables, tenant: Id, claim: RecoveryClaim, policy: RecoveryPolicy, now: Time, c: Id, key: EffectKey)
    requires Linked(t, key)
    ensures RecoveryKept(t, FinishResume(t, tenant, claim, policy, now).After(t), c, key)
  {
    hide Locked, Leased, CallQuiet, FinishAttempt;
  }

  lemma SameRecovery(t: Tables, t': Tables, c: Id, key: EffectKey)
    requires Linked(t, key) && t'.recoveries == t.recoveries && t'.effects == t.effects
    ensures RecoveryKept(t, t', c, key)
  {
  }

  lemma LookupRecoveryKept(t: Tables, tenant: Id, claim: RecoveryClaim, proof: LookupProof, now: Time, c: Id, key: EffectKey)
    requires Linked(t, key)
    ensures RecoveryKept(t, PersistLookup(t, tenant, claim, proof, now).After(t), c, key)
  {
    hide PersistLookup;
  }

  lemma PrepareRecovery(t: Tables, tenant: Id, cap: Capability, correlation: Id, clock: Time, now: Time, c: Id, key: EffectKey)
    requires Linked(t, key)
    ensures RecoveryKept(t, Prepare(t, tenant, cap, correlation, clock, now).After(t), c, key)
  {
    hide Prepare, Insert, Insertable, KeyOf, RecoveryKept, Quiet;
    PrepareStep(t, tenant, cap, correlation, clock, now);
    var t' := Prepare(t, tenant, cap, correlation, clock, now).After(t);
    if t' == t || Attached(t, t', cap) { SameRecovery(t, t', c, key); }
    else { InsertRecovery(t, tenant, cap, correlation, clock, now, c, key); }
  }

  lemma EffectTxnRecovery(t: Tables, tenant: Id, txn: EffectTxn, c: Id, key: EffectKey)
    requires Linked(t, key) && forall k :: k in t.effects ==> t.effects[k].effectId == k
    ensures RecoveryKept(t, CommitEffect(t, tenant, txn), c, key)
  {
    hide Prepare, DispatchPrepared, Transition, RecoveryKept, Quiet;
    match txn
    case PrepareEffect(cap, correlation, clock, now) => PrepareRecovery(t, tenant, cap, correlation, clock, now, c, key);
    case DispatchEffect(cap, claim, now) => DispatchRecovery(t, tenant, cap, claim, now, c, key);
    case SettleEffect(_, _, _, _, _, _) => SettleRecovery(t, tenant, txn, c, key);
  }

  lemma RecoveryTxnRecovery(env: Env, t: Tables, tenant: Id, txn: RecoveryTxn, c: Id, key: EffectKey)
    requires Linked(t, key) && forall k :: k in t.effects ==> t.effects[k].effectId == k
    ensures RecoveryKept(t, CommitRecovery(env, t, tenant, txn), c, key)
  {
    hide ClaimRecovery, PersistLookup, RecoverTransition, FinishError, FinishResume, RecoveryKept, Quiet;
    match txn
    case StartRecovery(k, worker, recoveryId, now) => ClaimRecoveryKept(t, tenant, k, worker, recoveryId, env.recovery, now, c, key);
    case KeepLookup(claim, proof, now) => LookupRecoveryKept(t, tenant, claim, proof, now, c, key);
    case RecoverEffect(claim, now) => RecoverRecoveryKept(t, tenant, claim, env.recovery, now, c, key);
    case FailRecovery(claim, escalate, now) => FailRecoveryKept(t, tenant, claim, env.recovery, escalate, now, c, key);
    case EndResume(claim, now) => ResumeRecoveryKept(t, tenant, claim, env.recovery, now, c, key);
  }

  lemma AttemptQuiet(t: Tables, c: Id, a: Id)
    requires Quiet(t, c)
    ensures AttemptKept(t, t.attempts, c, a)
  {
    hide CallQuiet;
    if a in t.attempts { assert !Unfinished(t, c, a); }
  }

  lemma ClaimAttempts(t: Tables, tenant: Id, k: EffectKey, worker: Id, recoveryId: Id, policy: RecoveryPolicy, now: Time, c: Id, a: Id)
    requires Quiet(t, c)
    ensures AttemptKept(t, ClaimRecovery(t, tenant, k, worker, recoveryId, policy, now).After(t).attempts, c, a)
  {
    AttemptQuiet(t, c, a);
    hide Locked, Due, CallQuiet, Unfinished;
  }

  lemma LookupAttempts(t: Tables, tenant: Id, claim: RecoveryClaim, proof: LookupProof, now: Time, c: Id, a: Id)
    requires Quiet(t, c)
    ensures AttemptKept(t, PersistLookup(t, tenant, claim, proof, now).After(t).attempts, c, a)
  {
    AttemptQuiet(t, c, a);
    hide Locked, Leased, Quiet;
  }

  lemma RecoverAttempts(t: Tables, tenant: Id, claim: RecoveryClaim, policy: RecoveryPolicy, now: Time, c: Id, a: Id)
    requires Quiet(t, c)
    ensures AttemptKept(t, RecoverTransition(t, tenant, claim, policy, now).After(t).attempts, c, a)
  {
    AttemptQuiet(t, c, a);
    hide Locked, Leased, Quiet, Release, Synchronize;
  }

  lemma FailAttempts(t: Tables, tenant: Id, claim: RecoveryClaim, policy: RecoveryPolicy, escalate: bool, now: Time, c: Id, a: Id)
    requires Quiet(t, c)
    ensures AttemptKept(t, FinishError(t, tenant, claim, policy, escalate, now).After(t).attempts, c, a)
  {
    AttemptQuiet(t, c, a);
    hide Locked, Leased, Quiet, Release, Synchronize;
  }

  lemma ResumeAttempts(t: Tables, tenant: Id, claim: RecoveryClaim, policy: RecoveryPolicy, now: Time, c: Id, a: Id)
    requires Quiet(t, c)
    ensures AttemptKept(t, FinishResume(t, tenant, claim, policy, now).After(t).attempts, c, a)
  {
    AttemptQuiet(t, c, a);
    hide Locked, Leased, Quiet, Release;
  }

  lemma RecoveryTxnAttempts(env: Env, t: Tables, tenant: Id, txn: RecoveryTxn, c: Id, a: Id)
    requires Quiet(t, c)
    ensures AttemptKept(t, CommitRecovery(env, t, tenant, txn).attempts, c, a)
  {
    hide ClaimRecovery, PersistLookup, RecoverTransition, FinishError, FinishResume, AttemptKept, Quiet;
    match txn
    case StartRecovery(k, worker, recoveryId, now) => ClaimAttempts(t, tenant, k, worker, recoveryId, env.recovery, now, c, a);
    case KeepLookup(claim, proof, now) => LookupAttempts(t, tenant, claim, proof, now, c, a);
    case RecoverEffect(claim, now) => RecoverAttempts(t, tenant, claim, env.recovery, now, c, a);
    case FailRecovery(claim, escalate, now) => FailAttempts(t, tenant, claim, env.recovery, escalate, now, c, a);
    case EndResume(claim, now) => ResumeAttempts(t, tenant, claim, env.recovery, now, c, a);
  }

  // ---- one transaction ----

  /** The global links a closed case relies on. */
  ghost predicate Keyed(t: Tables) {
    && (forall k :: k in t.effects ==> t.effects[k].effectId == k)
    && (forall k :: Linked(t, k))
  }

  lemma RecoveryStaysKept(env: Env, t: Tables, tenant: Id, txn: Txn, c: Id, key: EffectKey)
    requires Keyed(t)
    ensures RecoveryKept(t, Commit(env, t, tenant, txn), c, key)
  {
    hide CommitCase, CommitEvidence, CommitGrant, CommitEffect, CommitRecovery, CommitClosure, RecoveryKept, Quiet, Linked;
    match txn
    case OnEffect(y) => EffectTxnRecovery(t, tenant, y, c, key);
    case OnRecovery(y) => RecoveryTxnRecovery(env, t, tenant, y, c, key);
    case _ => SameRecovery(t, Commit(env, t, tenant, txn), c, key);
  }

  lemma AttemptStaysKept(env: Env, t: Tables, tenant: Id, txn: Txn, c: Id, a: Id)
    requires Quiet(t, c)
    ensures AttemptKept(t, Commit(env, t, tenant, txn).attempts, c, a)
  {
    hide CommitCase, CommitEvidence, CommitGrant, CommitEffect, CommitRecovery, CommitClosure, AttemptKept, Quiet;
    AttemptQuiet(t, c, a);
    match txn
    case OnRecovery(y) => RecoveryTxnAttempts(env, t, tenant, y, c, a);
    case _ =>
  }

  /** Stored reports and closure records are never replaced. */
  predicate RecordsKept(t: Tables, t': Tables, c: Id) {
    && (forall r :: r in t.reports ==> r in t'.reports && t'.reports[r] == t.reports[r])
    && (c in t.closures ==> c in t'.closures && t'.closures[c] == t.closures[c])
  }

  lemma ReportKept(t: Tables, tenant: Id, r: Report, c: Id)
    ensures RecordsKept(t, Record(t, tenant, r).After(t), c)
  {
    hide WellFormed;
  }

  lemma CloseKept(t: Tables, reader: Reader, judge: Judge, tenant: Id, r: Report, now: Time, c: Id)
    ensures RecordsKept(t, Close(t, reader, judge, tenant, r, now).After(t), c)
  {
    hide StillStands, ClosureRecordOf;
  }

  lemma RecordsStayKept(env: Env, t: Tables, tenant: Id, txn: Txn, c: Id)
    ensures RecordsKept(t, Commit(env, t, tenant, txn), c)
  {
    hide CommitCase, CommitEvidence, CommitGrant, CommitEffect, CommitRecovery, Record, Close;
    match txn
    case OnClosure(y) =>
      if y.KeepReport? { ReportKept(t, tenant, y.report, c); }
      else { CloseKept(t, env.reader, env.judge, tenant, y.report, y.now, c); }
    case _ =>
  }

  lemma RecoveriesFrozen(env: Env, t: Tables, tenant: Id, txn: Txn, c: Id)
    requires Quiet(t, c) && Keyed(t)
    ensures RecoveriesOf(Commit(env, t, tenant, txn).recoveries, c) == RecoveriesOf(t.recoveries, c)
  {
    hide Commit, Quiet;
    var t' := Commit(env, t, tenant, txn);
    EffectsFrozen(env, t, tenant, txn, c);
    forall key ensures key in RecoveriesOf(t'.recoveries, c) <==> key in RecoveriesOf(t.recoveries, c)
      ensures key in RecoveriesOf(t.recoveries, c) ==> t'.recoveries[key] == t.recoveries[key]
    {
      RecoveryStaysKept(env, t, tenant, txn, c, key);
      assert Linked(t, key);
    }
  }

  lemma CallsStayQuiet(t: Tables, t': Tables, c: Id)
    requires CallsOf(t'.calls, c) == CallsOf(t.calls, c)
    requires forall o :: o in t.observations ==> o in t'.observations && t'.observations[o] == t.observations[o]
    requires forall k :: k in t.calls && t.calls[k].caseId == c ==> CallQuiet(t, k)
    ensures forall k :: k in t'.calls && t'.calls[k].caseId == c ==> CallQuiet(t', k)
  {
    forall k | k in t'.calls && t'.calls[k].caseId == c ensures CallQuiet(t', k) {
      assert k in CallsOf(t'.calls, c);
      assert CallsOf(t.calls, c)[k] == CallsOf(t'.calls, c)[k];
      var o: Id := t.calls[k].observationId.value;
      assert o in t.observations;
    }
  }

  lemma AttemptsStayQuiet(env: Env, t: Tables, tenant: Id, txn: Txn, c: Id, a: Id)
    requires Quiet(t, c) && a in Commit(env, t, tenant, txn).attempts
    ensures !Unfinished(Commit(env, t, tenant, txn), c, a)
  {
    hide Commit, Quiet;
    AttemptStaysKept(env, t, tenant, txn, c, a);
    EffectFrozen(env, t, tenant, txn, c, Commit(env, t, tenant, txn).attempts[a].effect);
  }

  /** One transaction leaves a quiet closed case exactly as it was, and quiet. */
  lemma QuietStep(env: Env, t: Tables, tenant: Id, txn: Txn, c: Id)
    requires Quiet(t, c) && Keyed(t)
    ensures Frozen(t, Commit(env, t, tenant, txn), c) && Quiet(Commit(env, t, tenant, txn), c)
  {
    CommitPinned(env, t, tenant, txn, c);
    ReadsStayFrozen(env, t, tenant, txn, c);
    EffectsFrozen(env, t, tenant, txn, c);
    RecoveriesFrozen(env, t, tenant, txn, c);
    RecordsStayKept(env, t, tenant, txn, c);
    hide Commit, CallQuiet, Unfinished, CallsOf, EvidenceOf, OriginsOf, EffectsOf, RecoveriesOf, Keyed;
    var t' := Commit(env, t, tenant, txn);
    CallsStayQuiet(t, t', c);
    forall a | a in t'.attempts ensures !Unfinished(t', c, a) { AttemptsStayQuiet(env, t, tenant, txn, c, a); }
    forall key | key in t'.effects && t'.effects[key].caseId == c ensures !t'.effects[key].status.Unresolved() {
      assert OfCase(t', key, c);
    }
  }

  lemma FrozenChain(a: Tables, b: Tables, d: Tables, c: Id)
    requires Frozen(a, b, c) && Frozen(b, d, c)
    ensures Frozen(a, d, c)
  {
    hide CallsOf, EvidenceOf, OriginsOf, EffectsOf, RecoveriesOf;
  }

  lemma FrozenSelf(t: Tables, c: Id)
    requires c in t.cases
    ensures Frozen(t, t, c)
  {
    hide CallsOf, EvidenceOf, OriginsOf, EffectsOf, RecoveriesOf;
  }

  lemma KeyedStep(env: Env, t: Tables, tenant: Id, txn: Txn)
    requires Keyed(t) && forall k :: k in t.effects ==> LedgerOk(t, k)
    ensures Keyed(Commit(env, t, tenant, txn)) && forall k :: k in Commit(env, t, tenant, txn).effects ==> LedgerOk(Commit(env, t, tenant, txn), k)
  {
    hide Commit, Linked;
    var t' := Commit(env, t, tenant, txn);
    forall k | k in t'.effects ensures LedgerOk(t', k) { LedgerOkKept(env, t, tenant, txn, k); }
    forall k ensures Linked(t', k) { RecoveryStaysKept(env, t, tenant, txn, 0, k); }
  }

  lemma {:induction false} AlwaysKeyed(env: Env, ts: seq<Tables>, log: seq<Entry>, j: nat)
    requires IsHistory(env, ts, log) && j < |ts|
    ensures Keyed(ts[j]) && forall k :: k in ts[j].effects ==> LedgerOk(ts[j], k)
  {
    hide Commit, LedgerOk;
    if j > 0 {
      AlwaysKeyed(env, ts, log, j - 1);
      hide Keyed;
      KeyedStep(env, ts[j - 1], log[j - 1].tenant, log[j - 1].txn);
    }
  }

  lemma {:induction false} QuietForever(env: Env, ts: seq<Tables>, log: seq<Entry>, i: nat, j: nat, c: Id)
    requires IsHistory(env, ts, log) && i <= j < |ts| && Quiet(ts[i], c)
    ensures Frozen(ts[i], ts[j], c) && Quiet(ts[j], c)
  {
    hide Commit, Frozen, Keyed;
    if i == j {
      FrozenSelf(ts[i], c);
    } else {
      hide Quiet;
      QuietForever(env, ts, log, i, j - 1, c);
      AlwaysKeyed(env, ts, log, j - 1);
      QuietStep(env, ts[j - 1], log[j - 1].tenant, log[j - 1].txn, c);
      FrozenChain(ts[i], ts[j - 1], ts[j], c);
    }
  }
}
