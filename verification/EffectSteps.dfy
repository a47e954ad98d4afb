/** What one transaction can do to capabilities and to the effect ledger. */
module EffectSteps {
  import opened Domain
  import opened Tables
  import opened CaseTransactions
  import opened AuthorizationTransactions
  import opened Protocol

  // ---- capabilities ----

  /** Capability `id` is kept with the payload it was issued with, and a use of it is never undone. */
  predicate CapabilityKept(t: Tables, t': Tables, id: Id) {
    id in t.capabilities ==>
      && id in t'.capabilities && t'.capabilities[id].payload == t.capabilities[id].payload
      && (t.capabilities[id].usedEffect.Some? ==> t'.capabilities[id] == t.capabilities[id])
  }

  /** Capability `id` was issued on an open case at the revision the capability names. */
  predicate IssuedOn(t: Tables, t': Tables, id: Id)
    requires id in t'.capabilities
  {
    var cap := t'.capabilities[id].payload;
    && cap.caseId in t.cases && !t.cases[cap.caseId].status.Terminal()
    && t.cases[cap.caseId].revision == cap.expectedRevision
    && t'.capabilities[id].usedEffect.None? && cap.capabilityId == id
  }

  predicate CapabilityStep(t: Tables, t': Tables, id: Id) {
    && CapabilityKept(t, t', id)
    && (id !in t.capabilities && id in t'.capabilities ==> IssuedOn(t, t', id))
  }

  /** `cap` may insert the first row for its effect. */
  predicate Insertable(t: Tables, tenant: Id, cap: Capability, now: Time) {
    && Owns(t, tenant, cap.caseId) && !t.cases[cap.caseId].status.Terminal()
    && CheckCapability(t, tenant, cap, now).None?
    && KeyOf(cap) !in t.effects && t.capabilities[cap.capabilityId].usedEffect.None?
    && t.cases[cap.caseId].revision == cap.expectedRevision
  }

  /** The capability `cap` becomes bound to the effect already recorded under its key. */
  predicate Attached(t: Tables, t': Tables, cap: Capability) {
    && KeyOf(cap) in t.effects && cap.capabilityId in t.capabilities
    && (t.capabilities[cap.capabilityId].usedEffect.None? || t.capabilities[cap.capabilityId].usedEffect.value == KeyOf(cap))
    && t' == t.(capabilities := t.capabilities[cap.capabilityId :=
                  t.capabilities[cap.capabilityId].(usedEffect := Some(KeyOf(cap)))])
  }

  lemma PrepareStep(t: Tables, tenant: Id, cap: Capability, correlation: Id, clock: Time, now: Time)
    ensures var t' := Prepare(t, tenant, cap, correlation, clock, now).After(t);
      || t' == t || Attached(t, t', cap)
      || (Insertable(t, tenant, cap, now) && t' == Insert(t, cap, correlation, clock, now))
  {
    hide CheckCapability, FindExisting, Insert, KeyOf, CheckApproval;
  }

  lemma ExistingStep(t: Tables, tenant: Id, cap: Capability, now: Time)
    ensures var t' := ExistingEffect(t, tenant, cap, now).After(t); t' == t || Attached(t, t', cap)
  {
    hide CheckCapability, FindExisting, KeyOf, CheckApproval;
  }

  lemma IssueStep(t: Tables, tenant: Id, intent: Intent, capabilityId: Id, approval: Option<Id>, seen: Time, mintedAt: Time,
                  ttl: Time, now: Time, id: Id)
    ensures CapabilityStep(t, IssueCapability(t, tenant, intent, capabilityId, approval, seen, mintedAt, ttl, now).After(t), id)
  {
    hide PayloadOf, CheckApproval, Fenced, KeyOf, IntentSavable;
  }

  /** A capability appears only by being issued at the current revision of its case, and then never changes. */
  lemma GrantStep(t: Tables, tenant: Id, txn: GrantTxn, id: Id)
    ensures CapabilityStep(t, CommitGrant(t, tenant, txn), id)
  {
    hide RequestApproval, DecideApproval, IssueCapability, ExistingEffect, KeyOf, IssuedOn;
    match txn
    case AskApproval(_, _, _) =>
    case Decide(_, _, _, _) =>
    case IssueCap(intent, capabilityId, approval, seen, mintedAt, ttl, now) =>
      IssueStep(t, tenant, intent, capabilityId, approval, seen, mintedAt, ttl, now, id);
    case FindEffect(cap, now) => ExistingStep(t, tenant, cap, now);
  }

  lemma InsertKeepsCapability(t: Tables, tenant: Id, cap: Capability, correlation: Id, clock: Time, now: Time, id: Id)
    requires Insertable(t, tenant, cap, now)
    ensures CapabilityStep(t, Insert(t, cap, correlation, clock, now), id)
  {
    hide CheckCapability, Synchronize, KeyOf, CheckApproval, IssuedOn;
  }

  lemma AttachedKeepsCapability(t: Tables, t': Tables, cap: Capability, id: Id)
    requires Attached(t, t', cap)
    ensures CapabilityStep(t, t', id)
  {
    hide KeyOf;
  }

  lemma SameCapabilities(t: Tables, t': Tables, id: Id)
    requires t'.capabilities == t.capabilities
    ensures CapabilityStep(t, t', id)
  {
  }

  lemma PrepareKeepsCapability(t: Tables, tenant: Id, cap: Capability, correlation: Id, clock: Time, now: Time, id: Id)
    ensures CapabilityStep(t, Prepare(t, tenant, cap, correlation, clock, now).After(t), id)
  {
    hide Prepare, Insert, Insertable, Attached, CapabilityStep;
    PrepareStep(t, tenant, cap, correlation, clock, now);
    var t' := Prepare(t, tenant, cap, correlation, clock, now).After(t);
    if t' == t { SameCapabilities(t, t', id); }
    else if Attached(t, t', cap) { AttachedKeepsCapability(t, t', cap, id); }
    else { InsertKeepsCapability(t, tenant, cap, correlation, clock, now, id); }
  }

  lemma EffectKeepsCapability(t: Tables, tenant: Id, txn: EffectTxn, id: Id)
    ensures CapabilityStep(t, CommitEffect(t, tenant, txn), id)
  {
    hide Prepare, DispatchPrepared, Transition, CapabilityStep;
    if txn.PrepareEffect? { PrepareKeepsCapability(t, tenant, txn.cap, txn.correlation, txn.clock, txn.now, id); }
    else { SameCapabilities(t, CommitEffect(t, tenant, txn), id); }
  }

  lemma CommitCapability(env: Env, t: Tables, tenant: Id, txn: Txn, id: Id)
    ensures CapabilityStep(t, Commit(env, t, tenant, txn), id)
  {
    hide CommitCase, CommitEvidence, CommitGrant, CommitEffect, CommitRecovery, CommitClosure, IssuedOn;
    match txn
    case OnGrant(x) => GrantStep(t, tenant, x, id);
    case OnEffect(x) => EffectKeepsCapability(t, tenant, x, id);
    case _ =>
  }

  // ---- the ledger ----

  /** The part of a ledger row no transition changes. */
  predicate SameEffect(a: Ledger, b: Ledger) {
    && a.effectId == b.effectId && a.intentId == b.intentId && a.capabilityId == b.capabilityId
    && a.approvalId == b.approvalId && a.tenant == b.tenant && a.caseId == b.caseId && a.order == b.order
    && a.action == b.action && a.targetHash == b.targetHash && a.payloadHash == b.payloadHash
    && a.preparedRevision == b.preparedRevision && a.correlation == b.correlation && a.createdAt == b.createdAt
  }

  /** No transition returns to PREPARED, leaves a settled state, or counts a second attempt. */
  predicate Moved(a: Ledger, b: Ledger) {
    && SameEffect(a, b)
    && (|| b == a
        || (a.status.Prepared? && b.status.Dispatched? && b.attemptCount == 1)
        || (a.status.LookupOnly() && Reconcilable(b.status) && b.attemptCount == a.attemptCount))
  }

  /** Everything `dispatch_prepared` has checked when it moves effect `key` out of PREPARED. */
  predicate Fires(t: Tables, tenant: Id, cap: Capability, now: Time, key: EffectKey) {
    && Owns(t, tenant, cap.caseId) && !t.cases[cap.caseId].status.Terminal()
    && CheckCapability(t, tenant, cap, now).None?
    && t.capabilities[cap.capabilityId].usedEffect == Some(key)
    && key in t.effects && t.effects[key].capabilityId == cap.capabilityId && t.effects[key].status.Prepared?
    && t.cases[cap.caseId].revision == t.effects[key].preparedRevision
  }

  /** The row of effect `key` was inserted by the capability it names, under the same Case lock. */
  predicate Born(t: Tables, t': Tables, tenant: Id, txn: Txn, key: EffectKey) {
    && txn.OnEffect? && txn.ofEffect.PrepareEffect?
    && var cap := txn.ofEffect.cap;
    && key == KeyOf(cap) && Insertable(t, tenant, cap, txn.ofEffect.now)
    && t' == Insert(t, cap, txn.ofEffect.correlation, txn.ofEffect.clock, txn.ofEffect.now)
  }

  predicate EffectStep(t: Tables, t': Tables, tenant: Id, txn: Txn, key: EffectKey) {
    if key in t.effects then
      && key in t'.effects && Moved(t.effects[key], t'.effects[key])
      && (t.effects[key].status.Prepared? && t'.effects[key] != t.effects[key] ==>
            txn.OnEffect? && txn.ofEffect.DispatchEffect? && Fires(t, tenant, txn.ofEffect.cap, txn.ofEffect.now, key)
            && t'.cases == t.cases && t'.capabilities == t.capabilities)
    else key in t'.effects ==> Born(t, t', tenant, txn, key)
  }

  lemma DispatchStep(t: Tables, tenant: Id, cap: Capability, claim: Option<RecoveryClaim>, now: Time, key: EffectKey)
    ensures EffectStep(t, DispatchPrepared(t, tenant, cap, claim, now).After(t), tenant, OnEffect(DispatchEffect(cap, claim, now)), key)
  {
    hide CheckCapability, CheckApproval, Synchronize, Born;
  }

  lemma SettleStep(t: Tables, tenant: Id, txn: EffectTxn, key: EffectKey)
    requires txn.SettleEffect?
    ensures EffectStep(t, Transition(t, tenant, txn.key, txn.expected, txn.to, txn.now, txn.receipt, txn.failure).After(t),
                       tenant, OnEffect(txn), key)
  {
    hide Synchronize, Born, Fires, TransitionFault;
  }

  lemma InsertStep(t: Tables, tenant: Id, txn: EffectTxn, key: EffectKey)
    requires txn.PrepareEffect? && Insertable(t, tenant, txn.cap, txn.now)
    ensures EffectStep(t, Insert(t, txn.cap, txn.correlation, txn.clock, txn.now), tenant, OnEffect(txn), key)
  {
    hide CheckCapability, CheckApproval, Synchronize, NewLedger, Fires;
  }

  lemma PrepareEffectStep(t: Tables, tenant: Id, txn: EffectTxn, key: EffectKey)
    requires txn.PrepareEffect?
    ensures EffectStep(t, Prepare(t, tenant, txn.cap, txn.correlation, txn.clock, txn.now).After(t), tenant, OnEffect(txn), key)
  {
    hide Prepare, Insert, Insertable, KeyOf, EffectStep;
    PrepareStep(t, tenant, txn.cap, txn.correlation, txn.clock, txn.now);
    var t' := Prepare(t, tenant, txn.cap, txn.correlation, txn.clock, txn.now).After(t);
    if t' == t || Attached(t, t', txn.cap) { SameEffectsStep(t, t', tenant, OnEffect(txn), key); }
    else { InsertStep(t, tenant, txn, key); }
  }

  lemma EffectTxnStep(t: Tables, tenant: Id, txn: EffectTxn, key: EffectKey)
    ensures EffectStep(t, CommitEffect(t, tenant, txn), tenant, OnEffect(txn), key)
  {
    hide Prepare, DispatchPrepared, Transition, EffectStep;
    match txn
    case PrepareEffect(cap, correlation, clock, now) => PrepareEffectStep(t, tenant, txn, key);
    case DispatchEffect(cap, claim, now) => DispatchStep(t, tenant, cap, claim, now, key);
    case SettleEffect(_, _, _, _, _, _) => SettleStep(t, tenant, txn, key);
  }

  lemma SameEffectsStep(t: Tables, t': Tables, tenant: Id, txn: Txn, key: EffectKey)
    ensures t'.effects == t.effects ==> EffectStep(t, t', tenant, txn, key)
  {
  }

  lemma RecoverEffectStep(t: Tables, tenant: Id, claim: RecoveryClaim, policy: RecoveryPolicy, now: Time, txn: Txn, key: EffectKey)
    ensures EffectStep(t, RecoverTransition(t, tenant, claim, policy, now).After(t), tenant, txn, key)
  {
    hide Locked, HoldsLease, Synchronize, Release, FinishAttempt, Born, Fires;
  }

  lemma FailRecoveryStep(t: Tables, tenant: Id, claim: RecoveryClaim, policy: RecoveryPolicy, escalate: bool, now: Time, txn: Txn,
                         key: EffectKey)
    ensures EffectStep(t, FinishError(t, tenant, claim, policy, escalate, now).After(t), tenant, txn, key)
  {
    hide Locked, HoldsLease, Synchronize, Release, FinishAttempt, Born, Fires;
  }

  lemma RecoveryTxnStep(env: Env, t: Tables, tenant: Id, txn: RecoveryTxn, key: EffectKey)
    ensures EffectStep(t, CommitRecovery(env, t, tenant, txn), tenant, OnRecovery(txn), key)
  {
    hide ClaimRecovery, PersistLookup, RecoverTransition, FinishError, FinishResume, EffectStep;
    match txn
    case RecoverEffect(claim, now) => RecoverEffectStep(t, tenant, claim, env.recovery, now, OnRecovery(txn), key);
    case FailRecovery(claim, escalate, now) =>
      FailRecoveryStep(t, tenant, claim, env.recovery, escalate, now, OnRecovery(txn), key);
    case _ => SameEffectsStep(t, CommitRecovery(env, t, tenant, txn), tenant, OnRecovery(txn), key);
  }

  /** Ledger rows are born PREPARED or NOOP, leave PREPARED only by a dispatch, and never come back. */
  lemma CommitEffectStep(env: Env, t: Tables, tenant: Id, txn: Txn, key: EffectKey)
    ensures EffectStep(t, Commit(env, t, tenant, txn), tenant, txn, key)
  {
    hide CommitCase, CommitEvidence, CommitGrant, CommitEffect, CommitRecovery, CommitClosure, EffectStep;
    match txn
    case OnEffect(x) => EffectTxnStep(t, tenant, x, key);
    case OnRecovery(x) => RecoveryTxnStep(env, t, tenant, x, key);
    case _ => SameEffectsStep(t, Commit(env, t, tenant, txn), tenant, txn, key);
  }

  /** A receipt shows `status` for this ledger row: its dispatch, its outcome, and no other remote effect. UNKNOWN needs none. */
  predicate Shows(receipt: Option<Receipt>, ledger: Ledger, status: EffectStatus) {
    if receipt.None? then status.Unknown?
    else
      && (status.Unknown? || receipt.value.outcome == status) && receipt.value.correlation == ledger.correlation
      && (receipt.value.externalRef.None? || ledger.externalRef.None? || receipt.value.externalRef == ledger.externalRef)
  }

  /** A sent effect is settled exactly along DISPATCHED or ACCEPTED towards a later outcome that its own receipt shows. */
  lemma TransitionExactly(t: Tables, tenant: Id, key: EffectKey, expected: EffectStatus, status: EffectStatus, now: Time,
                          receipt: Option<Receipt>, failure: Option<Failure>)
    ensures Transition(t, tenant, key, expected, status, now, receipt, failure).Committed? <==>
      && key in t.effects && Owns(t, tenant, t.effects[key].caseId) && t.effects[key].intentId in t.intents
      && t.effects[key].status == expected && TransitionAllowed(expected, status) && Shows(receipt, t.effects[key], status)
  {
    hide TransitionAllowed, Synchronize, Owns;
  }
}
