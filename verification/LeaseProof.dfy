/** A leased recovery row names an attempt that is still open, so a settled case holds no lease at any instant. */
module LeaseProof {
  import opened Domain
  import opened Tables
  import opened AuthorizationTransactions
  import opened ClosureTransactions
  import opened Protocol
  import opened History
  import opened EffectSteps
  import opened ClosedProof

  /** The lease token of `key`, if any, is an open attempt at this very effect. */
  predicate TokenOk(t: Tables, key: EffectKey) {
    key in t.recoveries && t.recoveries[key].leaseToken.Some? ==>
      && t.recoveries[key].leaseToken.value in t.attempts
      && t.attempts[t.recoveries[key].leaseToken.value].effect == key
      && t.attempts[t.recoveries[key].leaseToken.value].completedAt.None?
  }

  /** Between `t` and `t'` the lease of `key` stayed what it was, or `key` got its first, unleased row. */
  predicate SameLease(t: Tables, t': Tables, key: EffectKey) {
    && t'.attempts == t.attempts
    && (key in t'.recoveries ==>
          if key in t.recoveries then t'.recoveries[key].leaseToken == t.recoveries[key].leaseToken
          else t'.recoveries[key].leaseToken.None?)
  }

  lemma InsertLease(t: Tables, tenant: Id, cap: Capability, correlation: Id, clock: Time, now: Time, key: EffectKey)
    requires Insertable(t, tenant, cap, now)
    ensures SameLease(t, Insert(t, cap, correlation, clock, now), key)
  {
    hide CheckCapability, NewLedger, KeyOf;
  }

  lemma PrepareLease(t: Tables, tenant: Id, cap: Capability, correlation: Id, clock: Time, now: Time, key: EffectKey)
    ensures SameLease(t, Prepare(t, tenant, cap, correlation, clock, now).After(t), key)
  {
    hide Prepare, Insertable, Insert, KeyOf, SameLease;
    PrepareStep(t, tenant, cap, correlation, clock, now);
    var t' := Prepare(t, tenant, cap, correlation, clock, now).After(t);
    if t' == t || Attached(t, t', cap) { UntouchedLease(t, t', key); }
    else { InsertLease(t, tenant, cap, correlation, clock, now, key); }
  }

  lemma UntouchedLease(t: Tables, t': Tables, key: EffectKey)
    requires t'.attempts == t.attempts && t'.recoveries == t.recoveries
    ensures SameLease(t, t', key)
  {
  }

  lemma DispatchLease(t: Tables, tenant: Id, cap: Capability, claim: Option<RecoveryClaim>, now: Time, key: EffectKey)
    ensures SameLease(t, DispatchPrepared(t, tenant, cap, claim, now).After(t), key)
  {
    hide CheckCapability, ClaimHolds;
  }

  lemma SettleLease(t: Tables, tenant: Id, txn: EffectTxn, key: EffectKey)
    requires txn.SettleEffect?
    ensures SameLease(t, Transition(t, tenant, txn.key, txn.expected, txn.to, txn.now, txn.receipt, txn.failure).After(t), key)
  {
    hide TransitionFault;
  }

  lemma EffectLease(t: Tables, tenant: Id, txn: EffectTxn, key: EffectKey)
    ensures SameLease(t, CommitEffect(t, tenant, txn), key)
  {
    hide Prepare, DispatchPrepared, Transition, SameLease;
    match txn
    case PrepareEffect(cap, correlation, clock, now) => PrepareLease(t, tenant, cap, correlation, clock, now, key);
    case DispatchEffect(cap, claim, now) => DispatchLease(t, tenant, cap, claim, now, key);
    case SettleEffect(_, _, _, _, _, _) => SettleLease(t, tenant, txn, key);
  }

  /** A claim abandons only the attempt of its own effect, and leases it under a new one. */
  lemma ClaimLease(t: Tables, tenant: Id, k: EffectKey, worker: Id, recoveryId: Id, policy: RecoveryPolicy, now: Time, key: EffectKey)
    requires TokenOk(t, key) && TokenOk(t, k)
    ensures TokenOk(ClaimRecovery(t, tenant, k, worker, recoveryId, policy, now).After(t), key)
  {
    hide Locked, Due;
  }

  lemma LookupLease(t: Tables, tenant: Id, claim: RecoveryClaim, proof: LookupProof, now: Time, key: EffectKey)
    requires TokenOk(t, key)
    ensures TokenOk(PersistLookup(t, tenant, claim, proof, now).After(t), key)
  {
    hide Locked, Leased;
  }

  lemma RecoverLease(t: Tables, tenant: Id, claim: RecoveryClaim, policy: RecoveryPolicy, now: Time, key: EffectKey)
    requires TokenOk(t, key) && forall k :: k in t.effects ==> t.effects[k].effectId == k
    ensures TokenOk(RecoverTransition(t, tenant, claim, policy, now).After(t), key)
  {
    hide Locked, Leased, Reconcilable;
  }

  lemma FailLease(t: Tables, tenant: Id, claim: RecoveryClaim, policy: RecoveryPolicy, escalate: bool, now: Time, key: EffectKey)
    requires TokenOk(t, key) && forall k :: k in t.effects ==> t.effects[k].effectId == k
    ensures TokenOk(FinishError(t, tenant, claim, policy, escalate, now).After(t), key)
  {
    hide Locked, Leased;
  }

  lemma ResumeLease(t: Tables, tenant: Id, claim: RecoveryClaim, policy: RecoveryPolicy, now: Time, key: EffectKey)
    requires TokenOk(t, key)
    ensures TokenOk(FinishResume(t, tenant, claim, policy, now).After(t), key)
  {
    hide Locked, Leased;
  }

  lemma RecoveryLease(env: Env, t: Tables, tenant: Id, txn: RecoveryTxn, key: EffectKey)
    requires (forall k :: TokenOk(t, k)) && forall k :: k in t.effects ==> t.effects[k].effectId == k
    ensures TokenOk(CommitRecovery(env, t, tenant, txn), key)
  {
    hide ClaimRecovery, PersistLookup, RecoverTransition, FinishError, FinishResume, TokenOk;
    assert TokenOk(t, key);
    match txn
    case StartRecovery(k, worker, recoveryId, now) => ClaimLease(t, tenant, k, worker, recoveryId, env.recovery, now, key);
    case KeepLookup(claim, proof, now) => LookupLease(t, tenant, claim, proof, now, key);
    case RecoverEffect(claim, now) => RecoverLease(t, tenant, claim, env.recovery, now, key);
    case FailRecovery(claim, escalate, now) => FailLease(t, tenant, claim, env.recovery, escalate, now, key);
    case EndResume(claim, now) => ResumeLease(t, tenant, claim, env.recovery, now, key);
  }

  lemma LeaseKept(t: Tables, t': Tables, key: EffectKey)
    requires TokenOk(t, key) && SameLease(t, t', key)
    ensures TokenOk(t', key)
  {
  }

  lemma CommitLease(env: Env, t: Tables, tenant: Id, txn: Txn, key: EffectKey)
    requires Keyed(t) && forall k :: TokenOk(t, k)
    ensures TokenOk(Commit(env, t, tenant, txn), key)
  {
    hide CommitCase, CommitEvidence, CommitGrant, CommitEffect, CommitRecovery, CommitClosure, TokenOk, SameLease, Linked;
    var t' := Commit(env, t, tenant, txn);
    assert TokenOk(t, key);
    match txn
    case OnRecovery(y) => RecoveryLease(env, t, tenant, y, key);
    case OnEffect(y) => EffectLease(t, tenant, y, key); LeaseKept(t, t', key);
    case _ => UntouchedLease(t, t', key); LeaseKept(t, t', key);
  }

  /** In every reachable database a lease token is an open attempt at its own effect. */
  lemma {:induction false} LeasesAlwaysOpen(env: Env, ts: seq<Tables>, log: seq<Entry>, j: nat)
    requires IsHistory(env, ts, log) && j < |ts|
    ensures forall k :: TokenOk(ts[j], k)
  {
    hide Commit;
    if j > 0 {
      hide TokenOk, Keyed;
      LeasesAlwaysOpen(env, ts, log, j - 1);
      AlwaysKeyed(env, ts, log, j - 1);
      forall k ensures TokenOk(ts[j], k) { CommitLease(env, ts[j - 1], log[j - 1].tenant, log[j - 1].txn, k); }
    }
  }

  lemma LeaseIsOpen(t: Tables, c: Id, key: EffectKey, a: Id)
    requires TokenOk(t, key) && Linked(t, key)
    requires key in t.recoveries && t.recoveries[key].caseId == c && t.recoveries[key].leaseToken == Some(a)
    ensures a in t.attempts && Unfinished(t, c, a)
  {
  }

  /** A settled case holds no lease: whatever the clock shows, nothing is leased. */
  lemma QuietHoldsNoLease(t: Tables, c: Id, key: EffectKey)
    requires Quiet(t, c) && Keyed(t) && TokenOk(t, key)
    requires key in t.recoveries && t.recoveries[key].caseId == c
    ensures t.recoveries[key].leaseToken.None?
  {
    hide CallQuiet;
    assert Linked(t, key);
    if t.recoveries[key].leaseToken.Some? { LeaseIsOpen(t, c, key, t.recoveries[key].leaseToken.value); }
  }
}
