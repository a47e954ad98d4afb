/** The recovery row of an effect mirrors its ledger row, and the attempts at it are bounded. */
module RecoveryDiscovery {
  import opened Domain
  import opened Tables
  import opened AuthorizationTransactions
  import opened Protocol
  import opened History
  import opened EffectSteps

  /** Recovery knows effect `key` iff the ledger does, and finds it as the ledger left it: owned alike, of the same instant, attempted a bounded number of
      times, and never up for escalation once it is resolved. */
  predicate Mirrored(t: Tables, key: EffectKey, limit: nat) {
    if key !in t.effects then key !in t.recoveries
    else
      && t.effects[key].effectId == key && key in t.recoveries
      && var l, row := t.effects[key], t.recoveries[key];
      && row.tenant == l.tenant && row.caseId == l.caseId && row.ledgerUpdatedAt == l.updatedAt && row.attemptCount <= limit
      && (row.requiresEscalation ==> l.status.Unresolved())
  }

  lemma InsertMirrors(t: Tables, tenant: Id, cap: Capability, correlation: Id, clock: Time, now: Time, key: EffectKey, limit: nat)
    requires Insertable(t, tenant, cap, now) && Mirrored(t, key, limit)
    ensures Mirrored(Insert(t, cap, correlation, clock, now), key, limit)
  {
    hide CheckCapability, KeyOf;
  }

  lemma SameMirror(t: Tables, t': Tables, key: EffectKey, limit: nat)
    requires Mirrored(t, key, limit) && t'.effects == t.effects && t'.recoveries == t.recoveries
    ensures Mirrored(t', key, limit)
  {
  }

  lemma PrepareMirrors(t: Tables, tenant: Id, cap: Capability, correlation: Id, clock: Time, now: Time, key: EffectKey, limit: nat)
    requires Mirrored(t, key, limit)
    ensures Mirrored(Prepare(t, tenant, cap, correlation, clock, now).After(t), key, limit)
  {
    hide Prepare, Insertable, Insert, KeyOf, Mirrored;
    PrepareStep(t, tenant, cap, correlation, clock, now);
    var t' := Prepare(t, tenant, cap, correlation, clock, now).After(t);
    if t' == t || Attached(t, t', cap) { SameMirror(t, t', key, limit); }
    else { InsertMirrors(t, tenant, cap, correlation, clock, now, key, limit); }
  }

  lemma DispatchMirrors(t: Tables, tenant: Id, cap: Capability, claim: Option<RecoveryClaim>, now: Time, key: EffectKey, limit: nat)
    requires Mirrored(t, key, limit) && forall k :: k in t.effects ==> t.effects[k].effectId == k
    ensures Mirrored(DispatchPrepared(t, tenant, cap, claim, now).After(t), key, limit)
  {
    hide CheckCapability, ClaimHolds;
  }

  lemma SettleMirrors(t: Tables, tenant: Id, x: EffectTxn, key: EffectKey, limit: nat)
    requires x.SettleEffect?
    requires Mirrored(t, key, limit) && forall k :: k in t.effects ==> t.effects[k].effectId == k
    ensures Mirrored(Transition(t, tenant, x.key, x.expected, x.to, x.now, x.receipt, x.failure).After(t), key, limit)
  {
    hide TransitionFault;
  }

  lemma EffectMirrors(t: Tables, tenant: Id, x: EffectTxn, key: EffectKey, limit: nat)
    requires Mirrored(t, key, limit) && forall k :: k in t.effects ==> t.effects[k].effectId == k
    ensures Mirrored(CommitEffect(t, tenant, x), key, limit)
  {
    hide Prepare, DispatchPrepared, Transition, Mirrored;
    match x
    case PrepareEffect(cap, correlation, clock, now) => PrepareMirrors(t, tenant, cap, correlation, clock, now, key, limit);
    case DispatchEffect(cap, claim, now) => DispatchMirrors(t, tenant, cap, claim, now, key, limit);
    case SettleEffect(_, _, _, _, _, _) => SettleMirrors(t, tenant, x, key, limit);
  }

  lemma ClaimMirrors(t: Tables, tenant: Id, k: EffectKey, worker: Id, recoveryId: Id, policy: RecoveryPolicy, now: Time, key: EffectKey)
    requires Mirrored(t, key, policy.maxAttempts)
    ensures Mirrored(ClaimRecovery(t, tenant, k, worker, recoveryId, policy, now).After(t), key, policy.maxAttempts)
  {
    hide Due, Abandon;
  }

  lemma LookupMirrors(t: Tables, tenant: Id, claim: RecoveryClaim, proof: LookupProof, now: Time, key: EffectKey, limit: nat)
    requires Mirrored(t, key, limit)
    ensures Mirrored(PersistLookup(t, tenant, claim, proof, now).After(t), key, limit)
  {
    hide PersistLookup;
  }

  lemma RecoverMirrors(t: Tables, tenant: Id, claim: RecoveryClaim, policy: RecoveryPolicy, now: Time, key: EffectKey)
    requires Mirrored(t, key, policy.maxAttempts) && Mirrored(t, claim.key, policy.maxAttempts)
    ensures Mirrored(RecoverTransition(t, tenant, claim, policy, now).After(t), key, policy.maxAttempts)
  {
    hide Leased, FinishAttempt;
  }

  lemma FailMirrors(t: Tables, tenant: Id, claim: RecoveryClaim, policy: RecoveryPolicy, escalate: bool, now: Time, key: EffectKey)
    requires Mirrored(t, key, policy.maxAttempts) && Mirrored(t, claim.key, policy.maxAttempts)
    ensures Mirrored(FinishError(t, tenant, claim, policy, escalate, now).After(t), key, policy.maxAttempts)
  {
    hide Leased, FinishAttempt;
  }

  lemma ResumeMirrors(t: Tables, tenant: Id, claim: RecoveryClaim, policy: RecoveryPolicy, now: Time, key: EffectKey)
    requires Mirrored(t, key, policy.maxAttempts)
    ensures Mirrored(FinishResume(t, tenant, claim, policy, now).After(t), key, policy.maxAttempts)
  {
    hide Leased, FinishAttempt;
  }

  lemma RecoveryMirrors(env: Env, t: Tables, tenant: Id, x: RecoveryTxn, key: EffectKey)
    requires Mirrored(t, key, env.recovery.maxAttempts)
    requires x.RecoverEffect? || x.FailRecovery? ==> Mirrored(t, x.claim.key, env.recovery.maxAttempts)
    ensures Mirrored(CommitRecovery(env, t, tenant, x), key, env.recovery.maxAttempts)
  {
    hide ClaimRecovery, PersistLookup, RecoverTransition, FinishError, FinishResume, Mirrored;
    match x
    case StartRecovery(k, worker, recoveryId, now) => ClaimMirrors(t, tenant, k, worker, recoveryId, env.recovery, now, key);
    case KeepLookup(claim, proof, now) => LookupMirrors(t, tenant, claim, proof, now, key, env.recovery.maxAttempts);
    case RecoverEffect(claim, now) => RecoverMirrors(t, tenant, claim, env.recovery, now, key);
    case FailRecovery(claim, escalate, now) => FailMirrors(t, tenant, claim, env.recovery, escalate, now, key);
    case EndResume(claim, now) => ResumeMirrors(t, tenant, claim, env.recovery, now, key);
  }

  /** Every transaction that moves a ledger row moves its recovery row with it. */
  lemma CommitMirrors(env: Env, t: Tables, tenant: Id, txn: Txn, key: EffectKey)
    requires (forall k :: Mirrored(t, k, env.recovery.maxAttempts))
    ensures Mirrored(Commit(env, t, tenant, txn), key, env.recovery.maxAttempts)
  {
    hide CommitCase, CommitEvidence, CommitGrant, CommitEffect, CommitRecovery, CommitClosure;
    assert forall k :: k in t.effects ==> t.effects[k].effectId == k by {
      forall k | k in t.effects ensures t.effects[k].effectId == k { assert Mirrored(t, k, env.recovery.maxAttempts); }
    }
    hide Mirrored;
    assert Mirrored(t, key, env.recovery.maxAttempts);
    match txn
    case OnRecovery(x) => RecoveryMirrors(env, t, tenant, x, key);
    case OnEffect(x) => EffectMirrors(t, tenant, x, key, env.recovery.maxAttempts);
    case _ => SameMirror(t, Commit(env, t, tenant, txn), key, env.recovery.maxAttempts);
  }

  /** In every reachable database recovery sees every effect as the ledger has it, and tries it a bounded number of times. */
  lemma {:induction false} AlwaysMirrored(env: Env, ts: seq<Tables>, log: seq<Entry>, j: nat)
    requires IsHistory(env, ts, log) && j < |ts|
    ensures (forall k :: Mirrored(ts[j], k, env.recovery.maxAttempts))
  {
    hide Commit;
    if j > 0 {
      hide Mirrored;
      AlwaysMirrored(env, ts, log, j - 1);
      forall k ensures Mirrored(ts[j], k, env.recovery.maxAttempts) {
        CommitMirrors(env, ts[j - 1], log[j - 1].tenant, log[j - 1].txn, k);
      }
    }
  }

  // ---- claiming ----

  /** The effect is unresolved, recovery may touch it, and it is neither leased nor too fresh, with attempts left. */
  predicate Claimable(t: Tables, tenant: Id, key: EffectKey, policy: RecoveryPolicy, now: Time) {
    && key in t.effects && key in t.recoveries
    && var l, row := t.effects[key], t.recoveries[key];
    && l.caseId in t.cases && t.cases[l.caseId].tenant == tenant && t.cases[l.caseId].status !in {Closed, ClosedVerified}
    && l.status in {Prepared, Dispatched, Accepted, EffectStatus.Unknown}
    && !row.requiresEscalation && row.attemptCount < policy.maxAttempts
    && row.nextEligibleAt <= now && row.ledgerUpdatedAt + policy.grace <= now && (row.leaseUntil.Some? ==> row.leaseUntil.value <= now)
  }

  /** A claim is given exactly for a claimable effect: the worker leases it under a new attempt, and the attempt it
      finds abandoned there is over. */
  lemma ClaimExactly(t: Tables, tenant: Id, key: EffectKey, worker: Id, recoveryId: Id, policy: RecoveryPolicy, now: Time)
    requires recoveryId !in t.attempts
    ensures var tx := ClaimRecovery(t, tenant, key, worker, recoveryId, policy, now);
      && (tx.Committed? && tx.value.Some? <==> Claimable(t, tenant, key, policy, now))
      && (Claimable(t, tenant, key, policy, now) ==>
            && tx.value == Some(RecoveryClaim(recoveryId, key, worker, t.effects[key].status, t.recoveries[key].attemptCount + 1))
            && tx.tables.recoveries == t.recoveries[key := t.recoveries[key].(leaseOwner := Some(worker), leaseToken := Some(recoveryId),
                 leaseUntil := Some(now + policy.lease), attemptCount := t.recoveries[key].attemptCount + 1)]
            && tx.tables.attempts.Keys == t.attempts.Keys + {recoveryId}
            && tx.tables.attempts[recoveryId] == Attempt(key, worker, None, None)
            && (forall a :: a in t.attempts && t.recoveries[key].leaseToken != Some(a) ==> tx.tables.attempts[a] == t.attempts[a])
            && (forall a :: a in t.attempts && t.recoveries[key].leaseToken == Some(a) ==> tx.tables.attempts[a].completedAt.Some?))
  {
  }
}
