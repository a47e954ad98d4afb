/** A recovered effect takes exactly the outcome that its own attempt looked up and persisted. */
module RecoveryProof {
  import opened Domain
  import opened Tables
  import opened AuthorizationTransactions
  import opened Protocol
  import opened History
  import opened DispatchProof

  /** The worker of `claim` still leases its effect, by an open attempt at it. */
  predicate Leases(t: Tables, tenant: Id, claim: RecoveryClaim, now: Time) {
    && claim.key in t.effects && claim.key in t.recoveries
    && var l, row := t.effects[claim.key], t.recoveries[claim.key];
    && l.caseId in t.cases && t.cases[l.caseId].tenant == tenant && (t.cases[l.caseId].status.Terminal() ==> !l.status.Unresolved())
    && row.leaseToken == Some(claim.recoveryId) && row.leaseOwner == Some(claim.worker)
    && row.leaseUntil.Some? && now < row.leaseUntil.value
    && claim.recoveryId in t.attempts
    && t.attempts[claim.recoveryId].effect == claim.key && t.attempts[claim.recoveryId].completedAt.None?
  }

  /** The effect is sent, not settled, and as it was when claimed. */
  predicate Standing(t: Tables, claim: RecoveryClaim)
    requires claim.key in t.effects
  {
    var status := t.effects[claim.key].status;
    status == claim.source && (status.Dispatched? || status.Accepted? || status.Unknown?)
  }

  predicate Owned(t: Tables, tenant: Id, claim: RecoveryClaim, now: Time) { Leases(t, tenant, claim, now) && Standing(t, claim) }

  /** The lookup `proof` tells an outcome that does not name another remote effect than the ledger knows. */
  predicate Conclusive(l: Ledger, proof: LookupProof) {
    && proof.target in {Applied, Accepted, FailedConfirmed, EffectStatus.Unknown}
    && (l.externalRef.None? || proof.externalRef.None? || l.externalRef == proof.externalRef)
  }

  /** The row `l` after the lookup `proof`: its outcome, its reference if it gives one, and nothing else. */
  predicate Took(l: Ledger, l': Ledger, proof: LookupProof, now: Time) {
    && l'.status == proof.target && l'.updatedAt == now
    && (proof.externalRef.Some? ==> l'.externalRef == proof.externalRef)
    && (proof.externalRef.None? ==> l'.externalRef == l.externalRef)
    && (proof.target.Unknown? ==> l'.failure == l.failure) && (!proof.target.Unknown? ==> l'.failure.None?)
    && l' == l.(status := l'.status, updatedAt := l'.updatedAt, externalRef := l'.externalRef, failure := l'.failure)
  }

  /** The attempt of `claim` is over, its lease released until the backoff is past, and an effect left unresolved is up for
      escalation when asked or after the last attempt; only the effect of the claim may have changed. */
  predicate Ends(t: Tables, t': Tables, claim: RecoveryClaim, policy: RecoveryPolicy, escalate: bool, now: Time) {
    && claim.key in t.effects && claim.recoveryId in t.attempts && claim.key in t.recoveries
    && claim.key in t'.effects && claim.key in t'.recoveries
    && t' == t.(effects := t.effects[claim.key := t'.effects[claim.key]], attempts := t'.attempts, recoveries := t'.recoveries)
    && t'.attempts == t.attempts[claim.recoveryId := t.attempts[claim.recoveryId].(completedAt := Some(now))]
    && t'.recoveries.Keys == t.recoveries.Keys && (forall k :: k in t.recoveries && k != claim.key ==> t'.recoveries[k] == t.recoveries[k])
    && var row := t'.recoveries[claim.key];
    && row.leaseToken.None? && row.leaseOwner.None? && row.leaseUntil.None? && row.nextEligibleAt == now + policy.backoff
    && row.attemptCount == t.recoveries[claim.key].attemptCount
    && (row.requiresEscalation <==> t'.effects[claim.key].status.Unresolved() && (escalate || claim.sequence >= policy.maxAttempts))
  }

  /** A recovery takes the persisted lookup on its one effect and ends its attempt, or does nothing. */
  lemma RecoveryTakes(t: Tables, tenant: Id, claim: RecoveryClaim, policy: RecoveryPolicy, now: Time)
    requires claim.key in t.effects ==> t.effects[claim.key].effectId == claim.key
    ensures var t' := RecoverTransition(t, tenant, claim, policy, now).After(t);
      if Owned(t, tenant, claim, now) && t.attempts[claim.recoveryId].lookup.Some?
         && Conclusive(t.effects[claim.key], t.attempts[claim.recoveryId].lookup.value)
      then Ends(t, t', claim, policy, false, now) && Took(t.effects[claim.key], t'.effects[claim.key], t.attempts[claim.recoveryId].lookup.value, now)
      else t' == t
  {
  }

  /** A failed recovery marks a still standing effect UNKNOWN, leaves a settled one alone, and ends its attempt. */
  lemma FailureMarks(t: Tables, tenant: Id, claim: RecoveryClaim, policy: RecoveryPolicy, escalate: bool, now: Time)
    requires claim.key in t.effects ==> t.effects[claim.key].effectId == claim.key
    ensures var t' := FinishError(t, tenant, claim, policy, escalate, now).After(t);
      if Leases(t, tenant, claim, now) then
        && Ends(t, t', claim, policy, escalate, now)
        && t'.effects[claim.key] == (if Standing(t, claim) then t.effects[claim.key].(status := EffectStatus.Unknown, updatedAt := now)
                                     else t.effects[claim.key])
      else t' == t
  {
  }

  /** A resumed dispatch that is over leaves its effect as it is, and ends the attempt. */
  lemma ResumeEnds(t: Tables, tenant: Id, claim: RecoveryClaim, policy: RecoveryPolicy, now: Time)
    ensures var t' := FinishResume(t, tenant, claim, policy, now).After(t);
      if Leases(t, tenant, claim, now) then Ends(t, t', claim, policy, false, now) && t'.effects == t.effects else t' == t
  {
  }

  /** A lookup is persisted iff the attempt still leases a standing effect and has none yet; nothing else changes. */
  lemma PersistsExactly(t: Tables, tenant: Id, claim: RecoveryClaim, proof: LookupProof, now: Time)
    ensures var tx := PersistLookup(t, tenant, claim, proof, now);
      && (tx.Committed? <==> Owned(t, tenant, claim, now) && t.attempts[claim.recoveryId].lookup.None?)
      && (tx.Committed? ==>
            tx.tables == t.(attempts := t.attempts[claim.recoveryId := t.attempts[claim.recoveryId].(lookup := Some(proof))]))
  {
  }

  // ---- where the lookup comes from ----

  /** Attempt `id` keeps its effect and its worker, and a persisted lookup. */
  predicate AttemptStep(t: Tables, t': Tables, id: Id) {
    id in t.attempts ==>
      && id in t'.attempts && t'.attempts[id].effect == t.attempts[id].effect && t'.attempts[id].worker == t.attempts[id].worker
      && (t.attempts[id].lookup.Some? ==> t'.attempts[id].lookup == t.attempts[id].lookup)
  }

  predicate LookedUp(t: Tables, id: Id) { id in t.attempts && t.attempts[id].lookup.Some? }

  /** `txn` persisted the lookup `proof` for attempt `id`, at its own effect, under its live lease. */
  predicate Persists(t: Tables, tenant: Id, txn: Txn, id: Id, effect: EffectKey, proof: LookupProof) {
    && txn.OnRecovery? && txn.ofRecovery.KeepLookup? && txn.ofRecovery.proof == proof
    && txn.ofRecovery.claim.recoveryId == id && txn.ofRecovery.claim.key == effect
    && Owned(t, tenant, txn.ofRecovery.claim, txn.ofRecovery.now) && t.attempts[id].lookup.None?
  }

  predicate LookupStep(t: Tables, t': Tables, tenant: Id, txn: Txn, id: Id) {
    && AttemptStep(t, t', id)
    && (LookedUp(t', id) && !LookedUp(t, id) ==> Persists(t, tenant, txn, id, t'.attempts[id].effect, t'.attempts[id].lookup.value))
  }

  lemma ClaimAttempts(t: Tables, tenant: Id, key: EffectKey, worker: Id, recoveryId: Id, policy: RecoveryPolicy, now: Time, txn: Txn, id: Id)
    ensures LookupStep(t, ClaimRecovery(t, tenant, key, worker, recoveryId, policy, now).After(t), tenant, txn, id)
  {
    hide Locked, Due, Persists;
  }

  lemma PersistAttempts(t: Tables, tenant: Id, claim: RecoveryClaim, proof: LookupProof, now: Time, id: Id)
    ensures LookupStep(t, PersistLookup(t, tenant, claim, proof, now).After(t), tenant, OnRecovery(KeepLookup(claim, proof, now)), id)
  {
  }

  lemma RecoverAttempts(t: Tables, tenant: Id, claim: RecoveryClaim, policy: RecoveryPolicy, now: Time, txn: Txn, id: Id)
    ensures LookupStep(t, RecoverTransition(t, tenant, claim, policy, now).After(t), tenant, txn, id)
  {
    hide Locked, Leased, Persists, Release, Synchronize;
  }

  lemma ErrorAttempts(t: Tables, tenant: Id, claim: RecoveryClaim, policy: RecoveryPolicy, escalate: bool, now: Time, txn: Txn, id: Id)
    ensures LookupStep(t, FinishError(t, tenant, claim, policy, escalate, now).After(t), tenant, txn, id)
  {
    hide Locked, Leased, Persists, Release, Synchronize;
  }

  lemma ResumeAttempts(t: Tables, tenant: Id, claim: RecoveryClaim, policy: RecoveryPolicy, now: Time, txn: Txn, id: Id)
    ensures LookupStep(t, FinishResume(t, tenant, claim, policy, now).After(t), tenant, txn, id)
  {
    hide Locked, Leased, Persists, Release;
  }

  lemma RecoveryAttempts(env: Env, t: Tables, tenant: Id, txn: RecoveryTxn, id: Id)
    ensures LookupStep(t, CommitRecovery(env, t, tenant, txn), tenant, OnRecovery(txn), id)
  {
    hide ClaimRecovery, PersistLookup, RecoverTransition, FinishError, FinishResume, LookupStep;
    match txn
    case StartRecovery(key, worker, recoveryId, now) =>
      ClaimAttempts(t, tenant, key, worker, recoveryId, env.recovery, now, OnRecovery(txn), id);
    case KeepLookup(claim, proof, now) => PersistAttempts(t, tenant, claim, proof, now, id);
    case RecoverEffect(claim, now) => RecoverAttempts(t, tenant, claim, env.recovery, now, OnRecovery(txn), id);
    case FailRecovery(claim, escalate, now) => ErrorAttempts(t, tenant, claim, env.recovery, escalate, now, OnRecovery(txn), id);
    case EndResume(claim, now) => ResumeAttempts(t, tenant, claim, env.recovery, now, OnRecovery(txn), id);
  }

  lemma SameAttempts(t: Tables, t': Tables, tenant: Id, txn: Txn, id: Id)
    requires t'.attempts == t.attempts
    ensures LookupStep(t, t', tenant, txn, id)
  {
  }

  lemma CommitAttempts(env: Env, t: Tables, tenant: Id, txn: Txn, id: Id)
    ensures LookupStep(t, Commit(env, t, tenant, txn), tenant, txn, id)
  {
    hide CommitCase, CommitEvidence, CommitGrant, CommitEffect, CommitRecovery, CommitClosure, LookupStep;
    match txn
    case OnRecovery(x) => RecoveryAttempts(env, t, tenant, x, id);
    case _ => SameAttempts(t, Commit(env, t, tenant, txn), tenant, txn, id);
  }

  /** The commit that persisted the lookup an attempt shows at `j`. */
  lemma {:induction false} LookupOf(env: Env, ts: seq<Tables>, log: seq<Entry>, j: nat, id: Id) returns (k: nat)
    requires IsHistory(env, ts, log) && j < |ts| && LookedUp(ts[j], id)
    ensures k < j && Persists(ts[k], log[k].tenant, log[k].txn, id, ts[j].attempts[id].effect, ts[j].attempts[id].lookup.value)
  {
    hide Commit, Persists;
    CommitAttempts(env, ts[j - 1], log[j - 1].tenant, log[j - 1].txn, id);
    if LookedUp(ts[j - 1], id) {
      k := LookupOf(env, ts, log, j - 1, id);
    } else {
      k := j - 1;
    }
  }

  /** A committed recovery settles its effect as an earlier commit of its own attempt looked it up, under that attempt's lease. */
  lemma RecoveredAsLookedUp(env: Env, ts: seq<Tables>, log: seq<Entry>, j: nat, claim: RecoveryClaim, now: Time) returns (k: nat)
    requires IsHistory(env, ts, log) && j < |log| && log[j].txn == OnRecovery(RecoverEffect(claim, now)) && ts[j + 1] != ts[j]
    ensures Ends(ts[j], ts[j + 1], claim, env.recovery, false, now) && LookedUp(ts[j], claim.recoveryId)
    ensures var proof := ts[j].attempts[claim.recoveryId].lookup.value;
      && Took(ts[j].effects[claim.key], ts[j + 1].effects[claim.key], proof, now)
      && k < j && Persists(ts[k], log[k].tenant, log[k].txn, claim.recoveryId, claim.key, proof)
  {
    hide Commit, Persists, RecoverTransition, Ends, Took, Conclusive, LedgerOk;
    RecoverCommits(env, ts[j], log[j].tenant, claim, now);
    if claim.key in ts[j].effects { KeyedBy(env, ts, log, j, claim.key); }
    RecoveryTakes(ts[j], log[j].tenant, claim, env.recovery, now);
    k := LookupOf(env, ts, log, j, claim.recoveryId);
  }

  lemma KeyedBy(env: Env, ts: seq<Tables>, log: seq<Entry>, j: nat, key: EffectKey)
    requires IsHistory(env, ts, log) && j < |ts| && key in ts[j].effects
    ensures ts[j].effects[key].effectId == key
  {
    hide Commit, IsHistory;
    LedgerAlwaysOk(env, ts, log, j, key);
  }

  lemma RecoverCommits(env: Env, t: Tables, tenant: Id, claim: RecoveryClaim, now: Time)
    ensures Commit(env, t, tenant, OnRecovery(RecoverEffect(claim, now))) == RecoverTransition(t, tenant, claim, env.recovery, now).After(t)
  {
    hide RecoverTransition;
  }
}
