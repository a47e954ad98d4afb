/** Revocation and expiry fence every dispatch of an effect that needs approval. */
module FenceProof {
  import opened Domain
  import opened Tables
  import opened AuthorizationTransactions
  import opened Protocol
  import opened History
  import opened EffectSteps
  import opened DispatchProof

  predicate Final(s: ApprovalStatus) { s.Rejected? || s.Revoked? }

  /** An approval keeps its intent and deadline; a refusal or revocation is never undone, and a
      granted approval can only be revoked. */
  predicate ApprovalStep(t: Tables, t': Tables, id: Id) {
    id in t.approvals ==>
      && id in t'.approvals
      && t'.approvals[id].intent == t.approvals[id].intent && t'.approvals[id].expiresAt == t.approvals[id].expiresAt
      && (Final(t.approvals[id].status) ==> t'.approvals[id] == t.approvals[id])
      && (t.approvals[id].status.Approved? ==> t'.approvals[id].status.Approved? || t'.approvals[id].status.Revoked?)
  }

  /** A stored intent is never replaced. */
  predicate IntentStep(t: Tables, t': Tables, id: IntentId) {
    id in t.intents ==> id in t'.intents && t'.intents[id] == t.intents[id]
  }

  predicate GrantsKept(t: Tables, t': Tables, id: Id, intent: IntentId) {
    ApprovalStep(t, t', id) && IntentStep(t, t', intent)
  }

  lemma RequestStep(t: Tables, tenant: Id, approvalId: Id, request: Approval, revision: Time, id: Id, intent: IntentId)
    ensures var t' := RequestApproval(t, tenant, approvalId, request, revision).After(t);
      GrantsKept(t, t', id, intent)
  {
  }

  lemma DecideStep(t: Tables, tenant: Id, approvalId: Id, decision: ApprovalStatus, actor: Id, now: Time, id: Id, intent: IntentId)
    ensures var t' := DecideApproval(t, tenant, approvalId, decision, actor, now).After(t);
      GrantsKept(t, t', id, intent)
  {
  }

  // ---- decisions ----

  /** Deciding an approval stores that very decision, or, when the operator may not decide it, changes nothing. */
  lemma DecisionStored(env: Env, t: Tables, tenant: Id, id: Id, decision: ApprovalStatus, actor: Id, now: Time)
    ensures Stores(t, Commit(env, t, tenant, OnGrant(Decide(id, decision, actor, now))), tenant, id, decision, actor, now)
  {
    hide DecideApproval, Stores;
    DecideStores(t, tenant, id, decision, actor, now);
  }

  /** Transaction `txn` is an operator's approval of the pending, unexpired approval `id`, which grants `intent`. */
  predicate Approves(t: Tables, t': Tables, tenant: Id, txn: Txn, id: Id, intent: Intent) {
    && txn.OnGrant? && txn.ofGrant.Decide? && txn.ofGrant.approvalId == id && txn.ofGrant.decision.Approved?
    && MayDecide(t, tenant, id, Approved, txn.ofGrant.now) && t.approvals[id].status.Pending?
    && t.approvals[id].intent == intent
    && id in t'.approvals && DecidedAs(t.approvals[id], t'.approvals[id], Approved, txn.ofGrant.actor, txn.ofGrant.now)
  }

  predicate StandsApproved(t: Tables, id: Id) { id in t.approvals && t.approvals[id].status.Approved? }

  /** An approval is granted by an operator's decision and by nothing else. */
  lemma OnlyApprovesGrants(env: Env, t: Tables, tenant: Id, txn: Txn, id: Id)
    ensures var t' := Commit(env, t, tenant, txn);
      StandsApproved(t', id) && !StandsApproved(t, id) ==> Approves(t, t', tenant, txn, id, t'.approvals[id].intent)
  {
    hide CommitCase, CommitEvidence, CommitGrant, CommitEffect, CommitRecovery, CommitClosure;
    if txn.OnGrant? { GrantApproves(env, t, tenant, txn, id); }
  }

  lemma GrantApproves(env: Env, t: Tables, tenant: Id, txn: Txn, id: Id)
    requires txn.OnGrant?
    ensures var t' := Commit(env, t, tenant, txn);
      StandsApproved(t', id) && !StandsApproved(t, id) ==> Approves(t, t', tenant, txn, id, t'.approvals[id].intent)
  {
    hide DecideApproval, IssueCapability, ExistingEffect;
    if txn.ofGrant.Decide? {
      DecisionStored(env, t, tenant, txn.ofGrant.approvalId, txn.ofGrant.decision, txn.ofGrant.actor, txn.ofGrant.now);
    }
  }

  /** The commit that granted an approval standing at `j`: it was pending and unexpired then, and asked for the same intent. */
  lemma {:induction false} ApprovalOf(env: Env, ts: seq<Tables>, log: seq<Entry>, j: nat, id: Id) returns (k: nat)
    requires IsHistory(env, ts, log) && j < |ts| && StandsApproved(ts[j], id)
    ensures k < j && Approves(ts[k], ts[k + 1], log[k].tenant, log[k].txn, id, ts[j].approvals[id].intent)
  {
    hide Commit, Approves;
    var before := ts[j - 1];
    if StandsApproved(before, id) {
      k := ApprovalOf(env, ts, log, j - 1, id);
      CommitApproval(env, before, log[j - 1].tenant, log[j - 1].txn, id, before.approvals[id].intent.intentId);
    } else {
      k := j - 1;
      OnlyApprovesGrants(env, before, log[j - 1].tenant, log[j - 1].txn, id);
    }
  }

  lemma IssueKeepsIntent(t: Tables, tenant: Id, granted: Intent, capabilityId: Id, approval: Option<Id>, seen: Time,
                         mintedAt: Time, ttl: Time, now: Time, id: Id, intent: IntentId)
    ensures var t' := IssueCapability(t, tenant, granted, capabilityId, approval, seen, mintedAt, ttl, now).After(t);
      GrantsKept(t, t', id, intent)
  {
    hide PayloadOf, CheckApproval, Fenced, KeyOf;
  }

  lemma Untouched(t: Tables, t': Tables, id: Id, intent: IntentId)
    requires t'.approvals == t.approvals && t'.intents == t.intents
    ensures GrantsKept(t, t', id, intent)
  {
  }

  lemma FindStep(t: Tables, tenant: Id, cap: Capability, now: Time, id: Id, intent: IntentId)
    ensures var t' := ExistingEffect(t, tenant, cap, now).After(t); GrantsKept(t, t', id, intent)
  {
    hide ExistingEffect;
  }

  lemma GrantTxnStep(t: Tables, tenant: Id, txn: GrantTxn, id: Id, intent: IntentId)
    ensures var t' := CommitGrant(t, tenant, txn); GrantsKept(t, t', id, intent)
  {
    hide RequestApproval, DecideApproval, IssueCapability, ExistingEffect, GrantsKept;
    match txn
    case AskApproval(approvalId, request, revision) => RequestStep(t, tenant, approvalId, request, revision, id, intent);
    case Decide(approvalId, decision, actor, now) => DecideStep(t, tenant, approvalId, decision, actor, now, id, intent);
    case IssueCap(granted, capabilityId, approval, seen, mintedAt, ttl, now) =>
      IssueKeepsIntent(t, tenant, granted, capabilityId, approval, seen, mintedAt, ttl, now, id, intent);
    case FindEffect(cap, now) => FindStep(t, tenant, cap, now, id, intent);
  }

  lemma CommitApproval(env: Env, t: Tables, tenant: Id, txn: Txn, id: Id, intent: IntentId)
    ensures var t' := Commit(env, t, tenant, txn); GrantsKept(t, t', id, intent)
  {
    hide CommitCase, CommitEvidence, CommitGrant, CommitEffect, CommitRecovery, CommitClosure, GrantsKept;
    match txn
    case OnGrant(x) => GrantTxnStep(t, tenant, x, id, intent);
    case _ => Untouched(t, Commit(env, t, tenant, txn), id, intent);
  }

  /** A refusal or revocation committed at `i` stands in every later database. */
  lemma {:induction false} RevokedForever(env: Env, ts: seq<Tables>, log: seq<Entry>, i: nat, j: nat, id: Id)
    requires IsHistory(env, ts, log) && i <= j < |ts|
    requires id in ts[i].approvals && Final(ts[i].approvals[id].status)
    ensures id in ts[j].approvals && ts[j].approvals[id] == ts[i].approvals[id]
  {
    hide Commit;
    if i < j {
      RevokedForever(env, ts, log, i, j - 1, id);
      CommitApproval(env, ts[j - 1], log[j - 1].tenant, log[j - 1].txn, id, ts[j - 1].approvals[id].intent.intentId);
    }
  }

  /** Commit `j` moves effect `key` from PREPARED to DISPATCHED. */
  predicate DispatchedAt(ts: seq<Tables>, j: nat, key: EffectKey) {
    && j + 1 < |ts| && key in ts[j].effects && ts[j].effects[key].status.Prepared?
    && key in ts[j + 1].effects && ts[j + 1].effects[key].status.Dispatched?
  }

  /** The approval `l.approvalId` grants exactly `intent`, and has not expired at `now`. */
  predicate Granted(t: Tables, l: Ledger, intent: Intent, now: Time) {
    && l.approvalId.Some? && l.approvalId.value in t.approvals
    && var a := t.approvals[l.approvalId.value];
    a.intent == intent && a.status.Approved? && now < a.expiresAt
  }

  /** Every dispatch happens within the validity window of its capability and, if its intent needs an
      approval or its capability names one, while that very intent is approved and the approval unexpired;
      an earlier commit of the history is the operator's approval of it. */
  lemma DispatchIsAuthorized(env: Env, ts: seq<Tables>, log: seq<Entry>, j: nat, key: EffectKey)
    requires IsHistory(env, ts, log) && DispatchedAt(ts, j, key)
    ensures j < |log| && log[j].txn.OnEffect? && log[j].txn.ofEffect.DispatchEffect?
    ensures var cap, now, l := log[j].txn.ofEffect.cap, log[j].txn.ofEffect.now, ts[j].effects[key];
      && Backs(cap, l) && cap.issuedAt <= now < cap.expiresAt
      && l.intentId in ts[j].intents
      && (ts[j].intents[l.intentId].body.requiresApproval || l.approvalId.Some? ==>
            && Granted(ts[j], l, ts[j].intents[l.intentId], now)
            && exists k :: 0 <= k < j
                 && Approves(ts[k], ts[k + 1], log[k].tenant, log[k].txn, l.approvalId.value, ts[j].intents[l.intentId]))
  {
    hide Commit, Born, KeyOf, Approves;
    Successor(env, ts, log, j);
    CommitEffectStep(env, ts[j], log[j].tenant, log[j].txn, key);
    LedgerAlwaysOk(env, ts, log, j, key);
    var l := ts[j].effects[key];
    if ts[j].intents[l.intentId].body.requiresApproval || l.approvalId.Some? {
      var k := ApprovalOf(env, ts, log, j, l.approvalId.value);
    }
  }

  /** No effect is dispatched once the approval it names was refused or revoked. */
  lemma NoDispatchAfterRevocation(env: Env, ts: seq<Tables>, log: seq<Entry>, i: nat, j: nat, key: EffectKey, id: Id)
    requires IsHistory(env, ts, log) && i <= j && DispatchedAt(ts, j, key)
    requires id in ts[i].approvals && Final(ts[i].approvals[id].status)
    ensures ts[j].effects[key].approvalId != Some(id)
  {
    hide Commit, Backs;
    RevokedForever(env, ts, log, i, j, id);
    DispatchIsAuthorized(env, ts, log, j, key);
  }
}
