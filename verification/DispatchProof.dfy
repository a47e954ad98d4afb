/** What the ledger records, and that a dispatched effect still acts on the case it was authorized for. */
module DispatchProof {
  import opened Domain
  import opened Tables
  import opened AuthorizationTransactions
  import opened Protocol
  import opened History
  import opened EffectSteps
  import opened RevisionProof

  /** A ledger row is stored under its own key, belongs to the capability that inserted it,
      and has been attempted exactly when it has left PREPARED (or was never to be sent). */
  predicate LedgerOk(t: Tables, key: EffectKey)
    requires key in t.effects
  {
    var l := t.effects[key];
    && l.effectId == key
    && l.attemptCount == (if l.status.Prepared? || l.status.Noop? then 0 else 1)
    && (l.status.Noop? <==> l.action.NoRemediation?)
    && l.capabilityId in t.capabilities && t.capabilities[l.capabilityId].usedEffect == Some(key)
    && Backs(t.capabilities[l.capabilityId].payload, l)
  }

  /** The fields a ledger row copies from its capability. */
  predicate Backs(cap: Capability, l: Ledger) {
    && cap.capabilityId == l.capabilityId && KeyOf(cap) == l.effectId && cap.caseId == l.caseId
    && cap.tenant == l.tenant && cap.order == l.order && cap.action == l.action && cap.payloadHash == l.payloadHash
    && cap.intentId == l.intentId && cap.approvalId == l.approvalId && cap.targetHash == l.targetHash
  }

  lemma BornOk(t: Tables, t': Tables, tenant: Id, txn: Txn, key: EffectKey)
    requires Born(t, t', tenant, txn, key)
    ensures key in t'.effects && LedgerOk(t', key) && t'.effects[key].capabilityId in t.capabilities
    ensures t'.effects[key].caseId in t.cases && t'.effects[key].caseId in t'.cases
    ensures var l := t'.effects[key];
      && t.cases[l.caseId].revision == t.capabilities[l.capabilityId].payload.expectedRevision
      && t'.capabilities[l.capabilityId].payload == t.capabilities[l.capabilityId].payload
      && t'.cases[l.caseId] == t.cases[l.caseId].(revision := l.preparedRevision)
      && t'.calls == t.calls && t'.evidence == t.evidence
  {
    hide CheckApproval, CheckCapability, Synchronize;
  }

  /** The ledger invariant is kept by every transaction. */
  lemma LedgerOkKept(env: Env, t: Tables, tenant: Id, txn: Txn, key: EffectKey)
    requires key in t.effects ==> LedgerOk(t, key)
    ensures var t' := Commit(env, t, tenant, txn); key in t'.effects ==> LedgerOk(t', key)
  {
    hide Commit, KeyOf, Born, Fires, IssuedOn;
    var t' := Commit(env, t, tenant, txn);
    CommitEffectStep(env, t, tenant, txn, key);
    if key in t.effects {
      CommitCapability(env, t, tenant, txn, t.effects[key].capabilityId);
    } else if key in t'.effects {
      BornOk(t, t', tenant, txn, key);
    }
  }

  /** In every reachable database every ledger row is well bound. */
  lemma {:induction false} LedgerAlwaysOk(env: Env, ts: seq<Tables>, log: seq<Entry>, j: nat, key: EffectKey)
    requires IsHistory(env, ts, log) && j < |ts| && key in ts[j].effects
    ensures LedgerOk(ts[j], key)
  {
    hide Commit, LedgerOk;
    if j > 0 {
      if key in ts[j - 1].effects { LedgerAlwaysOk(env, ts, log, j - 1, key); }
      LedgerOkKept(env, ts[j - 1], log[j - 1].tenant, log[j - 1].txn, key);
    }
  }

  // ---- the case an effect was authorized for ----

  /** The commit that inserted effect `key`. */
  lemma {:induction false} BirthOf(env: Env, ts: seq<Tables>, log: seq<Entry>, j: nat, key: EffectKey) returns (m: nat)
    requires IsHistory(env, ts, log) && j < |ts| && key in ts[j].effects
    ensures m < j && Born(ts[m], ts[m + 1], log[m].tenant, log[m].txn, key)
    ensures key in ts[m + 1].effects && SameEffect(ts[m + 1].effects[key], ts[j].effects[key])
  {
    hide Commit, Born, Fires;
    CommitEffectStep(env, ts[j - 1], log[j - 1].tenant, log[j - 1].txn, key);
    if key in ts[j - 1].effects {
      m := BirthOf(env, ts, log, j - 1, key);
    } else {
      m := j - 1;
    }
  }

  /** The commit that issued capability `id`. */
  lemma {:induction false} IssueOf(env: Env, ts: seq<Tables>, log: seq<Entry>, j: nat, id: Id) returns (i: nat)
    requires IsHistory(env, ts, log) && j < |ts| && id in ts[j].capabilities
    ensures i < j && id !in ts[i].capabilities && id in ts[i + 1].capabilities && IssuedOn(ts[i], ts[i + 1], id)
    ensures ts[i + 1].capabilities[id].payload == ts[j].capabilities[id].payload
  {
    hide Commit, IssuedOn;
    CommitCapability(env, ts[j - 1], log[j - 1].tenant, log[j - 1].txn, id);
    if id in ts[j - 1].capabilities {
      i := IssueOf(env, ts, log, j - 1, id);
    } else {
      i := j - 1;
    }
  }

  /** Two databases show the same case to an authorization: everything but the revision number. */
  predicate SameCase(t: Tables, t': Tables, c: Id) {
    && c in t.cases && c in t'.cases && t'.cases[c] == t.cases[c].(revision := t'.cases[c].revision)
    && EvidenceOf(t'.evidence, c) == EvidenceOf(t.evidence, c) && CallIds(t'.calls, c) == CallIds(t.calls, c)
  }

  /** Commit `i` issued capability `id` for case `c`. */
  predicate IssuedAt(ts: seq<Tables>, i: nat, id: Id, c: Id) {
    && i + 1 < |ts| && id !in ts[i].capabilities && id in ts[i + 1].capabilities
    && ts[i + 1].capabilities[id].payload.caseId == c
  }

  lemma BirthSeesIssuedCase(env: Env, ts: seq<Tables>, log: seq<Entry>, j: nat, m: nat, key: EffectKey) returns (i: nat)
    requires IsHistory(env, ts, log) && PausesInOrder(ts, log) && m < j < |ts| && key in ts[j].effects
    requires Born(ts[m], ts[m + 1], log[m].tenant, log[m].txn, key)
    requires key in ts[m + 1].effects && SameEffect(ts[m + 1].effects[key], ts[j].effects[key])
    ensures i < m && IssuedAt(ts, i, ts[j].effects[key].capabilityId, ts[j].effects[key].caseId)
    ensures SameCase(ts[i], ts[m], ts[j].effects[key].caseId)
  {
    hide Commit, PausesInOrder, Born, KeyOf;
    BornOk(ts[m], ts[m + 1], log[m].tenant, log[m].txn, key);
    i := IssueOf(env, ts, log, m, ts[j].effects[key].capabilityId);
    RevisionNeverReturns(env, ts, log, i, m, ts[j].effects[key].caseId);
  }

  /** Whenever an effect is dispatched, its case holds the evidence, the calls, the status and the
      budget it held when the capability of that effect was issued. */
  lemma DispatchSeesIssuedCase(env: Env, ts: seq<Tables>, log: seq<Entry>, j: nat, key: EffectKey) returns (i: nat)
    requires IsHistory(env, ts, log) && PausesInOrder(ts, log) && j + 1 < |ts|
    requires key in ts[j].effects && ts[j].effects[key].status.Prepared?
    requires key in ts[j + 1].effects && ts[j + 1].effects[key].status.Dispatched?
    ensures i < j && IssuedAt(ts, i, ts[j].effects[key].capabilityId, ts[j].effects[key].caseId)
    ensures SameCase(ts[i], ts[j], ts[j].effects[key].caseId)
  {
    hide Commit, PausesInOrder, Born, KeyOf, CheckCapability, SameIdentity;
    var c := ts[j].effects[key].caseId;
    var m := BirthOf(env, ts, log, j, key);
    i := BirthSeesIssuedCase(env, ts, log, j, m, key);
    BornOk(ts[m], ts[m + 1], log[m].tenant, log[m].txn, key);
    LedgerAlwaysOk(env, ts, log, j, key);
    Successor(env, ts, log, j);
    CommitEffectStep(env, ts[j], log[j].tenant, log[j].txn, key);
    RevisionNeverReturns(env, ts, log, m + 1, j, c);
  }
}
