/** In every reachable database a ledger row is bound to its intent, capability and approval, unless the intent itself is
    forged: what the verification snapshot calls an invalid policy never arises inside the repositories. */
module BindingProof {
  import opened Domain
  import opened Tables
  import opened CaseTransactions
  import opened AuthorizationTransactions
  import opened ClosureTransactions
  import opened Protocol
  import opened History
  import opened EffectSteps
  import opened DispatchProof
  import RevisionProof
  import FenceProof
  import AuthorizationLaws

  /** The stored intent is the one the capability was minted for, and the approval it names is stored. */
  predicate CapabilityOk(t: Tables, id: Id) {
    id in t.capabilities ==>
      var cap := t.capabilities[id].payload;
      && cap.intentId in t.intents && Build(t.intents[cap.intentId], cap).Some?
      && (cap.approvalId.Some? ==> cap.approvalId.value in t.approvals)
  }

  lemma IssuedOk(t: Tables, t': Tables, tenant: Id, txn: Txn, id: Id)
    requires AuthorizationLaws.Issues(t, t', tenant, txn, id) && t.approvals.Keys <= t'.approvals.Keys
    ensures CapabilityOk(t', id)
  {
    hide Build, AuthorizationLaws.MintedFor;
  }

  lemma ApprovalsKept(env: Env, t: Tables, tenant: Id, txn: Txn, intent: IntentId)
    ensures var t' := Commit(env, t, tenant, txn); t.approvals.Keys <= t'.approvals.Keys && FenceProof.IntentStep(t, t', intent)
  {
    hide Commit;
    var t' := Commit(env, t, tenant, txn);
    forall id | id in t.approvals ensures id in t'.approvals { FenceProof.CommitApproval(env, t, tenant, txn, id, intent); }
    FenceProof.CommitApproval(env, t, tenant, txn, 0, intent);
  }

  lemma CapabilityStaysOk(env: Env, t: Tables, tenant: Id, txn: Txn, id: Id)
    requires CapabilityOk(t, id)
    ensures CapabilityOk(Commit(env, t, tenant, txn), id)
  {
    hide Commit, Build, AuthorizationLaws.Issues, IssuedOn;
    var t' := Commit(env, t, tenant, txn);
    if id in t.capabilities {
      ApprovalsKept(env, t, tenant, txn, t.capabilities[id].payload.intentId);
      CommitCapability(env, t, tenant, txn, id);
    } else if id in t'.capabilities {
      AuthorizationLaws.CommitIssues(env, t, tenant, txn, id);
      ApprovalsKept(env, t, tenant, txn, t'.capabilities[id].payload.intentId);
      IssuedOk(t, t', tenant, txn, id);
    }
  }

  lemma {:induction false} CapabilitiesAlwaysOk(env: Env, ts: seq<Tables>, log: seq<Entry>, j: nat, id: Id)
    requires IsHistory(env, ts, log) && j < |ts|
    ensures CapabilityOk(ts[j], id)
  {
    hide Commit;
    if j > 0 {
      hide CapabilityOk;
      CapabilitiesAlwaysOk(env, ts, log, j - 1, id);
      CapabilityStaysOk(env, ts[j - 1], log[j - 1].tenant, log[j - 1].txn, id);
    }
  }

  /** The ledger row is its case's tenant's. */
  predicate Housed(t: Tables, key: EffectKey) {
    key in t.effects ==> Owns(t, t.effects[key].tenant, t.effects[key].caseId)
  }

  lemma BornHoused(t: Tables, t': Tables, tenant: Id, txn: Txn, key: EffectKey)
    requires Born(t, t', tenant, txn, key)
    ensures Housed(t', key)
  {
    hide CheckApproval, Synchronize;
  }

  lemma StaysHoused(env: Env, t: Tables, tenant: Id, txn: Txn, key: EffectKey)
    requires Housed(t, key)
    ensures Housed(Commit(env, t, tenant, txn), key)
  {
    hide Commit, Born, Fires;
    var t' := Commit(env, t, tenant, txn);
    CommitEffectStep(env, t, tenant, txn, key);
    if key in t.effects {
      RevisionProof.CommitPinned(env, t, tenant, txn, t.effects[key].caseId);
    } else if key in t'.effects {
      BornHoused(t, t', tenant, txn, key);
    }
  }

  lemma {:induction false} AlwaysHoused(env: Env, ts: seq<Tables>, log: seq<Entry>, j: nat, key: EffectKey)
    requires IsHistory(env, ts, log) && j < |ts|
    ensures Housed(ts[j], key)
  {
    hide Commit;
    if j > 0 {
      hide Housed;
      AlwaysHoused(env, ts, log, j - 1, key);
      StaysHoused(env, ts[j - 1], log[j - 1].tenant, log[j - 1].txn, key);
    }
  }

  /** The intent is stored under its own digest and is about the order of the case. */
  predicate Genuine(t: Tables, key: EffectKey) {
    && key in t.effects && t.effects[key].intentId in t.intents && t.effects[key].caseId in t.cases
    && var intent := t.intents[t.effects[key].intentId];
    intent.intentId == IntentDigest(intent.body) && intent.body.order == t.cases[t.effects[key].caseId].order
  }

  lemma BoundWhen(t: Tables, key: EffectKey)
    requires key in t.effects && LedgerOk(t, key) && CapabilityOk(t, t.effects[key].capabilityId) && Housed(t, key)
    ensures Bound(t, t.effects[key].caseId, key) <==> Genuine(t, key)
  {
    hide PayloadOf, ForIntent;
  }

  /** A reachable ledger row is bound exactly when its stored intent is genuine: no transaction of the repositories unbinds it. */
  lemma BoundExactly(env: Env, ts: seq<Tables>, log: seq<Entry>, j: nat, key: EffectKey)
    requires IsHistory(env, ts, log) && j < |ts| && key in ts[j].effects
    ensures ts[j].effects[key].caseId in ts[j].cases && ts[j].effects[key].intentId in ts[j].intents
    ensures Bound(ts[j], ts[j].effects[key].caseId, key) <==> Genuine(ts[j], key)
  {
    hide Commit, LedgerOk, CapabilityOk, Bound, Genuine, IsHistory;
    LedgerAlwaysOk(env, ts, log, j, key);
    CapabilitiesAlwaysOk(env, ts, log, j, ts[j].effects[key].capabilityId);
    AlwaysHoused(env, ts, log, j, key);
    BoundWhen(ts[j], key);
    Stored(ts[j], key);
  }

  lemma Stored(t: Tables, key: EffectKey)
    requires key in t.effects && LedgerOk(t, key) && CapabilityOk(t, t.effects[key].capabilityId)
    ensures t.effects[key].intentId in t.intents
  {
    hide Build, KeyOf;
  }

  /** Each action has one risk: reading, administration, or a single order. */
  predicate RightRisk(risk: Risk, action: Action) {
    match risk
    case ReadOnlyRisk => action.NoRemediation?
    case AdministrativeRisk => action.CreateReconciliation? || action.RequestReview?
    case SingleOrderRisk => action.ReplayCallback? || action.RedeliverAsset?
    case _ => false
  }

  /** In every reachable database the policy of a case is invalid exactly when some effect of it rests on an intent that is
      forged, about another order, or classed under the wrong risk. */
  lemma PolicyInvalidExactly(env: Env, ts: seq<Tables>, log: seq<Entry>, j: nat, c: Id)
    requires IsHistory(env, ts, log) && j < |ts| && c in ts[j].cases
    ensures PolicyInvalid(ts[j], c) <==>
      exists key :: key in ts[j].effects && ts[j].effects[key].caseId == c
        && !(Genuine(ts[j], key) && RightRisk(ts[j].intents[ts[j].effects[key].intentId].body.risk, ts[j].effects[key].action))
  {
    hide Commit, Bound, Genuine, IsHistory;
    forall key | key in ts[j].effects
      ensures ts[j].effects[key].intentId in ts[j].intents && ts[j].effects[key].caseId in ts[j].cases
      ensures Bound(ts[j], ts[j].effects[key].caseId, key) <==> Genuine(ts[j], key)
    {
      BoundExactly(env, ts, log, j, key);
    }
  }
}
