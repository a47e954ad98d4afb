/** A case is only ever about its own order: grants are for one order, and no transaction widens a scope. */
module ScopeProof {
  import opened Domain
  import opened Tables
  import opened CaseTransactions
  import opened Protocol
  import opened Publication
  import opened History
  import opened RevisionProof
  import opened BudgetProof

  predicate OneOrder(t: Tables, c: Id) {
    c in t.cases ==> t.cases[c].allowedOrders == {t.cases[c].order}
  }

  lemma CreateOneOrder(t: Tables, tenant: Id, k: Id, row: CaseRow, grant: Option<Grant>, clock: Option<Time>, c: Id)
    requires c !in t.cases
    ensures OneOrder(Create(t, tenant, k, row, grant, clock).After(t), c)
  {
    OneOrderPerGrant(t, tenant, k, row, grant, clock);
  }

  lemma CaseTxnOpens(t: Tables, tenant: Id, txn: CaseTxn, c: Id)
    requires c !in t.cases
    ensures OneOrder(CommitCase(t, tenant, txn), c)
  {
    hide InScope, Holds, Create;
    if txn.OpenCase? { CreateOneOrder(t, tenant, txn.c, txn.row, txn.grant, txn.clock, c); }
  }

  lemma EvidenceTxnOpensNoCase(env: Env, t: Tables, tenant: Id, txn: EvidenceTxn, c: Id)
    requires c !in t.cases
    ensures c !in CommitEvidence(env, t, tenant, txn).cases
  {
    hide RecordCall, RecoverRead, EnvelopeOk, DispatchMatches, CorrelationMatches, Assigned, DistinctIds, OriginsFor, NewRows, FactsOf;
    match txn
    case Observe(_, _) =>
    case Publication(k, callId, observed, now) => RecordStep(t, env.extract, tenant, k, callId, observed, false, now);
    case ReadRecovery(k, callId, oid, now) => RecoverStep(t, env.extract, tenant, k, callId, oid, now);
  }

  /** A known case keeps its scope, and a new one gets the single order of its grant. */
  lemma CommitOneOrder(env: Env, t: Tables, tenant: Id, txn: Txn, c: Id)
    requires OneOrder(t, c)
    ensures OneOrder(Commit(env, t, tenant, txn), c)
  {
    if c in t.cases { CommitPinned(env, t, tenant, txn, c); }
    hide CommitCase, CommitEvidence, CommitGrant, CommitEffect, CommitRecovery, CommitClosure;
    if c !in t.cases {
      match txn
      case OnCase(x) => CaseTxnOpens(t, tenant, x, c);
      case OnEvidence(x) => EvidenceTxnOpensNoCase(env, t, tenant, x, c);
      case OnEffect(x) => PrepareOpensNoCase(t, tenant, x, c);
      case OnClosure(x) => ClosureOpensNoCase(env, t, tenant, x, c);
      case _ =>
    }
  }

  /** In every reachable database the scope of a case is exactly its own order. */
  lemma {:induction false} OneOrderAlways(env: Env, ts: seq<Tables>, log: seq<Entry>, j: nat, c: Id)
    requires IsHistory(env, ts, log) && j < |ts|
    ensures OneOrder(ts[j], c)
  {
    hide Commit;
    if j > 0 {
      hide OneOrder;
      OneOrderAlways(env, ts, log, j - 1, c);
      CommitOneOrder(env, ts[j - 1], log[j - 1].tenant, log[j - 1].txn, c);
    }
  }
}
