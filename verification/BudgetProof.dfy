/** Budget conservation: call rows, their sequence numbers and the used budget never disagree. */
module BudgetProof {
  import opened Domain
  import opened Tables
  import opened CaseTransactions
  import opened AuthorizationTransactions
  import opened Protocol
  import opened Publication
  import opened History
  import opened EffectSteps
  import opened RevisionProof

  /** The calls of `c` are numbered 1..used without gap or repetition. */
  predicate Numbered(calls: map<Id, CallRow>, c: Id, used: nat) {
    && |CallsOf(calls, c)| == used
    && (forall k :: k in calls && calls[k].caseId == c ==> 1 <= calls[k].sequence <= used)
    && (forall j, k :: j in calls && k in calls && calls[j].caseId == c && calls[k].caseId == c && j != k
          ==> calls[j].sequence != calls[k].sequence)
    && (forall n: nat :: 1 <= n <= used ==> HasSequence(calls, c, n))
  }

  predicate HasSequence(calls: map<Id, CallRow>, c: Id, n: nat) {
    exists k :: k in calls && calls[k].caseId == c && calls[k].sequence == n
  }

  predicate BudgetOk(t: Tables, c: Id) {
    if c in t.cases then t.cases[c].usedCalls <= t.cases[c].maxCalls && Numbered(t.calls, c, t.cases[c].usedCalls)
    else CallsOf(t.calls, c) == map[]
  }

  /** The same calls with the same numbers; only their outcome may differ. */
  predicate SameCalls(calls: map<Id, CallRow>, calls': map<Id, CallRow>) {
    && calls'.Keys == calls.Keys
    && forall k :: k in calls ==> calls'[k].caseId == calls[k].caseId && calls'[k].sequence == calls[k].sequence
  }

  lemma SameCallIds(calls: map<Id, CallRow>, calls': map<Id, CallRow>, c: Id)
    requires SameCalls(calls, calls')
    ensures CallsOf(calls', c).Keys == CallsOf(calls, c).Keys
  {
    forall k ensures k in CallsOf(calls', c) <==> k in CallsOf(calls, c) {
      assert k in calls'.Keys <==> k in calls.Keys;
    }
  }

  lemma SameCallsNumbered(calls: map<Id, CallRow>, calls': map<Id, CallRow>, c: Id, used: nat)
    requires SameCalls(calls, calls') && Numbered(calls, c, used)
    ensures Numbered(calls', c, used)
  {
    SameCallIds(calls, calls', c);
    assert |CallsOf(calls', c)| == |CallsOf(calls', c).Keys| && |CallsOf(calls, c)| == |CallsOf(calls, c).Keys|;
    forall n: nat | 1 <= n <= used ensures HasSequence(calls', c, n) {
      assert HasSequence(calls, c, n);
      var k :| k in calls && calls[k].caseId == c && calls[k].sequence == n;
      assert k in calls' && calls'[k].caseId == c && calls'[k].sequence == n;
    }
  }

  /** A new call of `c` takes the next number. */
  lemma NextNumbered(calls: map<Id, CallRow>, c: Id, used: nat, id: Id, row: CallRow)
    requires Numbered(calls, c, used) && id !in calls && row.caseId == c && row.sequence == used + 1
    ensures Numbered(calls[id := row], c, used + 1)
  {
    var calls' := calls[id := row];
    assert CallsOf(calls', c) == CallsOf(calls, c)[id := row];
    forall n: nat | 1 <= n <= used + 1 ensures HasSequence(calls', c, n) {
      if n <= used {
        assert HasSequence(calls, c, n);
        var k :| k in calls && calls[k].caseId == c && calls[k].sequence == n;
        assert k in calls' && calls'[k].caseId == c && calls'[k].sequence == n;
      } else {
        assert id in calls' && calls'[id].caseId == c && calls'[id].sequence == n;
      }
    }
  }

  /** A call of another case does not count. */
  lemma OtherNumbered(t: Tables, t': Tables, c: Id, id: Id, row: CallRow)
    requires BudgetOk(t, c) && id !in t.calls && row.caseId != c && t'.calls == t.calls[id := row]
    requires c in t.cases <==> c in t'.cases
    requires c in t.cases ==> t'.cases[c] == t.cases[c]
    ensures BudgetOk(t', c)
  {
    hide HasSequence;
    assert CallsOf(t'.calls, c) == CallsOf(t.calls, c);
    if c in t.cases {
      forall n: nat | 1 <= n <= t.cases[c].usedCalls ensures HasSequence(t'.calls, c, n) {
        assert HasSequence(t.calls, c, n);
        StillHasSequence(t.calls, t'.calls, c, n);
      }
    }
  }

  lemma StillHasSequence(calls: map<Id, CallRow>, calls': map<Id, CallRow>, c: Id, n: nat)
    requires HasSequence(calls, c, n) && forall k :: k in calls ==> k in calls' && calls'[k] == calls[k]
    ensures HasSequence(calls', c, n)
  {
    var k :| k in calls && calls[k].caseId == c && calls[k].sequence == n;
    assert k in calls' && calls'[k].caseId == c && calls'[k].sequence == n;
  }

  // ---- every transaction conserves the budget ----

  predicate SameBudget(t: Tables, t': Tables, c: Id) {
    && (c in t.cases ==> c in t'.cases && t'.cases[c].usedCalls == t.cases[c].usedCalls && t'.cases[c].maxCalls == t.cases[c].maxCalls)
    && (c !in t.cases && c in t'.cases ==> t'.cases[c].usedCalls == 0)
    && SameCalls(t.calls, t'.calls)
  }

  lemma SameBudgetOk(t: Tables, t': Tables, c: Id)
    requires BudgetOk(t, c) && SameBudget(t, t', c)
    ensures BudgetOk(t', c)
  {
    hide Numbered;
    if c in t.cases {
      SameCallsNumbered(t.calls, t'.calls, c, t.cases[c].usedCalls);
    } else {
      SameCallIds(t.calls, t'.calls, c);
      if c in t'.cases { NothingNumbered(t'.calls, c); }
    }
  }

  lemma NothingNumbered(calls: map<Id, CallRow>, c: Id)
    requires CallsOf(calls, c) == map[]
    ensures Numbered(calls, c, 0)
  {
    assert forall k :: k in calls && calls[k].caseId == c ==> k in CallsOf(calls, c);
  }

  lemma ReserveBudget(t: Tables, tenant: Id, k: Id, tool: Tool, query: Query, pre: Option<Precondition>, guards: Guards, callId: Id, now: Time, c: Id)
    requires BudgetOk(t, c)
    ensures BudgetOk(ReserveCall(t, tenant, k, tool, query, pre, guards, callId, now).After(t), c)
  {
    hide InScope, Holds, Numbered;
    var tx := ReserveCall(t, tenant, k, tool, query, pre, guards, callId, now);
    if tx.Committed? {
      if c == k {
        NextNumbered(t.calls, c, t.cases[c].usedCalls, callId, tx.tables.calls[callId]);
      } else {
        OtherNumbered(t, tx.tables, c, callId, tx.tables.calls[callId]);
      }
    }
  }

  lemma CreateBudget(t: Tables, tenant: Id, k: Id, row: CaseRow, grant: Option<Grant>, clock: Option<Time>, c: Id)
    ensures SameBudget(t, Create(t, tenant, k, row, grant, clock).After(t), c)
  {
  }

  lemma FailBudget(t: Tables, tenant: Id, k: Id, callId: Id, c: Id)
    ensures SameBudget(t, MarkError(t, tenant, k, callId).After(t), c)
  {
  }

  lemma PauseBudget(t: Tables, tenant: Id, k: Id, status: CaseStatus, seen: Time, now: Time, c: Id)
    ensures SameBudget(t, Pause(t, tenant, k, status, seen, now).After(t), c)
  {
  }

  lemma PauseCurrentBudget(t: Tables, tenant: Id, k: Id, status: CaseStatus, pre: Precondition, leased: bool, atLimit: bool, now: Time, c: Id)
    ensures SameBudget(t, PauseIfCurrent(t, tenant, k, status, pre, leased, atLimit, now).After(t), c)
  {
  }

  lemma ReopenBudget(t: Tables, tenant: Id, k: Id, escalate: bool, now: Time, c: Id)
    ensures SameBudget(t, Reopen(t, tenant, k, escalate, now).After(t), c)
  {
  }

  lemma PublishedBudget(t: Tables, x: Extractor, k: Id, callId: Id, oid: Id, now: Time, c: Id)
    requires Publishable(t, x, k, callId, oid)
    ensures SameBudget(t, Published(t, x, k, callId, oid, now), c)
  {
    hide EnvelopeOk, DispatchMatches, CorrelationMatches, Assigned, DistinctIds, OriginsFor, FactsOf;
  }

  lemma CaseTxnBudget(t: Tables, tenant: Id, txn: CaseTxn, c: Id)
    requires BudgetOk(t, c)
    ensures BudgetOk(CommitCase(t, tenant, txn), c)
  {
    hide Create, ReserveCall, MarkError, Pause, PauseIfCurrent, Reopen, BudgetOk, SameBudget;
    var t' := CommitCase(t, tenant, txn);
    match txn
    case OpenCase(k, row, grant, clock) => CreateBudget(t, tenant, k, row, grant, clock, c); SameBudgetOk(t, t', c);
    case Reserve(k, tool, query, pre, guards, callId, now) => ReserveBudget(t, tenant, k, tool, query, pre, guards, callId, now, c);
    case FailCall(k, callId) => FailBudget(t, tenant, k, callId, c); SameBudgetOk(t, t', c);
    case PauseCase(k, status, seen, now) => PauseBudget(t, tenant, k, status, seen, now, c); SameBudgetOk(t, t', c);
    case PauseCurrent(k, status, pre, leased, atLimit, now) => PauseCurrentBudget(t, tenant, k, status, pre, leased, atLimit, now, c); SameBudgetOk(t, t', c);
    case ReopenCase(k, escalate, now) => ReopenBudget(t, tenant, k, escalate, now, c); SameBudgetOk(t, t', c);
  }

  lemma EvidenceTxnBudget(env: Env, t: Tables, tenant: Id, txn: EvidenceTxn, c: Id)
    requires BudgetOk(t, c)
    ensures BudgetOk(CommitEvidence(env, t, tenant, txn), c)
  {
    hide RecordCall, RecoverRead, BudgetOk, SameBudget, Publishable, Published;
    match txn
    case Observe(oid, row) => InsertionBudget(t, oid, row, c);
    case Publication(k, callId, observed, now) =>
      RecordStep(t, env.extract, tenant, k, callId, observed, false, now);
      PublicationBudget(t, RecordCall(t, env.extract, tenant, k, callId, observed, false, now).After(t), env.extract, k, callId,
                        observed.observationId, now, c);
    case ReadRecovery(k, callId, oid, now) =>
      RecoverStep(t, env.extract, tenant, k, callId, oid, now);
      PublicationBudget(t, RecoverRead(t, env.extract, tenant, k, callId, oid, now).After(t), env.extract, k, callId, oid, now, c);
  }

  lemma InsertionBudget(t: Tables, oid: Id, row: ObservationRow, c: Id)
    requires BudgetOk(t, c)
    ensures BudgetOk(InsertObservation(t, oid, row).After(t), c)
  {
    hide Numbered;
  }

  lemma PublicationBudget(t: Tables, t': Tables, x: Extractor, k: Id, callId: Id, oid: Id, now: Time, c: Id)
    requires BudgetOk(t, c)
    requires t' == t || (Publishable(t, x, k, callId, oid) && t' == Published(t, x, k, callId, oid, now))
    ensures BudgetOk(t', c)
  {
    hide BudgetOk, SameBudget, Publishable, Published;
    if t' != t {
      PublishedBudget(t, x, k, callId, oid, now, c);
      SameBudgetOk(t, t', c);
    }
  }

  lemma PrepareOpensNoCase(t: Tables, tenant: Id, txn: EffectTxn, c: Id)
    requires c !in t.cases
    ensures c !in CommitEffect(t, tenant, txn).cases
  {
    hide Prepare, DispatchPrepared, Transition, KeyOf, Synchronize, CheckCapability, NewLedger;
    if txn.PrepareEffect? {
      PrepareStep(t, tenant, txn.cap, txn.correlation, txn.clock, txn.now);
    }
  }

  lemma ClosureOpensNoCase(env: Env, t: Tables, tenant: Id, txn: ClosureTxn, c: Id)
    requires c !in t.cases
    ensures c !in CommitClosure(env, t, tenant, txn).cases
  {
  }

  /** A transaction that writes no call rows spends no budget. */
  lemma NoCallsBudget(t: Tables, t': Tables, c: Id)
    requires BudgetOk(t, c) && t'.calls == t.calls
    requires if c in t.cases then Kept(t, t', c) else c !in t'.cases
    ensures BudgetOk(t', c)
  {
    hide Numbered;
  }

  lemma CommitBudget(env: Env, t: Tables, tenant: Id, txn: Txn, c: Id)
    requires BudgetOk(t, c)
    ensures BudgetOk(Commit(env, t, tenant, txn), c)
  {
    if c in t.cases { CommitPinned(env, t, tenant, txn, c); }
    hide CommitCase, CommitEvidence, CommitGrant, CommitEffect, CommitRecovery, CommitClosure, BudgetOk, Kept;
    var t' := Commit(env, t, tenant, txn);
    match txn
    case Nothing =>
    case OnCase(x) => CaseTxnBudget(t, tenant, x, c);
    case OnEvidence(x) => EvidenceTxnBudget(env, t, tenant, x, c);
    case OnEffect(x) =>
      if c !in t.cases { PrepareOpensNoCase(t, tenant, x, c); }
      NoCallsBudget(t, t', c);
    case OnClosure(x) =>
      if c !in t.cases { ClosureOpensNoCase(env, t, tenant, x, c); }
      NoCallsBudget(t, t', c);
    case OnGrant(_) => NoCallsBudget(t, t', c);
    case OnRecovery(_) => NoCallsBudget(t, t', c);
  }

  /** In every reachable database the calls of a case are numbered 1..used without gap or repetition,
      there are exactly `used` of them, and never more than the budget allows. */
  lemma {:induction false} BudgetConserved(env: Env, ts: seq<Tables>, log: seq<Entry>, j: nat, c: Id)
    requires IsHistory(env, ts, log) && j < |ts|
    ensures BudgetOk(ts[j], c)
  {
    hide Commit;
    if j > 0 {
      hide BudgetOk;
      BudgetConserved(env, ts, log, j - 1, c);
      CommitBudget(env, ts[j - 1], log[j - 1].tenant, log[j - 1].txn, c);
    }
  }
}
