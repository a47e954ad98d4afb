/** No ABA on the case revision: equal revisions mean equal cases. */
module RevisionProof {
  import opened Domain
  import opened Tables
  import opened CaseTransactions
  import opened AuthorizationTransactions
  import opened ClosureTransactions
  import opened Protocol
  import opened Publication
  import opened EffectSteps
  import opened History

  predicate SameIdentity(a: CaseRow, b: CaseRow) {
    && a.tenant == b.tenant && a.simulation == b.simulation && a.grantHash == b.grantHash && a.order == b.order
    && ScopeOf(a) == ScopeOf(b) && a.forbiddenTools == b.forbiddenTools && a.subject == b.subject
    && a.maxCalls == b.maxCalls && a.createdAt == b.createdAt
  }

  function CallIds(calls: map<Id, CallRow>, c: Id): set<Id> { CallsOf(calls, c).Keys }

  /** A case is never removed or renamed, a terminal one is never written again, and budget is spent
      only together with a call row. */
  predicate Kept(t: Tables, t': Tables, c: Id)
    requires c in t.cases
  {
    && c in t'.cases && SameIdentity(t.cases[c], t'.cases[c])
    && (t.cases[c].status.Terminal() ==> t'.cases[c] == t.cases[c])
    && (t'.cases[c].usedCalls == t.cases[c].usedCalls || t'.calls != t.calls)
  }

  /** Between `t` and `t'` case `c` either advanced its revision or did not change at all. */
  predicate NeverBack(t: Tables, t': Tables, c: Id)
    requires c in t.cases
  {
    && c in t'.cases && SameIdentity(t.cases[c], t'.cases[c])
    && (t.cases[c].revision < t'.cases[c].revision
        || (&& t'.cases[c] == t.cases[c] && EvidenceOf(t'.evidence, c) == EvidenceOf(t.evidence, c)
            && CallIds(t'.calls, c) == CallIds(t.calls, c)))
  }

  predicate Pinned(t: Tables, t': Tables, c: Id)
    requires c in t.cases
  {
    Kept(t, t', c) && NeverBack(t, t', c)
  }

  /** A pause of this case would be committed. */
  predicate MayPause(t: Tables, tenant: Id, c: Id, status: CaseStatus) {
    Pausable(status) && Owns(t, tenant, c) && !t.cases[c].status.Terminal()
  }

  /** Pausing writes a later revision than the one it overwrites, or rewrites the row it finds. */
  predicate PauseInOrder(row: CaseRow, status: CaseStatus, seen: Time, now: Time) {
    row.revision < NextRevision(seen, now) || (row.revision == NextRevision(seen, now) && row.status == status)
  }

  /** If the transaction is a pause that commits, it keeps the revision order. */
  predicate Orderly(t: Tables, tenant: Id, txn: Txn) {
    txn.OnCase? && txn.ofCase.PauseCase? && MayPause(t, tenant, txn.ofCase.c, txn.ofCase.status) ==>
      PauseInOrder(t.cases[txn.ofCase.c], txn.ofCase.status, txn.ofCase.seen, txn.ofCase.now)
  }

  lemma ReservePinned(t: Tables, tenant: Id, k: Id, tool: Tool, query: Query, pre: Option<Precondition>, guards: Guards, callId: Id, now: Time, c: Id)
    requires c in t.cases
    ensures Pinned(t, ReserveCall(t, tenant, k, tool, query, pre, guards, callId, now).After(t), c)
  {
    hide InScope, Holds;
    var tx := ReserveCall(t, tenant, k, tool, query, pre, guards, callId, now);
    if tx.Committed? && c != k {
      assert CallIds(tx.tables.calls, c) == CallIds(t.calls, c);
    }
  }

  lemma MarkErrorPinned(t: Tables, tenant: Id, k: Id, callId: Id, c: Id)
    requires c in t.cases
    ensures Pinned(t, MarkError(t, tenant, k, callId).After(t), c)
  {
    assert CallIds(MarkError(t, tenant, k, callId).After(t).calls, c) == CallIds(t.calls, c);
  }

  lemma PublishedPinned(t: Tables, x: Extractor, k: Id, callId: Id, oid: Id, now: Time, c: Id)
    requires c in t.cases && Publishable(t, x, k, callId, oid)
    ensures Pinned(t, Published(t, x, k, callId, oid, now), c)
  {
    if c != k {
      RowsElsewhere(t.evidence, k, oid, FactsOf(t, x, k, oid).value, c);
      CallElsewhere(t.calls, callId, t.calls[callId].(observationId := Some(oid), state := CallObserved), c);
    }
    hide EnvelopeOk, DispatchMatches, CorrelationMatches, Assigned, DistinctIds, OriginsFor, NewRows, EvidenceOf, CallsOf, FactsOf, ScopeOf;
  }

  lemma InsertAdvances(t: Tables, cap: Capability, correlation: Id, clock: Time, now: Time, c: Id)
    requires c in t.cases && cap.caseId in t.cases && !t.cases[cap.caseId].status.Terminal()
    ensures var t' := Insert(t, cap, correlation, clock, now);
      && Kept(t, t', c)
      && (t'.cases[c] == t.cases[c] || t.cases[c].revision < t'.cases[c].revision)
  {
    hide Synchronize, NewLedger, KeyOf;
  }

  lemma PreparePinned(t: Tables, tenant: Id, cap: Capability, correlation: Id, clock: Time, now: Time, c: Id)
    requires c in t.cases
    ensures Pinned(t, Prepare(t, tenant, cap, correlation, clock, now).After(t), c)
  {
    hide Pinned, Kept, Prepare, Insert, CheckCapability;
    var t' := Prepare(t, tenant, cap, correlation, clock, now).After(t);
    PrepareStep(t, tenant, cap, correlation, clock, now);
    if t'.cases == t.cases {
      ElsewherePinned(t, t', c);
    } else {
      InsertAdvances(t, cap, correlation, clock, now, c);
      RowPinned(t, t', c);
    }
  }

  lemma ClosePinned(env: Env, t: Tables, tenant: Id, r: Report, now: Time, c: Id)
    requires c in t.cases
    ensures Pinned(t, Close(t, env.reader, env.judge, tenant, r, now).After(t), c)
  {
    hide StillStands, ClosureRecordOf;
  }

  /** A transaction that writes neither cases, calls nor evidence changes no case. */
  lemma ElsewherePinned(t: Tables, t': Tables, c: Id)
    requires c in t.cases && t'.cases == t.cases && t'.calls == t.calls && t'.evidence == t.evidence
    ensures Pinned(t, t', c)
  {
  }

  lemma RowPinned(t: Tables, t': Tables, c: Id)
    requires c in t.cases && t'.calls == t.calls && t'.evidence == t.evidence
    requires Kept(t, t', c)
    requires t'.cases[c] == t.cases[c] || t.cases[c].revision < t'.cases[c].revision
    ensures Pinned(t, t', c)
  {
  }

  lemma CreatePinned(t: Tables, tenant: Id, k: Id, row: CaseRow, grant: Option<Grant>, clock: Option<Time>, c: Id)
    requires c in t.cases
    ensures Pinned(t, Create(t, tenant, k, row, grant, clock).After(t), c)
  {
  }

  lemma PausePinned(t: Tables, tenant: Id, k: Id, status: CaseStatus, seen: Time, now: Time, c: Id)
    requires c in t.cases
    ensures var t' := Pause(t, tenant, k, status, seen, now).After(t);
      Kept(t, t', c) && (Orderly(t, tenant, OnCase(PauseCase(k, status, seen, now))) ==> Pinned(t, t', c))
  {
  }

  lemma PauseCurrentPinned(t: Tables, tenant: Id, k: Id, status: CaseStatus, pre: Precondition, leased: bool, atLimit: bool, now: Time, c: Id)
    requires c in t.cases
    ensures Pinned(t, PauseIfCurrent(t, tenant, k, status, pre, leased, atLimit, now).After(t), c)
  {
  }

  lemma ReopenPinned(t: Tables, tenant: Id, k: Id, escalate: bool, now: Time, c: Id)
    requires c in t.cases
    ensures Pinned(t, Reopen(t, tenant, k, escalate, now).After(t), c)
  {
  }

  lemma CasePinned(t: Tables, tenant: Id, txn: CaseTxn, c: Id)
    requires c in t.cases
    ensures var t' := CommitCase(t, tenant, txn);
      Kept(t, t', c) && (Orderly(t, tenant, OnCase(txn)) ==> Pinned(t, t', c))
  {
    hide Create, ReserveCall, MarkError, Pause, PauseIfCurrent, Reopen, Kept;
    match txn
    case OpenCase(k, row, grant, clock) => CreatePinned(t, tenant, k, row, grant, clock, c);
    case Reserve(k, tool, query, pre, guards, callId, now) => ReservePinned(t, tenant, k, tool, query, pre, guards, callId, now, c);
    case FailCall(k, callId) => MarkErrorPinned(t, tenant, k, callId, c);
    case PauseCase(k, status, seen, now) => PausePinned(t, tenant, k, status, seen, now, c);
    case PauseCurrent(k, status, pre, leased, atLimit, now) => PauseCurrentPinned(t, tenant, k, status, pre, leased, atLimit, now, c);
    case ReopenCase(k, escalate, now) => ReopenPinned(t, tenant, k, escalate, now, c);
  }

  lemma PublicationPinned(env: Env, t: Tables, tenant: Id, txn: EvidenceTxn, c: Id)
    requires c in t.cases && txn.Publication?
    ensures Pinned(t, CommitEvidence(env, t, tenant, txn), c)
  {
    hide RecordCall, Pinned, Publishable, Published;
    RecordStep(t, env.extract, tenant, txn.c, txn.callId, txn.observed, false, txn.now);
    var t' := RecordCall(t, env.extract, tenant, txn.c, txn.callId, txn.observed, false, txn.now).After(t);
    assert CommitEvidence(env, t, tenant, txn) == t';
    if t' == t { ElsewherePinned(t, t', c); }
    else { PublishedPinned(t, env.extract, txn.c, txn.callId, txn.observed.observationId, txn.now, c); }
  }

  lemma ReadRecoveryPinned(env: Env, t: Tables, tenant: Id, txn: EvidenceTxn, c: Id)
    requires c in t.cases && txn.ReadRecovery?
    ensures Pinned(t, CommitEvidence(env, t, tenant, txn), c)
  {
    hide RecoverRead, Pinned, Publishable, Published;
    RecoverStep(t, env.extract, tenant, txn.c, txn.callId, txn.oid, txn.now);
    var t' := RecoverRead(t, env.extract, tenant, txn.c, txn.callId, txn.oid, txn.now).After(t);
    assert CommitEvidence(env, t, tenant, txn) == t';
    if t' == t { ElsewherePinned(t, t', c); }
    else { PublishedPinned(t, env.extract, txn.c, txn.callId, txn.oid, txn.now, c); }
  }

  lemma EvidencePinned(env: Env, t: Tables, tenant: Id, txn: EvidenceTxn, c: Id)
    requires c in t.cases
    ensures Pinned(t, CommitEvidence(env, t, tenant, txn), c)
  {
    if txn.Observe? {
      ElsewherePinned(t, InsertObservation(t, txn.oid, txn.row).After(t), c);
    } else {
      hide CommitEvidence, Pinned;
      if txn.Publication? { PublicationPinned(env, t, tenant, txn, c); } else { ReadRecoveryPinned(env, t, tenant, txn, c); }
    }
  }

  lemma EffectPinned(t: Tables, tenant: Id, txn: EffectTxn, c: Id)
    requires c in t.cases
    ensures Pinned(t, CommitEffect(t, tenant, txn), c)
  {
    hide Prepare, DispatchPrepared, Transition, Pinned;
    if txn.PrepareEffect? {
      PreparePinned(t, tenant, txn.cap, txn.correlation, txn.clock, txn.now, c);
    } else {
      ElsewherePinned(t, CommitEffect(t, tenant, txn), c);
    }
  }

  lemma ClosureTxnPinned(env: Env, t: Tables, tenant: Id, txn: ClosureTxn, c: Id)
    requires c in t.cases
    ensures Pinned(t, CommitClosure(env, t, tenant, txn), c)
  {
    hide Record, Close, Pinned;
    if txn.CloseCase? {
      ClosePinned(env, t, tenant, txn.report, txn.now, c);
    } else {
      ElsewherePinned(t, CommitClosure(env, t, tenant, txn), c);
    }
  }

  /** One transaction either advances the revision of a case or leaves the case as it was. */
  lemma CommitPinned(env: Env, t: Tables, tenant: Id, txn: Txn, c: Id)
    requires c in t.cases
    ensures var t' := Commit(env, t, tenant, txn);
      Kept(t, t', c) && (Orderly(t, tenant, txn) ==> Pinned(t, t', c))
  {
    hide CommitCase, CommitEvidence, CommitGrant, CommitEffect, CommitRecovery, CommitClosure, Kept;
    match txn
    case Nothing => ElsewherePinned(t, t, c);
    case OnCase(x) => CasePinned(t, tenant, x, c);
    case OnEvidence(x) => EvidencePinned(env, t, tenant, x, c);
    case OnGrant(x) => ElsewherePinned(t, CommitGrant(t, tenant, x), c);
    case OnEffect(x) => EffectPinned(t, tenant, x, c);
    case OnRecovery(x) => ElsewherePinned(t, CommitRecovery(env, t, tenant, x), c);
    case OnClosure(x) => ClosureTxnPinned(env, t, tenant, x, c);
  }

  // ---- over whole histories ----

  /** Every pause that commits keeps the revision order. */
  predicate PausesInOrder(ts: seq<Tables>, log: seq<Entry>)
    requires |ts| == |log| + 1
  {
    forall i :: 0 <= i < |log| ==> Orderly(ts[i], log[i].tenant, log[i].txn)
  }

  /** Along every history whose pauses are in order a case either advanced its revision or is exactly the case it was:
      no earlier revision ever comes back with other contents. */
  lemma {:induction false} RevisionNeverReturns(env: Env, ts: seq<Tables>, log: seq<Entry>, i: nat, j: nat, c: Id)
    requires IsHistory(env, ts, log) && PausesInOrder(ts, log)
    requires i <= j < |ts| && c in ts[i].cases
    ensures NeverBack(ts[i], ts[j], c)
  {
    hide Commit, Orderly, Kept;
    if i < j {
      RevisionNeverReturns(env, ts, log, i, j - 1, c);
      assert Orderly(ts[j - 1], log[j - 1].tenant, log[j - 1].txn);
      CommitPinned(env, ts[j - 1], log[j - 1].tenant, log[j - 1].txn, c);
    }
  }

  // ---- the pause that reads its row before it locks it ----

  /** The pauses that `Orderly` constrains are exactly those that commit. */
  lemma PauseCommits(t: Tables, tenant: Id, c: Id, status: CaseStatus, seen: Time, now: Time)
    ensures MayPause(t, tenant, c, status) <==> Pause(t, tenant, c, status, seen, now).Committed?
  {
  }

  /** A pause keeps the revision order exactly when the revision it writes is later than the current
      one, or when it rewrites the row it found. */
  lemma PauseExactly(t: Tables, tenant: Id, c: Id, status: CaseStatus, seen: Time, now: Time)
    requires Pause(t, tenant, c, status, seen, now).Committed?
    ensures MayPause(t, tenant, c, status)
    ensures Pinned(t, Pause(t, tenant, c, status, seen, now).After(t), c) <==> PauseInOrder(t.cases[c], status, seen, now)
  {
    PauseCommits(t, tenant, c, status, seen, now);
    var t' := Pause(t, tenant, c, status, seen, now).After(t);
    assert t'.cases[c] == t.cases[c].(status := status, revision := NextRevision(seen, now));
  }

  /** A transaction that sets no case back is in order. */
  lemma NothingBackIsOrderly(env: Env, t: Tables, tenant: Id, txn: Txn)
    requires forall c :: c in t.cases ==> NeverBack(t, Commit(env, t, tenant, txn), c)
    ensures Orderly(t, tenant, txn)
  {
    if txn.OnCase? && txn.ofCase.PauseCase? && MayPause(t, tenant, txn.ofCase.c, txn.ofCase.status) {
      var c := txn.ofCase.c;
      PauseCommits(t, tenant, c, txn.ofCase.status, txn.ofCase.seen, txn.ofCase.now);
      PauseExactly(t, tenant, c, txn.ofCase.status, txn.ofCase.seen, txn.ofCase.now);
      CommitPinned(env, t, tenant, txn, c);
      PauseIsCommit(env, t, tenant, c, txn.ofCase.status, txn.ofCase.seen, txn.ofCase.now);
      hide Commit, Pause, Kept, NeverBack, PauseInOrder;
      assert NeverBack(t, Commit(env, t, tenant, txn), c);
    }
  }

  lemma PauseIsCommit(env: Env, t: Tables, tenant: Id, c: Id, status: CaseStatus, seen: Time, now: Time)
    ensures Commit(env, t, tenant, OnCase(PauseCase(c, status, seen, now))) == Pause(t, tenant, c, status, seen, now).After(t)
  {
    hide Pause;
  }

  ghost predicate NoCaseBack(ts: seq<Tables>) {
    forall i, j, c :: 0 <= i <= j < |ts| && c in ts[i].cases ==> NeverBack(ts[i], ts[j], c)
  }

  /** Along a history no revision ever comes back with other contents, for any case and any two instants, exactly when
      every committed pause wrote a later revision than it overwrote or rewrote the row it found. */
  lemma NoReturnExactly(env: Env, ts: seq<Tables>, log: seq<Entry>)
    requires IsHistory(env, ts, log)
    ensures NoCaseBack(ts) <==> PausesInOrder(ts, log)
  {
    hide Commit, Orderly, NeverBack;
    if PausesInOrder(ts, log) {
      forall i, j, c | 0 <= i <= j < |ts| && c in ts[i].cases ensures NeverBack(ts[i], ts[j], c) {
        RevisionNeverReturns(env, ts, log, i, j, c);
      }
    }
    if NoCaseBack(ts) {
      forall i | 0 <= i < |log| ensures Orderly(ts[i], log[i].tenant, log[i].txn) {
        Successor(env, ts, log, i);
        forall c | c in ts[i].cases ensures NeverBack(ts[i], ts[i + 1], c) { }
        NothingBackIsOrderly(env, ts[i], log[i].tenant, log[i].txn);
      }
    }
  }

  /** A pause that read the row it overwrites always advances the revision. */
  lemma FreshPauseAdvances(t: Tables, tenant: Id, c: Id, status: CaseStatus, now: Time)
    requires MayPause(t, tenant, c, status)
    ensures var t' := Pause(t, tenant, c, status, t.cases[c].revision, now).After(t);
      Orderly(t, tenant, OnCase(PauseCase(c, status, t.cases[c].revision, now))) && t.cases[c].revision < t'.cases[c].revision
  {
  }

  /** Two overlapping pauses under a frozen clock give one revision to two different cases. */
  lemma StalePauseRepeatsRevision(t: Tables, tenant: Id, c: Id, now: Time)
    requires Owns(t, tenant, c) && t.cases[c].status == New && now <= t.cases[c].revision
    ensures var first := Pause(t, tenant, c, Waiting, t.cases[c].revision, now).After(t);
      var second := Pause(first, tenant, c, Escalated, t.cases[c].revision, now).After(first);
      && c in first.cases && c in second.cases
      && second.cases[c].revision == first.cases[c].revision && second.cases[c] != first.cases[c]
  {
  }
}
