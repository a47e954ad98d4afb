/** Every reachable evidence store re-verifies against the observations it was extracted from. */
module StoreProof {
  import opened Domain
  import opened Tables
  import opened CaseTransactions
  import opened EvidenceVerification
  import opened Protocol
  import opened Publication
  import opened History
  import opened RevisionProof

  /** A call is OBSERVED exactly when it holds an observation, and that receipt verifies. */
  predicate CallOk(t: Tables, x: Extractor, k: Id)
    requires k in t.calls
  {
    var call := t.calls[k];
    && call.caseId in t.cases
    && (call.observationId.Some? <==> call.state.CallObserved?)
    && (call.state.CallObserved? ==> ReceiptOk(t, x, call.caseId, k) && DistinctIds(ItemsOf(t, x, call.caseId, k).value))
  }

  /** No two calls share an observation. */
  predicate OneCallPerObservation(calls: map<Id, CallRow>) {
    forall j, k :: j in calls && k in calls && j != k && calls[j].observationId.Some? && calls[k].observationId.Some?
      ==> calls[j].observationId != calls[k].observationId
  }

  predicate OriginOk(calls: map<Id, CallRow>, o: Origin) {
    o.callId in calls && calls[o.callId].state.CallObserved?
  }

  /** Call `k` is an observed call of case `c` whose receipt yields `e`. */
  predicate Yields(t: Tables, x: Extractor, c: Id, k: Id, e: Evidence) {
    && c in t.cases && k in ObservedCalls(t, c)
    && ItemsOf(t, x, c, k).Some? && e in ItemsOf(t, x, c, k).value
  }

  /** A stored row is a fact some observed call of its case yields, from the observation it names. */
  ghost predicate RowBacked(t: Tables, x: Extractor, i: Id, row: EvidenceRow) {
    && row.payload.id == i
    && exists k :: Yields(t, x, row.caseId, k, row.payload) && t.calls[k].observationId == Some(row.observationId)
  }

  /** Every fact an observed call yields is stored under its identifier for its case. */
  predicate FactStored(evidence: map<Id, EvidenceRow>, c: Id, e: Evidence) {
    e.id in evidence && evidence[e.id].caseId == c
  }

  ghost predicate StoreOk(t: Tables, x: Extractor) {
    && (forall k :: k in t.calls ==> CallOk(t, x, k))
    && OneCallPerObservation(t.calls)
    && (forall o :: o in t.origins ==> OriginOk(t.calls, o))
    && (forall i :: i in t.evidence ==> RowBacked(t, x, i, t.evidence[i]))
    && (forall c, k, e :: Yields(t, x, c, k, e) ==> FactStored(t.evidence, c, e))
  }

  // ---- transactions that leave the store alone ----

  /** What a receipt depends on did not change. */
  predicate SameReceipt(t: Tables, t': Tables, k: Id)
    requires k in t.calls
  {
    && k in t'.calls && t'.calls[k] == t.calls[k]
    && (t.calls[k].caseId in t.cases ==> Kept(t, t', t.calls[k].caseId))
    && (t.calls[k].observationId.Some? && t.calls[k].observationId.value in t.observations ==>
          && t.calls[k].observationId.value in t'.observations
          && t'.observations[t.calls[k].observationId.value] == t.observations[t.calls[k].observationId.value])
    && OriginsOfCall(t', k) == OriginsOfCall(t, k)
  }

  lemma CallKept(t: Tables, t': Tables, x: Extractor, k: Id)
    requires k in t.calls && CallOk(t, x, k) && SameReceipt(t, t', k)
    ensures CallOk(t', x, k)
    ensures t.calls[k].state.CallObserved? ==> ItemsOf(t', x, t.calls[k].caseId, k) == ItemsOf(t, x, t.calls[k].caseId, k)
  {
    hide EnvelopeOk, CorrelationMatches, DistinctIds;
  }

  /** Calls, evidence and origins unchanged, observations only added, cases only rewritten. */
  ghost predicate StoreUntouched(t: Tables, t': Tables) {
    && t'.calls == t.calls && t'.evidence == t.evidence && t'.origins == t.origins
    && (forall o :: o in t.observations ==> o in t'.observations && t'.observations[o] == t.observations[o])
    && (forall c :: c in t.cases ==> Kept(t, t', c))
  }

  lemma SameReceiptHere(t: Tables, t': Tables, k: Id)
    requires k in t.calls && k in t'.calls && t'.calls[k] == t.calls[k] && t'.origins == t.origins
    requires forall o :: o in t.observations ==> o in t'.observations && t'.observations[o] == t.observations[o]
    requires forall c :: c in t.cases ==> Kept(t, t', c)
    ensures SameReceipt(t, t', k)
  {
    hide Kept;
    assert OriginsOfCall(t', k) == OriginsOfCall(t, k);
    var oid := t.calls[k].observationId;
    if oid.Some? && oid.value in t.observations {
      var o: Id := oid.value;
      assert o in t.observations;
    }
  }

  lemma StoreKept(t: Tables, t': Tables, x: Extractor)
    requires StoreOk(t, x) && StoreUntouched(t, t')
    ensures StoreOk(t', x)
  {
    hide ItemsOf, SameReceipt, OneCallPerObservation, SameIdentity, ReceiptOk, RowBacked, FactStored, Yields;
    forall k | k in t'.calls
      ensures CallOk(t', x, k)
      ensures t.calls[k].state.CallObserved? ==> ItemsOf(t', x, t.calls[k].caseId, k) == ItemsOf(t, x, t.calls[k].caseId, k)
    {
      SameReceiptHere(t, t', k);
      CallKept(t, t', x, k);
    }
    ObservedYields(t, t', x);
    forall i | i in t'.evidence ensures RowBacked(t', x, i, t'.evidence[i]) { RowKept(t, t', x, i, t.evidence[i]); }
  }

  lemma RowKept(t: Tables, t': Tables, x: Extractor, i: Id, row: EvidenceRow)
    requires RowBacked(t, x, i, row)
    requires forall d, k, e :: Yields(t, x, d, k, e) ==> Yields(t', x, d, k, e)
    requires forall k :: k in t.calls && t.calls[k].state.CallObserved? ==> k in t'.calls && t'.calls[k] == t.calls[k]
    ensures RowBacked(t', x, i, row)
  {
    hide ItemsOf;
    var k :| Yields(t, x, row.caseId, k, row.payload) && t.calls[k].observationId == Some(row.observationId);
    assert Yields(t', x, row.caseId, k, row.payload);
  }

  // ---- reservations and failures ----

  lemma CallsChanged(t: Tables, t': Tables, x: Extractor, callId: Id)
    requires StoreOk(t, x) && callId in t'.calls && CallOk(t', x, callId) && !t'.calls[callId].state.CallObserved?
    requires callId in t.calls ==> !t.calls[callId].state.CallObserved?
    requires t'.calls == t.calls[callId := t'.calls[callId]] && t'.evidence == t.evidence && t'.origins == t.origins
    requires t'.observations == t.observations && (forall c :: c in t.cases ==> Kept(t, t', c))
    ensures StoreOk(t', x)
  {
    hide ItemsOf, SameReceipt, SameIdentity, ReceiptOk, RowBacked, FactStored, Yields;
    forall k | k in t.calls && k != callId
      ensures CallOk(t', x, k)
      ensures t.calls[k].state.CallObserved? ==> ItemsOf(t', x, t.calls[k].caseId, k) == ItemsOf(t, x, t.calls[k].caseId, k)
    {
      SameReceiptHere(t, t', k);
      CallKept(t, t', x, k);
    }
    ObservedYields(t, t', x);
    forall i | i in t'.evidence ensures RowBacked(t', x, i, t'.evidence[i]) { RowKept(t, t', x, i, t.evidence[i]); }
  }

  /** Observed calls and what they yield are the same on both sides. */
  lemma ObservedYields(t: Tables, t': Tables, x: Extractor)
    requires forall k :: k in t.calls ==> CallOk(t, x, k)
    requires forall k :: k in t.calls ==> t.calls[k].caseId in t'.cases
    requires forall k :: k in t'.calls && t'.calls[k].state.CallObserved? ==> k in t.calls && t.calls[k] == t'.calls[k]
    requires forall k :: k in t.calls && t.calls[k].state.CallObserved? && t.calls[k].caseId in t.cases ==>
      k in t'.calls && t'.calls[k] == t.calls[k] && ItemsOf(t', x, t.calls[k].caseId, k) == ItemsOf(t, x, t.calls[k].caseId, k)
    ensures forall c, k, e :: Yields(t', x, c, k, e) <==> Yields(t, x, c, k, e)
  {
    hide ItemsOf;
  }

  // ---- publication ----

  lemma PublishedCall(t: Tables, x: Extractor, c: Id, callId: Id, oid: Id, now: Time)
    requires StoreOk(t, x) && Publishable(t, x, c, callId, oid) && !t.calls[callId].state.CallObserved?
    ensures var t' := Published(t, x, c, callId, oid, now);
      && CallOk(t', x, callId) && ItemsOf(t', x, c, callId) == FactsOf(t, x, c, oid)
      && t'.calls[callId].caseId == c && t'.calls[callId].state.CallObserved? && t'.calls[callId].observationId == Some(oid)
  {
    hide EnvelopeOk, DistinctIds, NewRows, OneCallPerObservation, RowBacked, FactStored, Assigned;
    var t' := Published(t, x, c, callId, oid, now);
    assert OriginsOfCall(t, callId) == {};
    assert OriginsFor(FactsOf(t, x, c, oid).value, callId) == OriginsOfCall(t', callId);
  }

  lemma PublishedOther(t: Tables, x: Extractor, c: Id, callId: Id, oid: Id, now: Time, k: Id)
    requires Publishable(t, x, c, callId, oid) && k in t.calls && k != callId
    ensures SameReceipt(t, Published(t, x, c, callId, oid, now), k)
  {
    hide EnvelopeOk, DistinctIds, NewRows, Assigned, DispatchMatches, CorrelationMatches, FactsOf;
    var t' := Published(t, x, c, callId, oid, now);
    assert OriginsOfCall(t', k) == OriginsOfCall(t, k);
  }

  /** Publication adds exactly the facts of the published observation, for the published call. */
  lemma PublishedYields(t: Tables, x: Extractor, c: Id, callId: Id, oid: Id, now: Time)
    requires StoreOk(t, x) && Publishable(t, x, c, callId, oid) && !t.calls[callId].state.CallObserved?
    ensures var t' := Published(t, x, c, callId, oid, now);
      && (forall k :: k in t'.calls ==> CallOk(t', x, k))
      && (forall d, k, e :: Yields(t', x, d, k, e) <==>
            Yields(t, x, d, k, e) || (d == c && k == callId && e in FactsOf(t, x, c, oid).value))
  {
    hide EnvelopeOk, DistinctIds, NewRows, Assigned, DispatchMatches, CorrelationMatches, FactsOf, OriginsFor, ItemsOf,
         SameReceipt, ReceiptOk, OneCallPerObservation, RowBacked, FactStored, OriginOk;
    var t' := Published(t, x, c, callId, oid, now);
    PublishedCall(t, x, c, callId, oid, now);
    forall k | k in t.calls && k != callId
      ensures CallOk(t', x, k)
      ensures t.calls[k].state.CallObserved? ==> ItemsOf(t', x, t.calls[k].caseId, k) == ItemsOf(t, x, t.calls[k].caseId, k)
    {
      PublishedOther(t, x, c, callId, oid, now, k);
      CallKept(t, t', x, k);
    }
  }

  /** A fact already stored under this identifier is stored for the same case: an identifier fixes the content. */
  lemma SameIdSameCase(t: Tables, x: Extractor, digest: Content -> Id, c: Id, oid: Id, e: Evidence)
    requires Lawful(x, digest) && Injective(digest) && StoreOk(t, x)
    requires c in t.cases && oid in t.observations && FactsOf(t, x, c, oid).Some? && e in FactsOf(t, x, c, oid).value
    ensures e.id == digest(ContentOf(e)) && e.caseId == c
    ensures e.id in t.evidence ==> t.evidence[e.id].caseId == c
  {
    hide CallOk, OneCallPerObservation, FactStored, DistinctIds;
    if e.id in t.evidence {
      var row := t.evidence[e.id];
      assert RowBacked(t, x, e.id, row);
      var k :| Yields(t, x, row.caseId, k, row.payload) && t.calls[k].observationId == Some(row.observationId);
      assert digest(ContentOf(row.payload)) == digest(ContentOf(e));
    }
  }

  lemma PublishedFacts(t: Tables, x: Extractor, digest: Content -> Id, c: Id, callId: Id, oid: Id, now: Time)
    requires Lawful(x, digest) && Injective(digest) && StoreOk(t, x) && Publishable(t, x, c, callId, oid)
    ensures var t' := Published(t, x, c, callId, oid, now);
      && (forall i :: i in t.evidence ==> i in t'.evidence && t'.evidence[i] == t.evidence[i])
      && (forall e :: e in FactsOf(t, x, c, oid).value ==> FactStored(t'.evidence, c, e))
      && (forall i :: i in t'.evidence && i !in t.evidence ==>
            && t'.evidence[i].payload in FactsOf(t, x, c, oid).value && t'.evidence[i].payload.id == i
            && t'.evidence[i].caseId == c && t'.evidence[i].observationId == oid)
  {
    hide Lawful, StoreOk, EnvelopeOk, Assigned, DispatchMatches, CorrelationMatches, OriginsFor, DistinctIds, FactsOf;
    forall e | e in FactsOf(t, x, c, oid).value
      ensures FactStored(Published(t, x, c, callId, oid, now).evidence, c, e)
    {
      SameIdSameCase(t, x, digest, c, oid, e);
    }
  }

  lemma PublishedIndex(t: Tables, x: Extractor, c: Id, callId: Id, oid: Id, now: Time)
    requires StoreOk(t, x) && Publishable(t, x, c, callId, oid)
    ensures var t' := Published(t, x, c, callId, oid, now);
      && OneCallPerObservation(t'.calls) && (forall o :: o in t'.origins ==> OriginOk(t'.calls, o))
      && (forall k :: k in t.calls && k != callId ==> k in t'.calls && t'.calls[k] == t.calls[k])
  {
    hide EnvelopeOk, DispatchMatches, CorrelationMatches, DistinctIds, FactsOf, NewRows, CallOk, RowBacked, FactStored, Yields;
  }

  lemma PublishedStoreOk(t: Tables, x: Extractor, digest: Content -> Id, c: Id, callId: Id, oid: Id, now: Time)
    requires Lawful(x, digest) && Injective(digest) && StoreOk(t, x) && Publishable(t, x, c, callId, oid)
    requires !t.calls[callId].state.CallObserved?
    ensures StoreOk(Published(t, x, c, callId, oid, now), x)
  {
    PublishedYields(t, x, c, callId, oid, now);
    PublishedFacts(t, x, digest, c, callId, oid, now);
    PublishedCall(t, x, c, callId, oid, now);
    PublishedIndex(t, x, c, callId, oid, now);
    hide Lawful, Publishable, FactsOf, CallOk, ItemsOf, OneCallPerObservation, OriginOk, Published, Yields, Injective, RowBacked;
    var t' := Published(t, x, c, callId, oid, now);
    forall i | i in t'.evidence ensures RowBacked(t', x, i, t'.evidence[i]) {
      if i in t.evidence {
        RowKept(t, t', x, i, t.evidence[i]);
      } else {
        NewRowBacked(t', x, c, callId, oid, i);
      }
    }
    forall d, k, e | Yields(t', x, d, k, e) ensures FactStored(t'.evidence, d, e) {
      if Yields(t, x, d, k, e) { assert FactStored(t.evidence, d, e); }
    }
  }

  lemma NewRowBacked(t: Tables, x: Extractor, c: Id, callId: Id, oid: Id, i: Id)
    requires i in t.evidence && callId in t.calls && t.calls[callId].observationId == Some(oid)
    requires Yields(t, x, c, callId, t.evidence[i].payload) && t.evidence[i].payload.id == i
    requires t.evidence[i].caseId == c && t.evidence[i].observationId == oid
    ensures RowBacked(t, x, i, t.evidence[i])
  {
    hide Yields;
  }

  // ---- every transaction keeps the store verifiable ----

  lemma CasesKept(env: Env, t: Tables, tenant: Id, txn: Txn)
    ensures forall c :: c in t.cases ==> Kept(t, Commit(env, t, tenant, txn), c)
  {
    hide Commit, Kept;
    forall c | c in t.cases ensures Kept(t, Commit(env, t, tenant, txn), c) { CommitPinned(env, t, tenant, txn, c); }
  }

  lemma ReserveKeepsStore(t: Tables, x: Extractor, tenant: Id, c: Id, tool: Tool, query: Query, pre: Option<Precondition>, guards: Guards,
                          callId: Id, now: Time)
    requires StoreOk(t, x)
    requires forall k :: k in t.cases ==> Kept(t, ReserveCall(t, tenant, c, tool, query, pre, guards, callId, now).After(t), k)
    ensures StoreOk(ReserveCall(t, tenant, c, tool, query, pre, guards, callId, now).After(t), x)
  {
    hide InScope, Holds, StoreOk, Kept;
    var tx := ReserveCall(t, tenant, c, tool, query, pre, guards, callId, now);
    if tx.Committed? { CallsChanged(t, tx.tables, x, callId); }
  }

  lemma FailureKeepsStore(t: Tables, x: Extractor, tenant: Id, c: Id, callId: Id)
    requires StoreOk(t, x)
    requires forall k :: k in t.cases ==> Kept(t, MarkError(t, tenant, c, callId).After(t), k)
    ensures StoreOk(MarkError(t, tenant, c, callId).After(t), x)
  {
    hide Kept, ReceiptOk, OneCallPerObservation, RowBacked, FactStored;
    var tx := MarkError(t, tenant, c, callId);
    if tx.Committed? && callId in t.calls && t.calls[callId].state == CallDispatched && t.calls[callId].caseId == c {
      assert CallOk(t, x, callId);
      CallsChanged(t, tx.tables, x, callId);
    }
  }

  lemma CaseTxnKeepsStore(t: Tables, x: Extractor, tenant: Id, txn: CaseTxn)
    requires StoreOk(t, x) && forall c :: c in t.cases ==> Kept(t, CommitCase(t, tenant, txn), c)
    ensures StoreOk(CommitCase(t, tenant, txn), x)
  {
    hide Create, ReserveCall, MarkError, Pause, PauseIfCurrent, Reopen, Kept, StoreOk;
    match txn
    case Reserve(c, tool, query, pre, guards, callId, now) => ReserveKeepsStore(t, x, tenant, c, tool, query, pre, guards, callId, now);
    case FailCall(c, callId) => FailureKeepsStore(t, x, tenant, c, callId);
    case _ => StoreKept(t, CommitCase(t, tenant, txn), x);
  }

  lemma ReadRecoveryKeepsStore(t: Tables, x: Extractor, digest: Content -> Id, tenant: Id, c: Id, callId: Id, oid: Id, now: Time)
    requires Lawful(x, digest) && Injective(digest) && StoreOk(t, x)
    ensures StoreOk(RecoverRead(t, x, tenant, c, callId, oid, now).After(t), x)
  {
    hide Lawful, Injective, StoreOk, RecoverRead, Published, FactsOf, DistinctIds;
    RecoverStep(t, x, tenant, c, callId, oid, now);
    if RecoverRead(t, x, tenant, c, callId, oid, now).After(t) != t {
      RecoveredCallUnobserved(t, x, c, callId, oid);
      PublishedStoreOk(t, x, digest, c, callId, oid, now);
    }
  }

  lemma HeldIsCorrelated(t: Tables, x: Extractor, callId: Id)
    requires StoreOk(t, x) && callId in t.calls && t.calls[callId].state.CallObserved?
    ensures var call := t.calls[callId];
      && call.correlation.Some? && call.observationId.Some?
      && call.observationId.value in Correlated(t, call.correlation.value)
  {
    hide EnvelopeOk, DispatchMatches, DistinctIds, ItemsOf, OriginsFor, RowBacked, FactStored, OneCallPerObservation;
    assert CallOk(t, x, callId);
  }

  /** A call that already holds an observation has no other one to recover. */
  lemma RecoveredCallUnobserved(t: Tables, x: Extractor, c: Id, callId: Id, oid: Id)
    requires StoreOk(t, x) && Publishable(t, x, c, callId, oid)
    requires Correlated(t, t.calls[callId].correlation.value) == {oid}
    ensures !t.calls[callId].state.CallObserved?
  {
    hide StoreOk, EnvelopeOk, DispatchMatches, DistinctIds, FactsOf, OriginsFor, Correlated;
    if t.calls[callId].state.CallObserved? { HeldIsCorrelated(t, x, callId); }
  }

  lemma EvidenceTxnKeepsStore(env: Env, t: Tables, digest: Content -> Id, tenant: Id, txn: EvidenceTxn)
    requires Lawful(env.extract, digest) && Injective(digest) && StoreOk(t, env.extract)
    requires forall c :: c in t.cases ==> Kept(t, CommitEvidence(env, t, tenant, txn), c)
    ensures StoreOk(CommitEvidence(env, t, tenant, txn), env.extract)
  {
    hide RecordCall, RecoverRead, Kept, StoreOk, Lawful, Injective, Publishable, Published;
    match txn
    case Observe(oid, row) => StoreKept(t, CommitEvidence(env, t, tenant, txn), env.extract);
    case ReadRecovery(c, callId, oid, now) => ReadRecoveryKeepsStore(t, env.extract, digest, tenant, c, callId, oid, now);
    case Publication(c, callId, observed, now) =>
      RecordStep(t, env.extract, tenant, c, callId, observed, false, now);
      if RecordCall(t, env.extract, tenant, c, callId, observed, false, now).After(t) != t {
        PublishedStoreOk(t, env.extract, digest, c, callId, observed.observationId, now);
      }
  }

  lemma CommitKeepsStore(env: Env, t: Tables, digest: Content -> Id, tenant: Id, txn: Txn)
    requires Lawful(env.extract, digest) && Injective(digest) && StoreOk(t, env.extract)
    ensures StoreOk(Commit(env, t, tenant, txn), env.extract)
  {
    CasesKept(env, t, tenant, txn);
    hide CommitCase, CommitEvidence, CommitGrant, CommitEffect, CommitRecovery, CommitClosure, StoreOk, Kept, Lawful, Injective;
    match txn
    case OnCase(y) => CaseTxnKeepsStore(t, env.extract, tenant, y);
    case OnEvidence(y) => EvidenceTxnKeepsStore(env, t, digest, tenant, y);
    case _ => StoreKept(t, Commit(env, t, tenant, txn), env.extract);
  }

  lemma {:induction false} StoreAlwaysOk(env: Env, digest: Content -> Id, ts: seq<Tables>, log: seq<Entry>, j: nat)
    requires IsHistory(env, ts, log) && Lawful(env.extract, digest) && Injective(digest) && j < |ts|
    ensures StoreOk(ts[j], env.extract)
  {
    hide Commit, Lawful, Injective;
    if j > 0 {
      hide StoreOk;
      StoreAlwaysOk(env, digest, ts, log, j - 1);
      CommitKeepsStore(env, ts[j - 1], digest, log[j - 1].tenant, log[j - 1].txn);
    }
  }

  // ---- what verification then reports ----

  /** Every fact any observed call of the case yields. */
  ghost predicate Fact(t: Tables, x: Extractor, c: Id, e: Evidence) { exists k :: Yields(t, x, c, k, e) }

  /** `e` is the latest occurrence, by observation instant and then observation, of its identifier. */
  ghost predicate LatestFact(t: Tables, x: Extractor, c: Id, e: Evidence) {
    Fact(t, x, c, e) && forall o :: Fact(t, x, c, o) && o.id == e.id ==> !Later(o, e)
  }

  lemma ExtractedFacts(t: Tables, x: Extractor, c: Id)
    requires StoreOk(t, x) && c in t.cases
    ensures forall k :: k in ObservedCalls(t, c) ==> ReceiptOk(t, x, c, k)
    ensures forall e :: e in Extracted(t, x, c) <==> Fact(t, x, c, e)
  {
    hide EnvelopeOk, DispatchMatches, CorrelationMatches, DistinctIds, OriginsFor, ItemsOf, RowBacked, FactStored, OneCallPerObservation;
    forall k | k in ObservedCalls(t, c) ensures ReceiptOk(t, x, c, k) { assert CallOk(t, x, k); }
    forall e | e in Extracted(t, x, c) ensures Fact(t, x, c, e) {
      var k :| k in ObservedCalls(t, c) && ReceiptOk(t, x, c, k) && e in ItemsOf(t, x, c, k).value;
      assert Yields(t, x, c, k, e);
    }
  }

  lemma StoredRowOk(t: Tables, x: Extractor, digest: Content -> Id, c: Id, i: Id)
    requires StoreOk(t, x) && Lawful(x, digest) && c in t.cases && i in t.evidence && t.evidence[i].caseId == c
    ensures RowOk(digest, Extracted(t, x, c), i, t.evidence[i])
  {
    hide DispatchMatches, CorrelationMatches, DistinctIds, OriginsFor, FactStored, OneCallPerObservation;
    ExtractedFacts(t, x, c);
    var row := t.evidence[i];
    assert RowBacked(t, x, i, row);
    var k :| Yields(t, x, row.caseId, k, row.payload) && t.calls[k].observationId == Some(row.observationId);
    assert CallOk(t, x, k);
    assert Fact(t, x, c, row.payload);
  }

  /** Verification of a sound store is valid and returns the latest occurrence of every extracted fact. */
  lemma SoundStoreVerifies(t: Tables, x: Extractor, digest: Content -> Id, c: Id)
    requires StoreOk(t, x) && Lawful(x, digest) && c in t.cases
    ensures Read(t, x, digest, c).valid
    ensures forall e :: e in Read(t, x, digest, c).evidence <==> LatestFact(t, x, c, e)
  {
    hide Lawful, RowOk, RowBacked, ReceiptOk, OneCallPerObservation, CallOk, OriginOk;
    ExtractedFacts(t, x, c);
    var all := Extracted(t, x, c);
    forall i | i in t.evidence && t.evidence[i].caseId == c ensures RowOk(digest, all, i, t.evidence[i]) {
      StoredRowOk(t, x, digest, c, i);
    }
    assert StoredIds(t, digest, all, c) == EvidenceOf(t.evidence, c).Keys;
    forall e | e in all ensures e.id in EvidenceOf(t.evidence, c).Keys {
      var k :| Yields(t, x, c, k, e);
      assert FactStored(t.evidence, c, e);
    }
    forall i | i in EvidenceOf(t.evidence, c).Keys ensures exists e :: e in all && e.id == i {
      RowIsFact(t, x, digest, all, c, i);
    }
    assert (set e | e in all :: e.id) == StoredIds(t, digest, all, c);
  }

  lemma RowIsFact(t: Tables, x: Extractor, digest: Content -> Id, all: set<Evidence>, c: Id, i: Id)
    requires i in t.evidence && RowOk(digest, all, i, t.evidence[i])
    ensures exists e :: e in all && e.id == i
  {
    assert t.evidence[i].payload in all;
  }

  /** One identifier in one observation is one fact. */
  lemma SameOccurrence(t: Tables, x: Extractor, c: Id, a: Evidence, b: Evidence)
    requires StoreOk(t, x) && (exists digest :: Lawful(x, digest))
    requires Fact(t, x, c, a) && Fact(t, x, c, b) && a.id == b.id && a.observationId == b.observationId
    ensures a == b
  {
    hide DispatchMatches, CorrelationMatches, OriginsFor, RowBacked, FactStored, Lawful;
    var j :| Yields(t, x, c, j, a);
    var k :| Yields(t, x, c, k, b);
    YieldedFrom(t, x, c, j, a);
    YieldedFrom(t, x, c, k, b);
  }

  lemma YieldedFrom(t: Tables, x: Extractor, c: Id, k: Id, e: Evidence)
    requires StoreOk(t, x) && (exists digest :: Lawful(x, digest)) && Yields(t, x, c, k, e)
    ensures t.calls[k].observationId == Some(e.observationId)
    ensures DistinctIds(ItemsOf(t, x, c, k).value)
  {
    hide DispatchMatches, CorrelationMatches, OriginsFor, RowBacked, FactStored, OneCallPerObservation;
    assert CallOk(t, x, k);
  }

  /** Among finitely many facts with one identifier, one is the latest. */
  lemma {:induction false} LatestExists(s: set<Evidence>, e: Evidence) returns (m: Evidence)
    requires e in s
    ensures m in s && m.id == e.id && forall o :: o in s && o.id == e.id ==> !Later(o, m)
    decreases s
  {
    if f :| f in s && f.id == e.id && Later(f, e) {
      m := LatestExists(s - {e}, f);
    } else {
      m := e;
    }
  }

  /** What a valid read returns: for every identifier some observed call yields, its one latest occurrence. */
  ghost predicate ReadsLatest(t: Tables, x: Extractor, c: Id, read: VerifiedRead) {
    && read.valid
    && (forall e :: e in read.evidence <==> LatestFact(t, x, c, e))
    && (forall e :: Fact(t, x, c, e) ==> exists m :: m in read.evidence && m.id == e.id)
    && (forall a, b :: a in read.evidence && b in read.evidence && a.id == b.id ==> a == b)
  }

  lemma LatestFactExists(t: Tables, x: Extractor, c: Id, e: Evidence) returns (m: Evidence)
    requires StoreOk(t, x) && c in t.cases && Fact(t, x, c, e)
    ensures m.id == e.id && LatestFact(t, x, c, m)
  {
    hide StoreOk, Fact, Extracted, ReceiptOk;
    ExtractedFacts(t, x, c);
    m := LatestExists(Extracted(t, x, c), e);
  }

  lemma LatestFactUnique(t: Tables, x: Extractor, digest: Content -> Id, c: Id, a: Evidence, b: Evidence)
    requires StoreOk(t, x) && Lawful(x, digest)
    requires LatestFact(t, x, c, a) && LatestFact(t, x, c, b) && a.id == b.id
    ensures a == b
  {
    hide StoreOk, Fact, Lawful;
    SameOccurrence(t, x, c, a, b);
  }

  lemma SoundStoreReadsLatest(t: Tables, x: Extractor, digest: Content -> Id, c: Id)
    requires StoreOk(t, x) && Lawful(x, digest) && c in t.cases
    ensures ReadsLatest(t, x, c, Read(t, x, digest, c))
  {
    hide Lawful, StoreOk, Read, LatestFact, Fact;
    SoundStoreVerifies(t, x, digest, c);
    forall e | Fact(t, x, c, e) ensures exists m :: m in Read(t, x, digest, c).evidence && m.id == e.id {
      var m := LatestFactExists(t, x, c, e);
      assert m in Read(t, x, digest, c).evidence;
    }
    forall a, b | LatestFact(t, x, c, a) && LatestFact(t, x, c, b) && a.id == b.id ensures a == b {
      LatestFactUnique(t, x, digest, c, a, b);
    }
  }

  /** Every reachable evidence store verifies, and reads back the latest occurrence of every extracted fact. */
  lemma EveryReachableStoreVerifies(env: Env, digest: Content -> Id, ts: seq<Tables>, log: seq<Entry>, j: nat, c: Id)
    requires IsHistory(env, ts, log) && Lawful(env.extract, digest) && Injective(digest)
    requires j < |ts| && c in ts[j].cases
    ensures ReadsLatest(ts[j], env.extract, c, Read(ts[j], env.extract, digest, c))
  {
    hide Commit, Lawful, Injective, StoreOk, Read, ReadsLatest;
    StoreAlwaysOk(env, digest, ts, log, j);
    SoundStoreReadsLatest(ts[j], env.extract, digest, c);
  }

  // ---- why recovery needs its ambiguity guard ----

  /** Publishing a second observation for a call that already holds one leaves a receipt that no longer verifies,
      whenever the first observation stated anything: only the refusal of ambiguous correlations prevents it. */
  lemma UnguardedRecoveryBreaksStore(t: Tables, x: Extractor, digest: Content -> Id, c: Id, callId: Id, oid: Id, now: Time)
    requires StoreOk(t, x) && Publishable(t, x, c, callId, oid) && t.calls[callId].state.CallObserved?
    requires ItemsOf(t, x, c, callId).Some? && ItemsOf(t, x, c, callId).value != []
    ensures !Read(Published(t, x, c, callId, oid, now), x, digest, c).valid
  {
    hide Read, StoreOk, EnvelopeOk, DispatchMatches, DistinctIds, NewRows, Assigned;
    HeldOrigin(t, x, c, callId);
    var e := ItemsOf(t, x, c, callId).value[0];
    var t' := Published(t, x, c, callId, oid, now);
    assert Origin(e.id, callId) in OriginsOfCall(t', callId);
    NotInBoth(OriginsFor(FactsOf(t, x, c, oid).value, callId), t.origins, Origin(e.id, callId));
    assert ItemsOf(t', x, c, callId) == FactsOf(t, x, c, oid);
    BadReceipt(t', x, digest, c, callId);
  }

  lemma NotInBoth(a: set<Origin>, b: set<Origin>, o: Origin)
    requires a * b == {} && o in b
    ensures o !in a
  {
    assert o in a ==> o in a * b;
  }

  lemma HeldOrigin(t: Tables, x: Extractor, c: Id, callId: Id)
    requires StoreOk(t, x) && callId in t.calls && t.calls[callId].state.CallObserved? && t.calls[callId].caseId == c
    requires c in t.cases && ItemsOf(t, x, c, callId).Some? && ItemsOf(t, x, c, callId).value != []
    ensures Origin(ItemsOf(t, x, c, callId).value[0].id, callId) in t.origins
  {
    hide EnvelopeOk, DispatchMatches, DistinctIds, RowBacked, FactStored, OneCallPerObservation;
    assert CallOk(t, x, callId);
    var items := ItemsOf(t, x, c, callId).value;
    assert items[0] in items;
    assert Origin(items[0].id, callId) in OriginsFor(items, callId);
  }

  lemma BadReceipt(t: Tables, x: Extractor, digest: Content -> Id, c: Id, callId: Id)
    requires c in t.cases && callId in ObservedCalls(t, c) && !ReceiptOk(t, x, c, callId)
    ensures !Read(t, x, digest, c).valid
  {
    hide ReceiptOk, Extracted, StoredIds, Latest;
  }
}
