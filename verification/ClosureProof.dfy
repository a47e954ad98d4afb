/** A verified closure binds the case it saw, and stands in every later database. */
module ClosureProof {
  import opened Domain
  import opened Tables
  import opened CaseTransactions
  import opened EvidenceVerification
  import opened ClosureTransactions
  import Index
  import opened Protocol
  import opened History
  import opened StoreProof
  import opened ClosedProof
  import opened LeaseProof
  import opened ScopeProof

  // ---- what a settled state says about the rows ----

  lemma SettledCalls(t: Tables, x: Extractor, digest: Content -> Id, c: Id)
    requires c in t.cases && !PendingReads(t, c) && Read(t, x, digest, c).valid
    ensures forall k :: k in t.calls && t.calls[k].caseId == c ==> CallQuiet(t, k)
  {
    hide Extracted, StoredIds, EnvelopeOk, DispatchMatches, CorrelationMatches, ItemsOf, Latest;
    forall k | k in t.calls && t.calls[k].caseId == c ensures CallQuiet(t, k) {
      assert k in ObservedCalls(t, c);
    }
  }

  lemma SettledEffects(t: Tables, c: Id)
    requires c in t.cases && !PolicyInvalid(t, c)
    requires forall k :: k in BoundEffects(t, c) ==> !BoundEffects(t, c)[k].ledger.status.Unresolved()
    ensures forall k :: k in t.effects && t.effects[k].caseId == c ==> !t.effects[k].status.Unresolved()
  {
    hide Bound;
    forall k | k in t.effects && t.effects[k].caseId == c ensures !t.effects[k].status.Unresolved() {
      assert Bound(t, c, k);
      assert k in BoundEffects(t, c);
    }
  }

  lemma SettledCase(t: Tables, x: Extractor, digest: Content -> Id, policy: EvaluationPolicy, c: Id, now: Time)
    requires c in t.cases && Settled(ReadState(t, x, digest, policy, c, now))
    ensures forall k :: k in t.calls && t.calls[k].caseId == c ==> CallQuiet(t, k)
    ensures forall k :: k in t.effects && t.effects[k].caseId == c ==> !t.effects[k].status.Unresolved()
    ensures !RecoveryUnresolved(t, c, now)
  {
    hide Read, CurrentAt, BoundEffects, PolicyInvalid, RecoveryUnresolved, PendingReads, LatestObservations, InGrace, DigestOf, EffectsOf,
         RecoveriesOf, CallsOf, CallQuiet, BindingOf, Eligible;
    SettledCalls(t, x, digest, c);
    SettledEffects(t, c);
  }

  // ---- the closing commit ----

  /** Closing writes the case row and the closure record, from a state the judge passed. */
  predicate ClosedFrom(t: Tables, t': Tables, s: EvaluationState, r: Report, now: Time) {
    var c := r.body.caseId;
    && c in t.cases && c !in t.closures && !t.cases[c].status.Terminal()
    && r.runId in t.reports && t.reports[r.runId] == r && r.reportId == r.body && r.body.verdict == PASS
    && Settled(s) && r.body.snapshot == s.snapshot && r.body.caseId == s.caseId && r.body.snapshotId == s.snapshot
    && r.body.policyVersion == s.snapshot.policyVersion && r.body.contractVersion == s.snapshot.contractVersion
    && t.cases[c].revision == s.snapshot.caseRevision
    && t' == t.(cases := t.cases[c := t.cases[c].(status := ClosedVerified, revision := NextRevision(s.snapshot.caseRevision, now))],
                closures := t.closures[c := ClosureRecordOf(r, now)])
  }

  lemma CloseStep(t: Tables, reader: Reader, judge: Judge, tenant: Id, r: Report, now: Time)
    requires Sound(judge)
    requires Close(t, reader, judge, tenant, r, now).Committed? && Close(t, reader, judge, tenant, r, now).value.ClosedNow?
    ensures ClosedFrom(t, Close(t, reader, judge, tenant, r, now).tables, reader(t, r.body.caseId, now), r, now)
  {
    hide Settled, StillStands, ClosureRecordOf;
  }

  lemma ClosedIsQuiet(t: Tables, t': Tables, x: Extractor, digest: Content -> Id, policy: EvaluationPolicy, r: Report, now: Time)
    requires r.body.caseId in t.cases
    requires ClosedFrom(t, t', ReadState(t, x, digest, policy, r.body.caseId, now), r, now)
    ensures Quiet(t', r.body.caseId) && !RecoveryUnresolved(t, r.body.caseId, now)
  {
    hide ReadState, Settled, ClosureRecordOf, CallQuiet;
    var c := r.body.caseId;
    SettledCase(t, x, digest, policy, c, now);
    forall k | k in t'.calls && t'.calls[k].caseId == c ensures CallQuiet(t', k) {
      assert CallQuiet(t, k);
      SameCallQuiet(t, t', k);
    }
  }

  lemma SameCallQuiet(t: Tables, t': Tables, k: Id)
    requires t'.calls == t.calls && t'.observations == t.observations && k in t.calls && CallQuiet(t, k)
    ensures CallQuiet(t', k)
  {
  }

  /** What a closure digests depends only on the rows that stay frozen. */
  lemma SameDigest(t: Tables, t': Tables, c: Id)
    requires CallsOf(t'.calls, c) == CallsOf(t.calls, c) && EvidenceOf(t'.evidence, c) == EvidenceOf(t.evidence, c)
    requires OriginsOf(t'.origins, t'.calls, c) == OriginsOf(t.origins, t.calls, c)
    requires forall o :: o in t.observations ==> o in t'.observations && t'.observations[o] == t.observations[o]
    requires forall k :: k in t.calls && t.calls[k].caseId == c ==> CallQuiet(t, k)
    ensures DigestOf(t', c) == DigestOf(t, c)
  {
    hide EvidenceOf, OriginsOf;
    var receipts, receipts' := DigestOf(t, c).receipts, DigestOf(t', c).receipts;
    forall k ensures k in receipts' <==> k in receipts
      ensures k in receipts ==> receipts'[k] == receipts[k]
    {
      ReceiptFrozen(t, t', c, k);
    }
    assert receipts' == receipts;
  }

  lemma ReceiptFrozen(t: Tables, t': Tables, c: Id, k: Id)
    requires CallsOf(t'.calls, c) == CallsOf(t.calls, c)
    requires forall o :: o in t.observations ==> o in t'.observations && t'.observations[o] == t.observations[o]
    requires forall k :: k in t.calls && t.calls[k].caseId == c ==> CallQuiet(t, k)
    ensures k in DigestOf(t', c).receipts <==> k in DigestOf(t, c).receipts
    ensures k in DigestOf(t, c).receipts ==> DigestOf(t', c).receipts[k] == DigestOf(t, c).receipts[k]
  {
    hide EvidenceOf, OriginsOf;
    assert k in CallsOf(t'.calls, c) <==> k in CallsOf(t.calls, c);
    if k in CallsOf(t.calls, c) {
      assert CallsOf(t.calls, c)[k] == CallsOf(t'.calls, c)[k];
      var o: Id := t.calls[k].observationId.value;
      assert o in t.observations;
    }
  }

  // ---- the read-side binding holds, and keeps holding ----

  /** The digests a snapshot of `t` carries for its case. */
  predicate Digests(s: Snapshot, t: Tables, c: Id) {
    && c in t.cases && s.caseId == c && s.tenant == t.cases[c].tenant
    && s.evidenceDigest == DigestOf(t, c) && s.ledgerDigest == EffectsOf(t.effects, c) && s.callDigest == CallsOf(t.calls, c)
  }

  lemma ReadDigests(t: Tables, x: Extractor, digest: Content -> Id, policy: EvaluationPolicy, c: Id, now: Time)
    requires c in t.cases
    ensures var s := ReadState(t, x, digest, policy, c, now); s.caseId == c && Digests(s.snapshot, t, c)
  {
    hide Read, CurrentAt, BoundEffects, PolicyInvalid, RecoveryUnresolved, PendingReads, LatestObservations, InGrace, DigestOf, EffectsOf,
         RecoveriesOf, CallsOf, BindingOf, Eligible;
  }

  lemma ClosedChecks(t: Tables, t': Tables, s: EvaluationState, r: Report, now: Time)
    requires ClosedFrom(t, t', s, r, now) && s.caseId == r.body.caseId && Digests(s.snapshot, t, s.caseId)
    ensures CheckedClosure(t', r.body.caseId) && t'.closures[r.body.caseId] == ClosureRecordOf(r, now)
  {
    hide Settled, EvidenceOf, OriginsOf, CallsOf, EffectsOf;
    var c := r.body.caseId;
    assert DigestOf(t', c) == DigestOf(t, c) by { UntouchedDigest(t, t', c); }
  }

  lemma UntouchedDigest(t: Tables, t': Tables, c: Id)
    requires t'.calls == t.calls && t'.evidence == t.evidence && t'.origins == t.origins && t'.observations == t.observations
    ensures DigestOf(t', c) == DigestOf(t, c)
  {
    hide EvidenceOf, OriginsOf;
    assert ObservedCalls(t', c) == ObservedCalls(t, c);
    assert DigestOf(t', c).receipts == DigestOf(t, c).receipts;
  }

  lemma FrozenChecks(t: Tables, t': Tables, c: Id)
    requires Frozen(t, t', c) && Quiet(t, c) && CheckedClosure(t, c)
    ensures CheckedClosure(t', c) && t'.closures[c] == t.closures[c]
  {
    SameDigest(t, t', c);
    hide DigestOf, EvidenceOf, OriginsOf, CallsOf, EffectsOf, RecoveriesOf, CallQuiet, Unfinished;
  }

  // ---- closing again ----

  /** If no recovery row of `c` was unsettled when it closed, none is at any instant the clock may show: the case holds
      no lease. */
  lemma RecoveryStaysResolved(t: Tables, t': Tables, c: Id, now: Time, later: Time)
    requires c in t.cases && !RecoveryUnresolved(t, c, now)
    requires c in t'.cases && t'.cases[c].tenant == t.cases[c].tenant
    requires RecoveriesOf(t'.recoveries, c) == RecoveriesOf(t.recoveries, c)
    requires Quiet(t', c) && Keyed(t') && forall k :: TokenOk(t', k)
    ensures !RecoveryUnresolved(t', c, later)
  {
    hide CallQuiet, Keyed;
    forall k | k in t'.recoveries && t'.recoveries[k].caseId == c
      ensures !Unsettled(t'.recoveries[k], t'.cases[c].tenant, later)
    {
      assert k in RecoveriesOf(t'.recoveries, c);
      assert RecoveriesOf(t'.recoveries, c)[k] == RecoveriesOf(t.recoveries, c)[k];
      assert !Unsettled(t.recoveries[k], t.cases[c].tenant, now);
      assert TokenOk(t', k);
      QuietHoldsNoLease(t', c, k);
    }
  }

  lemma StandsAgain(t: Tables, x: Extractor, digest: Content -> Id, policy: EvaluationPolicy, c: Id, now: Time, r: Report)
    requires c in t.cases && Quiet(t, c) && !RecoveryUnresolved(t, c, now) && Read(t, x, digest, c).valid
    requires Digests(r.body.snapshot, t, c)
    ensures StillStands(ReadState(t, x, digest, policy, c, now), r)
  {
    ReadDigests(t, x, digest, policy, c, now);
    hide Read, CurrentAt, Bound, PolicyInvalid, RecoveryUnresolved, LatestObservations, InGrace, DigestOf, EffectsOf, RecoveriesOf, CallsOf,
         BindingOf, Eligible, Unfinished;
  }

  /** A second close under `r` of a case that stands and whose evidence the index admits. */
  lemma ClosedAgain(t: Tables, reader: Reader, judge: Judge, tenant: Id, r: Report, now: Time)
    requires CheckedClosure(t, r.body.caseId) && Owns(t, tenant, r.body.caseId)
    requires r.body.verdict == PASS && r.reportId == r.body && r.runId in t.reports && t.reports[r.runId] == r
    requires r.body == t.closures[r.body.caseId].reportId ==> StillStands(reader(t, r.body.caseId, now), r)
    requires !reader(t, r.body.caseId, now).refused
    ensures Close(t, reader, judge, tenant, r, now)
              == if r.body == t.closures[r.body.caseId].reportId then Committed(t, AlreadyClosed(t.closures[r.body.caseId]))
                 else RolledBack(StaleEvaluation)
  {
    hide StillStands, DigestOf, EffectsOf, CallsOf;
  }

  /** Commit `i` closed case `c` as verified, for report `r`, at `now`. */
  ghost predicate ClosedAt(env: Env, ts: seq<Tables>, log: seq<Entry>, i: nat, r: Report, now: Time) {
    && i < |log| && i + 1 < |ts| && log[i].txn == OnClosure(CloseCase(r, now))
    && Close(ts[i], env.reader, env.judge, log[i].tenant, r, now).Committed?
    && Close(ts[i], env.reader, env.judge, log[i].tenant, r, now).value.ClosedNow?
  }

  lemma CloseCommits(env: Env, t: Tables, tenant: Id, r: Report, now: Time)
    ensures Commit(env, t, tenant, OnClosure(CloseCase(r, now))) == Close(t, env.reader, env.judge, tenant, r, now).After(t)
  {
    hide Close;
  }

  /** The closing commit leaves a quiet, correctly bound case. */
  lemma ClosingCommit(env: Env, digest: Content -> Id, policy: EvaluationPolicy, ts: seq<Tables>, log: seq<Entry>, i: nat,
                      r: Report, now: Time)
    requires IsHistory(env, ts, log) && ClosedAt(env, ts, log, i, r, now)
    requires Sound(env.judge) && Faithful(env.reader, env.extract, digest, policy)
    ensures var c := r.body.caseId;
      && Quiet(ts[i + 1], c) && CheckedClosure(ts[i + 1], c) && ts[i + 1].closures[c] == ClosureRecordOf(r, now)
      && c in ts[i].cases && !RecoveryUnresolved(ts[i], c, now) && ts[i + 1].recoveries == ts[i].recoveries
      && ts[i + 1].cases[c].tenant == ts[i].cases[c].tenant
      && ts[i + 1].cases[c].tenant == log[i].tenant && r.reportId == r.body
  {
    hide Commit, Close, ReadState, Quiet, CheckedClosure, Sound, RecoveryUnresolved;
    var c := r.body.caseId;
    CloseCommits(env, ts[i], log[i].tenant, r, now);
    CloseStep(ts[i], env.reader, env.judge, log[i].tenant, r, now);
    ClosedIsQuiet(ts[i], ts[i + 1], env.extract, digest, policy, r, now);
    ReadDigests(ts[i], env.extract, digest, policy, c, now);
    ClosedChecks(ts[i], ts[i + 1], env.reader(ts[i], c, now), r, now);
    CloseOwns(ts[i], env.reader, env.judge, log[i].tenant, r, now);
  }

  lemma CloseOwns(t: Tables, reader: Reader, judge: Judge, tenant: Id, r: Report, now: Time)
    requires Close(t, reader, judge, tenant, r, now).Committed?
    ensures Owns(t, tenant, r.body.caseId)
  {
    hide StillStands, ClosureRecordOf;
  }

  /** After a verified closure commits, whatever any worker, recovery, approval or evidence transaction does,
      the case keeps the rows its report digested and the read-side check holds. */
  lemma ClosedForever(env: Env, digest: Content -> Id, policy: EvaluationPolicy, ts: seq<Tables>, log: seq<Entry>, i: nat, j: nat,
                      r: Report, now: Time)
    requires IsHistory(env, ts, log) && ClosedAt(env, ts, log, i, r, now) && i < j < |ts|
    requires Sound(env.judge) && Faithful(env.reader, env.extract, digest, policy)
    ensures Frozen(ts[i + 1], ts[j], r.body.caseId)
    ensures CheckedClosure(ts[j], r.body.caseId) && ts[j].closures[r.body.caseId] == ClosureRecordOf(r, now)
  {
    hide IsHistory, ClosedAt, Quiet, CheckedClosure, Frozen, Sound, Faithful, ClosureRecordOf, RecoveryUnresolved;
    ClosingCommit(env, digest, policy, ts, log, i, r, now);
    QuietForever(env, ts, log, i + 1, j, r.body.caseId);
    FrozenChecks(ts[i + 1], ts[j], r.body.caseId);
  }

  /** Closing a verified case again: under any clock, in any later database, a stored PASS report of the case is answered
      ALREADY_CLOSED_VERIFIED if it is the report the case was closed with, and refused as stale if it is any other. It is
      never an invariant violation and never a refused reading. */
  lemma ReclosingExactly(env: Env, digest: Content -> Id, policy: EvaluationPolicy, ts: seq<Tables>, log: seq<Entry>, i: nat, j: nat,
                         r: Report, now: Time, again: Report, later: Time)
    requires IsHistory(env, ts, log) && ClosedAt(env, ts, log, i, r, now) && i < j < |ts|
    requires Sound(env.judge) && Faithful(env.reader, env.extract, digest, policy)
    requires Lawful(env.extract, digest) && Injective(digest)
    requires again.body.caseId == r.body.caseId && again.body.verdict == PASS && again.reportId == again.body
    requires again.runId in ts[j].reports && ts[j].reports[again.runId] == again
    ensures Close(ts[j], env.reader, env.judge, log[i].tenant, again, later)
              == if again.body == r.body then Committed(ts[j], AlreadyClosed(ClosureRecordOf(r, now)))
                 else RolledBack(StaleEvaluation)
  {
    hide Commit, Close, ClosedAt, Quiet, CheckedClosure, Sound, Lawful, Injective, RecoveryUnresolved, StoreOk, Read, ReadState,
         TokenOk, Keyed;
    var c := r.body.caseId;
    ClosingCommit(env, digest, policy, ts, log, i, r, now);
    QuietForever(env, ts, log, i + 1, j, c);
    FrozenChecks(ts[i + 1], ts[j], c);
    AlwaysKeyed(env, ts, log, j);
    LeasesAlwaysOpen(env, ts, log, j);
    RecoveryStaysResolved(ts[i], ts[j], c, now, later);
    StoreAlwaysOk(env, digest, ts, log, j);
    SoundStoreVerifies(ts[j], env.extract, digest, c);
    if again.body == r.body {
      CheckedDigests(ts[j], again);
      StandsAgain(ts[j], env.extract, digest, policy, c, later, again);
    }
    NeverRefused(env, digest, policy, ts, log, j, c, later);
    ClosedAgain(ts[j], env.reader, env.judge, log[i].tenant, again, later);
  }

  /** Closing a verified case again with the same report is answered ALREADY_CLOSED_VERIFIED, with the first record. */
  lemma ReclosingSucceeds(env: Env, digest: Content -> Id, policy: EvaluationPolicy, ts: seq<Tables>, log: seq<Entry>, i: nat, j: nat,
                          r: Report, now: Time, again: Report, later: Time)
    requires IsHistory(env, ts, log) && ClosedAt(env, ts, log, i, r, now) && i < j < |ts|
    requires Sound(env.judge) && Faithful(env.reader, env.extract, digest, policy)
    requires Lawful(env.extract, digest) && Injective(digest)
    requires again.body == r.body && again.reportId == again.body
    requires again.runId in ts[j].reports && ts[j].reports[again.runId] == again
    ensures Close(ts[j], env.reader, env.judge, log[i].tenant, again, later)
              == Committed(ts[j], AlreadyClosed(ClosureRecordOf(r, now)))
  {
    hide IsHistory, ClosedAt, Sound, Faithful, Lawful, Injective, Close, ClosureRecordOf;
    ClosedPassed(env, ts, log, i, r, now);
    ReclosingExactly(env, digest, policy, ts, log, i, j, r, now, again, later);
  }

  lemma ClosedPassed(env: Env, ts: seq<Tables>, log: seq<Entry>, i: nat, r: Report, now: Time)
    requires ClosedAt(env, ts, log, i, r, now)
    ensures r.body.verdict == PASS
  {
    hide StillStands, ClosureRecordOf;
  }

  lemma CheckedDigests(t: Tables, r: Report)
    requires CheckedClosure(t, r.body.caseId) && t.closures[r.body.caseId].reportId == r.body
    ensures Digests(r.body.snapshot, t, r.body.caseId)
  {
    hide DigestOf, EffectsOf, CallsOf;
  }

  lemma YieldedInScope(t: Tables, x: Extractor, digest: Content -> Id, c: Id, e: Evidence)
    requires Lawful(x, digest) && c in t.cases && Fact(t, x, c, e)
    ensures e.caseId == c && e.subject.order == e.scope.order && e.subject.order in t.cases[c].allowedOrders
    ensures e.tool in t.cases[c].allowedTools
  {
    var k :| Yields(t, x, c, k, e);
  }

  /** The evidence index never refuses the current evidence of a reachable case. */
  lemma NeverRefused(env: Env, digest: Content -> Id, policy: EvaluationPolicy, ts: seq<Tables>, log: seq<Entry>, j: nat,
                     c: Id, now: Time)
    requires IsHistory(env, ts, log) && Lawful(env.extract, digest) && Injective(digest) && j < |ts|
    requires Faithful(env.reader, env.extract, digest, policy) && c in ts[j].cases
    ensures !env.reader(ts[j], c, now).refused
  {
    hide Commit, Lawful, Injective, StoreOk, Read, Fact, Eligible, BoundEffects, PolicyInvalid, RecoveryUnresolved, InGrace,
         DigestOf, BindingOf;
    EveryReachableStoreVerifies(env, digest, ts, log, j, c);
    OneOrderAlways(env, ts, log, j, c);
    forall e | e in CurrentAt(ts[j], env.extract, digest, policy, c, now)
      ensures Index.Admissible(ts[j].cases[c], c, e)
    {
      YieldedInScope(ts[j], env.extract, digest, c, e);
    }
  }
}
