/** Reduces an identity verdict to the references a context must keep, without changing the verdict. */
module IdentityProjection {
  import opened Domain
  import opened Index
  import opened PaymentIdentity

  // `transactions` and `allRefs` stand for the counts and digests of everything the verdict rests on.
  datatype IdentityContext = IdentityContext(
    result: IdentityMatch, mismatch: set<IdentityDimension>, unknown: set<IdentityDimension>, refs: set<Id>,
    transactions: set<Text>, allRefs: set<Id>)

  function TransactionsOf(ws: set<Witness>): set<Text> { set w | w in ws :: w.key.subject.identifier }

  const ASSOCIATION: set<Claim> := {PaymentFinality, PaymentTransactionId, TransactionFundRequestId, RequestSent,
                                    HttpResponseStatus, GuaranteeStatus, FundBusinessStatus}

  /** The references of `w` whose fact has one of `claims`. */
  function Select(index: EvidenceIndex, w: Witness, claims: set<Claim>): set<Id> {
    set e | e in index.evidence && e.id in w.refs && e.claim in claims :: e.id
  }

  function MismatchClaims(w: Witness): set<Claim> { ASSOCIATION + set d | d in w.mismatch :: ClaimOf(d) }

  /** Current facts of dimension `d` about the transaction of `w` that the verdict refers to. */
  function Candidates(index: EvidenceIndex, refs: set<Id>, w: Witness, d: IdentityDimension): set<Evidence> {
    set e | e in CurrentOf(index, ClaimOf(d)) && e.id in refs && e.subject.identifier == w.key.subject.identifier
  }

  predicate Conflicting(items: set<Evidence>) {
    exists a, b :: a in items && b in items && a.value != b.value
  }

  // ---- what a projection must keep ----

  /** All eight claims of `w` are still referenced. */
  predicate Covers(index: EvidenceIndex, w: Witness, refs: set<Id>) {
    forall d: IdentityDimension :: Keeps(index, w, refs, d)
  }

  predicate Keeps(index: EvidenceIndex, w: Witness, refs: set<Id>, d: IdentityDimension) {
    exists e :: e in Group(index, w.key) && e.claim == ClaimOf(d) && e.id in refs
  }

  /** An unknown dimension keeps one whole witness that shows it, and two contradicting facts if there are any. */
  predicate ShowsUnknown(index: EvidenceIndex, ws: seq<Witness>, all: set<Id>, refs: set<Id>, d: IdentityDimension) {
    (exists w :: w in ws && d in w.unknown) ==>
      exists w :: w in ws && d in w.unknown && w.refs <= refs && ShowsConflict(Candidates(index, all, w, d), refs)
  }

  predicate ShowsConflict(items: set<Evidence>, refs: set<Id>) {
    Conflicting(items) ==> exists a, b :: a in items && b in items && a.value != b.value && a.id in refs && b.id in refs
  }

  /** Several transactions keep a whole witness of each of two of them. */
  predicate ShowsTransactions(ws: seq<Witness>, refs: set<Id>) {
    SeveralTransactions(set w | w in ws) ==>
      exists a, b :: a in ws && b in ws && a.key.subject.identifier != b.key.subject.identifier
        && a.refs <= refs && b.refs <= refs
  }

  lemma InGroup(index: EvidenceIndex, k: Key, d: IdentityDimension)
    requires MarkOf(index, k, d) != Open
    ensures exists e :: e in Group(index, k) && e.claim == ClaimOf(d)
  {
    hide Group;
    assert Values(Group(index, k), ClaimOf(d)) != {};
  }

  /** A witness refers to every fact of its record. */
  lemma HoldsItsGroup(index: EvidenceIndex, w: Witness)
    requires w in Witnesses(index)
    ensures forall e :: e in Group(index, w.key) ==> e.id in w.refs
  {
    hide Keys, Group, Anchors, Marked;
  }

  lemma MatchCovers(index: EvidenceIndex, w: Witness)
    requires w in Witnesses(index) && w.Result() == MATCH
    ensures Covers(index, w, w.refs)
  {
    hide MarkOf, Witnesses, Group;
    HoldsItsGroup(index, w);
    forall d: IdentityDimension ensures Keeps(index, w, w.refs, d) {
      WitnessMarks(index, w, d);
      InGroup(index, w.key, d);
    }
  }

  lemma MismatchesKept(index: EvidenceIndex, ws: seq<Witness>, critical: set<Id>)
    requires (set w | w in ws) == Witnesses(index)
    requires forall w :: w in ws && w.mismatch != {} ==> Select(index, w, MismatchClaims(w)) <= critical
    ensures forall w, d :: w in ws && d in w.mismatch ==> Keeps(index, w, critical, d)
  {
    hide MarkOf;
    forall w, d | w in ws && d in w.mismatch ensures Keeps(index, w, critical, d) {
      assert w in set w | w in ws;
      WitnessMarks(index, w, d);
      InGroup(index, w.key, d);
      var e :| e in Group(index, w.key) && e.claim == ClaimOf(d);
      assert e.id in w.refs && e.claim in MismatchClaims(w);
      assert e.id in Select(index, w, MismatchClaims(w)) by { InIndex(index, e); }
    }
  }

  lemma InIndex(index: EvidenceIndex, e: Evidence)
    requires e in AllPayments(index)
    ensures e in index.evidence
  {
    PaymentsAreCurrent(index, e);
  }

  lemma StillShown(index: EvidenceIndex, ws: seq<Witness>, all: set<Id>, refs: set<Id>, more: set<Id>)
    requires refs <= more
    ensures forall d :: ShowsUnknown(index, ws, all, refs, d) ==> ShowsUnknown(index, ws, all, more, d)
    ensures forall w, d :: Keeps(index, w, refs, d) ==> Keeps(index, w, more, d)
    ensures ShowsTransactions(ws, refs) ==> ShowsTransactions(ws, more)
  {
  }

  method KeepMismatches(index: EvidenceIndex, ws: seq<Witness>, all: set<Id>) returns (critical: set<Id>)
    requires forall w :: w in ws ==> w.refs <= all
    ensures critical <= all
    ensures forall w :: w in ws && w.mismatch != {} ==> Select(index, w, MismatchClaims(w)) <= critical
  {
    critical := {};
    for i := 0 to |ws|
      invariant forall w :: w in ws[..i] && w.mismatch != {} ==> Select(index, w, MismatchClaims(w)) <= critical
      invariant critical <= all
    {
      assert ws[i] in ws;
      if ws[i].mismatch != {} { critical := critical + Select(index, ws[i], MismatchClaims(ws[i])); }
    }
    assert ws[..|ws|] == ws;
  }

  lemma WitnessesWithin(index: EvidenceIndex, ws: seq<Witness>)
    requires (set w | w in ws) == Witnesses(index)
    ensures forall w :: w in ws ==> w.refs <= Verified(index).refs
    ensures Verified(index).result == MATCH ==> exists j :: 0 <= j < |ws| && ws[j].Result() == MATCH
  {
    hide Witnesses, SeveralTransactions;
    assert Verified(index).witnesses == Witnesses(index);
    forall w | w in ws ensures w.refs <= Verified(index).refs {
      assert w in set w | w in ws;
      SummaryContains(Witnesses(index), w);
    }
    if Verified(index).result == MATCH {
      NothingIsUnknown();
      assert ws[0] in set w | w in ws;
      SummaryContains(Witnesses(index), ws[0]);
    }
  }

  /** The first matching witness, whole. */
  method KeepMatch(index: EvidenceIndex, ws: seq<Witness>) returns (critical: set<Id>)
    requires (set w | w in ws) == Witnesses(index) && Verified(index).result == MATCH
    ensures exists w :: w in ws && critical == w.refs && Covers(index, w, w.refs)
  {
    hide Verified, Witnesses, Covers;
    WitnessesWithin(index, ws);
    var i := 0;
    while ws[i].Result() != MATCH
      invariant exists j :: i <= j < |ws| && ws[j].Result() == MATCH
      decreases |ws| - i
    {
      i := i + 1;
    }
    assert ws[i] in set w | w in ws;
    MatchCovers(index, ws[i]);
    critical := ws[i].refs;
  }

  /** What an unknown dimension adds: the first witness showing it, and two rival values. */
  method KeepUnknown(index: EvidenceIndex, ws: seq<Witness>, all: set<Id>, d: IdentityDimension) returns (kept: set<Id>)
    requires forall w :: w in ws ==> w.refs <= all
    ensures kept <= all && ShowsUnknown(index, ws, all, kept, d)
  {
    hide CurrentOf, ClaimOf;
    kept := {};
    for i := 0 to |ws|
      invariant kept == {} && forall w :: w in ws[..i] ==> d !in w.unknown
    {
      if d in ws[i].unknown {
        kept := ws[i].refs;
        var candidates := Candidates(index, all, ws[i], d);
        if a, b :| a in candidates && b in candidates && a.value != b.value { kept := kept + {a.id, b.id}; }
        assert ws[i] in ws && ShowsConflict(candidates, kept);
        return;
      }
    }
    assert ws[..|ws|] == ws;
  }

  method KeepTransactions(ws: seq<Witness>, all: set<Id>) returns (kept: set<Id>)
    requires forall w :: w in ws ==> w.refs <= all
    ensures kept <= all && ShowsTransactions(ws, kept)
  {
    kept := {};
    var all := set w | w in ws;
    if a, b :| a in all && b in all && a.key.subject.identifier != b.key.subject.identifier {
      kept := a.refs + b.refs;
    }
  }

  /** `ws` lists the witnesses of the verdict in some order. */
  method Project(index: EvidenceIndex, ws: seq<Witness>) returns (context: IdentityContext)
    requires (set w | w in ws) == Witnesses(index)
    ensures var verdict := Verified(index);
      && context.result == verdict.result && context.mismatch == verdict.mismatch && context.unknown == verdict.unknown
      && context.refs <= verdict.refs && context.allRefs == verdict.refs && context.transactions == TransactionsOf(Witnesses(index))
    ensures context.result == MATCH ==> exists w :: w in ws && Covers(index, w, context.refs)
    ensures context.result != MATCH ==>
      && (forall w, d :: w in ws && d in w.mismatch ==> Keeps(index, w, context.refs, d))
      && (forall d :: d in context.unknown ==> ShowsUnknown(index, ws, Verified(index).refs, context.refs, d))
      && (TransactionDim in context.unknown ==> ShowsTransactions(ws, context.refs))
  {
    hide Verified, Witnesses, Covers, Keeps, ShowsUnknown, ShowsTransactions;
    var verdict := Verified(index);
    WitnessesWithin(index, ws);
    var critical: set<Id> := {};
    if verdict.result == MATCH {
      critical := KeepMatch(index, ws);
    } else {
      critical := KeepMismatches(index, ws, verdict.refs);
      MismatchesKept(index, ws, critical);
      var dims := verdict.unknown;
      while dims != {}
        invariant dims <= verdict.unknown && critical <= verdict.refs
        invariant forall w, d :: w in ws && d in w.mismatch ==> Keeps(index, w, critical, d)
        invariant forall d :: d in verdict.unknown - dims ==> ShowsUnknown(index, ws, verdict.refs, critical, d)
        invariant TransactionDim in verdict.unknown - dims ==> ShowsTransactions(ws, critical)
      {
        var d :| d in dims;
        var kept := KeepUnknown(index, ws, verdict.refs, d);
        var both: set<Id> := {};
        if d.TransactionDim? { both := KeepTransactions(ws, verdict.refs); }
        StillShown(index, ws, verdict.refs, critical, critical + kept + both);
        StillShown(index, ws, verdict.refs, kept, critical + kept + both);
        StillShown(index, ws, verdict.refs, both, critical + kept + both);
        critical := critical + kept + both;
        dims := dims - {d};
      }
    }
    context := IdentityContext(verdict.result, verdict.mismatch, verdict.unknown, critical, TransactionsOf(set w | w in ws), verdict.refs);
  }
}
