/** Does the observed payment belong to this case? Three-valued, over current transaction facts. */
module PaymentIdentity {
  import opened Domain
  import opened Index

  datatype IdentityMatch = MATCH | MISMATCH | UNKNOWN

  datatype IdentityDimension =
    | FinalityDim | TransactionDim | RequestDim | AmountDim | CurrencyDim | CustomerDim | BeneficiaryDim | AccountDim

  function Dimensions(): set<IdentityDimension> {
    {FinalityDim, TransactionDim, RequestDim, AmountDim, CurrencyDim, CustomerDim, BeneficiaryDim, AccountDim}
  }

  lemma EveryDimension(d: IdentityDimension)
    ensures d in Dimensions()
  {
    match d
    case FinalityDim => case TransactionDim => case RequestDim => case AmountDim =>
    case CurrencyDim => case CustomerDim => case BeneficiaryDim => case AccountDim =>
  }

  function ClaimOf(d: IdentityDimension): Claim {
    match d
    case FinalityDim => PaymentFinality
    case TransactionDim => PaymentTransactionId
    case RequestDim => TransactionFundRequestId
    case AmountDim => PaymentAmount
    case CurrencyDim => PaymentCurrency
    case CustomerDim => PaymentCustomerRef
    case BeneficiaryDim => PaymentBeneficiaryRef
    case AccountDim => PaymentAccountRef
  }

  predicate IsTransactionFact(e: Evidence) {
    e.tool == PaymentTool && e.sourceKind == Primary && e.subject.kind == TransactionSubject
  }

  function Payments(index: EvidenceIndex, d: IdentityDimension): set<Evidence> {
    set e | e in CurrentOf(index, ClaimOf(d)) && IsTransactionFact(e)
  }

  // One candidate record: what one observation says of one transaction at one instant.
  datatype Key = Key(subject: Subject, observationId: Id, eventTime: Option<Time>)

  function KeyOf(e: Evidence): Key { Key(e.subject, e.observationId, e.eventTime) }

  function AllPayments(index: EvidenceIndex): set<Evidence> {
    set d, e | d in Dimensions() && e in Payments(index, d) :: e
  }

  function Keys(index: EvidenceIndex): set<Key> { set e | e in AllPayments(index) :: KeyOf(e) }

  function Group(index: EvidenceIndex, k: Key): set<Evidence> { set e | e in AllPayments(index) && KeyOf(e) == k }

  /** Facts outside the payment source that name the same original request. */
  function Anchors(index: EvidenceIndex): set<Evidence> {
    set e | e in CurrentOf(index, RequestSent) + CurrentOf(index, HttpResponseStatus) + CurrentOf(index, GuaranteeStatus)
                 + CurrentOf(index, FundBusinessStatus)
      && e.sourceKind == Primary && (e.tool == TraceTool || e.tool == GuaranteeTool || e.tool == FundTool)
      && RequestId(index) == Some(LinkedRequest(e))
  }

  function Expected(index: EvidenceIndex, k: Key, d: IdentityDimension): Option<Value> {
    var subject := index.row.subject;
    match d
    case FinalityDim => Some(Word(SETTLED))
    case TransactionDim => Some(Word(k.subject.identifier))
    case RequestDim => if Anchors(index) != {} && RequestId(index).Some? then Some(Word(RequestId(index).value)) else None
    case AmountDim => if subject.Some? then Some(Number(subject.value.principalMinor)) else None
    case CurrencyDim => if subject.Some? then Some(Word(subject.value.currency)) else None
    case CustomerDim => if subject.Some? then Some(Word(subject.value.customerRef)) else None
    case BeneficiaryDim => if subject.Some? then Some(Word(subject.value.beneficiaryRef)) else None
    case AccountDim => if subject.Some? then Some(Word(subject.value.accountRef)) else None
  }

  predicate SameSnapshot(a: Evidence, b: Evidence) {
    a.contentHash == b.contentHash && a.sourceAsOf == b.sourceAsOf && a.observedAt == b.observedAt
  }

  /** A single observation cannot have two hashes or two source instants. */
  predicate Coherent(items: set<Evidence>) {
    forall a, b :: a in items && b in items ==> SameSnapshot(a, b)
  }

  function Values(items: set<Evidence>, claim: Claim): set<Value> {
    set e | e in items && e.claim == claim :: e.value
  }

  /** Every current value of one dimension for this transaction, whatever observation it comes from. */
  function Simultaneous(index: EvidenceIndex, k: Key, d: IdentityDimension): set<Value> {
    set e | e in Payments(index, d) && e.subject == k.subject :: e.value
  }

  predicate One(values: set<Value>) { exists v :: v in values && values == {v} }

  datatype Mark = Matched | Mismatched | Open

  function MarkOf(index: EvidenceIndex, k: Key, d: IdentityDimension): Mark {
    var values, expected := Values(Group(index, k), ClaimOf(d)), Expected(index, k, d);
    if !Coherent(Group(index, k)) || !One(values) || !One(Simultaneous(index, k, d)) || expected.None? then Open
    else if expected.value in values then Matched
    else if d.FinalityDim? then Open else Mismatched
  }

  datatype Witness = Witness(key: Key, mismatch: set<IdentityDimension>, unknown: set<IdentityDimension>, refs: set<Id>) {
    function Result(): IdentityMatch {
      if mismatch != {} then MISMATCH else if unknown != {} then UNKNOWN else MATCH
    }
  }

  function Marked(index: EvidenceIndex, k: Key, m: Mark): set<IdentityDimension> {
    set d | d in Dimensions() && MarkOf(index, k, d) == m
  }

  function WitnessOf(index: EvidenceIndex, k: Key): Witness {
    Witness(k, Marked(index, k, Mismatched), Marked(index, k, Open), Refs(Group(index, k) + Anchors(index)))
  }

  function Witnesses(index: EvidenceIndex): set<Witness> { set k | k in Keys(index) :: WitnessOf(index, k) }

  datatype IdentityResult = IdentityResult(
    result: IdentityMatch, mismatch: set<IdentityDimension>, unknown: set<IdentityDimension>, witnesses: set<Witness>, refs: set<Id>)

  predicate SeveralTransactions(ws: set<Witness>) {
    exists a, b :: a in ws && b in ws && a.key.subject.identifier != b.key.subject.identifier
  }

  /** The verdict over the witnesses; several transactions are never resolved by picking one. */
  function Summary(ws: set<Witness>): IdentityResult {
    var mismatch := set w, d | w in ws && d in w.mismatch :: d;
    var unknown := (set w, d | w in ws && d in w.unknown :: d)
      + (if ws == {} then Dimensions() else {})
      + (if SeveralTransactions(ws) then {TransactionDim} else {});
    IdentityResult(if mismatch != {} then MISMATCH else if unknown != {} then UNKNOWN else MATCH,
                   mismatch, unknown, ws, set w, r | w in ws && r in w.refs :: r)
  }

  function Verified(index: EvidenceIndex): IdentityResult { Summary(Witnesses(index)) }

  // ---- the nested loops ----

  /** The groups of the facts in `done`. */
  predicate Grouped(groups: map<Key, set<Evidence>>, done: set<Evidence>) {
    && groups.Keys == (set e | e in done :: KeyOf(e))
    && forall k :: k in groups ==> groups[k] == set e | e in done && KeyOf(e) == k
  }

  lemma GroupsGrow(groups: map<Key, set<Evidence>>, done: set<Evidence>, e: Evidence)
    requires Grouped(groups, done)
    ensures Grouped(groups[KeyOf(e) := (if KeyOf(e) in groups then groups[KeyOf(e)] else {}) + {e}], done + {e})
  {
    var k := KeyOf(e);
    var groups' := groups[k := (if k in groups then groups[k] else {}) + {e}];
    assert groups'.Keys == groups.Keys + {k};
    if k !in groups { assert forall o :: o in done ==> KeyOf(o) in groups.Keys; }
  }

  method GroupPayments(index: EvidenceIndex) returns (groups: map<Key, set<Evidence>>)
    ensures groups.Keys == Keys(index)
    ensures forall k :: k in groups ==> groups[k] == Group(index, k)
  {
    hide Payments, Grouped, KeyOf;
    groups := map[];
    ghost var done: set<Evidence> := {};
    assert Grouped(groups, done) by { NothingGrouped(); }
    var dims := Dimensions();
    while dims != {}
      invariant dims <= Dimensions()
      invariant done == set d, e | d in Dimensions() - dims && e in Payments(index, d) :: e
      invariant Grouped(groups, done)
    {
      var d :| d in dims;
      var rest := Payments(index, d);
      ghost var before := done;
      while rest != {}
        invariant rest <= Payments(index, d) && done == before + (Payments(index, d) - rest)
        invariant Grouped(groups, done)
      {
        var e :| e in rest;
        GroupsGrow(groups, done, e);
        groups := groups[KeyOf(e) := (if KeyOf(e) in groups then groups[KeyOf(e)] else {}) + {e}];
        rest := rest - {e};
        done := done + {e};
      }
      dims := dims - {d};
    }
    assert done == AllPayments(index);
    AllGrouped(index, groups);
  }

  lemma NothingGrouped()
    ensures Grouped(map[], {})
  {
  }

  lemma AllGrouped(index: EvidenceIndex, groups: map<Key, set<Evidence>>)
    requires Grouped(groups, AllPayments(index))
    ensures groups.Keys == Keys(index)
    ensures forall k :: k in groups ==> groups[k] == Group(index, k)
  {
    hide AllPayments;
  }

  method JudgeGroup(index: EvidenceIndex, k: Key) returns (w: Witness)
    ensures w == WitnessOf(index, k)
  {
    hide MarkOf;
    var mismatch, unknown: set<IdentityDimension> := {}, {};
    var dims := Dimensions();
    while dims != {}
      invariant dims <= Dimensions()
      invariant mismatch == set d | d in Dimensions() - dims && MarkOf(index, k, d) == Mismatched
      invariant unknown == set d | d in Dimensions() - dims && MarkOf(index, k, d) == Open
    {
      var d :| d in dims;
      var mark := MarkOf(index, k, d);
      if mark == Mismatched { mismatch := mismatch + {d}; }
      if mark == Open { unknown := unknown + {d}; }
      dims := dims - {d};
    }
    w := Witness(k, mismatch, unknown, Refs(Group(index, k) + Anchors(index)));
  }

  method VerifyPaymentIdentity(index: EvidenceIndex) returns (r: IdentityResult)
    ensures r == Verified(index)
  {
    hide Keys, WitnessOf, Summary;
    var groups := GroupPayments(index);
    var rest, witnesses: set<Witness> := groups.Keys, {};
    while rest != {}
      invariant rest <= Keys(index)
      invariant witnesses == set k | k in Keys(index) - rest :: WitnessOf(index, k)
    {
      var k :| k in rest;
      var w := JudgeGroup(index, k);
      witnesses := witnesses + {w};
      rest := rest - {k};
    }
    assert witnesses == Witnesses(index);
    r := Summary(witnesses);
  }

  // ---- what the three answers mean ----

  /** Dimension `d` of candidate `k` names exactly the expected value, at every current source. */
  predicate Exact(index: EvidenceIndex, k: Key, d: IdentityDimension) {
    && Coherent(Group(index, k)) && Expected(index, k, d).Some?
    && Values(Group(index, k), ClaimOf(d)) == {Expected(index, k, d).value}
    && Simultaneous(index, k, d) == {Expected(index, k, d).value}
  }

  lemma GroupWithinPayments(index: EvidenceIndex, k: Key, d: IdentityDimension)
    ensures Values(Group(index, k), ClaimOf(d)) <= Simultaneous(index, k, d)
  {
    hide CurrentOf;
    forall e | e in Group(index, k) && e.claim == ClaimOf(d) ensures e in Payments(index, d) && e.subject == k.subject {
      FactOfItsClaim(index, e, d);
    }
  }

  lemma FactOfItsClaim(index: EvidenceIndex, e: Evidence, d: IdentityDimension)
    requires e in AllPayments(index) && e.claim == ClaimOf(d)
    ensures e in Payments(index, d)
  {
    var c: IdentityDimension :| e in Payments(index, c);
    assert e in All(index, ClaimOf(c));
    ClaimsDiffer(c, d);
  }

  lemma ClaimsDiffer(c: IdentityDimension, d: IdentityDimension)
    requires ClaimOf(c) == ClaimOf(d)
    ensures c == d
  {
  }

  lemma MatchedIsExact(index: EvidenceIndex, k: Key, d: IdentityDimension)
    ensures MarkOf(index, k, d) == Matched <==> Exact(index, k, d)
  {
    GroupWithinPayments(index, k, d);
    hide Group, Expected, Payments, Coherent;
  }

  /** MATCH means: some payment record, one transaction, and every dimension of every record exact. */
  lemma MatchExactly(index: EvidenceIndex)
    ensures Verified(index).result == MATCH <==>
      && Keys(index) != {}
      && (forall a, b :: a in Keys(index) && b in Keys(index) ==> a.subject.identifier == b.subject.identifier)
      && (forall k, d :: k in Keys(index) ==> Exact(index, k, d))
  {
    hide Keys, MarkOf, Exact, Verified, SeveralTransactions;
    forall k, d ensures MarkOf(index, k, d) == Matched <==> Exact(index, k, d) { MatchedIsExact(index, k, d); }
    forall k, d | k in Keys(index) && MarkOf(index, k, d) != Matched ensures Verified(index).result != MATCH {
      MarkShows(index, k, d);
      OpenIsNoMatch(index);
    }
    OneTransaction(index);
    OpenIsNoMatch(index);
    if Verified(index).result != MATCH && Keys(index) != {} && !SeveralTransactions(Witnesses(index)) {
      var k, d := UnmatchedMark(index);
    }
  }

  /** Something open or mismatched, several transactions, or nothing at all: no match, and nothing else prevents one. */
  lemma OpenIsNoMatch(index: EvidenceIndex)
    ensures Verified(index).result == MATCH <==> Verified(index).mismatch == {} && Verified(index).unknown == {}
    ensures Keys(index) == {} || SeveralTransactions(Witnesses(index)) ==> TransactionDim in Verified(index).unknown
  {
    hide Keys, SeveralTransactions, WitnessOf;
  }

  lemma OneTransaction(index: EvidenceIndex)
    ensures SeveralTransactions(Witnesses(index)) <==>
      !(forall a, b :: a in Keys(index) && b in Keys(index) ==> a.subject.identifier == b.subject.identifier)
  {
    hide Keys, Marked, Group, Anchors;
    forall k | k in Keys(index) ensures WitnessOf(index, k) in Witnesses(index) && WitnessOf(index, k).key == k { }
  }

  lemma UnmatchedMark(index: EvidenceIndex) returns (k: Key, d: IdentityDimension)
    requires Verified(index).result != MATCH && Keys(index) != {} && !SeveralTransactions(Witnesses(index))
    ensures k in Keys(index) && MarkOf(index, k, d) != Matched
  {
    hide Keys, MarkOf, SeveralTransactions;
    forall k | k in Keys(index) ensures WitnessOf(index, k) in Witnesses(index) { }
    if d0 :| d0 in Verified(index).mismatch {
      d := d0;
      var w :| w in Witnesses(index) && d in w.mismatch;
      k := w.key;
    } else {
      d :| d in Verified(index).unknown;
      var w :| w in Witnesses(index) && d in w.unknown;
      k := w.key;
    }
  }

  /** A witness of the verdict shows exactly the marks of its record. */
  lemma WitnessMarks(index: EvidenceIndex, w: Witness, d: IdentityDimension)
    requires w in Witnesses(index)
    ensures d in w.mismatch <==> MarkOf(index, w.key, d) == Mismatched
    ensures d in w.unknown <==> MarkOf(index, w.key, d) == Open
  {
    EveryDimension(d);
    hide MarkOf, Keys, Dimensions;
  }

  /** Without any payment record the answer is open. */
  lemma NothingIsUnknown()
    ensures Summary({}).result == UNKNOWN
  {
    assert FinalityDim in Summary({}).unknown;
  }

  /** The verdict drops nothing any witness shows. */
  lemma SummaryContains(ws: set<Witness>, w: Witness)
    requires w in ws
    ensures w.mismatch <= Summary(ws).mismatch && w.unknown <= Summary(ws).unknown && w.refs <= Summary(ws).refs
  {
    hide SeveralTransactions, Dimensions;
    var r := Summary(ws);
    forall d | d in w.mismatch ensures d in r.mismatch { }
    forall d | d in w.unknown ensures d in r.unknown { }
    forall i | i in w.refs ensures i in r.refs { }
  }

  lemma MarkShows(index: EvidenceIndex, k: Key, d: IdentityDimension)
    requires k in Keys(index)
    ensures MarkOf(index, k, d) == Mismatched ==> d in Verified(index).mismatch
    ensures MarkOf(index, k, d) == Open ==> d in Verified(index).unknown
  {
    EveryDimension(d);
    hide MarkOf, Keys, Dimensions, SeveralTransactions;
    var w := WitnessOf(index, k);
    assert w in Witnesses(index);
    assert MarkOf(index, k, d) == Mismatched ==> d in w.mismatch;
    assert MarkOf(index, k, d) == Open ==> d in w.unknown;
  }

  /** MISMATCH means: some record names one definite value other than the expected one, in a dimension other than
      finality, whatever the other records say. */
  lemma MismatchExactly(index: EvidenceIndex)
    ensures Verified(index).result == MISMATCH <==>
      exists k, d :: k in Keys(index) && MarkOf(index, k, d) == Mismatched
    ensures forall k :: MarkOf(index, k, FinalityDim) != Mismatched
  {
    hide Keys, Expected, Values, Simultaneous, Coherent;
    if k, d :| k in Keys(index) && MarkOf(index, k, d) == Mismatched { MarkShows(index, k, d); }
    if d :| d in Verified(index).mismatch {
      var w :| w in Witnesses(index) && d in w.mismatch;
      var k :| k in Keys(index) && w == WitnessOf(index, k);
      assert MarkOf(index, k, d) == Mismatched;
    }
  }

  /** A finality that is not exactly SETTLED leaves the answer open, and so do two transactions. */
  lemma NeverMatch(index: EvidenceIndex, a: Key, b: Key)
    requires a in Keys(index) && b in Keys(index)
    requires !Exact(index, a, FinalityDim) || a.subject.identifier != b.subject.identifier
    ensures Verified(index).result != MATCH
    ensures (forall k, d :: k in Keys(index) ==> MarkOf(index, k, d) != Mismatched) ==> Verified(index).result == UNKNOWN
  {
    hide Keys, Exact, MarkOf, Verified;
    MatchExactly(index);
    MismatchExactly(index);
  }

  predicate CurrentPrimary(index: EvidenceIndex, e: Evidence) {
    e in CurrentOf(index, e.claim) && e.sourceKind == Primary
  }

  lemma PaymentsAreCurrent(index: EvidenceIndex, e: Evidence)
    requires e in AllPayments(index) || e in Anchors(index)
    ensures CurrentPrimary(index, e)
  {
    hide RequestId, Latest, LinkedRequest;
    if e in AllPayments(index) {
      var d: IdentityDimension :| e in Payments(index, d);
      CurrentIsUsable(index, ClaimOf(d), e);
    } else {
      var claim :| claim in {RequestSent, HttpResponseStatus, GuaranteeStatus, FundBusinessStatus} && e in CurrentOf(index, claim);
      CurrentIsUsable(index, claim, e);
    }
  }

  /** Every reference of the verdict is a current primary fact. */
  lemma RefsAreCurrent(index: EvidenceIndex, r: Id)
    requires r in Verified(index).refs
    ensures exists e: Evidence :: e.id == r && CurrentPrimary(index, e)
  {
    hide Keys, AllPayments, Anchors, CurrentPrimary, Marked;
    var w :| w in Witnesses(index) && r in w.refs;
    var k :| k in Keys(index) && w == WitnessOf(index, k);
    var e :| e in Group(index, k) + Anchors(index) && e.id == r;
    PaymentsAreCurrent(index, e);
  }
}
