/** The three answers of the payment identity, read off the facts of the payment records themselves. */
module PaymentRecords {
  import opened Domain
  import opened Index
  import opened PaymentIdentity

  const PAYMENT_CLAIMS: set<Claim> := {PaymentFinality, PaymentTransactionId, TransactionFundRequestId, PaymentAmount,
                                       PaymentCurrency, PaymentCustomerRef, PaymentBeneficiaryRef, PaymentAccountRef}

  /** A current fact the payment source itself reports of a transaction. */
  predicate PaymentFact(index: EvidenceIndex, e: Evidence) {
    && e.claim in PAYMENT_CLAIMS && e in CurrentOf(index, e.claim)
    && e.tool == PaymentTool && e.sourceKind == Primary && e.subject.kind == TransactionSubject
  }

  /** Two facts of one record: one observation of one transaction at one instant. */
  predicate SameRecord(a: Evidence, b: Evidence) {
    a.subject == b.subject && a.observationId == b.observationId && a.eventTime == b.eventTime
  }

  /** The record of `r` comes from one snapshot of the source. */
  predicate OneSnapshot(index: EvidenceIndex, r: Evidence) {
    forall a, b :: a in index.evidence && b in index.evidence && PaymentFact(index, a) && PaymentFact(index, b)
                   && SameRecord(a, r) && SameRecord(b, r)
      ==> a.contentHash == b.contentHash && a.sourceAsOf == b.sourceAsOf && a.observedAt == b.observedAt
  }

  /** The record of `r` states `claim`, and every current statement of it about this transaction is `value`. */
  predicate States(index: EvidenceIndex, r: Evidence, claim: Claim, value: Value) {
    && (exists e :: e in index.evidence && PaymentFact(index, e) && SameRecord(e, r) && e.claim == claim)
    && forall e :: e in index.evidence && PaymentFact(index, e) && e.subject == r.subject && e.claim == claim ==> e.value == value
  }

  /** The record of `r` states one definite value of `claim` other than `value`. */
  predicate Denies(index: EvidenceIndex, r: Evidence, claim: Claim, value: Value) {
    exists e :: e in index.evidence && e.value != value && States(index, r, claim, e.value)
  }

  /** A current trace, guarantee or fund fact names the case's own request. */
  predicate Anchored(index: EvidenceIndex) {
    exists e :: e in index.evidence && e.claim in {RequestSent, HttpResponseStatus, GuaranteeStatus, FundBusinessStatus}
      && e in CurrentOf(index, e.claim) && e.sourceKind == Primary && e.tool in {TraceTool, GuaranteeTool, FundTool}
      && RequestId(index) == if e.fundRequestId.Some? then e.fundRequestId else Some(e.subject.identifier)
  }

  /** The record of `r` is a settled payment of this case: its own transaction and request, and the amount, currency,
      customer, beneficiary and account the case expects. */
  predicate PaysCase(index: EvidenceIndex, r: Evidence) {
    && OneSnapshot(index, r)
    && States(index, r, PaymentFinality, Word(SETTLED))
    && States(index, r, PaymentTransactionId, Word(r.subject.identifier))
    && Anchored(index) && RequestId(index).Some? && States(index, r, TransactionFundRequestId, Word(RequestId(index).value))
    && index.row.subject.Some?
    && var s := index.row.subject.value;
    && States(index, r, PaymentAmount, Number(s.principalMinor))
    && States(index, r, PaymentCurrency, Word(s.currency))
    && States(index, r, PaymentCustomerRef, Word(s.customerRef))
    && States(index, r, PaymentBeneficiaryRef, Word(s.beneficiaryRef))
    && States(index, r, PaymentAccountRef, Word(s.accountRef))
  }

  /** The record of `r` names, in dimension `d`, something other than what this case expects. A finality is never a mismatch. */
  predicate Disputes(index: EvidenceIndex, r: Evidence, d: IdentityDimension) {
    && OneSnapshot(index, r)
    && match d
       case FinalityDim => false
       case TransactionDim => Denies(index, r, PaymentTransactionId, Word(r.subject.identifier))
       case RequestDim =>
         Anchored(index) && RequestId(index).Some? && Denies(index, r, TransactionFundRequestId, Word(RequestId(index).value))
       case AmountDim => index.row.subject.Some? && Denies(index, r, PaymentAmount, Number(index.row.subject.value.principalMinor))
       case CurrencyDim => index.row.subject.Some? && Denies(index, r, PaymentCurrency, Word(index.row.subject.value.currency))
       case CustomerDim => index.row.subject.Some? && Denies(index, r, PaymentCustomerRef, Word(index.row.subject.value.customerRef))
       case BeneficiaryDim =>
         index.row.subject.Some? && Denies(index, r, PaymentBeneficiaryRef, Word(index.row.subject.value.beneficiaryRef))
       case AccountDim => index.row.subject.Some? && Denies(index, r, PaymentAccountRef, Word(index.row.subject.value.accountRef))
  }

  // ---- records and groups ----

  lemma PaymentFactClaim(index: EvidenceIndex, e: Evidence) returns (d: IdentityDimension)
    requires PaymentFact(index, e)
    ensures ClaimOf(d) == e.claim && e in Payments(index, d)
  {
    hide CurrentOf;
    d := match e.claim
      case PaymentFinality => FinalityDim
      case PaymentTransactionId => TransactionDim
      case TransactionFundRequestId => RequestDim
      case PaymentAmount => AmountDim
      case PaymentCurrency => CurrencyDim
      case PaymentCustomerRef => CustomerDim
      case PaymentBeneficiaryRef => BeneficiaryDim
      case _ => AccountDim;
  }

  lemma ClaimIsPayment(d: IdentityDimension)
    ensures ClaimOf(d) in PAYMENT_CLAIMS
  {
  }

  lemma PaymentsExactly(index: EvidenceIndex, d: IdentityDimension, e: Evidence)
    ensures e in Payments(index, d) <==> PaymentFact(index, e) && e.claim == ClaimOf(d)
    ensures e in Payments(index, d) ==> e in index.evidence
  {
    ClaimIsPayment(d);
    hide PAYMENT_CLAIMS, ClaimOf, Usable, Latest;
    if e in Payments(index, d) { CurrentIsUsable(index, ClaimOf(d), e); }
  }

  lemma FactsExactly(index: EvidenceIndex, e: Evidence)
    ensures e in AllPayments(index) <==> PaymentFact(index, e)
    ensures PaymentFact(index, e) ==> e in index.evidence
  {
    hide PaymentFact, Payments;
    if PaymentFact(index, e) {
      var d := PaymentFactClaim(index, e);
      PaymentsExactly(index, d, e);
      EveryDimension(d);
    }
    if e in AllPayments(index) {
      var d: IdentityDimension :| e in Payments(index, d);
      PaymentsExactly(index, d, e);
    }
  }

  lemma GroupExactly(index: EvidenceIndex, r: Evidence, e: Evidence)
    ensures e in Group(index, KeyOf(r)) <==> PaymentFact(index, e) && SameRecord(e, r)
    ensures e in Group(index, KeyOf(r)) ==> e in index.evidence
  {
    FactsExactly(index, e);
    hide PaymentFact, AllPayments;
  }

  lemma SnapshotExactly(index: EvidenceIndex, r: Evidence)
    ensures OneSnapshot(index, r) <==> Coherent(Group(index, KeyOf(r)))
  {
    forall e ensures (e in Group(index, KeyOf(r)) <==> PaymentFact(index, e) && SameRecord(e, r))
                     && (e in Group(index, KeyOf(r)) ==> e in index.evidence) { GroupExactly(index, r, e); }
    hide PaymentFact, Group, SameRecord, KeyOf;
  }

  lemma AnchoredExactly(index: EvidenceIndex)
    ensures Anchored(index) <==> Anchors(index) != {}
  {
    hide RequestId, CurrentOf;
    if e :| e in Anchors(index) {
      var claim :| claim in {RequestSent, HttpResponseStatus, GuaranteeStatus, FundBusinessStatus} && e in CurrentOf(index, claim);
      assert e in index.evidence && e.claim == claim by { CurrentIsUsable(index, claim, e); }
    }
    if Anchored(index) {
      var e :| e in index.evidence && e.claim in {RequestSent, HttpResponseStatus, GuaranteeStatus, FundBusinessStatus}
        && e in CurrentOf(index, e.claim) && e.sourceKind == Primary && e.tool in {TraceTool, GuaranteeTool, FundTool}
        && RequestId(index) == if e.fundRequestId.Some? then e.fundRequestId else Some(e.subject.identifier);
      assert e in Anchors(index);
    }
  }

  lemma StatedInRecord(index: EvidenceIndex, r: Evidence, d: IdentityDimension)
    ensures Values(Group(index, KeyOf(r)), ClaimOf(d)) != {} <==>
      exists e :: e in index.evidence && PaymentFact(index, e) && SameRecord(e, r) && e.claim == ClaimOf(d)
  {
    hide PaymentFact, Group, SameRecord, KeyOf, ClaimOf;
    if e :| e in index.evidence && PaymentFact(index, e) && SameRecord(e, r) && e.claim == ClaimOf(d) {
      GroupExactly(index, r, e);
      assert e.value in Values(Group(index, KeyOf(r)), ClaimOf(d));
    }
    if v :| v in Values(Group(index, KeyOf(r)), ClaimOf(d)) {
      var e :| e in Group(index, KeyOf(r)) && e.claim == ClaimOf(d);
      GroupExactly(index, r, e);
    }
  }

  lemma StatedAnywhere(index: EvidenceIndex, r: Evidence, d: IdentityDimension, v: Value)
    ensures Simultaneous(index, KeyOf(r), d) <= {v} <==>
      forall e :: e in index.evidence && PaymentFact(index, e) && e.subject == r.subject && e.claim == ClaimOf(d) ==> e.value == v
  {
    hide PaymentFact, Payments, ClaimOf;
    forall e | e in index.evidence && PaymentFact(index, e) && e.subject == r.subject && e.claim == ClaimOf(d)
      ensures e.value in Simultaneous(index, KeyOf(r), d)
    {
      PaymentsExactly(index, d, e);
    }
    forall w | w in Simultaneous(index, KeyOf(r), d)
      ensures exists e :: e in index.evidence && PaymentFact(index, e) && e.subject == r.subject && e.claim == ClaimOf(d) && e.value == w
    {
      var e :| e in Payments(index, d) && e.subject == r.subject && e.value == w;
      PaymentsExactly(index, d, e);
    }
  }

  /** One definite value in the record and at every current source of the transaction. */
  lemma StatesExactly(index: EvidenceIndex, r: Evidence, d: IdentityDimension, v: Value)
    ensures States(index, r, ClaimOf(d), v) <==>
      Values(Group(index, KeyOf(r)), ClaimOf(d)) == {v} && Simultaneous(index, KeyOf(r), d) == {v}
  {
    StatedInRecord(index, r, d);
    StatedAnywhere(index, r, d, v);
    GroupWithinPayments(index, KeyOf(r), d);
    hide PaymentFact, Values, Simultaneous, ClaimOf, SameRecord;
    Subsets(Values(Group(index, KeyOf(r)), ClaimOf(d)), Simultaneous(index, KeyOf(r), d), v);
  }

  lemma Subsets(values: set<Value>, all: set<Value>, v: Value)
    requires values <= all
    ensures values != {} && all <= {v} <==> values == {v} && all == {v}
  {
    if values != {} {
      var w :| w in values;
      assert w in all;
    }
  }

  lemma DefiniteIsDenied(index: EvidenceIndex, r: Evidence, d: IdentityDimension, w: Value)
    requires Values(Group(index, KeyOf(r)), ClaimOf(d)) == {w} && Simultaneous(index, KeyOf(r), d) == {w}
    ensures exists e :: e in index.evidence && e.value == w && States(index, r, ClaimOf(d), e.value)
  {
    StatesExactly(index, r, d, w);
    hide ClaimOf, Group, Simultaneous, KeyOf;
    assert w in Values(Group(index, KeyOf(r)), ClaimOf(d));
    var e :| e in Group(index, KeyOf(r)) && e.claim == ClaimOf(d) && e.value == w;
    GroupExactly(index, r, e);
    hide States;
  }

  lemma SameSingleton(values: set<Value>, all: set<Value>) returns (w: Value)
    requires values <= all && One(values) && One(all)
    ensures values == {w} && all == {w}
  {
    w :| w in values && values == {w};
    assert w in all;
  }

  /** One definite value other than `v`. */
  lemma DeniesExactly(index: EvidenceIndex, r: Evidence, d: IdentityDimension, v: Value)
    ensures var values, all := Values(Group(index, KeyOf(r)), ClaimOf(d)), Simultaneous(index, KeyOf(r), d);
      Denies(index, r, ClaimOf(d), v) <==> One(values) && One(all) && v !in values
  {
    var values, all := Values(Group(index, KeyOf(r)), ClaimOf(d)), Simultaneous(index, KeyOf(r), d);
    GroupWithinPayments(index, KeyOf(r), d);
    hide Values, Simultaneous, ClaimOf, States, Group, KeyOf;
    if One(values) && One(all) && v !in values {
      var w := SameSingleton(values, all);
      DefiniteIsDenied(index, r, d, w);
    }
    if Denies(index, r, ClaimOf(d), v) {
      var e :| e in index.evidence && e.value != v && States(index, r, ClaimOf(d), e.value);
      StatesExactly(index, r, d, e.value);
    }
  }

  /** The mark of a record, dimension by dimension, in the words of its own facts. */
  lemma MarkMeans(index: EvidenceIndex, r: Evidence, d: IdentityDimension)
    ensures MarkOf(index, KeyOf(r), d) == Mismatched <==> Disputes(index, r, d)
  {
    SnapshotExactly(index, r);
    AnchoredExactly(index);
    hide OneSnapshot, Coherent, Group, Anchors, Anchored, Denies, Values, Simultaneous, RequestId, One;
    var e := Expected(index, KeyOf(r), d);
    if e.Some? { DeniesExactly(index, r, d, e.value); }
  }

  lemma ExactMeans(index: EvidenceIndex, r: Evidence)
    ensures (forall d :: Exact(index, KeyOf(r), d)) <==> PaysCase(index, r)
  {
    SnapshotExactly(index, r);
    AnchoredExactly(index);
    hide OneSnapshot, Coherent, Group, Anchors, Anchored, States, Values, Simultaneous, RequestId;
    forall d | Expected(index, KeyOf(r), d).Some?
      ensures Exact(index, KeyOf(r), d) <==> OneSnapshot(index, r) && States(index, r, ClaimOf(d), Expected(index, KeyOf(r), d).value)
    {
      StatesExactly(index, r, d, Expected(index, KeyOf(r), d).value);
    }
    var k := KeyOf(r);
    assert PaysCase(index, r) <== (forall d :: Exact(index, k, d)) by {
      if forall d :: Exact(index, k, d) {
        assert Exact(index, k, FinalityDim) && Exact(index, k, TransactionDim) && Exact(index, k, RequestDim)
          && Exact(index, k, AmountDim) && Exact(index, k, CurrencyDim) && Exact(index, k, CustomerDim)
          && Exact(index, k, BeneficiaryDim) && Exact(index, k, AccountDim);
      }
    }
  }

  lemma KeysAreRecords(index: EvidenceIndex, k: Key)
    ensures k in Keys(index) <==> exists r :: r in index.evidence && PaymentFact(index, r) && KeyOf(r) == k
  {
    hide PaymentFact, AllPayments, KeyOf;
    if k in Keys(index) {
      var e :| e in AllPayments(index) && KeyOf(e) == k;
      FactsExactly(index, e);
    }
    if r :| r in index.evidence && PaymentFact(index, r) && KeyOf(r) == k { FactsExactly(index, r); }
  }

  // ---- the answers ----

  /** MATCH: there is a payment record, all of them of one transaction, and each is a settled payment of this case. */
  lemma MatchMeans(index: EvidenceIndex)
    ensures Verified(index).result == MATCH <==>
      && (exists r :: r in index.evidence && PaymentFact(index, r))
      && (forall a, b :: a in index.evidence && b in index.evidence && PaymentFact(index, a) && PaymentFact(index, b)
            ==> a.subject.identifier == b.subject.identifier)
      && (forall r :: r in index.evidence && PaymentFact(index, r) ==> PaysCase(index, r))
  {
    MatchExactly(index);
    hide Verified, Exact, PaysCase, PaymentFact, Keys;
    forall r | r in index.evidence && PaymentFact(index, r)
      ensures KeyOf(r) in Keys(index) && ((forall d :: Exact(index, KeyOf(r), d)) <==> PaysCase(index, r))
    {
      KeysAreRecords(index, KeyOf(r));
      ExactMeans(index, r);
    }
    forall k | k in Keys(index) ensures exists r :: r in index.evidence && PaymentFact(index, r) && KeyOf(r) == k {
      KeysAreRecords(index, k);
    }
  }

  /** A dimension is reported as mismatched iff some record names another value than the case's own in it. */
  lemma MismatchMeans(index: EvidenceIndex, d: IdentityDimension)
    ensures d in Verified(index).mismatch <==> exists r :: r in index.evidence && PaymentFact(index, r) && Disputes(index, r, d)
    ensures Verified(index).result == MISMATCH <==> Verified(index).mismatch != {}
  {
    hide Disputes, PaymentFact, Keys, MarkOf;
    if r :| r in index.evidence && PaymentFact(index, r) && Disputes(index, r, d) {
      KeysAreRecords(index, KeyOf(r));
      MarkMeans(index, r, d);
      MarkShows(index, KeyOf(r), d);
    }
    if d in Verified(index).mismatch {
      var w :| w in Witnesses(index) && d in w.mismatch;
      WitnessMarks(index, w, d);
      KeysAreRecords(index, w.key);
      var r :| r in index.evidence && PaymentFact(index, r) && KeyOf(r) == w.key;
      MarkMeans(index, r, d);
    }
  }
}
