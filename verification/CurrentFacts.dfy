/** What is current, and which request a case is about, over the fields of the evidence. */
module CurrentFacts {
  import opened Domain
  import opened Index

  /** A complete and fresh fact with a source instant, which every failed lookup of the same tool and query precedes. */
  predicate Reliable(index: EvidenceIndex, e: Evidence) {
    && e.freshness == Freshness.Current && e.completeness == Complete && e.sourceAsOf.Some?
    && forall l :: l in index.evidence && l.claim == SourceLookupStatus && l.tool == e.tool && l.scope == e.scope
         ==> l.observedAt < e.observedAt
  }

  /** `at` is the instant of the event, else of the source, else of the lookup. */
  predicate AsOf(e: Evidence, at: Time) {
    || e.eventTime == Some(at)
    || (e.eventTime.None? && e.sourceAsOf == Some(at))
    || (e.eventTime.None? && e.sourceAsOf.None? && e.observedAt == at)
  }

  /** Two facts answer one question: about one subject and, for protocol documents, one version. */
  predicate SameQuestion(a: Evidence, b: Evidence) {
    && a.subject == b.subject
    && (if a.tool == ProtocolTool then a.protocolVersion else None) == (if b.tool == ProtocolTool then b.protocolVersion else None)
  }

  lemma UsableMeans(index: EvidenceIndex, e: Evidence)
    ensures Usable(index, e) <==> Reliable(index, e)
  {
  }

  lemma RivalMeans(a: Evidence, b: Evidence)
    ensures RivalryOf(a) == RivalryOf(b) <==> SameQuestion(a, b)
  {
  }

  lemma InstantMeans(e: Evidence, at: Time)
    ensures AsOf(e, at) <==> at == BusinessTime(e)
  {
  }

  /** A fact is current iff it is reliable and no reliable fact answers the same question as of a later instant. */
  lemma CurrentExactly(index: EvidenceIndex, claim: Claim, e: Evidence)
    ensures e in CurrentOf(index, claim) <==>
      && e in index.evidence && e.claim == claim && Reliable(index, e)
      && forall o, earlier, later ::
           (o in index.evidence && o.claim == claim && Reliable(index, o) && SameQuestion(o, e) && AsOf(o, later) && AsOf(e, earlier))
           ==> later <= earlier
  {
    forall o
      ensures Usable(index, o) <==> Reliable(index, o)
      ensures RivalryOf(o) == RivalryOf(e) <==> SameQuestion(o, e)
      ensures AsOf(o, BusinessTime(o))
    {
      UsableMeans(index, o);
      RivalMeans(o, e);
      InstantMeans(o, BusinessTime(o));
    }
    forall o, at ensures AsOf(o, at) <==> at == BusinessTime(o) { InstantMeans(o, at); }
    hide Usable, Reliable, RivalryOf, SameQuestion, AsOf, BusinessTime;
  }

  // ---- the request ----

  /** A current trace or guarantee fact, from its primary source, names a request. */
  predicate TraceNames(index: EvidenceIndex, e: Evidence) {
    && e.claim in {RequestSent, HttpResponseStatus, GuaranteeStatus} && e in CurrentOf(index, e.claim)
    && e.sourceKind == Primary && (e.tool == TraceTool || e.tool == GuaranteeTool) && e.fundRequestId.Some?
  }

  /** A current fund record is about a request. */
  predicate FundNames(index: EvidenceIndex, e: Evidence) {
    e in CurrentOf(index, FundBusinessStatus) && e.tool == FundTool && e.sourceKind == Primary && e.subject.kind == FundRequestSubject
  }

  lemma TraceAnchorsMean(index: EvidenceIndex, r: Text)
    ensures r in TraceAnchors(index) <==> exists e :: e in index.evidence && TraceNames(index, e) && e.fundRequestId == Some(r)
  {
    hide CurrentOf;
    if r in TraceAnchors(index) {
      var e :| e in CurrentOf(index, RequestSent) + CurrentOf(index, HttpResponseStatus) + CurrentOf(index, GuaranteeStatus)
        && e.fundRequestId.Some? && e.sourceKind == Primary && (e.tool == TraceTool || e.tool == GuaranteeTool) && e.fundRequestId.value == r;
      var claim :| claim in {RequestSent, HttpResponseStatus, GuaranteeStatus} && e in CurrentOf(index, claim);
      CurrentIsUsable(index, claim, e);
    }
  }

  lemma FundAnchorsMean(index: EvidenceIndex, r: Text)
    ensures r in FundAnchors(index) <==> exists e :: e in index.evidence && FundNames(index, e) && e.subject.identifier == r
  {
    hide CurrentOf;
    forall e | e in CurrentOf(index, FundBusinessStatus) ensures e in index.evidence { CurrentIsUsable(index, FundBusinessStatus, e); }
  }

  lemma OnlyMeans(s: set<Text>, r: Text)
    ensures TheOnly(s) == Some(r) <==> r in s && forall a :: a in s ==> a == r
  {
    if r in s && forall a :: a in s ==> a == r { assert s == {r}; }
  }

  /** The trace and guarantee facts name one request, `r`. */
  predicate TracesAgree(index: EvidenceIndex, r: Text) {
    forall e :: e in index.evidence && TraceNames(index, e) ==> e.fundRequestId == Some(r)
  }

  /** The fund records are about one request, `r`. */
  predicate FundsAgree(index: EvidenceIndex, r: Text) {
    && (exists e :: e in index.evidence && FundNames(index, e))
    && forall e :: e in index.evidence && FundNames(index, e) ==> e.subject.identifier == r
  }

  lemma TracesMean(index: EvidenceIndex, r: Text)
    ensures TraceAnchors(index) != {} <==> exists e :: e in index.evidence && TraceNames(index, e)
    ensures TheOnly(TraceAnchors(index)) == Some(r) <==>
      (exists e :: e in index.evidence && TraceNames(index, e)) && TracesAgree(index, r)
  {
    OnlyMeans(TraceAnchors(index), r);
    assert forall e :: TraceNames(index, e) ==> e.fundRequestId.Some?;
    hide TraceAnchors, TraceNames, TheOnly;
    forall e | e in index.evidence && TraceNames(index, e) ensures e.fundRequestId.value in TraceAnchors(index) {
      TraceAnchorsMean(index, e.fundRequestId.value);
    }
    forall a | a in TraceAnchors(index) ensures exists e :: e in index.evidence && TraceNames(index, e) && e.fundRequestId == Some(a) {
      TraceAnchorsMean(index, a);
    }
  }

  lemma FundsMean(index: EvidenceIndex, r: Text)
    ensures TheOnly(FundAnchors(index)) == Some(r) <==> FundsAgree(index, r)
  {
    OnlyMeans(FundAnchors(index), r);
    hide FundAnchors, FundNames, TheOnly;
    forall e | e in index.evidence && FundNames(index, e) ensures e.subject.identifier in FundAnchors(index) {
      FundAnchorsMean(index, e.subject.identifier);
    }
    forall a | a in FundAnchors(index) ensures exists e :: e in index.evidence && FundNames(index, e) && e.subject.identifier == a {
      FundAnchorsMean(index, a);
    }
  }

  /** The request of the case is the one its trace and guarantee facts agree on; only without any of them, the one its
      fund records agree on. */
  lemma RequestExactly(index: EvidenceIndex, r: Text)
    ensures RequestId(index) == Some(r) <==>
      if exists e :: e in index.evidence && TraceNames(index, e) then TracesAgree(index, r) else FundsAgree(index, r)
  {
    hide TraceAnchors, FundAnchors, TraceNames, TracesAgree, FundsAgree, TheOnly;
    TracesMean(index, r);
    FundsMean(index, r);
  }
}
