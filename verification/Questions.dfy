/** When each of the thirteen questions is asked, and which facts answer it. */
module Questions {
  import opened Domain
  import opened Index
  import opened Rules
  import opened RuleFacts
  import opened Propositions
  import opened Gaps

  /** Some fact of the case, however old or poor, is about `claim`. */
  predicate Mentioned(index: EvidenceIndex, claim: Claim) { exists e :: e in index.evidence && e.claim == claim }

  /** The callback tools were asked without finding anything. */
  predicate CallbackLookup(e: Evidence) { e.claim == SourceLookupStatus && (e.tool == CallbackTool || e.tool == CallbackRawTool) }

  predicate SomeWrongType(index: EvidenceIndex) { exists m :: m in index.evidence && WrongType(index, m) }

  /** A callback was received and a message of it ended, in failure or consumed. */
  predicate Ending(index: EvidenceIndex, g: Evidence, m: Evidence) { FailedFor(index, g, m) || Handled(index, g, m, CONSUMED) }

  predicate SomeEnding(index: EvidenceIndex) {
    exists g, m :: g in index.evidence && m in index.evidence && Ending(index, g, m)
  }

  /** A current fund status says SUCCESS, and no current rival of it says otherwise. */
  predicate FundSucceeded(index: EvidenceIndex, e: Evidence) {
    && e in CurrentOf(index, FundBusinessStatus) && e.value == Word(SUCCESS)
    && forall o :: o in CurrentOf(index, FundBusinessStatus) && RivalryOf(o) == RivalryOf(e) ==> o.value == Word(SUCCESS)
  }

  predicate Asked(index: EvidenceIndex, name: GapName) {
    match name
    case IdentityGap => true
    case FinalityGap => true
    case HttpGap => Mentioned(index, HttpResponseStatus) || Mentioned(index, PaymentFinality)
    case AssociationGap => Mentioned(index, HttpResponseStatus) || Mentioned(index, PaymentFinality)
    case TraceGap =>
      (exists e :: e in index.evidence && Says(index, e, RequestSent, Flag(false), TraceTool))
      <==> exists e :: e in index.evidence && Says(index, e, RequestSent, Flag(true), TraceTool)
    case GatewayGap =>
      Matches(index) || Mentioned(index, CallbackGatewayReceived) || exists e :: e in index.evidence && CallbackLookup(e)
    case ConsumptionGap => (exists e :: e in index.evidence && Received(index, e)) || Mentioned(index, MessageConsumeStatus)
    case EventGap => Mentioned(index, MessageConsumeStatus) && !SomeEnding(index)
    case FailureDetailsGap => exists e :: e in index.evidence && Says(index, e, MessageConsumeStatus, Word(FAILED), MessagesTool)
    case DeployedSchemaGap => SomeWrongType(index)
    case SchemaProtocolGap => SomeWrongType(index) && !SomeOutdated(index)
    case FundProtocolGap => Mentioned(index, ProtocolBusinessSemantics) || exists e :: e in index.evidence && FundSucceeded(index, e)
    case AssetGap => true
  }

  predicate TraceLink(index: EvidenceIndex, e: Evidence) {
    e in CurrentOf(index, HttpResponseStatus) && e.fundRequestId.Some? && e.fundRequestId == RequestId(index)
  }

  /** The payment source names the request of this transaction as the case's own. */
  predicate NamesRequest(index: EvidenceIndex, e: Evidence) {
    && RequestId(index).Some? && OfRequest(index, e)
    && Says(index, e, TransactionFundRequestId, Word(RequestId(index).value), PaymentTool)
  }

  predicate Finality(index: EvidenceIndex, e: Evidence, value: Text) {
    Says(index, e, PaymentFinality, Word(value), PaymentTool) && OfRequest(index, e)
  }

  /** A payment fact about the request: its own link, or else a denial, or else a pending finality. */
  predicate PaymentLink(index: EvidenceIndex, e: Evidence) {
    if exists o :: o in index.evidence && NamesRequest(index, o) then NamesRequest(index, e)
    else if exists o :: o in index.evidence && Finality(index, o, NOT_EXECUTED) then Finality(index, e, NOT_EXECUTED)
    else Finality(index, e, PENDING)
  }

  /** Fact `e` answers the question. */
  predicate Answers(index: EvidenceIndex, name: GapName, e: Evidence) {
    match name
    case IdentityGap => MatchFact(index, e)
    case FinalityGap =>
      || Says(index, e, PaymentFinality, Word(SETTLED), PaymentTool) || Says(index, e, PaymentFinality, Word(NOT_EXECUTED), PaymentTool)
    case HttpGap =>
      && OfRequest(index, e)
      && (|| Says(index, e, HttpResponseStatus, Word(OK), TraceTool) || Says(index, e, HttpResponseStatus, Word(TIMEOUT), TraceTool)
          || Says(index, e, HttpResponseStatus, Word(NOT_ATTEMPTED), TraceTool))
    case AssociationGap =>
      && (exists o :: o in index.evidence && TraceLink(index, o)) && (exists o :: o in index.evidence && PaymentLink(index, o))
      && (TraceLink(index, e) || PaymentLink(index, e))
    case GatewayGap => Received(index, e)
    case ConsumptionGap => exists g, m :: g in index.evidence && m in index.evidence && Ending(index, g, m) && (e == g || e == m)
    case FailureDetailsGap => exists m :: m in index.evidence && WrongType(index, m) && PartOf(index, m, e)
    case FundProtocolGap => Decide(index, H8).status.Confirmed? && Confirming(index, H8, e)
    case AssetGap =>
      || (Decide(index, H7).status.Confirmed? && Confirming(index, H7, e))
      || (Decide(index, H7).status.Eliminated? && Eliminating(index, H7, e))
    case _ => false
  }

  // ---- asking ----

  lemma MentionedExactly(index: EvidenceIndex, claim: Claim)
    ensures All(index, claim) != {} <==> Mentioned(index, claim)
  {
    if e :| e in index.evidence && e.claim == claim { assert e in All(index, claim); }
  }

  lemma GatewayContextMeans(index: EvidenceIndex)
    ensures GatewayContext(index) <==> Asked(index, GatewayGap)
  {
    MatchShows(index);
    MentionedExactly(index, CallbackGatewayReceived);
    hide SettledWitness, Matches, Mentioned;
    if e :| e in index.evidence && CallbackLookup(e) { assert e in All(index, SourceLookupStatus); }
  }

  lemma ReceivedExist(index: EvidenceIndex)
    ensures Gateway(index) != {} <==> exists e :: e in index.evidence && Received(index, e)
  {
    hide Gateway, Received;
    if e :| e in Gateway(index) { GatewayMeans(index, e); }
    if e :| e in index.evidence && Received(index, e) { GatewayMeans(index, e); }
  }

  lemma ConsumptionMeans(index: EvidenceIndex, e: Evidence)
    ensures e in Consumption(index) <==> Answers(index, ConsumptionGap, e)
  {
    hide CallbackPairs, PairFacts, FailedFor, Handled, Ended;
    PairFactsMean(index, FAILED, e);
    PairFactsMean(index, CONSUMED, e);
    forall g, m
      ensures (FailedFor(index, g, m) <==> Ended(index, g, m, FAILED)) && (Handled(index, g, m, CONSUMED) <==> Ended(index, g, m, CONSUMED))
    {
      FailedEnds(index, g, m);
    }
  }

  lemma EndingsExist(index: EvidenceIndex)
    ensures Consumption(index) != {} <==> SomeEnding(index)
  {
    hide Consumption, Ending;
    if e :| e in Consumption(index) { ConsumptionMeans(index, e); }
    if SomeEnding(index) {
      var g, m :| g in index.evidence && m in index.evidence && Ending(index, g, m);
      ConsumptionMeans(index, g);
    }
  }

  lemma FundSucceededExist(index: EvidenceIndex)
    ensures Agreed(index, FundBusinessStatus, Word(SUCCESS)) != {} <==> exists e :: e in index.evidence && FundSucceeded(index, e)
  {
    CurrentIsEvidence(index, FundBusinessStatus);
    hide CurrentOf;
    if e :| e in index.evidence && FundSucceeded(index, e) { assert e in Agreed(index, FundBusinessStatus, Word(SUCCESS)); }
  }

  lemma WrongTypeFails(index: EvidenceIndex)
    ensures SomeWrongType(index) ==> Messages(index, FAILED) != {}
    ensures MismatchFacts(index) != {} <==> SomeWrongType(index)
  {
    MismatchesExist(index);
    hide MismatchFacts, Says, RecordedAs, OtherType;
    if m :| m in index.evidence && WrongType(index, m) { FactsMean(index, MessageConsumeStatus, Word(FAILED), MessagesTool, m); }
  }

  /** Each question is asked exactly when its circumstances are in evidence. */
  lemma AskedExactly(index: EvidenceIndex, name: GapName)
    ensures Raised(index, name) <==> Asked(index, name)
  {
    hide All, Mentioned, Matches, Decide, Messages, MismatchFacts, Gateway, Consumption, Agreed, FundSucceeded, Received, Says, SomeWrongType,
         SomeEnding, SomeOutdated, GatewayContext;
    match name
    case IdentityGap => case FinalityGap => case AssetGap =>
    case HttpGap => MentionedExactly(index, HttpResponseStatus); MentionedExactly(index, PaymentFinality);
    case AssociationGap => MentionedExactly(index, HttpResponseStatus); MentionedExactly(index, PaymentFinality);
    case TraceGap => NotSent(index);
    case GatewayGap => GatewayContextMeans(index);
    case ConsumptionGap => ReceivedExist(index); MentionedExactly(index, MessageConsumeStatus);
    case EventGap => EndingsExist(index); MentionedExactly(index, MessageConsumeStatus);
    case FailureDetailsGap => AnySays(index, MessageConsumeStatus, Word(FAILED), MessagesTool); FailedMessages(index);
    case DeployedSchemaGap => WrongTypeFails(index);
    case SchemaProtocolGap => WrongTypeFails(index); StaleConsumer(index);
    case FundProtocolGap => FundSucceededExist(index); MentionedExactly(index, ProtocolBusinessSemantics);
  }

  lemma FailedMessages(index: EvidenceIndex)
    ensures Messages(index, FAILED) == Facts(index, MessageConsumeStatus, Word(FAILED), {MessagesTool})
  {
  }

  // ---- answering ----

  lemma TraceLinksExist(index: EvidenceIndex)
    ensures (exists e :: e in index.evidence && TraceLink(index, e)) <==>
      (set e | e in CurrentOf(index, HttpResponseStatus) && e.fundRequestId.Some? && e.fundRequestId == RequestId(index)) != {}
  {
    CurrentIsEvidence(index, HttpResponseStatus);
    hide CurrentOf, RequestId;
    var links := set e | e in CurrentOf(index, HttpResponseStatus) && e.fundRequestId.Some? && e.fundRequestId == RequestId(index);
    if e :| e in index.evidence && TraceLink(index, e) { assert e in links; }
  }

  function Named(index: EvidenceIndex): set<Evidence> {
    if RequestId(index).Some? then RequestFacts(index, TransactionFundRequestId, RequestId(index).value, PaymentTool) else {}
  }

  lemma NamedMeans(index: EvidenceIndex, e: Evidence)
    ensures e in Named(index) <==> NamesRequest(index, e)
    ensures NamesRequest(index, e) ==> e in index.evidence
  {
    if RequestId(index).Some? { RequestMeans(index, TransactionFundRequestId, RequestId(index).value, PaymentTool, e); }
    hide RequestFacts, Says, OfRequest, RequestId;
  }

  lemma FinalityMeans(index: EvidenceIndex, e: Evidence, value: Text)
    ensures e in Payment(index, value) <==> Finality(index, e, value)
    ensures Finality(index, e, value) ==> e in index.evidence
  {
    RequestMeans(index, PaymentFinality, value, PaymentTool, e);
    hide RequestFacts, Says, OfRequest;
  }

  function PaymentLinks(index: EvidenceIndex): set<Evidence> {
    if Named(index) != {} then Named(index)
    else if Payment(index, NOT_EXECUTED) != {} then Payment(index, NOT_EXECUTED) else Payment(index, PENDING)
  }

  lemma PaymentLinksMean(index: EvidenceIndex, e: Evidence)
    ensures e in PaymentLinks(index) <==> PaymentLink(index, e)
    ensures PaymentLink(index, e) ==> e in index.evidence
  {
    forall o ensures (o in Named(index) <==> NamesRequest(index, o)) && (NamesRequest(index, o) ==> o in index.evidence) { NamedMeans(index, o); }
    forall o ensures (o in Payment(index, NOT_EXECUTED) <==> Finality(index, o, NOT_EXECUTED))
                     && (Finality(index, o, NOT_EXECUTED) ==> o in index.evidence) { FinalityMeans(index, o, NOT_EXECUTED); }
    FinalityMeans(index, e, PENDING);
    hide Named, NamesRequest, Payment, Finality;
  }

  lemma AssociationMeans(index: EvidenceIndex, e: Evidence)
    ensures e in AssociationWitness(index) <==> Answers(index, AssociationGap, e)
    ensures Answers(index, AssociationGap, e) ==> e in index.evidence
  {
    var links := set o | o in CurrentOf(index, HttpResponseStatus) && o.fundRequestId.Some? && o.fundRequestId == RequestId(index);
    TraceLinksExist(index);
    CurrentIsEvidence(index, HttpResponseStatus);
    assert AssociationWitness(index) == if links != {} && PaymentLinks(index) != {} then links + PaymentLinks(index) else {} by {
      hide RequestFacts, Payment, RequestId, CurrentOf;
    }
    hide AssociationWitness, PaymentLink, PaymentLinks, RequestId, CurrentOf;
    forall o ensures (o in PaymentLinks(index) <==> PaymentLink(index, o)) && (PaymentLink(index, o) ==> o in index.evidence) { PaymentLinksMean(index, o); }
  }

  /** A reference of the one fact it names. */
  lemma OneFact(index: EvidenceIndex, facts: set<Evidence>, e: Evidence)
    requires OneFactPerId(index.evidence) && facts <= index.evidence && e in index.evidence
    ensures e.id in Refs(facts) <==> e in facts
  {
  }

  lemma DecisiveMeans(index: EvidenceIndex, h: Hypothesis, e: Evidence)
    requires OneFactPerId(index.evidence)
    ensures var r := Decide(index, h);
      && (e in Gaps.ConfirmingFacts(index, h) <==> e in index.evidence && r.status.Confirmed? && Confirming(index, h, e))
      && (e in DecisiveFacts(index, h) <==>
            e in index.evidence && ((r.status.Confirmed? && Confirming(index, h, e)) || (r.status.Eliminated? && Eliminating(index, h, e))))
  {
    if e in index.evidence {
      DecisiveRefsMean(index, h, e.id);
      OneFact(index, Propositions.ConfirmingFacts(index, h), e);
      OneFact(index, EliminatingFacts(index, h), e);
    }
    hide Decide, Confirming, Eliminating, Refs;
  }

  /** Each question is answered by exactly these facts. */
  lemma AnsweredExactly(index: EvidenceIndex, name: GapName, e: Evidence)
    requires OneFactPerId(index.evidence)
    ensures e in Answer(index, name) <==> e in index.evidence && Answers(index, name, e)
  {
    hide SettledWitness, MatchFact, Facts, RequestFacts, Says, OfRequest, AssociationWitness, TraceLink, PaymentLink, Gateway, Received,
         Consumption, Ending, MismatchFacts, WrongType, PartOf, Decide, Confirming, Eliminating, Gaps.ConfirmingFacts, DecisiveFacts;
    match name
    case IdentityGap => SettledMeans(index, e);
    case FinalityGap =>
      FactsMean(index, PaymentFinality, Word(SETTLED), PaymentTool, e);
      FactsMean(index, PaymentFinality, Word(NOT_EXECUTED), PaymentTool, e);
    case HttpGap =>
      RequestMeans(index, HttpResponseStatus, OK, TraceTool, e);
      RequestMeans(index, HttpResponseStatus, TIMEOUT, TraceTool, e);
      RequestMeans(index, HttpResponseStatus, NOT_ATTEMPTED, TraceTool, e);
    case AssociationGap => AssociationMeans(index, e);
    case GatewayGap => GatewayMeans(index, e);
    case ConsumptionGap => ConsumptionMeans(index, e); ConsumptionIsEvidence(index, e);
    case FailureDetailsGap => MismatchFactsMean(index, e); MismatchesAreEvidence(index);
    case FundProtocolGap => DecisiveMeans(index, H8, e);
    case AssetGap => DecisiveMeans(index, H7, e);
    case TraceGap => case EventGap => case DeployedSchemaGap => case SchemaProtocolGap =>
  }

  lemma ConsumptionIsEvidence(index: EvidenceIndex, e: Evidence)
    ensures Answers(index, ConsumptionGap, e) ==> e in index.evidence
  {
    hide Ending;
  }

  /** The question is on the list when asked, it is closed when some fact answers it, and it refers to those facts. */
  lemma QuestionExactly(index: EvidenceIndex, name: GapName)
    requires OneFactPerId(index.evidence)
    ensures var gap := GapOf(index, name);
      && (gap in GapsOf(index) <==> Asked(index, name))
      && (gap.satisfied <==> exists e :: e in index.evidence && Answers(index, name, e))
      && forall i :: i in gap.refs <==> exists e :: e in index.evidence && e.id == i && Answers(index, name, e)
  {
    hide GapOf, GapsOf, Asked, Answers;
    Listed(index, name);
    AskedExactly(index, name);
    forall e ensures e in Answer(index, name) <==> e in index.evidence && Answers(index, name, e) { AnsweredExactly(index, name, e); }
    hide Raised, Answer;
    GapShows(index, name);
  }

  lemma Listed(index: EvidenceIndex, name: GapName)
    ensures GapOf(index, name) in GapsOf(index) <==> Raised(index, name)
  {
    EveryName(name);
    hide Names, Raised, Answer;
  }

  lemma GapShows(index: EvidenceIndex, name: GapName)
    ensures var gap := GapOf(index, name);
      && (gap.satisfied <==> exists e :: e in Answer(index, name))
      && forall i :: i in gap.refs <==> exists e :: e in Answer(index, name) && e.id == i
  {
    hide Answer;
    if e :| e in Answer(index, name) { assert Answer(index, name) != {}; }
  }

  lemma EveryName(name: GapName)
    ensures name in Names()
  {
    match name
    case IdentityGap => case FinalityGap => case HttpGap => case AssociationGap => case TraceGap => case GatewayGap =>
    case ConsumptionGap => case EventGap => case FailureDetailsGap => case DeployedSchemaGap => case SchemaProtocolGap =>
    case FundProtocolGap => case AssetGap =>
  }
}
