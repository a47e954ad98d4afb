/** Which questions the evidence leaves open. */
module Gaps {
  import opened Domain
  import opened Index
  import opened PaymentIdentity
  import opened Rules

  datatype GapName =
    | IdentityGap | FinalityGap | HttpGap | AssociationGap | TraceGap | GatewayGap | ConsumptionGap | EventGap
    | FailureDetailsGap | DeployedSchemaGap | SchemaProtocolGap | FundProtocolGap | AssetGap

  function Names(): set<GapName> {
    {IdentityGap, FinalityGap, HttpGap, AssociationGap, TraceGap, GatewayGap, ConsumptionGap, EventGap,
     FailureDetailsGap, DeployedSchemaGap, SchemaProtocolGap, FundProtocolGap, AssetGap}
  }

  datatype Gap = Gap(name: GapName, refs: set<Id>, satisfied: bool)

  /** The propositions a question bears on. */
  function HypothesesOf(name: GapName): set<Hypothesis> {
    match name
    case IdentityGap => {H2, H3, H4}
    case FinalityGap => {H2, H3, H4}
    case HttpGap => {H4}
    case AssociationGap => {H2, H3, H4}
    case TraceGap => {H1}
    case GatewayGap => {H5, H6}
    case ConsumptionGap => {H6}
    case EventGap => {H6}
    case FailureDetailsGap => {H6Schema, H6Stale}
    case DeployedSchemaGap => {H6Stale}
    case SchemaProtocolGap => {H6Stale}
    case FundProtocolGap => {H8}
    case AssetGap => {H7}
  }

  /** The claims that could answer it (some answers no tool collects). */
  function RequiredClaims(name: GapName): set<Claim> {
    match name
    case IdentityGap => {PaymentFinality, PaymentTransactionId, TransactionFundRequestId, PaymentAmount, PaymentCurrency,
                         PaymentCustomerRef, PaymentBeneficiaryRef, PaymentAccountRef}
    case FinalityGap => {PaymentFinality}
    case HttpGap => {HttpResponseStatus}
    case AssociationGap => {PaymentFinality}
    case TraceGap => {RequestSent}
    case GatewayGap => {CallbackGatewayReceived}
    case ConsumptionGap => {MessageConsumeStatus}
    case EventGap => {}
    case FailureDetailsGap => {MessageErrorCode, MessageErrorField, MessageExpectedFieldType, MessageActualFieldType}
    case DeployedSchemaGap => {}
    case SchemaProtocolGap => {CallbackProtocolVersion, ProtocolFieldType}
    case FundProtocolGap => {ProtocolBusinessSemantics}
    case AssetGap => {GuaranteeStatus, AssetDeliveryStatus, AssetStatus}
  }

  predicate SafetyCritical(name: GapName) {
    name.IdentityGap? || name.FinalityGap? || name.AssociationGap? || name.FundProtocolGap?
  }

  /** Trace and payment both name the one original request. */
  function AssociationWitness(index: EvidenceIndex): set<Evidence> {
    var links := set e | e in CurrentOf(index, HttpResponseStatus) && e.fundRequestId.Some? && e.fundRequestId == RequestId(index);
    var named := if RequestId(index).Some? then RequestFacts(index, TransactionFundRequestId, RequestId(index).value, PaymentTool) else {};
    var payments := if named != {} then named
      else if Payment(index, NOT_EXECUTED) != {} then Payment(index, NOT_EXECUTED) else Payment(index, PENDING);
    if links != {} && payments != {} then links + payments else {}
  }

  function DecisiveFacts(index: EvidenceIndex, h: Hypothesis): set<Evidence> {
    set e | e in index.evidence && e.id in Decide(index, h).relations && Decide(index, h).relations[e.id].Decisive()
  }

  function ConfirmingFacts(index: EvidenceIndex, h: Hypothesis): set<Evidence> {
    set e | e in index.evidence && e.id in Decide(index, h).relations && Decide(index, h).relations[e.id].DecisiveSupport?
  }

  predicate GatewayContext(index: EvidenceIndex) {
    || SettledWitness(index) != {} || All(index, CallbackGatewayReceived) != {}
    || exists e :: e in All(index, SourceLookupStatus) && (e.tool == CallbackTool || e.tool == CallbackRawTool)
  }

  function Consumption(index: EvidenceIndex): set<Evidence> {
    PairFacts(CallbackPairs(index, FAILED)) + PairFacts(CallbackPairs(index, CONSUMED))
  }

  /** Is the question asked at all of this evidence? */
  predicate Raised(index: EvidenceIndex, name: GapName) {
    match name
    case IdentityGap => true
    case FinalityGap => true
    case HttpGap => All(index, HttpResponseStatus) != {} || All(index, PaymentFinality) != {}
    case AssociationGap => All(index, HttpResponseStatus) != {} || All(index, PaymentFinality) != {}
    case TraceGap => !Decide(index, H1).status.Confirmed? && !Decide(index, H1).status.Eliminated?
    case GatewayGap => GatewayContext(index)
    case ConsumptionGap => Gateway(index) != {} || All(index, MessageConsumeStatus) != {}
    case EventGap => All(index, MessageConsumeStatus) != {} && Consumption(index) == {}
    case FailureDetailsGap => Messages(index, FAILED) != {}
    case DeployedSchemaGap => Messages(index, FAILED) != {} && MismatchFacts(index) != {}
    case SchemaProtocolGap =>
      Messages(index, FAILED) != {} && MismatchFacts(index) != {} && !Decide(index, H6Stale).status.Supported?
    case FundProtocolGap => All(index, ProtocolBusinessSemantics) != {} || Agreed(index, FundBusinessStatus, Word(SUCCESS)) != {}
    case AssetGap => true
  }

  /** The facts that answer it. */
  function Answer(index: EvidenceIndex, name: GapName): set<Evidence> {
    match name
    case IdentityGap => SettledWitness(index)
    case FinalityGap =>
      Facts(index, PaymentFinality, Word(SETTLED), {PaymentTool}) + Facts(index, PaymentFinality, Word(NOT_EXECUTED), {PaymentTool})
    case HttpGap =>
      RequestFacts(index, HttpResponseStatus, OK, TraceTool) + RequestFacts(index, HttpResponseStatus, TIMEOUT, TraceTool)
      + RequestFacts(index, HttpResponseStatus, NOT_ATTEMPTED, TraceTool)
    case AssociationGap => AssociationWitness(index)
    case TraceGap => {}
    case GatewayGap => Gateway(index)
    case ConsumptionGap => Consumption(index)
    case EventGap => {}
    case FailureDetailsGap => MismatchFacts(index)
    case DeployedSchemaGap => {}
    case SchemaProtocolGap => {}
    case FundProtocolGap => if Decide(index, H8).status.Confirmed? then ConfirmingFacts(index, H8) else {}
    case AssetGap => DecisiveFacts(index, H7)
  }

  function GapOf(index: EvidenceIndex, name: GapName): Gap { Gap(name, Refs(Answer(index, name)), Answer(index, name) != {}) }

  function GapsOf(index: EvidenceIndex): set<Gap> { set n | n in Names() && Raised(index, n) :: GapOf(index, n) }

  method DeriveGaps(index: EvidenceIndex) returns (gaps: set<Gap>)
    ensures gaps == GapsOf(index)
  {
    hide Raised, GapOf;
    gaps := {};
    var rest := Names();
    while rest != {}
      invariant rest <= Names()
      invariant gaps == set n | n in Names() - rest && Raised(index, n) :: GapOf(index, n)
    {
      var name :| name in rest;
      if Raised(index, name) { gaps := gaps + {GapOf(index, name)}; }
      rest := rest - {name};
    }
    assert Names() - rest == Names();
  }

  /** The protocol question is answered exactly when H8 is confirmed. */
  lemma FundProtocolAnswered(index: EvidenceIndex)
    requires OneFactPerId(index.evidence)
    ensures Answer(index, FundProtocolGap) != {} <==> Decide(index, H8).status.Confirmed?
  {
    DecidedExactly(index, H8);
    hide Decide;
    var r := Decide(index, H8);
    if r.status.Confirmed? {
      var i :| i in r.relations && r.relations[i] == DecisiveSupport;
      DecisiveRefsAreCurrent(index, H8, i);
      var e: Evidence :| e.id == i && CurrentPrimary(index, e) && Usable(index, e);
      CurrentHasClaim(index, e.claim, e);
      assert e in ConfirmingFacts(index, H8);
    }
  }

  /** The identity question is answered exactly when the identity matches. */
  lemma IdentityAnswered(index: EvidenceIndex)
    ensures Answer(index, IdentityGap) != {} <==> Verified(index).result == MATCH
  {
    hide Verified, SettledWitness;
    MatchHasWitness(index);
  }
}
