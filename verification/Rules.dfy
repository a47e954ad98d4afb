/** The hypothesis rules: ten propositions decided from indexed evidence only. */
module Rules {
  import opened Domain
  import opened Index
  import opened PaymentIdentity

  datatype Hypothesis = H1 | H2 | H3 | H4 | H5 | H6 | H6Schema | H6Stale | H7 | H8

  datatype HypothesisStatus = Unknown | Possible | Supported | Confirmed | Eliminated

  datatype Relation = ContextOnly | Supports | Contradicts | DecisiveSupport | DecisiveContradiction {
    predicate Decisive() { DecisiveSupport? || DecisiveContradiction? }
  }

  datatype RuleResult = RuleResult(status: HypothesisStatus, relations: map<Id, Relation>)

  function Parent(h: Hypothesis): Option<Hypothesis> {
    if h.H6Schema? || h.H6Stale? then Some(H6) else None
  }

  const FAILURE_CLAIMS: set<Claim> := {CallbackGatewayReceived, MessageConsumeStatus, MessageErrorCode, MessageErrorField,
                                       MessageExpectedFieldType, MessageActualFieldType}

  /** The claims whose facts are shown beside a proposition, whatever they say. */
  function Relevant(h: Hypothesis): set<Claim> {
    match h
    case H1 => {RequestSent}
    case H2 => {FundBusinessStatus, PaymentFinality, TransactionFundRequestId, SourceLookupStatus}
    case H3 => {FundBusinessStatus, PaymentFinality, TransactionFundRequestId}
    case H4 => {HttpResponseStatus, PaymentFinality, TransactionFundRequestId}
    case H5 => {SourceLookupStatus, CallbackGatewayReceived}
    case H6 => {CallbackGatewayReceived, CallbackSignatureVerified, MessageConsumeStatus}
    case H6Schema => FAILURE_CLAIMS
    case H6Stale => FAILURE_CLAIMS + {CallbackProtocolVersion, ProtocolFieldType, ConsumerDeployedSchemaVersion,
                                      ConsumerAcceptedProtocolVersion, ConsumerLoanNoFieldType}
    case H7 => {GuaranteeStatus, AssetDeliveryStatus, AssetDeliveryEventRef, AssetStatus}
    case H8 => {ProtocolBusinessSemantics, GuaranteeStatus}
  }

  // ---- facts ----

  /** Agreed facts of a value from primary sources of the given tools. */
  function Facts(index: EvidenceIndex, claim: Claim, value: Value, tools: set<Tool>): set<Evidence> {
    set e | e in Agreed(index, claim, value) && e.tool in tools && e.sourceKind == Primary
  }

  function RequestFacts(index: EvidenceIndex, claim: Claim, value: Text, tool: Tool): set<Evidence> {
    ForRequest(index, Facts(index, claim, Word(value), {tool}))
  }

  function Payment(index: EvidenceIndex, value: Text): set<Evidence> {
    RequestFacts(index, PaymentFinality, value, PaymentTool)
  }

  /** All facts of a matching payment identity, or nothing. */
  function SettledWitness(index: EvidenceIndex): set<Evidence> {
    if Verified(index).result == MATCH then set e | e in index.evidence && e.id in Verified(index).refs else {}
  }

  function Gateway(index: EvidenceIndex): set<Evidence> {
    Facts(index, CallbackGatewayReceived, Flag(true), {CallbackTool, CallbackRawTool})
  }

  function Messages(index: EvidenceIndex, value: Text): set<Evidence> {
    Facts(index, MessageConsumeStatus, Word(value), {MessagesTool})
  }

  datatype Pair = Pair(gateway: Evidence, message: Evidence)

  /** A message consumed (or failed) after the gateway received the same callback event. */
  predicate Follows(p: Pair) {
    && p.message.callbackEventId == Some(p.gateway.subject.identifier)
    && p.gateway.eventTime.Some? && p.message.eventTime.Some? && p.gateway.eventTime.value <= p.message.eventTime.value
  }

  /** A later consumption of the same callback event overrides a failure. */
  predicate Superseded(index: EvidenceIndex, p: Pair)
    requires p.message.eventTime.Some?
  {
    exists m :: m in Messages(index, CONSUMED) && m.callbackEventId == Some(p.gateway.subject.identifier)
      && m.eventTime.Some? && m.eventTime.value >= p.message.eventTime.value
  }

  predicate Paired(index: EvidenceIndex, value: Text, p: Pair) {
    && p.gateway in Gateway(index) && p.message in Messages(index, value)
    && Follows(p) && (value == FAILED ==> !Superseded(index, p))
  }

  function CallbackPairs(index: EvidenceIndex, value: Text): set<Pair> {
    set g, m | g in Gateway(index) && m in Messages(index, value) && Paired(index, value, Pair(g, m)) :: Pair(g, m)
  }

  function PairFacts(pairs: set<Pair>): set<Evidence> {
    (set p | p in pairs :: p.gateway) + (set p | p in pairs :: p.message)
  }

  /** Facts of `claim` recorded with the failed message itself: same record, observation and instant. */
  function Detail(index: EvidenceIndex, failed: Evidence, claim: Claim): set<Evidence> {
    set e | e in CurrentOf(index, claim) && e.tool == MessagesTool && e.subject == failed.subject
      && e.observationId == failed.observationId && e.eventTime == failed.eventTime
      && e.callbackEventId == failed.callbackEventId && e.contentHash == failed.contentHash && e.sourceKind == Primary
  }

  function DetailValues(index: EvidenceIndex, failed: Evidence, claim: Claim): set<Value> {
    set e | e in Detail(index, failed, claim) :: e.value
  }

  /** The failed message carries a complete and unambiguous loanNo type mismatch. */
  predicate SchemaFailure(index: EvidenceIndex, failed: Evidence) {
    && failed in Messages(index, FAILED)
    && DetailValues(index, failed, MessageErrorCode) == {Word(CALLBACK_SCHEMA_MISMATCH)}
    && DetailValues(index, failed, MessageErrorField) == {Word(LOAN_NO)}
    && One(DetailValues(index, failed, MessageExpectedFieldType)) && One(DetailValues(index, failed, MessageActualFieldType))
    && DetailValues(index, failed, MessageExpectedFieldType) != DetailValues(index, failed, MessageActualFieldType)
  }

  function MismatchGroup(index: EvidenceIndex, failed: Evidence): set<Evidence> {
    {failed} + Detail(index, failed, MessageErrorCode) + Detail(index, failed, MessageErrorField)
    + Detail(index, failed, MessageExpectedFieldType) + Detail(index, failed, MessageActualFieldType)
  }

  function Mismatches(index: EvidenceIndex): set<Evidence> {
    set m | m in Messages(index, FAILED) && SchemaFailure(index, m)
  }

  function MismatchFacts(index: EvidenceIndex): set<Evidence> {
    set m, e | m in Mismatches(index) && e in MismatchGroup(index, m) :: e
  }

  /** Gateway facts and failure details of schema failures whose callback reached the gateway. */
  function SchemaWitness(index: EvidenceIndex): set<Evidence> {
    set p, e | p in CallbackPairs(index, FAILED) && SchemaFailure(index, p.message)
      && e in {p.gateway} + MismatchGroup(index, p.message) :: e
  }

  function PartnerOf(document: Text): Text {
    match document case PartnerVersion(partner, _) => partner case _ => document
  }

  predicate LoanNoDoc(e: Evidence) { e.subject.field == Some(LOAN_NO) }

  /** `version` names the version of the failing message's callback, `doc` documents it, and `older` is an earlier
      document of the same partner. */
  predicate Versions(message: Evidence, version: Evidence, doc: Evidence, older: Evidence) {
    && Some(version.subject.identifier) == message.callbackEventId
    && LoanNoDoc(doc) && doc.protocolVersion.Some? && version.value == Word(doc.protocolVersion.value)
    && LoanNoDoc(older) && PartnerOf(older.subject.identifier) == PartnerOf(doc.subject.identifier)
    && older.protocolVersion != doc.protocolVersion
    && older.eventTime.Some? && doc.eventTime.Some? && older.eventTime.value < doc.eventTime.value
  }

  /** The version of the callback documents the type the message carried, and an earlier one the type the consumer expected. */
  predicate Stale(index: EvidenceIndex, message: Evidence, version: Evidence, doc: Evidence, older: Evidence) {
    && Versions(message, version, doc, older)
    && doc.value in DetailValues(index, message, MessageActualFieldType)
    && older.value in DetailValues(index, message, MessageExpectedFieldType)
  }

  function StaleSupport(index: EvidenceIndex): set<Evidence> {
    set p, version, doc, older, e | p in CallbackPairs(index, FAILED) && SchemaFailure(index, p.message)
      && version in CurrentOf(index, CallbackProtocolVersion)
      && doc in CurrentOf(index, ProtocolFieldType) && older in CurrentOf(index, ProtocolFieldType)
      && Stale(index, p.message, version, doc, older)
      && e in {p.gateway, version, doc, older} + MismatchGroup(index, p.message) :: e
  }

  function Semantics(index: EvidenceIndex): set<Evidence> {
    set e | e in Facts(index, ProtocolBusinessSemantics, Word(LOAN_CREATED_PAYMENT_SEPARATE), {ProtocolTool})
      && e.subject.field == Some(SUCCESS)
  }

  /** Guarantee facts that bind the original request to a protocol version. */
  function Bindings(index: EvidenceIndex): set<Evidence> {
    ForRequest(index, set e | e in CurrentOf(index, GuaranteeStatus) && e.tool == GuaranteeTool && e.protocolVersion.Some?
                        && e.fundRequestId.Some? && e.sourceKind == Primary)
  }

  function SuccessDocs(index: EvidenceIndex, version: Option<Text>): set<Evidence> {
    set e | e in CurrentOf(index, ProtocolBusinessSemantics) && e.tool == ProtocolTool && e.subject.field == Some(SUCCESS)
      && e.protocolVersion == version
  }

  function VersionDocs(index: EvidenceIndex, version: Option<Text>): set<Evidence> {
    set e | e in Semantics(index) && e.protocolVersion == version
  }

  /** Every current SUCCESS document of the bound version is one document, and it keeps payment separate. */
  predicate Applicable(index: EvidenceIndex, binding: Evidence) {
    && (forall o :: o in Bindings(index) ==> o.protocolVersion == binding.protocolVersion)
    && VersionDocs(index, binding.protocolVersion) != {}
    && forall a, b :: a in SuccessDocs(index, binding.protocolVersion) && b in SuccessDocs(index, binding.protocolVersion)
         ==> a.subject.identifier == b.subject.identifier
  }

  function ApplicableFacts(index: EvidenceIndex): set<Evidence> {
    set b, e | b in Bindings(index) && Applicable(index, b) && e in {b} + VersionDocs(index, b.protocolVersion) :: e
  }

  // ---- the ten rules ----

  datatype Grounds = Grounds(support: set<Evidence>, contradict: set<Evidence>, confirm: set<Evidence>, eliminate: set<Evidence>)

  function FundRecords(index: EvidenceIndex): set<Evidence> {
    RequestFacts(index, FundBusinessStatus, PROCESSING, FundTool) + RequestFacts(index, FundBusinessStatus, SUCCESS, FundTool)
    + RequestFacts(index, FundBusinessStatus, FAILED, FundTool)
  }

  function Timeouts(index: EvidenceIndex): set<Evidence> {
    set e | e in RequestFacts(index, HttpResponseStatus, TIMEOUT, TraceTool) && e.fundRequestId == RequestId(index)
  }

  function AbsentCallbacks(index: EvidenceIndex): set<Evidence> {
    set e | e in All(index, SourceLookupStatus) && (e.tool == CallbackTool || e.tool == CallbackRawTool) && e.value == Word(NOT_FOUND)
  }

  function ConfirmIf(ok: bool, items: set<Evidence>): set<Evidence> { if ok then items else {} }

  function GroundsOf(index: EvidenceIndex, h: Hypothesis): Grounds {
    match h
    case H1 =>
      Grounds({}, {}, Facts(index, RequestSent, Flag(false), {TraceTool}), Facts(index, RequestSent, Flag(true), {TraceTool}))
    case H2 => Grounds({}, {}, {}, SettledWitness(index) + FundRecords(index))
    case H3 => Grounds(RequestFacts(index, FundBusinessStatus, FAILED, FundTool), {}, {}, SettledWitness(index))
    case H4 =>
      Grounds(Timeouts(index) + Payment(index, SETTLED), {},
              ConfirmIf(Timeouts(index) != {} && SettledWitness(index) != {}, Timeouts(index) + SettledWitness(index)),
              RequestFacts(index, HttpResponseStatus, OK, TraceTool))
    case H5 => Grounds(AbsentCallbacks(index), {}, {}, Gateway(index))
    case H6 =>
      var failed := PairFacts(CallbackPairs(index, FAILED));
      Grounds(Gateway(index) + Messages(index, FAILED), {}, failed,
              ConfirmIf(failed == {}, PairFacts(CallbackPairs(index, CONSUMED))))
    case H6Schema =>
      Grounds(if MismatchFacts(index) != {} then MismatchFacts(index) else Messages(index, FAILED), {}, SchemaWitness(index), {})
    case H6Stale => Grounds(StaleSupport(index), {}, {}, {})
    case H7 =>
      var applied := Facts(index, GuaranteeStatus, Word(SUCCESS), {GuaranteeTool});
      var failed := Facts(index, AssetDeliveryStatus, Word(FAILED), {AssetDeliveryTool});
      var waiting := Facts(index, AssetStatus, Word(PROCESSING), {AssetTool});
      Grounds(applied + failed, {}, ConfirmIf(applied != {} && failed != {} && waiting != {}, applied + failed + waiting),
              Facts(index, AssetStatus, Word(SUCCESS), {AssetTool}))
    case H8 => Grounds(Semantics(index), {}, ApplicableFacts(index), {})
  }

  /** Grounds that both confirm and eliminate decide nothing. */
  function Resolved(g: Grounds): Grounds {
    if g.confirm != {} && g.eliminate != {} then Grounds(g.support + g.confirm, g.contradict + g.eliminate, {}, {}) else g
  }

  function StatusOf(index: EvidenceIndex, g: Grounds): HypothesisStatus {
    if g.confirm != {} && g.eliminate != {} then Supported
    else if g.confirm != {} then Confirmed
    else if g.eliminate != {} then Eliminated
    else if g.support != {} then Supported
    else if index.row.status.Investigating? then Possible else HypothesisStatus.Unknown
  }

  function ContextFacts(index: EvidenceIndex, h: Hypothesis): set<Evidence> {
    set e | e in index.evidence && e.claim in Relevant(h)
  }

  /** The strongest relation a fact has to a proposition; decisive ones win. */
  function RelationOf(context: set<Evidence>, g: Grounds, id: Id): Option<Relation> {
    if id in Refs(g.eliminate) then Some(DecisiveContradiction)
    else if id in Refs(g.confirm) then Some(DecisiveSupport)
    else if id in Refs(g.contradict) then Some(Contradicts)
    else if id in Refs(g.support) then Some(Supports)
    else if id in Refs(context) then Some(ContextOnly) else None
  }

  function RelatedIds(context: set<Evidence>, g: Grounds): set<Id> {
    Refs(context) + Refs(g.support) + Refs(g.contradict) + Refs(g.confirm) + Refs(g.eliminate)
  }

  function RelationsOf(context: set<Evidence>, g: Grounds): map<Id, Relation> {
    map i | i in RelatedIds(context, g) :: if RelationOf(context, g, i).Some? then RelationOf(context, g, i).value else ContextOnly
  }

  function Decide(index: EvidenceIndex, h: Hypothesis): RuleResult {
    var g := GroundsOf(index, h);
    RuleResult(StatusOf(index, g), RelationsOf(ContextFacts(index, h), Resolved(g)))
  }

  // ---- the loops ----

  /** Overwrites the relation of every fact in `items`. */
  method Relate(relations: map<Id, Relation>, items: set<Evidence>, relation: Relation) returns (r: map<Id, Relation>)
    ensures r.Keys == relations.Keys + Refs(items)
    ensures forall i :: i in r ==> r[i] == if i in Refs(items) then relation else relations[i]
  {
    r := relations;
    var rest := items;
    while rest != {}
      invariant rest <= items
      invariant r.Keys == relations.Keys + Refs(items - rest)
      invariant forall i :: i in r ==> r[i] == if i in Refs(items - rest) then relation else relations[i]
    {
      var e :| e in rest;
      r := r[e.id := relation];
      assert Refs(items - (rest - {e})) == Refs(items - rest) + {e.id};
      rest := rest - {e};
    }
    assert items - rest == items;
  }

  /** Context first, then support, contradiction, confirmation and elimination, each overwriting the last. */
  method DecideHypothesis(index: EvidenceIndex, h: Hypothesis) returns (result: RuleResult)
    ensures result == Decide(index, h)
  {
    hide GroundsOf, ContextFacts, Refs, RelationsOf, Resolved, StatusOf;
    var g := GroundsOf(index, h);
    var resolved := Resolved(g);
    var relations := Relate(map[], ContextFacts(index, h), ContextOnly);
    relations := Relate(relations, resolved.support, Supports);
    relations := Relate(relations, resolved.contradict, Contradicts);
    relations := Relate(relations, resolved.confirm, DecisiveSupport);
    relations := Relate(relations, resolved.eliminate, DecisiveContradiction);
    RelationsBuilt(ContextFacts(index, h), resolved, relations);
    result := RuleResult(StatusOf(index, g), relations);
  }

  /** What overwriting in that order leaves. */
  lemma RelationsBuilt(context: set<Evidence>, g: Grounds, relations: map<Id, Relation>)
    requires relations.Keys == Refs(context) + Refs(g.support) + Refs(g.contradict) + Refs(g.confirm) + Refs(g.eliminate)
    requires forall i :: i in relations ==> RelationOf(context, g, i) == Some(relations[i])
    ensures relations == RelationsOf(context, g)
  {
    hide RelationOf, Refs;
    var built := RelationsOf(context, g);
    assert built.Keys == RelatedIds(context, g);
    assert forall i :: i in relations ==> i in built.Keys && built[i] == relations[i];
    assert relations.Keys == built.Keys;
  }

  function PairsWith(index: EvidenceIndex, value: Text, g: Evidence): set<Pair> {
    set m | m in Messages(index, value) && Paired(index, value, Pair(g, m)) :: Pair(g, m)
  }

  method CollectPairsWith(index: EvidenceIndex, value: Text, g: Evidence) returns (pairs: set<Pair>)
    requires g in Gateway(index)
    ensures pairs == PairsWith(index, value, g)
  {
    hide Gateway, Messages;
    pairs := {};
    var messages := Messages(index, value);
    while messages != {}
      invariant messages <= Messages(index, value)
      invariant pairs == set m | m in Messages(index, value) - messages && Paired(index, value, Pair(g, m)) :: Pair(g, m)
    {
      var m :| m in messages;
      messages := messages - {m};
      if Follows(Pair(g, m)) {
        if !(value == FAILED && Superseded(index, Pair(g, m))) { pairs := pairs + {Pair(g, m)}; }
      }
    }
  }

  lemma PairsSplit(index: EvidenceIndex, value: Text)
    ensures CallbackPairs(index, value) == set g, p | g in Gateway(index) && p in PairsWith(index, value, g) :: p
  {
    hide Gateway, Messages, Paired;
    forall p | p in CallbackPairs(index, value) ensures p in PairsWith(index, value, p.gateway) { }
  }

  /** Every gateway fact is tried against every message. */
  method CollectPairs(index: EvidenceIndex, value: Text) returns (pairs: set<Pair>)
    ensures pairs == CallbackPairs(index, value)
  {
    hide Gateway, Messages, Paired;
    pairs := {};
    var gateways := Gateway(index);
    while gateways != {}
      invariant gateways <= Gateway(index)
      invariant pairs == set g, p | g in Gateway(index) - gateways && p in PairsWith(index, value, g) :: p
    {
      var g :| g in gateways;
      var more := CollectPairsWith(index, value, g);
      pairs := pairs + more;
      gateways := gateways - {g};
    }
    PairsSplit(index, value);
  }

  // ---- what the decisions guarantee ----

  predicate AllCurrentPrimary(index: EvidenceIndex, items: set<Evidence>) {
    forall e :: e in items ==> CurrentPrimary(index, e)
  }

  lemma CurrentHasClaim(index: EvidenceIndex, claim: Claim, e: Evidence)
    requires e in CurrentOf(index, claim)
    ensures e in CurrentOf(index, e.claim) && e in index.evidence
  {
  }

  lemma FactsAreCurrent(index: EvidenceIndex, claim: Claim, value: Value, tools: set<Tool>)
    ensures AllCurrentPrimary(index, Facts(index, claim, value, tools))
  {
    hide CurrentOf;
    forall e | e in Facts(index, claim, value, tools) ensures CurrentPrimary(index, e) { CurrentHasClaim(index, claim, e); }
  }

  lemma RequestFactsAreCurrent(index: EvidenceIndex, claim: Claim, value: Text, tool: Tool)
    ensures AllCurrentPrimary(index, RequestFacts(index, claim, value, tool))
  {
    hide CurrentPrimary, Facts;
    FactsAreCurrent(index, claim, Word(value), {tool});
  }

  lemma SettledIsCurrent(index: EvidenceIndex)
    requires OneFactPerId(index.evidence)
    ensures AllCurrentPrimary(index, SettledWitness(index))
  {
    hide Verified, CurrentOf;
    forall e | e in SettledWitness(index) ensures CurrentPrimary(index, e) {
      RefsAreCurrent(index, e.id);
      var o: Evidence :| o.id == e.id && CurrentPrimary(index, o);
      CurrentHasClaim(index, o.claim, o);
    }
  }

  lemma PairsAreCurrent(index: EvidenceIndex, value: Text)
    ensures AllCurrentPrimary(index, PairFacts(CallbackPairs(index, value)))
  {
    FactsAreCurrent(index, CallbackGatewayReceived, Flag(true), {CallbackTool, CallbackRawTool});
    FactsAreCurrent(index, MessageConsumeStatus, Word(value), {MessagesTool});
    hide Facts, CurrentPrimary, Follows, Superseded;
  }

  lemma GroupIsCurrent(index: EvidenceIndex, m: Evidence)
    requires m in Messages(index, FAILED)
    ensures AllCurrentPrimary(index, MismatchGroup(index, m))
  {
    hide CurrentOf;
    FactsAreCurrent(index, MessageConsumeStatus, Word(FAILED), {MessagesTool});
    forall e | e in MismatchGroup(index, m) && e != m ensures CurrentPrimary(index, e) {
      var claim :| claim in {MessageErrorCode, MessageErrorField, MessageExpectedFieldType, MessageActualFieldType}
                   && e in Detail(index, m, claim);
      CurrentHasClaim(index, claim, e);
    }
  }

  lemma SchemaIsCurrent(index: EvidenceIndex)
    ensures AllCurrentPrimary(index, SchemaWitness(index))
  {
    hide MismatchGroup, CurrentPrimary, DetailValues, Follows, Superseded, Facts;
    FactsAreCurrent(index, CallbackGatewayReceived, Flag(true), {CallbackTool, CallbackRawTool});
    forall p | p in CallbackPairs(index, FAILED) && SchemaFailure(index, p.message)
      ensures AllCurrentPrimary(index, {p.gateway} + MismatchGroup(index, p.message))
    {
      GroupIsCurrent(index, p.message);
    }
  }

  lemma ApplicableIsCurrent(index: EvidenceIndex)
    ensures AllCurrentPrimary(index, ApplicableFacts(index))
  {
    hide CurrentOf, Applicable, RequestId, Facts;
    FactsAreCurrent(index, ProtocolBusinessSemantics, Word(LOAN_CREATED_PAYMENT_SEPARATE), {ProtocolTool});
    forall e | e in Bindings(index) ensures CurrentPrimary(index, e) { CurrentHasClaim(index, GuaranteeStatus, e); }
  }

  /** No stale, incomplete, hidden or secondary fact ever decides a proposition. */
  lemma GroundsAreCurrent(index: EvidenceIndex, h: Hypothesis)
    requires OneFactPerId(index.evidence)
    ensures AllCurrentPrimary(index, GroundsOf(index, h).confirm) && AllCurrentPrimary(index, GroundsOf(index, h).eliminate)
  {
    hide Facts, RequestFacts, SettledWitness, CallbackPairs, SchemaWitness, ApplicableFacts, StaleSupport, MismatchFacts,
         CurrentPrimary, Semantics, Messages, PairFacts, AbsentCallbacks, Payment, RequestId;
    match h
    case H1 =>
      FactsAreCurrent(index, RequestSent, Flag(false), {TraceTool});
      FactsAreCurrent(index, RequestSent, Flag(true), {TraceTool});
    case H2 => SettledIsCurrent(index); FundRecordsAreCurrent(index);
    case H3 => SettledIsCurrent(index);
    case H4 =>
      SettledIsCurrent(index);
      RequestFactsAreCurrent(index, HttpResponseStatus, TIMEOUT, TraceTool);
      RequestFactsAreCurrent(index, HttpResponseStatus, OK, TraceTool);
    case H5 => FactsAreCurrent(index, CallbackGatewayReceived, Flag(true), {CallbackTool, CallbackRawTool});
    case H6 => PairsAreCurrent(index, FAILED); PairsAreCurrent(index, CONSUMED);
    case H6Schema => SchemaIsCurrent(index);
    case H6Stale =>
    case H7 =>
      FactsAreCurrent(index, GuaranteeStatus, Word(SUCCESS), {GuaranteeTool});
      FactsAreCurrent(index, AssetDeliveryStatus, Word(FAILED), {AssetDeliveryTool});
      FactsAreCurrent(index, AssetStatus, Word(PROCESSING), {AssetTool});
      FactsAreCurrent(index, AssetStatus, Word(SUCCESS), {AssetTool});
    case H8 => ApplicableIsCurrent(index);
  }

  lemma FundRecordsAreCurrent(index: EvidenceIndex)
    ensures AllCurrentPrimary(index, FundRecords(index))
  {
    hide RequestFacts, CurrentPrimary;
    RequestFactsAreCurrent(index, FundBusinessStatus, PROCESSING, FundTool);
    RequestFactsAreCurrent(index, FundBusinessStatus, SUCCESS, FundTool);
    RequestFactsAreCurrent(index, FundBusinessStatus, FAILED, FundTool);
  }

  lemma CurrentIsEvidence(index: EvidenceIndex, claim: Claim)
    ensures CurrentOf(index, claim) <= index.evidence
  {
  }

  lemma FactsAreEvidence(index: EvidenceIndex, claim: Claim, value: Value, tools: set<Tool>)
    ensures Facts(index, claim, value, tools) <= index.evidence
  {
    CurrentIsEvidence(index, claim);
    hide CurrentOf;
  }

  lemma GroupIsEvidence(index: EvidenceIndex, m: Evidence)
    requires m in Messages(index, FAILED)
    ensures MismatchGroup(index, m) <= index.evidence
  {
    FactsAreEvidence(index, MessageConsumeStatus, Word(FAILED), {MessagesTool});
    CurrentIsEvidence(index, MessageErrorCode);
    CurrentIsEvidence(index, MessageErrorField);
    CurrentIsEvidence(index, MessageExpectedFieldType);
    CurrentIsEvidence(index, MessageActualFieldType);
    hide CurrentOf, Facts;
  }

  lemma StaleIsEvidence(index: EvidenceIndex)
    ensures StaleSupport(index) <= index.evidence
  {
    FactsAreEvidence(index, CallbackGatewayReceived, Flag(true), {CallbackTool, CallbackRawTool});
    CurrentIsEvidence(index, CallbackProtocolVersion);
    CurrentIsEvidence(index, ProtocolFieldType);
    hide CurrentOf, Facts, MismatchGroup, Stale, SchemaFailure, Follows, Superseded;
    forall e | e in StaleSupport(index) ensures e in index.evidence {
      var p, version, doc, older :| p in CallbackPairs(index, FAILED) && SchemaFailure(index, p.message)
        && version in CurrentOf(index, CallbackProtocolVersion)
        && doc in CurrentOf(index, ProtocolFieldType) && older in CurrentOf(index, ProtocolFieldType)
        && Stale(index, p.message, version, doc, older)
        && e in {p.gateway, version, doc, older} + MismatchGroup(index, p.message);
      GroupIsEvidence(index, p.message);
    }
  }

  lemma MismatchesAreEvidence(index: EvidenceIndex)
    ensures MismatchFacts(index) <= index.evidence
  {
    hide Messages, MismatchGroup, SchemaFailure;
    forall e | e in MismatchFacts(index) ensures e in index.evidence {
      var m :| m in Mismatches(index) && e in MismatchGroup(index, m);
      GroupIsEvidence(index, m);
    }
  }

  lemma RequestFactsAreEvidence(index: EvidenceIndex, claim: Claim, value: Text, tool: Tool)
    ensures RequestFacts(index, claim, value, tool) <= index.evidence
  {
    FactsAreEvidence(index, claim, Word(value), {tool});
    hide Facts;
  }

  /** Whatever supports or contradicts a proposition is evidence of the case. */
  lemma SupportIsEvidence(index: EvidenceIndex, h: Hypothesis)
    ensures GroundsOf(index, h).support <= index.evidence && GroundsOf(index, h).contradict <= index.evidence
  {
    hide Facts, RequestFacts, SettledWitness, CallbackPairs, SchemaWitness, ApplicableFacts, StaleSupport, MismatchFacts, Payment, FundRecords;
    match h
    case H1 => case H2 => case H5 =>
    case H3 => RequestFactsAreEvidence(index, FundBusinessStatus, FAILED, FundTool);
    case H4 =>
      RequestFactsAreEvidence(index, HttpResponseStatus, TIMEOUT, TraceTool);
      PaymentIsEvidence(index, SETTLED);
    case H6 =>
      FactsAreEvidence(index, CallbackGatewayReceived, Flag(true), {CallbackTool, CallbackRawTool});
      FactsAreEvidence(index, MessageConsumeStatus, Word(FAILED), {MessagesTool});
    case H6Schema =>
      MismatchesAreEvidence(index);
      FactsAreEvidence(index, MessageConsumeStatus, Word(FAILED), {MessagesTool});
    case H6Stale => StaleIsEvidence(index);
    case H7 =>
      FactsAreEvidence(index, GuaranteeStatus, Word(SUCCESS), {GuaranteeTool});
      FactsAreEvidence(index, AssetDeliveryStatus, Word(FAILED), {AssetDeliveryTool});
    case H8 => FactsAreEvidence(index, ProtocolBusinessSemantics, Word(LOAN_CREATED_PAYMENT_SEPARATE), {ProtocolTool});
  }

  lemma PaymentIsEvidence(index: EvidenceIndex, value: Text)
    ensures Payment(index, value) <= index.evidence
  {
    RequestFactsAreEvidence(index, PaymentFinality, value, PaymentTool);
  }

  /** Every reference of a decision is evidence of the case. */
  lemma RelationsAreEvidence(index: EvidenceIndex, h: Hypothesis)
    requires OneFactPerId(index.evidence)
    ensures Decide(index, h).relations.Keys <= Refs(index.evidence)
  {
    SupportIsEvidence(index, h);
    GroundsAreCurrent(index, h);
    hide GroundsOf, CurrentOf, CurrentPrimary, Resolved, RelationsOf, ContextFacts, Refs, StatusOf;
    var g := GroundsOf(index, h);
    forall e | e in g.confirm + g.eliminate ensures e in index.evidence { PrimaryIsEvidence(index, e); }
    ResolvedGrounds(g, index.evidence);
    ContextIsEvidence(index, h);
    RelatedKnown(ContextFacts(index, h), Resolved(g), index.evidence);
  }

  lemma ContextIsEvidence(index: EvidenceIndex, h: Hypothesis)
    ensures ContextFacts(index, h) <= index.evidence
  {
  }

  lemma RelatedKnown(context: set<Evidence>, g: Grounds, all: set<Evidence>)
    requires context <= all && g.support <= all && g.contradict <= all && g.confirm <= all && g.eliminate <= all
    ensures RelationsOf(context, g).Keys <= Refs(all)
  {
    hide RelationOf;
  }

  lemma PrimaryIsEvidence(index: EvidenceIndex, e: Evidence)
    requires CurrentPrimary(index, e)
    ensures e in index.evidence
  {
    CurrentIsEvidence(index, e.claim);
  }

  lemma ResolvedGrounds(g: Grounds, all: set<Evidence>)
    requires g.support <= all && g.contradict <= all && g.confirm <= all && g.eliminate <= all
    ensures var r := Resolved(g); r.support <= all && r.contradict <= all && r.confirm <= all && r.eliminate <= all
  {
  }

  predicate Has(r: RuleResult, relation: Relation) { exists i :: i in r.relations && r.relations[i] == relation }

  /** CONFIRMED and ELIMINATED are exactly the decisions that rest on decisive facts. */
  lemma DecidedExactly(index: EvidenceIndex, h: Hypothesis)
    ensures var r := Decide(index, h);
      && (r.status.Confirmed? <==> Has(r, DecisiveSupport)) && (r.status.Eliminated? <==> Has(r, DecisiveContradiction))
  {
    hide GroundsOf, ContextFacts;
    var g := Resolved(GroundsOf(index, h));
    var r := Decide(index, h);
    if e :| e in g.confirm { assert e.id in Refs(g.confirm) && r.relations[e.id] == DecisiveSupport; }
    if e :| e in g.eliminate { assert e.id in Refs(g.eliminate) && r.relations[e.id] == DecisiveContradiction; }
  }

  lemma DecisiveGround(context: set<Evidence>, g: Grounds, i: Id)
    requires i in RelationsOf(context, g) && RelationsOf(context, g)[i].Decisive()
    ensures exists e: Evidence :: e.id == i && (e in g.confirm || e in g.eliminate)
  {
  }

  lemma ResolvedGround(g: Grounds, e: Evidence)
    ensures e in Resolved(g).confirm ==> e in g.confirm
    ensures e in Resolved(g).eliminate ==> e in g.eliminate
  {
  }

  /** Every decisive reference is a current, complete, unshadowed fact of a primary source. */
  lemma DecisiveRefsAreCurrent(index: EvidenceIndex, h: Hypothesis, i: Id)
    requires OneFactPerId(index.evidence)
    requires i in Decide(index, h).relations && Decide(index, h).relations[i].Decisive()
    ensures exists e: Evidence :: e.id == i && CurrentPrimary(index, e) && Usable(index, e)
  {
    GroundsAreCurrent(index, h);
    hide GroundsOf, CurrentPrimary, ContextFacts, Usable, RelationsOf, Resolved;
    var g := Resolved(GroundsOf(index, h));
    DecisiveGround(ContextFacts(index, h), g, i);
    var e: Evidence :| e.id == i && (e in g.confirm || e in g.eliminate);
    ResolvedGround(GroundsOf(index, h), e);
    CurrentPrimaryUsable(index, e);
  }

  lemma CurrentPrimaryUsable(index: EvidenceIndex, e: Evidence)
    requires CurrentPrimary(index, e)
    ensures Usable(index, e)
  {
  }

  /** A matching payment identity always rests on some fact of the case. */
  lemma MatchHasWitness(index: EvidenceIndex)
    ensures SettledWitness(index) != {} <==> Verified(index).result == MATCH
  {
    hide Verified, Keys, Exact;
    MatchExactly(index);
    if Verified(index).result == MATCH {
      var k :| k in Keys(index);
      var e := KeyedFact(index, k);
      assert e in SettledWitness(index);
    }
  }

  lemma KeyedFact(index: EvidenceIndex, k: Key) returns (e: Evidence)
    requires k in Keys(index)
    ensures e in index.evidence && e.id in Verified(index).refs
  {
    hide Anchors, Verified, Witnesses;
    e :| e in AllPayments(index) && KeyOf(e) == k;
    PaymentsAreCurrent(index, e);
    CurrentHasClaim(index, e.claim, e);
    WitnessRefs(index, k, e);
  }

  lemma WitnessRefs(index: EvidenceIndex, k: Key, e: Evidence)
    requires k in Keys(index) && e in Group(index, k)
    ensures e.id in Verified(index).refs
  {
    hide Keys, Group, Anchors, Marked;
    var w := WitnessOf(index, k);
    assert w in Witnesses(index) && e.id in w.refs;
    SummaryContains(Witnesses(index), w);
  }

  /** A confirmed schema mismatch has a confirmed consumption failure; a stale schema is never confirmed. */
  lemma ConfirmedChildren(index: EvidenceIndex)
    ensures Decide(index, H6Schema).status.Confirmed? ==> Decide(index, H6).status.Confirmed?
    ensures !Decide(index, H6Stale).status.Confirmed? && !Decide(index, H6Stale).status.Eliminated?
  {
    hide MismatchGroup, SchemaFailure, CallbackPairs, MismatchFacts, Messages, Gateway, StaleSupport;
    if e :| e in SchemaWitness(index) {
      var p :| p in CallbackPairs(index, FAILED) && e in {p.gateway} + MismatchGroup(index, p.message);
      assert p.gateway in PairFacts(CallbackPairs(index, FAILED));
    }
  }
}
