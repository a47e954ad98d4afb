/** Deterministic extraction of claims from one observation. */
module Extraction {
  import opened Domain
  import opened Tables
  import opened CaseTransactions
  import opened EvidenceVerification

  // One emitted claim; an absent event time falls back to the observation's.
  datatype Emission = Emission(
    claim: Claim, value: Value, path: Path, kind: SubjectKind, identifier: Option<Text>, field: Option<Text>,
    eventTime: Option<Time>, protocol: Option<Text>, callbackEventId: Option<Text>, version: Option<Value> := None)

  function OnOrder(claim: Claim, value: Value, path: Path): Emission {
    Emission(claim, value, path, OrderSubject, None, None, None, None, None)
  }

  function OnSubject(claim: Claim, value: Value, path: Path, kind: SubjectKind, identifier: Text, at: Option<Time>): Emission {
    Emission(claim, value, path, kind, Some(identifier), None, at, None, None)
  }

  /** The tool whose lookups return this kind of data. */
  predicate DataOf(tool: Tool, data: Data) {
    match data
    case NoData => true
    case AssetData(_) => tool == AssetTool
    case GuaranteeData(_, _, _, _) => tool == GuaranteeTool
    case FundData(_, _, _) => tool == FundTool
    case PaymentData(_, _, _, _) => tool == PaymentTool
    case LoanNoteData(_, _) => tool == LoanNoteTool
    case CallbackData(raw, _, _, _) => tool == (if raw then CallbackRawTool else CallbackTool)
    case MessagesData(_) => tool == MessagesTool
    case AccountingData(_) => tool == AccountingTool
    case TraceData(_, _, _) => tool == TraceTool
    case DeliveryData(_, _) => tool == AssetDeliveryTool
    case ProtocolData(_, _, _, _) => tool == ProtocolTool
  }

  function StatusWord(s: LookupStatus): Text {
    match s case LookupOk => OK case LookupTimeout => TIMEOUT case LookupNotFound => NOT_FOUND
  }

  function Optional(claim: Claim, value: Option<Text>, path: Path, kind: SubjectKind, identifier: Text, at: Option<Time>): seq<Emission> {
    if value.Some? then [OnSubject(claim, Word(value.value), path, kind, identifier, at)] else []
  }

  function TransactionEmissions(t: Transaction): seq<Emission> {
    [OnSubject(PaymentFinality, Word(t.finality), TransactionPath(PaymentFinality), TransactionSubject, t.id, Some(t.at)),
     OnSubject(PaymentTransactionId, Word(t.id), TransactionPath(PaymentTransactionId), TransactionSubject, t.id, Some(t.at)),
     OnSubject(PaymentAmount, Number(t.amount), TransactionPath(PaymentAmount), TransactionSubject, t.id, Some(t.at)),
     OnSubject(PaymentCurrency, Word(t.currency), TransactionPath(PaymentCurrency), TransactionSubject, t.id, Some(t.at)),
     OnSubject(TransactionFundRequestId, Word(t.requestId), TransactionPath(TransactionFundRequestId), TransactionSubject, t.id, Some(t.at))]
    + Optional(PaymentCustomerRef, t.customer, TransactionPath(PaymentCustomerRef), TransactionSubject, t.id, Some(t.at))
    + Optional(PaymentBeneficiaryRef, t.beneficiary, TransactionPath(PaymentBeneficiaryRef), TransactionSubject, t.id, Some(t.at))
    + Optional(PaymentAccountRef, t.account, TransactionPath(PaymentAccountRef), TransactionSubject, t.id, Some(t.at))
  }

  function OnMessage(i: nat, m: Message, claim: Claim, value: Text, at: Time): Emission {
    Emission(claim, Word(value), MessagePath(i, claim), MessageSubject, Some(m.id), None, Some(at), None, Some(m.eventId))
  }

  function ErrorEmissions(i: nat, m: Message): seq<Emission> {
    if m.error.None? then [] else
      var e := m.error.value;
      [OnMessage(i, m, MessageErrorCode, e.code, m.at), OnMessage(i, m, MessageErrorField, e.field, m.at),
       OnMessage(i, m, MessageExpectedFieldType, e.expectedType, m.at), OnMessage(i, m, MessageActualFieldType, e.actualType, m.at)]
  }

  function DeploymentEmissions(i: nat, m: Message): seq<Emission> {
    if m.deployment.None? then [] else
      var d := m.deployment.value;
      [OnMessage(i, m, ConsumerDeployedSchemaVersion, d.schemaVersion, d.at),
       OnMessage(i, m, ConsumerAcceptedProtocolVersion, d.acceptedProtocol, d.at),
       OnMessage(i, m, ConsumerLoanNoFieldType, d.loanNoType, d.at)]
  }

  function MessageEmissions(i: nat, m: Message): seq<Emission> {
    [OnMessage(i, m, MessageConsumeStatus, m.consumeStatus, m.at)]
    + (if m.dlq.Some? then [OnMessage(i, m, MessageDlq, m.dlq.value, m.at)] else [])
    + ErrorEmissions(i, m) + DeploymentEmissions(i, m)
  }

  /** A deployment cannot be observed before it happened. */
  predicate DeploymentsPast(records: seq<Message>, observedAt: Time) {
    forall i :: 0 <= i < |records| && records[i].deployment.Some? ==> records[i].deployment.value.at <= observedAt
  }

  function AllMessages(records: seq<Message>, from: nat): seq<Emission>
    requires from <= |records|
    decreases |records| - from
  {
    if from == |records| then [] else MessageEmissions(from, records[from]) + AllMessages(records, from + 1)
  }

  function OnDocument(claim: Claim, partner: Text, version: Text, item: Item): Emission {
    Emission(claim, Word(item.value), ProtocolPath(item.name), ProtocolSubject, Some(PartnerVersion(partner, version)),
             Some(item.name), None, Some(version), None, Some(Word(version)))
  }

  function DocumentEmissions(claim: Claim, partner: Text, version: Text, items: seq<Item>): seq<Emission> {
    seq(|items|, i requires 0 <= i < |items| => OnDocument(claim, partner, version, items[i]))
  }

  /** What a successful lookup states; None where extraction raises. */
  function Emissions(o: Observation): Option<seq<Emission>> {
    match o.data
    case NoData => None
    case FundData(request, status, loanNo) =>
      Some([OnSubject(FundBusinessStatus, Word(status), RecordPath(FundBusinessStatus), FundRequestSubject, request, None),
            OnSubject(LoanNoPresent, Flag(loanNo.Some?), RecordPath(LoanNoPresent), FundRequestSubject, request, None)]
           + Optional(LoanNoteReference, loanNo, RecordPath(LoanNoPresent), FundRequestSubject, request, None))
    case PaymentData(request, finality, at, transaction) =>
      if transaction.Some? then Some(TransactionEmissions(transaction.value))
      else Some([OnSubject(PaymentFinality, Word(finality), RecordPath(PaymentFinality), FundRequestSubject, request, Some(at))])
    case CallbackData(_, event, signed, protocol) =>
      Some([Emission(CallbackGatewayReceived, Flag(true), RecordPath(CallbackGatewayReceived), CallbackSubject, Some(event), None, None, Some(protocol), None),
            Emission(CallbackSignatureVerified, Flag(signed), RecordPath(CallbackSignatureVerified), CallbackSubject, Some(event), None, None, Some(protocol), None),
            Emission(CallbackProtocolVersion, Word(protocol), RecordPath(CallbackProtocolVersion), CallbackSubject, Some(event), None, None, Some(protocol), None)])
    case MessagesData(records) => if DeploymentsPast(records, o.observedAt) then Some(AllMessages(records, 0)) else None
    case ProtocolData(partner, version, fields, semantics) =>
      Some(DocumentEmissions(ProtocolFieldType, partner, version, fields)
           + DocumentEmissions(ProtocolBusinessSemantics, partner, version, semantics))
    case TraceData(_, sent, response) =>
      Some([OnOrder(RequestSent, Flag(sent), RecordPath(RequestSent)),
            OnOrder(HttpResponseStatus, Word(response), RecordPath(HttpResponseStatus))])
    case AssetData(status) => Some([OnOrder(AssetStatus, Word(status), RecordPath(AssetStatus))])
    case GuaranteeData(_, status, revision, protocol) =>
      Some([OnOrder(GuaranteeStatus, Word(status), RecordPath(GuaranteeStatus)).(protocol := Some(protocol), version := Some(Number(revision))),
            OnOrder(GuaranteeVersion, Number(revision), RecordPath(GuaranteeVersion)).(protocol := Some(protocol), version := Some(Number(revision)))])
    case AccountingData(entry) => Some([OnOrder(AccountingEntryPresent, Flag(entry), RecordPath(AccountingEntryPresent))])
    case DeliveryData(status, event) =>
      Some([OnOrder(AssetDeliveryStatus, Word(status), RecordPath(AssetDeliveryStatus))]
           + if event.Some? then [OnOrder(AssetDeliveryEventRef, Word(event.value), RecordPath(AssetDeliveryEventRef))] else [])
    case LoanNoteData(request, loanNo) =>
      Some([OnSubject(LoanNoPresent, Flag(true), RecordPath(LoanNoPresent), FundRequestSubject, request, None),
            OnSubject(LoanNoteReference, Word(loanNo), RecordPath(LoanNoPresent), FundRequestSubject, request, None)])
  }

  /** The request a record names, for the records that name one. */
  function RequestOf(data: Data): Option<Text> {
    match data
    case GuaranteeData(request, _, _, _) => Some(request)
    case FundData(request, _, _) => Some(request)
    case PaymentData(request, _, _, _) => Some(request)
    case LoanNoteData(request, _) => Some(request)
    case TraceData(request, _, _) => Some(request)
    case _ => None
  }

  function Fact(digest: Content -> Id, hash: Observation -> Id, c: Id, o: Observation, query: Query, m: Emission): Evidence {
    var e := Evidence(
      0, c, o.observationId, o.tool, o.sourceKind, m.claim,
      Subject(m.kind, if m.identifier.Some? then m.identifier.value else Token(o.order), o.order, m.field), m.value,
      if m.eventTime.Some? then m.eventTime else o.eventTime, o.observedAt, o.sourceAsOf, m.version, m.protocol, o.completeness, o.freshness,
      hash(o), m.path, query, RequestOf(o.data), m.callbackEventId);
    e.(id := digest(ContentOf(e)))
  }

  function FactsFrom(digest: Content -> Id, hash: Observation -> Id, c: Id, o: Observation, query: Query, ms: seq<Emission>): seq<Evidence> {
    seq(|ms|, i requires 0 <= i < |ms| => Fact(digest, hash, c, o, query, ms[i]))
  }

  predicate InScope(scope: Scope, o: Observation, query: Query) {
    o.order in scope.allowedOrders && o.tool in scope.allowedTools && query.order == o.order && DataOf(o.tool, o.data)
  }

  function EmissionsOf(o: Observation): Option<seq<Emission>> {
    if !o.status.LookupOk? then Some([OnOrder(SourceLookupStatus, Word(StatusWord(o.status)), StatusPath)]) else Emissions(o)
  }

  function Extract(digest: Content -> Id, hash: Observation -> Id, c: Id, scope: Scope, o: Observation, query: Query): Option<seq<Evidence>> {
    if !InScope(scope, o, query) then None
    else match EmissionsOf(o)
      case None => None
      case Some(ms) => Some(FactsFrom(digest, hash, c, o, query, ms))
  }

  function ExtractorOf(digest: Content -> Id, hash: Observation -> Id): Extractor {
    (c: Id, scope: Scope, o: Observation, query: Query) => Extract(digest, hash, c, scope, o, query)
  }

  // ---- no two claims share a place ----

  predicate DistinctPlaces(ms: seq<Emission>) {
    forall i, j :: 0 <= i < j < |ms| ==> ms[i].claim != ms[j].claim || ms[i].path != ms[j].path
  }

  predicate AtMessage(m: Emission, from: nat) { m.path.MessagePath? && m.path.position >= from && m.path.name == m.claim }

  lemma MessagePlaces(i: nat, m: Message)
    ensures DistinctPlaces(MessageEmissions(i, m))
    ensures forall k :: 0 <= k < |MessageEmissions(i, m)| ==> AtMessage(MessageEmissions(i, m)[k], i) && MessageEmissions(i, m)[k].path.position == i
  {
    ErrorPlaces(i, m);
    DeploymentPlaces(i, m);
    hide ErrorEmissions, DeploymentEmissions;
  }

  const ERROR_CLAIMS: set<Claim> := {MessageErrorCode, MessageErrorField, MessageExpectedFieldType, MessageActualFieldType}
  const DEPLOYMENT_CLAIMS: set<Claim> := {ConsumerDeployedSchemaVersion, ConsumerAcceptedProtocolVersion, ConsumerLoanNoFieldType}

  predicate Within(ms: seq<Emission>, i: nat, claims: set<Claim>) {
    forall k :: 0 <= k < |ms| ==> ms[k].claim in claims && AtMessage(ms[k], i) && ms[k].path.position == i
  }

  lemma ErrorPlaces(i: nat, m: Message)
    ensures DistinctPlaces(ErrorEmissions(i, m)) && Within(ErrorEmissions(i, m), i, ERROR_CLAIMS)
  {
  }

  lemma DeploymentPlaces(i: nat, m: Message)
    ensures DistinctPlaces(DeploymentEmissions(i, m)) && Within(DeploymentEmissions(i, m), i, DEPLOYMENT_CLAIMS)
  {
  }

  lemma {:induction false} AllMessagePlaces(records: seq<Message>, from: nat)
    requires from <= |records|
    ensures DistinctPlaces(AllMessages(records, from))
    ensures forall k :: 0 <= k < |AllMessages(records, from)| ==> AtMessage(AllMessages(records, from)[k], from)
    decreases |records| - from
  {
    if from < |records| {
      hide MessageEmissions;
      MessagePlaces(from, records[from]);
      AllMessagePlaces(records, from + 1);
    }
  }

  lemma TransactionPlaces(t: Transaction)
    ensures DistinctPlaces(TransactionEmissions(t))
  {
  }

  lemma PlacesDistinct(o: Observation)
    requires EmissionsOf(o).Some?
    ensures DistinctPlaces(EmissionsOf(o).value)
  {
    hide AllMessages, TransactionEmissions;
    if o.data.MessagesData? { AllMessagePlaces(o.data.records, 0); }
    if o.data.PaymentData? && o.data.transaction.Some? { TransactionPlaces(o.data.transaction.value); }
  }

  /** Extraction is lawful: digests identify facts, facts stay within the case and its scope, and no
      observation yields two facts under one identifier. */
  lemma ExtractionIsLawful(digest: Content -> Id, hash: Observation -> Id)
    requires Injective(digest)
    ensures Lawful(ExtractorOf(digest, hash), digest)
  {
    var x := ExtractorOf(digest, hash);
    hide EmissionsOf;
    forall c, scope, obs, query | x(c, scope, obs, query).Some? ensures DistinctIds(x(c, scope, obs, query).value) {
      DistinctFacts(digest, hash, c, obs, query);
    }
  }

  lemma DistinctFacts(digest: Content -> Id, hash: Observation -> Id, c: Id, o: Observation, query: Query)
    requires Injective(digest) && EmissionsOf(o).Some?
    ensures DistinctIds(FactsFrom(digest, hash, c, o, query, EmissionsOf(o).value))
  {
    PlacesDistinct(o);
    hide EmissionsOf;
    var ms := EmissionsOf(o).value;
    forall i, j | 0 <= i < j < |ms| ensures Fact(digest, hash, c, o, query, ms[i]).id != Fact(digest, hash, c, o, query, ms[j]).id {
      var a, b := Fact(digest, hash, c, o, query, ms[i]), Fact(digest, hash, c, o, query, ms[j]);
      assert ContentOf(a) != ContentOf(b);
      assert a.id == digest(ContentOf(a)) && b.id == digest(ContentOf(b));
    }
  }

  // ---- the appending loops ----

  lemma FactsAppend(digest: Content -> Id, hash: Observation -> Id, c: Id, o: Observation, query: Query, a: seq<Emission>, b: seq<Emission>)
    ensures FactsFrom(digest, hash, c, o, query, a + b)
              == FactsFrom(digest, hash, c, o, query, a) + FactsFrom(digest, hash, c, o, query, b)
  {
    hide Fact;
  }

  method ExtractMessages(digest: Content -> Id, hash: Observation -> Id, c: Id, o: Observation, query: Query)
    returns (output: Option<seq<Evidence>>)
    requires o.data.MessagesData?
    ensures output == if Emissions(o).Some? then Some(FactsFrom(digest, hash, c, o, query, Emissions(o).value)) else None
  {
    hide MessageEmissions, FactsFrom;
    var records, facts := o.data.records, FactsFrom(digest, hash, c, o, query, []);
    ghost var emitted: seq<Emission> := [];
    for i := 0 to |records|
      invariant emitted + AllMessages(records, i) == AllMessages(records, 0)
      invariant facts == FactsFrom(digest, hash, c, o, query, emitted)
      invariant forall k :: 0 <= k < i && records[k].deployment.Some? ==> records[k].deployment.value.at <= o.observedAt
    {
      if records[i].deployment.Some? && records[i].deployment.value.at > o.observedAt { return None; }
      var more := MessageEmissions(i, records[i]);
      FactsAppend(digest, hash, c, o, query, emitted, more);
      assert emitted + AllMessages(records, i) == (emitted + more) + AllMessages(records, i + 1);
      facts := facts + FactsFrom(digest, hash, c, o, query, more);
      emitted := emitted + more;
    }
    assert emitted + [] == emitted;
    output := Some(facts);
  }

  method ExtractObservation(digest: Content -> Id, hash: Observation -> Id, c: Id, scope: Scope, o: Observation, query: Query)
    returns (output: Option<seq<Evidence>>)
    ensures output == Extract(digest, hash, c, scope, o, query)
  {
    hide FactsFrom, AllMessages, TransactionEmissions;
    if !InScope(scope, o, query) { return None; }
    if o.status.LookupOk? && o.data.MessagesData? {
      output := ExtractMessages(digest, hash, c, o, query);
    } else {
      var emitted := EmissionsOf(o);
      output := if emitted.None? then None else Some(FactsFrom(digest, hash, c, o, query, emitted.value));
    }
  }
}
