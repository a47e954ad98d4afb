/** Which field of an observation each extracted claim carries, about whom and as of when. */
module ExtractionFields {
  import opened Domain
  import opened Tables
  import opened Extraction

  predicate About(m: Emission, kind: SubjectKind, identifier: Text, at: Option<Time>) {
    m.kind == kind && m.identifier == Some(identifier) && m.eventTime == at
  }

  /** A claim about the order itself, as of the observation. */
  predicate AboutOrder(m: Emission) { m.kind == OrderSubject && m.identifier.None? && m.eventTime.None? }

  predicate Unversioned(m: Emission) { m.protocol.None? && m.version.None? && m.field.None? && m.callbackEventId.None? }

  predicate Is(m: Emission, claim: Claim, value: Value) { m.claim == claim && m.value == value && m.path == RecordPath(claim) }

  predicate Holds(m: Emission, field: Option<Text>) { field.Some? && m.value == Word(field.value) }

  /** Transaction claims are about the transaction, as of its own instant, each with its own field. */
  predicate InTransaction(t: Transaction, m: Emission) {
    && About(m, TransactionSubject, t.id, Some(t.at)) && Unversioned(m) && m.path == TransactionPath(m.claim)
    && match m.claim
       case PaymentFinality => m.value == Word(t.finality)
       case PaymentTransactionId => m.value == Word(t.id)
       case PaymentAmount => m.value == Number(t.amount)
       case PaymentCurrency => m.value == Word(t.currency)
       case TransactionFundRequestId => m.value == Word(t.requestId)
       case PaymentCustomerRef => Holds(m, t.customer)
       case PaymentBeneficiaryRef => Holds(m, t.beneficiary)
       case PaymentAccountRef => Holds(m, t.account)
       case _ => false
  }

  /** Message claims are about the message and its callback; deployment claims are as of the deployment. */
  predicate InMessage(i: nat, r: Message, m: Emission) {
    && m.kind == MessageSubject && m.identifier == Some(r.id) && m.callbackEventId == Some(r.eventId)
    && m.path == MessagePath(i, m.claim) && m.field.None? && m.protocol.None? && m.version.None?
    && match m.claim
       case MessageConsumeStatus => m.eventTime == Some(r.at) && m.value == Word(r.consumeStatus)
       case MessageDlq => m.eventTime == Some(r.at) && Holds(m, r.dlq)
       case MessageErrorCode => m.eventTime == Some(r.at) && r.error.Some? && m.value == Word(r.error.value.code)
       case MessageErrorField => m.eventTime == Some(r.at) && r.error.Some? && m.value == Word(r.error.value.field)
       case MessageExpectedFieldType => m.eventTime == Some(r.at) && r.error.Some? && m.value == Word(r.error.value.expectedType)
       case MessageActualFieldType => m.eventTime == Some(r.at) && r.error.Some? && m.value == Word(r.error.value.actualType)
       case ConsumerDeployedSchemaVersion =>
         r.deployment.Some? && m.eventTime == Some(r.deployment.value.at) && m.value == Word(r.deployment.value.schemaVersion)
       case ConsumerAcceptedProtocolVersion =>
         r.deployment.Some? && m.eventTime == Some(r.deployment.value.at) && m.value == Word(r.deployment.value.acceptedProtocol)
       case ConsumerLoanNoFieldType =>
         r.deployment.Some? && m.eventTime == Some(r.deployment.value.at) && m.value == Word(r.deployment.value.loanNoType)
       case _ => false
  }

  /** A document claim gives one named item of the document of this partner and version. */
  predicate InDocument(partner: Text, version: Text, item: Item, m: Emission) {
    && About(m, ProtocolSubject, PartnerVersion(partner, version), None)
    && m.field == Some(item.name) && m.value == Word(item.value) && m.path == ProtocolPath(item.name)
    && m.protocol == Some(version) && m.version == Some(Word(version)) && m.callbackEventId.None?
  }

  predicate InFund(request: Text, status: Text, loanNo: Option<Text>, m: Emission) {
    && About(m, FundRequestSubject, request, None) && Unversioned(m)
    && match m.claim
       case FundBusinessStatus => m.value == Word(status) && m.path == RecordPath(FundBusinessStatus)
       case LoanNoPresent => m.value == Flag(loanNo.Some?) && m.path == RecordPath(LoanNoPresent)
       case LoanNoteReference => Holds(m, loanNo) && m.path == RecordPath(LoanNoPresent)
       case _ => false
  }

  predicate InCallback(event: Text, signed: bool, protocol: Text, m: Emission) {
    && About(m, CallbackSubject, event, None)
    && m.protocol == Some(protocol) && m.version.None? && m.field.None? && m.callbackEventId.None?
    && (|| Is(m, CallbackGatewayReceived, Flag(true)) || Is(m, CallbackSignatureVerified, Flag(signed))
        || Is(m, CallbackProtocolVersion, Word(protocol)))
  }

  predicate InGuarantee(status: Text, revision: int, protocol: Text, m: Emission) {
    && AboutOrder(m) && m.protocol == Some(protocol) && m.version == Some(Number(revision)) && m.field.None? && m.callbackEventId.None?
    && (Is(m, GuaranteeStatus, Word(status)) || Is(m, GuaranteeVersion, Number(revision)))
  }

  /** Observation `o` makes the statement `m`. */
  predicate Told(o: Observation, m: Emission) {
    if !o.status.LookupOk? then
      && m.claim == SourceLookupStatus && m.path == StatusPath && AboutOrder(m) && Unversioned(m)
      && m.value == Word(if o.status.LookupTimeout? then TIMEOUT else NOT_FOUND)
    else match o.data
      case NoData => false
      case FundData(request, status, loanNo) => InFund(request, status, loanNo, m)
      case PaymentData(_, _, _, Some(t)) => InTransaction(t, m)
      case PaymentData(request, finality, at, None) =>
        Is(m, PaymentFinality, Word(finality)) && About(m, FundRequestSubject, request, Some(at)) && Unversioned(m)
      case CallbackData(_, event, signed, protocol) => InCallback(event, signed, protocol, m)
      case MessagesData(records) => exists i :: 0 <= i < |records| && InMessage(i, records[i], m)
      case ProtocolData(partner, version, fields, semantics) =>
        || (m.claim == ProtocolFieldType && exists i :: 0 <= i < |fields| && InDocument(partner, version, fields[i], m))
        || (m.claim == ProtocolBusinessSemantics && exists i :: 0 <= i < |semantics| && InDocument(partner, version, semantics[i], m))
      case TraceData(_, sent, response) =>
        (Is(m, RequestSent, Flag(sent)) || Is(m, HttpResponseStatus, Word(response))) && AboutOrder(m) && Unversioned(m)
      case AssetData(status) => Is(m, AssetStatus, Word(status)) && AboutOrder(m) && Unversioned(m)
      case GuaranteeData(_, status, revision, protocol) => InGuarantee(status, revision, protocol, m)
      case AccountingData(entry) => Is(m, AccountingEntryPresent, Flag(entry)) && AboutOrder(m) && Unversioned(m)
      case DeliveryData(status, event) =>
        && AboutOrder(m) && Unversioned(m)
        && (Is(m, AssetDeliveryStatus, Word(status)) || (event.Some? && Is(m, AssetDeliveryEventRef, Word(event.value))))
      case LoanNoteData(request, loanNo) =>
        && About(m, FundRequestSubject, request, None) && Unversioned(m) && m.path == RecordPath(LoanNoPresent)
        && ((m.claim == LoanNoPresent && m.value == Flag(true)) || (m.claim == LoanNoteReference && m.value == Word(loanNo)))
  }

  // ---- record by record ----

  lemma TransactionTold(t: Transaction, m: Emission)
    ensures m in TransactionEmissions(t) <==> InTransaction(t, m)
  {
  }

  lemma ErrorTold(i: nat, r: Message, m: Emission)
    ensures m in ErrorEmissions(i, r) <==> m.claim in ERROR_CLAIMS && InMessage(i, r, m)
  {
  }

  lemma DeploymentTold(i: nat, r: Message, m: Emission)
    ensures m in DeploymentEmissions(i, r) <==> m.claim in DEPLOYMENT_CLAIMS && InMessage(i, r, m)
  {
  }

  lemma MessageTold(i: nat, r: Message, m: Emission)
    ensures m in MessageEmissions(i, r) <==> InMessage(i, r, m)
  {
    ErrorTold(i, r, m);
    DeploymentTold(i, r, m);
    hide ErrorEmissions, DeploymentEmissions;
  }

  lemma {:induction false} MessagesTold(records: seq<Message>, from: nat, m: Emission)
    requires from <= |records|
    ensures m in AllMessages(records, from) <==> exists i :: from <= i < |records| && InMessage(i, records[i], m)
    decreases |records| - from
  {
    hide InMessage, MessageEmissions;
    if from < |records| {
      MessageTold(from, records[from], m);
      MessagesTold(records, from + 1, m);
    }
  }

  lemma DocumentTold(claim: Claim, partner: Text, version: Text, items: seq<Item>, m: Emission)
    ensures m in DocumentEmissions(claim, partner, version, items) <==>
      m.claim == claim && exists i :: 0 <= i < |items| && InDocument(partner, version, items[i], m)
  {
    var ms := DocumentEmissions(claim, partner, version, items);
    forall i | 0 <= i < |items| ensures ms[i] == m <==> m.claim == claim && InDocument(partner, version, items[i], m) { }
    hide InDocument;
    if i :| 0 <= i < |items| && m.claim == claim && InDocument(partner, version, items[i], m) { assert ms[i] == m; }
  }

  /** Extraction emits exactly the statements the observation makes. */
  lemma ToldExactly(o: Observation, m: Emission)
    requires EmissionsOf(o).Some?
    ensures m in EmissionsOf(o).value <==> Told(o, m)
  {
    hide AllMessages, TransactionEmissions, DocumentEmissions, InTransaction, InMessage, InDocument;
    if o.status.LookupOk? {
      match o.data
      case PaymentData(_, _, _, Some(t)) => TransactionTold(t, m);
      case MessagesData(records) => MessagesTold(records, 0, m);
      case ProtocolData(partner, version, fields, semantics) =>
        DocumentTold(ProtocolFieldType, partner, version, fields, m);
        DocumentTold(ProtocolBusinessSemantics, partner, version, semantics, m);
      case _ =>
    }
  }

  // ---- the extracted facts ----

  /** Fact `e` is the statement `m`, as the observation and the lookup that made it have it. */
  predicate Records(c: Id, o: Observation, query: Query, m: Emission, e: Evidence) {
    && e.claim == m.claim && e.value == m.value && e.sourcePath == m.path && e.callbackEventId == m.callbackEventId
    && e.subject.kind == m.kind && e.subject.order == o.order && e.subject.field == m.field
    && e.subject.identifier == (if m.identifier.Some? then m.identifier.value else Token(o.order))
    && e.eventTime == (if m.eventTime.Some? then m.eventTime else o.eventTime)
    && e.protocolVersion == m.protocol && e.sourceVersion == m.version
    && e.caseId == c && e.observationId == o.observationId && e.tool == o.tool && e.sourceKind == o.sourceKind
    && e.observedAt == o.observedAt && e.sourceAsOf == o.sourceAsOf && e.completeness == o.completeness && e.freshness == o.freshness
    && e.scope == query
    && match o.data
       case GuaranteeData(request, _, _, _) => e.fundRequestId == Some(request)
       case FundData(request, _, _) => e.fundRequestId == Some(request)
       case PaymentData(request, _, _, _) => e.fundRequestId == Some(request)
       case LoanNoteData(request, _) => e.fundRequestId == Some(request)
       case TraceData(request, _, _) => e.fundRequestId == Some(request)
       case _ => e.fundRequestId.None?
  }

  lemma FactRecords(digest: Content -> Id, hash: Observation -> Id, c: Id, o: Observation, query: Query, m: Emission, e: Evidence)
    ensures e == Fact(digest, hash, c, o, query, m) <==>
      Records(c, o, query, m, e) && e.id == digest(ContentOf(e)) && e.contentHash == hash(o)
  {
  }

  /** The extracted facts are exactly the statements of the observation, each with its own value, subject and instant,
      and with the content digests of the fact and of the observation. */
  lemma ExtractedExactly(digest: Content -> Id, hash: Observation -> Id, c: Id, scope: Scope, o: Observation, query: Query, e: Evidence)
    requires Extract(digest, hash, c, scope, o, query).Some?
    ensures e in Extract(digest, hash, c, scope, o, query).value <==>
      && e.id == digest(ContentOf(e)) && e.contentHash == hash(o)
      && exists m :: Told(o, m) && Records(c, o, query, m, e)
  {
    hide EmissionsOf, Told, Fact, Records, ContentOf;
    var ms := EmissionsOf(o).value;
    forall m ensures m in ms <==> Told(o, m) { ToldExactly(o, m); }
    forall m ensures e == Fact(digest, hash, c, o, query, m) <==> Records(c, o, query, m, e) && e.id == digest(ContentOf(e)) && e.contentHash == hash(o) {
      FactRecords(digest, hash, c, o, query, m, e);
    }
    if m :| Told(o, m) && e == Fact(digest, hash, c, o, query, m) {
      var i :| 0 <= i < |ms| && ms[i] == m;
      assert FactsFrom(digest, hash, c, o, query, ms)[i] == e;
    }
  }
}
