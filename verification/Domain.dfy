/** The vocabulary every component shares: opaque identifiers, the texts the rules
    compare, tool queries and the Evidence record.

    Identifiers and instants are integers, of which the source uses only equality and
    the total order. A digest is represented by the value it digests, so two digests
    are equal exactly when their inputs are. */
module Domain {
  type Id = int
  // Microseconds; a Case revision is the `updated_at` instant of its row.
  type Time = int

  datatype Option<+T> = None | Some(value: T)

  function Max(a: int, b: int): (m: int)
    ensures m == a || m == b
    ensures a <= m && b <= m
  {
    if a < b then b else a
  }

  datatype Tool =
    | AssetTool | GuaranteeTool | FundTool | PaymentTool | LoanNoteTool | CallbackTool
    | CallbackRawTool | MessagesTool | AccountingTool | TraceTool | AssetDeliveryTool | ProtocolTool

  datatype Claim =
    | RequestSent | HttpResponseStatus | FundBusinessStatus | LoanNoPresent | LoanNoteReference
    | PaymentFinality | PaymentTransactionId | PaymentAmount | PaymentCurrency | PaymentCustomerRef
    | PaymentBeneficiaryRef | PaymentAccountRef | TransactionFundRequestId
    | CallbackGatewayReceived | CallbackSignatureVerified | CallbackProtocolVersion
    | MessageConsumeStatus | MessageDlq | MessageErrorCode | MessageErrorField
    | MessageExpectedFieldType | MessageActualFieldType
    | ConsumerDeployedSchemaVersion | ConsumerAcceptedProtocolVersion | ConsumerLoanNoFieldType
    | AccountingEntryPresent | AssetStatus | GuaranteeStatus | GuaranteeVersion
    | AssetDeliveryStatus | AssetDeliveryEventRef
    | ProtocolFieldType | ProtocolBusinessSemantics | SourceLookupStatus

  /** A text: one of the words some rule names, an opaque token, or the
      "partner@version" identifier of a protocol document. */
  datatype Text =
    | SETTLED | NOT_EXECUTED | PENDING | SUCCESS | PROCESSING | FAILED
    | CONSUMED | DELIVERED | NOT_ATTEMPTED | OK | TIMEOUT | NOT_FOUND
    | CALLBACK_SCHEMA_MISMATCH | LOAN_NO | LOAN_CREATED_PAYMENT_SEPARATE
    | Token(id: Id)
    | PartnerVersion(partner: Text, version: Text)

  // The `kind` of a value is its constructor: True and 1 are different values here.
  datatype Value = Flag(flag: bool) | Number(number: int) | Word(text: Text)

  datatype SourceKind = Primary | Replica | Cache | SourceIndex
  datatype Completeness = Complete | Partial | UnknownCompleteness
  datatype Freshness = Current | Stale | UnknownFreshness

  datatype SubjectKind =
    | OrderSubject | FundRequestSubject | TransactionSubject | CallbackSubject | MessageSubject | ProtocolSubject

  datatype Subject = Subject(kind: SubjectKind, identifier: Text, order: Id, field: Option<Text>)

  datatype Query = Query(order: Id, protocolVersion: Option<Text>, effectiveAt: Option<Time>)

  datatype Evidence = Evidence(
    id: Id, caseId: Id, observationId: Id, tool: Tool, sourceKind: SourceKind, claim: Claim,
    subject: Subject, value: Value, eventTime: Option<Time>, observedAt: Time, sourceAsOf: Option<Time>, sourceVersion: Option<Value>,
    protocolVersion: Option<Text>, completeness: Completeness, freshness: Freshness, contentHash: Id,
    sourcePath: Path, scope: Query, fundRequestId: Option<Text>, callbackEventId: Option<Text>)

  // Where in the observation a claim was read from (its path within the JSON text).
  datatype Path =
    | StatusPath | RecordPath(name: Claim) | TransactionPath(name: Claim)
    | MessagePath(position: nat, name: Claim) | ProtocolPath(field: Text)

  datatype FinancialSubject = FinancialSubject(
    principalMinor: int, currency: Text, customerRef: Text, beneficiaryRef: Text, accountRef: Text)

  /** What an evidence identifier is the digest of: every field but the identifier, the observation's
      identity and its instant; a claim without an event time keeps the instant of the lookup. */
  datatype Content = Content(
    caseId: Id, tool: Tool, sourceKind: SourceKind, claim: Claim, subject: Subject, value: Value,
    eventTime: Option<Time>, lookupAt: Option<Time>, sourceAsOf: Option<Time>, sourceVersion: Option<Value>, protocolVersion: Option<Text>,
    completeness: Completeness, freshness: Freshness, sourcePath: Path, scope: Query,
    fundRequestId: Option<Text>, callbackEventId: Option<Text>)

  function ContentOf(e: Evidence): Content {
    Content(e.caseId, e.tool, e.sourceKind, e.claim, e.subject, e.value, e.eventTime,
            if e.eventTime.None? then Some(e.observedAt) else None, e.sourceAsOf, e.sourceVersion, e.protocolVersion,
            e.completeness, e.freshness, e.sourcePath, e.scope, e.fundRequestId, e.callbackEventId)
  }

  // A collision-free digest of evidence contents.
  ghost predicate Injective(digest: Content -> Id) {
    forall a, b :: digest(a) == digest(b) ==> a == b
  }
}
