/** The durable rows of one database and the shape of a transaction over them. */
module Tables {
  import opened Domain

  datatype CaseStatus = New | Investigating | Waiting | Escalated | Closed | ClosedVerified {
    predicate Terminal() { Closed? || ClosedVerified? }
  }

  // `usedCalls`, `status` and `revision` are the mutable columns; `lookupRetryAfter` moves on a resume.
  datatype CaseRow = CaseRow(
    tenant: Id, simulation: Id, grantHash: Id, order: Id, allowedOrders: set<Id>, allowedTools: set<Tool>,
    forbiddenTools: set<Tool>, subject: Option<FinancialSubject>, createdAt: Time,
    lookupRetryAfter: Option<Time>, status: CaseStatus, maxCalls: nat, usedCalls: nat, revision: Time)

  // The part of a case that extraction reads; no transaction changes it.
  datatype Scope = Scope(allowedOrders: set<Id>, allowedTools: set<Tool>)

  function ScopeOf(row: CaseRow): Scope { Scope(row.allowedOrders, row.allowedTools) }

  datatype CallState = CallDispatched | CallObserved | CallError

  datatype CallRow = CallRow(
    caseId: Id, correlation: Option<Id>, sequence: nat, tool: Tool, request: Query, state: CallState,
    observationId: Option<Id>)

  datatype LookupStatus = LookupOk | LookupTimeout | LookupNotFound

  // `data` is the typed projection of a successful lookup; see module Extraction.
  datatype Observation = Observation(
    observationId: Id, tool: Tool, order: Id, status: LookupStatus, eventTime: Option<Time>, observedAt: Time,
    sourceAsOf: Option<Time>, sourceKind: SourceKind, completeness: Completeness, freshness: Freshness, data: Data)

  datatype Data =
    | NoData
    | AssetData(status: Text)
    | GuaranteeData(requestId: Text, status: Text, revision: int, protocol: Text)
    | FundData(requestId: Text, status: Text, maybeLoanNo: Option<Text>)
    | PaymentData(requestId: Text, finality: Text, at: Time, transaction: Option<Transaction>)
    | LoanNoteData(requestId: Text, loanNo: Text)
    | CallbackData(raw: bool, eventId: Text, signed: bool, protocol: Text)
    | MessagesData(records: seq<Message>)
    | AccountingData(entry: bool)
    | TraceData(requestId: Text, sent: bool, response: Text)
    | DeliveryData(status: Text, deliveryEvent: Option<Text>)
    | ProtocolData(partner: Text, version: Text, fieldTypes: Items, semantics: Items)

  datatype Item = Item(name: Text, value: Text)

  predicate DistinctNames(s: seq<Item>) { forall i, j :: 0 <= i < j < |s| ==> s[i].name != s[j].name }

  // The items of a mapping, in the order of its sorted keys.
  type Items = s: seq<Item> | DistinctNames(s) witness []

  datatype Transaction = Transaction(
    id: Text, requestId: Text, amount: int, currency: Text, finality: Text, at: Time,
    customer: Option<Text>, beneficiary: Option<Text>, account: Option<Text>)

  datatype Message = Message(
    id: Text, eventId: Text, at: Time, consumeStatus: Text, dlq: Option<Text>, error: Option<MessageError>,
    deployment: Option<Deployment>)

  datatype MessageError = MessageError(code: Text, field: Text, expectedType: Text, actualType: Text)

  datatype Deployment = Deployment(schemaVersion: Text, acceptedProtocol: Text, loanNoType: Text, at: Time)

  // `hashed` is the observation whose digest the row carries as its content hash.
  datatype ObservationRow = ObservationRow(
    simulation: Id, grantHash: Id, tool: Tool, request: Query, observation: Observation, hashed: Observation,
    correlation: Option<Id>)

  datatype EvidenceRow = EvidenceRow(caseId: Id, observationId: Id, payload: Evidence)

  datatype Origin = Origin(evidenceId: Id, callId: Id)

  // ---- authorization ----

  datatype Action = NoRemediation | ReplayCallback | RedeliverAsset | CreateReconciliation | RequestReview

  datatype Risk = ReadOnlyRisk | AdministrativeRisk | SingleOrderRisk | MoneyRisk | BulkRisk

  datatype Target = Target(
    caseId: Id, tenant: Id, order: Id, eventRef: Option<Text>, messageRef: Option<Text>, deliveryRef: Option<Text>)

  datatype IntentBody = IntentBody(
    caseId: Id, tenant: Id, order: Id, action: Action, risk: Risk, target: Target, evidenceRefs: seq<Id>,
    snapshotId: Id, evidenceHash: Id, preflight: Id, policyVersion: Id, catalogVersion: Id, requiresApproval: bool)

  // An intent's identifier is the digest of its body; a stored row may carry a wrong one.
  datatype IntentId = IntentDigest(body: IntentBody)

  datatype Intent = Intent(intentId: IntentId, body: IntentBody)

  datatype ApprovalStatus = Pending | Approved | Rejected | Expired | Revoked

  datatype Approval = Approval(
    intent: Intent, status: ApprovalStatus, requestedAt: Time, decidedAt: Option<Time>, expiresAt: Time,
    actor: Option<Id>)

  datatype Command =
    | ReplayCommand(tenant: Id, caseId: Id, order: Id, messageRef: Text, eventRef: Text)
    | RedeliverCommand(tenant: Id, caseId: Id, order: Id, deliveryRef: Text)
    | ReconcileCommand(tenant: Id, caseId: Id, order: Id)
    | ReviewCommand(tenant: Id, caseId: Id, order: Id)

  datatype Payload = CommandPayload(command: Command) | NoopPayload(target: Target)

  datatype Capability = Capability(
    capabilityId: Id, intentId: IntentId, tenant: Id, caseId: Id, order: Id, action: Action, targetHash: Target,
    payloadHash: Payload, snapshotId: Id, evidenceHash: Id, preflight: Id, approvalId: Option<Id>,
    policyVersion: Id, catalogVersion: Id, authorizationVersion: Id, expectedRevision: Time, issuedAt: Time,
    expiresAt: Time)

  datatype EffectKey = EffectKey(tenant: Id, caseId: Id, order: Id, action: Action, targetHash: Target)

  datatype CapabilityRow = CapabilityRow(payload: Capability, usedEffect: Option<EffectKey>)

  datatype EffectStatus =
    | Prepared | Dispatched | Accepted | Applied | Unknown | FailedConfirmed | Noop
  {
    predicate Unresolved() { Prepared? || Dispatched? || Accepted? || Unknown? }

    // The states whose remote outcome may be looked up by recovery.
    predicate LookupOnly() { Dispatched? || Accepted? || Unknown? }
  }

  datatype Failure = TransportUncertain | InvalidReceipt | RemoteRejected

  datatype Ledger = Ledger(
    effectId: EffectKey, intentId: IntentId, capabilityId: Id, approvalId: Option<Id>, tenant: Id, caseId: Id,
    order: Id, action: Action, targetHash: Target, payloadHash: Payload, snapshotId: Id, evidenceHash: Id,
    preparedRevision: Time, status: EffectStatus, attemptCount: nat, createdAt: Time, updatedAt: Time,
    correlation: Id, externalRef: Option<Id>, failure: Option<Failure>)

  datatype Receipt = Receipt(correlation: Id, outcome: EffectStatus, externalRef: Option<Id>)

  // ---- recovery ----

  datatype RecoveryRow = RecoveryRow(
    tenant: Id, caseId: Id, ledgerUpdatedAt: Time, nextEligibleAt: Time, leaseOwner: Option<Id>,
    leaseUntil: Option<Time>, leaseToken: Option<Id>, attemptCount: nat, requiresEscalation: bool)

  datatype Attempt = Attempt(effect: EffectKey, worker: Id, completedAt: Option<Time>, lookup: Option<LookupProof>)

  datatype LookupProof = LookupProof(target: EffectStatus, externalRef: Option<Id>)

  // ---- evaluation ----

  datatype Dimension =
    | MoneyDim | IdentityDim | StateDim | SideEffectDim | SufficiencyDim | PolicyDim | RecoveryDim | OutcomeDim

  datatype CheckStatus = PASS | FAIL | INCONCLUSIVE | NOT_APPLICABLE

  datatype OutcomePath = SettledPath | NoDisbursementPath

  datatype EvidenceDigest = EvidenceDigest(
    rows: map<Id, EvidenceRow>, origins: set<Origin>, receipts: map<Id, ObservationRow>)

  datatype Binding = Binding(intent: Intent, capability: CapabilityRow, approval: Option<Approval>)

  datatype Snapshot = Snapshot(
    caseId: Id, tenant: Id, caseRevision: Time, caseDigest: CaseRow, evidenceDigest: EvidenceDigest,
    currentDigest: set<Evidence>, inGrace: bool, provenanceValid: bool, ledgerDigest: map<EffectKey, Ledger>,
    recoveryDigest: map<EffectKey, RecoveryRow>, callDigest: map<Id, CallRow>,
    bindingDigest: map<EffectKey, Binding>,
    policyVersion: Id, contractVersion: Id)

  datatype ReportBody = ReportBody(
    caseId: Id, snapshotId: Snapshot, snapshot: Snapshot, path: Option<OutcomePath>, verdict: CheckStatus,
    dimensions: map<Dimension, CheckStatus>, policyVersion: Id, contractVersion: Id)

  // `reportId` is the digest of the body; run identifier and time are outside it.
  datatype Report = Report(body: ReportBody, runId: Id, reportId: ReportBody, createdAt: Time)

  datatype ClosureId = ClosureDigest(caseId: Id, reportId: ReportBody, snapshotId: Snapshot)

  datatype ClosureRecord = ClosureRecord(
    closureId: ClosureId, caseId: Id, runId: Id, reportId: ReportBody, snapshotId: Snapshot,
    evidenceDigest: EvidenceDigest, ledgerDigest: map<EffectKey, Ledger>, policyVersion: Id, contractVersion: Id,
    closedAt: Time)

  datatype Tables = Tables(
    cases: map<Id, CaseRow>,
    calls: map<Id, CallRow>,
    observations: map<Id, ObservationRow>,
    evidence: map<Id, EvidenceRow>,
    origins: set<Origin>,
    intents: map<IntentId, Intent>,
    approvals: map<Id, Approval>,
    capabilities: map<Id, CapabilityRow>,
    effects: map<EffectKey, Ledger>,
    recoveries: map<EffectKey, RecoveryRow>,
    attempts: map<Id, Attempt>,
    reports: map<Id, Report>,
    closures: map<Id, ClosureRecord>)

  const EMPTY := Tables(map[], map[], map[], map[], {}, map[], map[], map[], map[], map[], map[], map[], map[])

  datatype Fault =
    | CaseUnavailable | PolicyRefused | PreconditionFailed | ProvenanceRefused | IntegrityConflict
    | ScopeMismatch | ActionNotAllowed | StaleAuthorization | ApprovalRequired | ApprovalExpired
    | ApprovalRevoked | ApprovalNotApproved | BindingMismatch | WriteFenced | CapabilityExpired
    | InvalidCapability | IdempotencyConflict | CapabilityAlreadyUsed | InvalidTransition
    | TargetMismatch | PayloadMismatch | RecoveryStale | LeaseLost | ClosureViolation
    | PassRequired | ReportInvalid | ReportNotPersisted | StaleEvaluation | AmbiguousObservation
    | ObservationMissing

  /** The outcome of one atomic transaction: new rows and a value, or a rollback. */
  datatype Tx<+T> = Committed(tables: Tables, value: T) | RolledBack(fault: Fault) {
    function After(before: Tables): Tables {
      if Committed? then tables else before
    }
  }

  /** Rows of one case. */
  function CallsOf(calls: map<Id, CallRow>, c: Id): map<Id, CallRow> {
    map k | k in calls && calls[k].caseId == c :: calls[k]
  }

  function EvidenceOf(evidence: map<Id, EvidenceRow>, c: Id): map<Id, EvidenceRow> {
    map e | e in evidence && evidence[e].caseId == c :: evidence[e]
  }

  function OriginsOf(origins: set<Origin>, calls: map<Id, CallRow>, c: Id): set<Origin> {
    set o | o in origins && o.callId in calls && calls[o.callId].caseId == c :: o
  }

  function EffectsOf(effects: map<EffectKey, Ledger>, c: Id): map<EffectKey, Ledger> {
    map k | k in effects && effects[k].caseId == c :: effects[k]
  }

  function RecoveriesOf(recoveries: map<EffectKey, RecoveryRow>, c: Id): map<EffectKey, RecoveryRow> {
    map k | k in recoveries && recoveries[k].caseId == c :: recoveries[k]
  }
}
