/** What each transaction of the approval, capability and effect store commits, and the
    recovery repository's transactions over the same ledger. */
module AuthorizationTransactions {
  import opened Domain
  import opened Tables
  import opened CaseTransactions

  const POLICY_VERSION: Id := 2
  const CATALOG_VERSION: Id := 2
  const AUTHORIZATION_VERSION: Id := 1

  // ---- commands and keys ----

  datatype Built = NoCommand | Command(command: Command) | Unbuildable

  /** The domain command an intent stands for; none for NO_REMEDIATION. */
  function ForIntent(intent: Intent): Built {
    var b := intent.body;
    match b.action
    case NoRemediation => NoCommand
    case ReplayCallback =>
      if b.target.messageRef.None? || b.target.eventRef.None? then Unbuildable
      else Built.Command(ReplayCommand(b.tenant, b.caseId, b.order, b.target.messageRef.value, b.target.eventRef.value))
    case RedeliverAsset =>
      if b.target.deliveryRef.None? then Unbuildable
      else Built.Command(RedeliverCommand(b.tenant, b.caseId, b.order, b.target.deliveryRef.value))
    case CreateReconciliation => Built.Command(ReconcileCommand(b.tenant, b.caseId, b.order))
    case RequestReview => Built.Command(ReviewCommand(b.tenant, b.caseId, b.order))
  }

  function PayloadOf(intent: Intent): Option<Payload> {
    match ForIntent(intent)
    case NoCommand => Some(NoopPayload(intent.body.target))
    case Command(command) => Some(CommandPayload(command))
    case Unbuildable => None
  }

  /** Rebuilds the command of a capability, refusing any binding that differs from the intent. */
  function Build(intent: Intent, cap: Capability): Option<Built> {
    var b := intent.body;
    if intent.intentId != cap.intentId || b.caseId != cap.caseId || b.tenant != cap.tenant || b.order != cap.order
       || b.action != cap.action || b.target != cap.targetHash || PayloadOf(intent) != Some(cap.payloadHash) then None
    else Some(ForIntent(intent))
  }

  /** New evidence must not rename the same effect: snapshot and intent identifiers are left out. */
  function KeyOf(cap: Capability): EffectKey {
    EffectKey(cap.tenant, cap.caseId, cap.order, cap.action, cap.targetHash)
  }

  /** The command does what the effect key names: its action, in its tenant, case and order, on the very message and
      event, or delivery, of its target. */
  predicate Addresses(key: EffectKey, built: Built) {
    match built
    case NoCommand => key.action.NoRemediation?
    case Command(ReplayCommand(tenant, c, order, messageRef, eventRef)) =>
      && key.action.ReplayCallback? && tenant == key.tenant && c == key.caseId && order == key.order
      && key.targetHash.messageRef == Some(messageRef) && key.targetHash.eventRef == Some(eventRef)
    case Command(RedeliverCommand(tenant, c, order, deliveryRef)) =>
      && key.action.RedeliverAsset? && tenant == key.tenant && c == key.caseId && order == key.order
      && key.targetHash.deliveryRef == Some(deliveryRef)
    case Command(ReconcileCommand(tenant, c, order)) =>
      key.action.CreateReconciliation? && tenant == key.tenant && c == key.caseId && order == key.order
    case Command(ReviewCommand(tenant, c, order)) =>
      key.action.RequestReview? && tenant == key.tenant && c == key.caseId && order == key.order
    case Unbuildable => true
  }

  /** The intent whose command is rebuilt for a capability is the one the capability was issued for, field by field,
      and the command addresses the capability's effect. */
  lemma BuildAddresses(intent: Intent, cap: Capability)
    requires Build(intent, cap).Some?
    ensures var b := intent.body; KeyOf(cap) == EffectKey(b.tenant, b.caseId, b.order, b.action, b.target)
    ensures Addresses(KeyOf(cap), Build(intent, cap).value)
    ensures Build(intent, cap).value.NoCommand? <==> cap.action.NoRemediation?
  {
  }

  // ---- approvals ----

  /** An approval read at `now`: a pending or granted one past its expiry reads as expired. */
  function StatusAt(a: Approval, now: Time): ApprovalStatus {
    if (a.status.Pending? || a.status.Approved?) && a.expiresAt <= now then Expired else a.status
  }

  predicate Lockable(t: Tables, tenant: Id, c: Id) { Owns(t, tenant, c) }

  predicate Open(t: Tables, c: Id)
    requires c in t.cases
  {
    !t.cases[c].status.Terminal()
  }

  predicate IntentSavable(t: Tables, intent: Intent) {
    intent.intentId in t.intents ==> t.intents[intent.intentId] == intent
  }

  function RequestApproval(t: Tables, tenant: Id, approvalId: Id, request: Approval, revision: Time): (tx: Tx<()>)
    ensures tx.Committed? ==> tx.tables == t.(intents := tx.tables.intents, approvals := tx.tables.approvals)
  {
    var c := request.intent.body.caseId;
    if !Lockable(t, tenant, c) then RolledBack(ScopeMismatch)
    else if !Open(t, c) then RolledBack(ActionNotAllowed)
    else if t.cases[c].revision != revision then RolledBack(StaleAuthorization)
    else if !IntentSavable(t, request.intent) then RolledBack(StaleAuthorization)
    else if approvalId in t.approvals then RolledBack(IntegrityConflict)
    else Committed(t.(intents := t.intents[request.intent.intentId := request.intent],
                      approvals := t.approvals[approvalId := request.(status := Pending)]), ())
  }

  predicate Decidable(current: ApprovalStatus, decision: ApprovalStatus) {
    && (decision.Approved? || decision.Rejected? || decision.Revoked?)
    && (current.Pending? || (current.Approved? && decision.Revoked?))
  }

  function DecideApproval(t: Tables, tenant: Id, approvalId: Id, decision: ApprovalStatus, actor: Id, now: Time): (tx: Tx<()>)
    ensures tx.Committed? ==> tx.tables == t.(approvals := tx.tables.approvals)
  {
    if approvalId !in t.approvals then RolledBack(ApprovalRequired)
    else
      var a := t.approvals[approvalId];
      var c := a.intent.body.caseId;
      if !Lockable(t, tenant, c) then RolledBack(ScopeMismatch)
      else if !Open(t, c) then RolledBack(ActionNotAllowed)
      else if !Decidable(StatusAt(a, now), decision) then
        RolledBack(if StatusAt(a, now).Expired? then ApprovalExpired else ApprovalNotApproved)
      else Committed(t.(approvals := t.approvals[approvalId :=
             a.(status := decision, decidedAt := Some(now), actor := Some(actor))]), ())
  }

  /** An operator of `tenant` may decide approval `id`: its case is open, and it is still waiting, or granted and
      now revoked, before its deadline. */
  predicate MayDecide(t: Tables, tenant: Id, id: Id, decision: ApprovalStatus, now: Time) {
    && id in t.approvals && now < t.approvals[id].expiresAt
    && var a := t.approvals[id];
    && a.intent.body.caseId in t.cases && t.cases[a.intent.body.caseId].tenant == tenant
    && !t.cases[a.intent.body.caseId].status.Terminal()
    && (|| (a.status.Pending? && decision in {Approved, Rejected, Revoked})
        || (a.status.Approved? && decision.Revoked?))
  }

  /** The row `a` after the decision `decision` of `actor` at `now`: still the same question. */
  predicate DecidedAs(a: Approval, a': Approval, decision: ApprovalStatus, actor: Id, now: Time) {
    && a'.status == decision && a'.decidedAt == Some(now) && a'.actor == Some(actor)
    && a'.intent == a.intent && a'.requestedAt == a.requestedAt && a'.expiresAt == a.expiresAt
  }

  /** A permitted decision is stored as it was made, on that one approval; any other changes nothing. */
  predicate Stores(t: Tables, t': Tables, tenant: Id, id: Id, decision: ApprovalStatus, actor: Id, now: Time) {
    if MayDecide(t, tenant, id, decision, now) then
      && t' == t.(approvals := t'.approvals) && t'.approvals.Keys == t.approvals.Keys
      && (forall other :: other in t.approvals && other != id ==> t'.approvals[other] == t.approvals[other])
      && DecidedAs(t.approvals[id], t'.approvals[id], decision, actor, now)
    else t' == t
  }

  lemma DecideStores(t: Tables, tenant: Id, id: Id, decision: ApprovalStatus, actor: Id, now: Time)
    ensures DecideApproval(t, tenant, id, decision, actor, now).Committed? <==> MayDecide(t, tenant, id, decision, now)
    ensures Stores(t, DecideApproval(t, tenant, id, decision, actor, now).After(t), tenant, id, decision, actor, now)
  {
  }

  /** None when the approval requirement of `intent` is met at `now`. */
  function CheckApproval(t: Tables, intent: Intent, approvalId: Option<Id>, now: Time): Option<Fault> {
    if !intent.body.requiresApproval && approvalId.None? then None
    else if approvalId.None? || approvalId.value !in t.approvals then Some(ApprovalRequired)
    else
      var a := t.approvals[approvalId.value];
      if a.intent != intent then Some(BindingMismatch)
      else match StatusAt(a, now)
        case Approved => None
        case Expired => Some(ApprovalExpired)
        case Revoked => Some(Fault.ApprovalRevoked)
        case _ => Some(ApprovalNotApproved)
  }

  // ---- capabilities ----

  predicate Fenced(t: Tables, key: EffectKey, c: Id) {
    key in t.effects && t.effects[key].caseId == c
    && (t.effects[key].status.Dispatched? || t.effects[key].status.Unknown? || t.effects[key].status.Accepted?)
  }

  /** The capability the service mints for a freshly verified intent. `seen` is the case
      revision that verification read. */
  function Mint(intent: Intent, capabilityId: Id, approvalId: Option<Id>, payload: Payload, seen: Time, now: Time,
                ttl: Time): Capability
  {
    var b := intent.body;
    Capability(capabilityId, intent.intentId, b.tenant, b.caseId, b.order, b.action, b.target, payload,
               b.snapshotId, b.evidenceHash, b.preflight, approvalId, b.policyVersion, b.catalogVersion,
               AUTHORIZATION_VERSION, seen, now, now + ttl)
  }

  function Issue(t: Tables, tenant: Id, intent: Intent, cap: Capability, now: Time): (tx: Tx<Capability>)
    ensures tx.Committed? ==> tx.tables == t.(intents := tx.tables.intents, capabilities := tx.tables.capabilities)
  {
    var c := intent.body.caseId;
    if !Lockable(t, tenant, c) then RolledBack(ScopeMismatch)
    else if !Open(t, c) then RolledBack(ActionNotAllowed)
    else if t.cases[c].revision != cap.expectedRevision || now >= cap.expiresAt then RolledBack(StaleAuthorization)
    else match CheckApproval(t, intent, cap.approvalId, now)
      case Some(fault) => RolledBack(fault)
      case None =>
        if Fenced(t, KeyOf(cap), cap.caseId) then RolledBack(WriteFenced)
        else if !IntentSavable(t, intent) then RolledBack(StaleAuthorization)
        else if cap.capabilityId in t.capabilities then RolledBack(IntegrityConflict)
        else Committed(t.(intents := t.intents[intent.intentId := intent],
                          capabilities := t.capabilities[cap.capabilityId := CapabilityRow(cap, None)]), cap)
  }

  /** `issue_capability`: mint, then store, for an intent whose command can be built. */
  function IssueCapability(t: Tables, tenant: Id, intent: Intent, capabilityId: Id, approvalId: Option<Id>,
                           seen: Time, mintedAt: Time, ttl: Time, now: Time): (tx: Tx<Capability>)
    ensures tx.Committed? ==> tx.tables == t.(intents := tx.tables.intents, capabilities := tx.tables.capabilities)
  {
    match PayloadOf(intent)
    case None => RolledBack(PayloadMismatch)
    case Some(payload) => Issue(t, tenant, intent, Mint(intent, capabilityId, approvalId, payload, seen, mintedAt, ttl), now)
  }

  /** None when `cap` is a stored, current, properly approved capability at `now`. */
  function CheckCapability(t: Tables, tenant: Id, cap: Capability, now: Time): (fault: Option<Fault>)
    ensures fault.None? ==>
      && cap.tenant == tenant && cap.issuedAt <= now < cap.expiresAt
      && cap.capabilityId in t.capabilities && t.capabilities[cap.capabilityId].payload == cap
      && cap.intentId in t.intents && CheckApproval(t, t.intents[cap.intentId], cap.approvalId, now).None?
  {
    if cap.tenant != tenant then Some(ScopeMismatch)
    else if now >= cap.expiresAt || now < cap.issuedAt then Some(Fault.CapabilityExpired)
    else if cap.policyVersion != POLICY_VERSION || cap.catalogVersion != CATALOG_VERSION
            || cap.authorizationVersion != AUTHORIZATION_VERSION then Some(StaleAuthorization)
    else if cap.capabilityId !in t.capabilities || t.capabilities[cap.capabilityId].payload != cap then
      Some(InvalidCapability)
    else if cap.intentId !in t.intents || !Owns(t, tenant, t.intents[cap.intentId].body.caseId) then
      Some(StaleAuthorization)
    else CheckApproval(t, t.intents[cap.intentId], cap.approvalId, now)
  }

  datatype Found = Fresh | Existing(capabilities: map<Id, CapabilityRow>, ledger: Ledger) | Refused(fault: Fault)

  /** The effect already recorded under this capability's key, marking the capability used by it. */
  function FindExisting(t: Tables, cap: Capability): (found: Found)
    requires cap.capabilityId in t.capabilities
    ensures found.Fresh? <==> KeyOf(cap) !in t.effects && t.capabilities[cap.capabilityId].usedEffect.None?
    ensures found.Existing? ==>
      && KeyOf(cap) in t.effects && found.ledger == t.effects[KeyOf(cap)]
      && (t.capabilities[cap.capabilityId].usedEffect.None? || t.capabilities[cap.capabilityId].usedEffect.value == KeyOf(cap))
      && found.capabilities == t.capabilities[cap.capabilityId :=
           t.capabilities[cap.capabilityId].(usedEffect := Some(KeyOf(cap)))]
  {
    var row, key := t.capabilities[cap.capabilityId], KeyOf(cap);
    if key in t.effects then
      var ledger := t.effects[key];
      if ledger.payloadHash != cap.payloadHash || ledger.targetHash != cap.targetHash || ledger.caseId != cap.caseId
         || ledger.action != cap.action || ledger.tenant != cap.tenant then Refused(IdempotencyConflict)
      else if row.usedEffect.Some? && row.usedEffect.value != key then Refused(CapabilityAlreadyUsed)
      else Existing(t.capabilities[cap.capabilityId := row.(usedEffect := Some(key))], ledger)
    else if row.usedEffect.Some? then Refused(CapabilityAlreadyUsed)
    else Fresh
  }

  function ExistingEffect(t: Tables, tenant: Id, cap: Capability, now: Time): (tx: Tx<Option<Ledger>>)
    ensures tx.Committed? ==> tx.tables == t.(capabilities := tx.tables.capabilities)
  {
    if !Lockable(t, tenant, cap.caseId) then RolledBack(ScopeMismatch)
    else match CheckCapability(t, tenant, cap, now)
      case Some(fault) => RolledBack(fault)
      case None =>
        match FindExisting(t, cap)
        case Refused(fault) => RolledBack(fault)
        case Fresh => Committed(t, None)
        case Existing(held, ledger) => Committed(t.(capabilities := held), Some(ledger))
  }

  // ---- the effect ledger ----

  datatype PrepareResult = PrepareResult(ledger: Ledger, ownsDispatch: bool)

  /** Recovery discovery is updated in the same transaction as the ledger. */
  function Synchronize(recoveries: map<EffectKey, RecoveryRow>, ledger: Ledger): map<EffectKey, RecoveryRow> {
    var key := ledger.effectId;
    recoveries[key :=
      if key in recoveries then
        var row := recoveries[key].(ledgerUpdatedAt := ledger.updatedAt);
        if ledger.status.Unresolved() then row else row.(requiresEscalation := false)
      else RecoveryRow(ledger.tenant, ledger.caseId, ledger.updatedAt, ledger.updatedAt, None, None, None, 0, false)]
  }

  function NewLedger(cap: Capability, revision: Time, correlation: Id, now: Time): (ledger: Ledger)
    ensures ledger.effectId == KeyOf(cap)
  {
    Ledger(KeyOf(cap), cap.intentId, cap.capabilityId, cap.approvalId, cap.tenant, cap.caseId, cap.order, cap.action,
           cap.targetHash, cap.payloadHash, cap.snapshotId, cap.evidenceHash, revision,
           if cap.action.NoRemediation? then Noop else Prepared, 0, now, now, correlation, None, None)
  }

  /** A first PREPARED (or NOOP) row for the effect of `cap`, with every row written beside it. */
  function Insert(t: Tables, cap: Capability, correlation: Id, clock: Time, now: Time): Tables
    requires cap.caseId in t.cases
  {
    var row := t.cases[cap.caseId];
    var revision := if cap.action.NoRemediation? then row.revision else NextRevision(row.revision, clock);
    var ledger := NewLedger(cap, revision, correlation, now);
    t.(cases := t.cases[cap.caseId := row.(revision := revision)],
       effects := t.effects[ledger.effectId := ledger],
       capabilities := t.capabilities[cap.capabilityId := CapabilityRow(cap, Some(ledger.effectId))],
       recoveries := Synchronize(t.recoveries, ledger))
  }

  function Prepare(t: Tables, tenant: Id, cap: Capability, correlation: Id, clock: Time, now: Time): (tx: Tx<PrepareResult>)
    ensures tx.Committed? ==> tx.tables == t.(cases := tx.tables.cases, capabilities := tx.tables.capabilities, effects := tx.tables.effects, recoveries := tx.tables.recoveries)
    ensures tx.Committed? && tx.value.ownsDispatch ==> KeyOf(cap) in tx.tables.effects && tx.tables.effects[KeyOf(cap)] == tx.value.ledger
  {
    var c := cap.caseId;
    if !Lockable(t, tenant, c) then RolledBack(ScopeMismatch)
    else if !Open(t, c) then RolledBack(ActionNotAllowed)
    else match CheckCapability(t, tenant, cap, now)
      case Some(fault) => RolledBack(fault)
      case None =>
        match FindExisting(t, cap)
        case Refused(fault) => RolledBack(fault)
        case Existing(held, ledger) => Committed(t.(capabilities := held), PrepareResult(ledger, false))
        case Fresh =>
          if t.cases[c].revision != cap.expectedRevision then RolledBack(StaleAuthorization)
          else
            var after := Insert(t, cap, correlation, clock, now);
            Committed(after, PrepareResult(after.effects[KeyOf(cap)], !cap.action.NoRemediation?))
  }

  /** The recovery worker that resumes effect `key` still leases it. */
  predicate ClaimHolds(t: Tables, key: EffectKey, claim: RecoveryClaim, now: Time) {
    && claim.key == key && key in t.recoveries && t.recoveries[key].leaseToken == Some(claim.recoveryId)
    && t.recoveries[key].leaseOwner == Some(claim.worker) && Leased(t.recoveries[key], now)
  }

  /** The only transition out of PREPARED: authorization and case revision are checked again, and a resuming worker
      must hold its claim. */
  function DispatchPrepared(t: Tables, tenant: Id, cap: Capability, claim: Option<RecoveryClaim>, now: Time): (tx: Tx<Ledger>)
    ensures tx.Committed? ==> tx.tables == t.(effects := tx.tables.effects, recoveries := tx.tables.recoveries)
  {
    var c := cap.caseId;
    if !Lockable(t, tenant, c) then RolledBack(ScopeMismatch)
    else if !Open(t, c) then RolledBack(ActionNotAllowed)
    else match CheckCapability(t, tenant, cap, now)
      case Some(fault) => RolledBack(fault)
      case None =>
        var used := t.capabilities[cap.capabilityId].usedEffect;
        if used.None? || used.value !in t.effects || t.effects[used.value].capabilityId != cap.capabilityId then
          RolledBack(CapabilityAlreadyUsed)
        else
          var ledger := t.effects[used.value];
          if claim.Some? && !ClaimHolds(t, ledger.effectId, claim.value, now) then RolledBack(StaleAuthorization)
          else if t.cases[c].revision != ledger.preparedRevision then RolledBack(StaleAuthorization)
          else if !ledger.status.Prepared? then RolledBack(InvalidTransition)
          else
            var changed := ledger.(status := Dispatched, attemptCount := 1, updatedAt := now);
            Committed(t.(effects := t.effects[used.value := changed], recoveries := Synchronize(t.recoveries, changed)), changed)
  }

  predicate TransitionAllowed(expected: EffectStatus, status: EffectStatus) {
    || (expected.Dispatched? && (status.Accepted? || status.Applied? || status.Unknown? || status.FailedConfirmed?))
    || (expected.Accepted? && (status.Applied? || status.Unknown? || status.FailedConfirmed?))
  }

  /** Only UNKNOWN may be recorded without a receipt saying so. */
  predicate Unreceipted(status: EffectStatus, receipt: Option<Receipt>) {
    !status.Unknown? && (receipt.None? || receipt.value.outcome != status)
  }

  /** The receipt is for another dispatch, or names another remote effect. */
  predicate ReceiptConflicts(receipt: Option<Receipt>, ledger: Ledger) {
    receipt.Some? &&
    (|| receipt.value.correlation != ledger.correlation
     || (receipt.value.externalRef.Some? && ledger.externalRef.Some? && receipt.value.externalRef != ledger.externalRef))
  }

  /** Why effect `key` cannot move from `expected` to `status` on this receipt, if it cannot. */
  function TransitionFault(t: Tables, tenant: Id, key: EffectKey, expected: EffectStatus, status: EffectStatus,
                           receipt: Option<Receipt>): (fault: Option<Fault>)
    ensures fault.None? ==>
      && TransitionAllowed(expected, status) && key in t.effects && t.effects[key].status == expected
      && Lockable(t, tenant, t.effects[key].caseId)
  {
    if !TransitionAllowed(expected, status) then Some(InvalidTransition)
    else if Unreceipted(status, receipt) then Some(InvalidTransition)
    else if key !in t.effects || !Lockable(t, tenant, t.effects[key].caseId) then Some(ScopeMismatch)
    else
      var ledger := t.effects[key];
      if ReceiptConflicts(receipt, ledger) || ledger.status != expected then Some(InvalidTransition)
      else if ledger.intentId !in t.intents then Some(StaleAuthorization)
      else None
  }

  function Transition(t: Tables, tenant: Id, key: EffectKey, expected: EffectStatus, status: EffectStatus, now: Time,
                      receipt: Option<Receipt>, failure: Option<Failure>): (tx: Tx<Ledger>)
    ensures tx.Committed? ==> tx.tables == t.(effects := tx.tables.effects, recoveries := tx.tables.recoveries)
  {
    match TransitionFault(t, tenant, key, expected, status, receipt)
    case Some(fault) => RolledBack(fault)
    case None =>
      var ledger := t.effects[key];
      var changed := ledger.(status := status, updatedAt := now, failure := failure,
                             externalRef := if receipt.Some? then receipt.value.externalRef else ledger.externalRef);
      Committed(t.(effects := t.effects[key := changed], recoveries := Synchronize(t.recoveries, changed)), changed)
  }

  // ---- recovery of unresolved effects ----

  datatype RecoveryPolicy = RecoveryPolicy(maxAttempts: nat, grace: nat, lease: nat, backoff: nat)

  datatype RecoveryClaim = RecoveryClaim(recoveryId: Id, key: EffectKey, worker: Id, source: EffectStatus, sequence: nat)

  /** None when recovery may touch this effect under the Case lock. */
  function Locked(t: Tables, tenant: Id, key: EffectKey): (fault: Option<Fault>)
    ensures fault.None? ==> key in t.effects && key in t.recoveries && t.effects[key].caseId in t.cases
    ensures fault.None? && t.effects[key].status.Unresolved() ==> !t.cases[t.effects[key].caseId].status.Terminal()
  {
    if key !in t.effects || !Lockable(t, tenant, t.effects[key].caseId) then Some(ScopeMismatch)
    else if t.cases[t.effects[key].caseId].status.Terminal() && t.effects[key].status.Unresolved() then
      Some(ClosureViolation)
    else if key !in t.recoveries then Some(Fault.RecoveryStale)
    else None
  }

  predicate Leased(row: RecoveryRow, now: Time) { row.leaseUntil.Some? && row.leaseUntil.value > now }

  predicate Due(row: RecoveryRow, policy: RecoveryPolicy, now: Time) {
    now >= row.nextEligibleAt && now >= row.ledgerUpdatedAt + policy.grace && !Leased(row, now)
  }

  function Abandon(attempts: map<Id, Attempt>, token: Option<Id>, now: Time): map<Id, Attempt> {
    if token.Some? && token.value in attempts && attempts[token.value].completedAt.None?
    then attempts[token.value := attempts[token.value].(completedAt := Some(now))]
    else attempts
  }

  function ClaimRecovery(t: Tables, tenant: Id, key: EffectKey, worker: Id, recoveryId: Id, policy: RecoveryPolicy,
                         now: Time): (tx: Tx<Option<RecoveryClaim>>)
    ensures tx.Committed? ==> tx.tables == t.(attempts := tx.tables.attempts, recoveries := tx.tables.recoveries)
  {
    match Locked(t, tenant, key)
    case Some(fault) => RolledBack(fault)
    case None =>
      var ledger, row := t.effects[key], t.recoveries[key];
      var exhausted := row.requiresEscalation || row.attemptCount >= policy.maxAttempts;
      if !ledger.status.Unresolved() || (!exhausted && !Due(row, policy, now)) then Committed(t, None)
      else if !exhausted && recoveryId in t.attempts then RolledBack(IntegrityConflict)
      else
        var next := if exhausted then row.(requiresEscalation := true)
          else row.(leaseOwner := Some(worker), leaseToken := Some(recoveryId), leaseUntil := Some(now + policy.lease),
                    attemptCount := row.attemptCount + 1);
        Committed(t.(recoveries := t.recoveries[key := next],
                     attempts := if exhausted then t.attempts
                                 else Abandon(t.attempts, row.leaseToken, now)[recoveryId := Attempt(key, worker, None, None)]),
                  if exhausted then None else Some(RecoveryClaim(recoveryId, key, worker, ledger.status, next.attemptCount)))
  }

  predicate HoldsLease(t: Tables, claim: RecoveryClaim, now: Time)
    requires claim.key in t.recoveries
  {
    var row := t.recoveries[claim.key];
    && row.leaseToken == Some(claim.recoveryId) && row.leaseOwner == Some(claim.worker) && Leased(row, now)
    && claim.recoveryId in t.attempts
    && t.attempts[claim.recoveryId].completedAt.None? && t.attempts[claim.recoveryId].effect == claim.key
  }

  function PersistLookup(t: Tables, tenant: Id, claim: RecoveryClaim, proof: LookupProof, now: Time): (tx: Tx<()>)
    ensures tx.Committed? ==> tx.tables == t.(attempts := tx.tables.attempts)
  {
    match Locked(t, tenant, claim.key)
    case Some(fault) => RolledBack(fault)
    case None =>
      if !HoldsLease(t, claim, now) then RolledBack(Fault.LeaseLost)
      else if t.effects[claim.key].status != claim.source || !claim.source.LookupOnly() then RolledBack(Fault.RecoveryStale)
      else if t.attempts[claim.recoveryId].lookup.Some? then RolledBack(IdempotencyConflict)
      else Committed(t.(attempts := t.attempts[claim.recoveryId :=
             t.attempts[claim.recoveryId].(lookup := Some(proof))]), ())
  }

  /** Closes the attempt of a claim. */
  function FinishAttempt(attempts: map<Id, Attempt>, id: Id, now: Time): map<Id, Attempt>
    requires id in attempts
  {
    attempts[id := attempts[id].(completedAt := Some(now))]
  }

  /** Releases the lease of a claim; `status` is the status its effect is left in. */
  function Release(recoveries: map<EffectKey, RecoveryRow>, claim: RecoveryClaim, status: EffectStatus,
                   policy: RecoveryPolicy, escalate: bool, now: Time): map<EffectKey, RecoveryRow>
    requires claim.key in recoveries
  {
    recoveries[claim.key := recoveries[claim.key].(
      leaseOwner := None, leaseToken := None, leaseUntil := None, nextEligibleAt := now + policy.backoff,
      requiresEscalation := status.Unresolved() && (escalate || claim.sequence >= policy.maxAttempts))]
  }

  predicate Reconcilable(s: EffectStatus) { s.Applied? || s.Accepted? || s.FailedConfirmed? || s.Unknown? }

  /** Settles an unresolved effect from the lookup proof its own attempt persisted. */
  function RecoverTransition(t: Tables, tenant: Id, claim: RecoveryClaim, policy: RecoveryPolicy, now: Time): (tx: Tx<Ledger>)
    ensures tx.Committed? ==> tx.tables == t.(effects := tx.tables.effects, attempts := tx.tables.attempts, recoveries := tx.tables.recoveries)
  {
    match Locked(t, tenant, claim.key)
    case Some(fault) => RolledBack(fault)
    case None =>
      if !HoldsLease(t, claim, now) then RolledBack(Fault.LeaseLost)
      else if t.effects[claim.key].status != claim.source || !claim.source.LookupOnly() then RolledBack(Fault.RecoveryStale)
      else
        var ledger, lookup := t.effects[claim.key], t.attempts[claim.recoveryId].lookup;
        if lookup.None? || !Reconcilable(lookup.value.target) then RolledBack(InvalidTransition)
        else if ledger.externalRef.Some? && lookup.value.externalRef.Some?
                && ledger.externalRef != lookup.value.externalRef then RolledBack(IdempotencyConflict)
        else
          var changed := ledger.(status := lookup.value.target, updatedAt := now,
                                 externalRef := if lookup.value.externalRef.Some? then lookup.value.externalRef else ledger.externalRef,
                                 failure := if lookup.value.target.Unknown? then ledger.failure else None);
          Committed(t.(effects := t.effects[claim.key := changed],
                       attempts := FinishAttempt(t.attempts, claim.recoveryId, now),
                       recoveries := Release(Synchronize(t.recoveries, changed), claim, changed.status, policy, false, now)),
                    changed)
  }

  /** Ends an attempt in error; a looked-up effect that did not move becomes UNKNOWN. */
  function FinishError(t: Tables, tenant: Id, claim: RecoveryClaim, policy: RecoveryPolicy, escalate: bool, now: Time): (tx: Tx<Ledger>)
    ensures tx.Committed? ==> tx.tables == t.(effects := tx.tables.effects, attempts := tx.tables.attempts, recoveries := tx.tables.recoveries)
  {
    match Locked(t, tenant, claim.key)
    case Some(fault) => RolledBack(fault)
    case None =>
      if !HoldsLease(t, claim, now) then RolledBack(Fault.LeaseLost)
      else
        var ledger := t.effects[claim.key];
        var moves := ledger.status == claim.source && ledger.status.LookupOnly();
        var left := if moves then ledger.(status := Unknown, updatedAt := now) else ledger;
        Committed(t.(effects := t.effects[claim.key := left],
                     attempts := FinishAttempt(t.attempts, claim.recoveryId, now),
                     recoveries := Release(if moves then Synchronize(t.recoveries, left) else t.recoveries, claim,
                                           left.status, policy, escalate, now)),
                  left)
  }

  function FinishResume(t: Tables, tenant: Id, claim: RecoveryClaim, policy: RecoveryPolicy, now: Time): (tx: Tx<Ledger>)
    ensures tx.Committed? ==> tx.tables == t.(attempts := tx.tables.attempts, recoveries := tx.tables.recoveries)
  {
    match Locked(t, tenant, claim.key)
    case Some(fault) => RolledBack(fault)
    case None =>
      if !HoldsLease(t, claim, now) then RolledBack(Fault.LeaseLost)
      else Committed(t.(attempts := FinishAttempt(t.attempts, claim.recoveryId, now),
                        recoveries := Release(t.recoveries, claim, t.effects[claim.key].status, policy, false, now)),
                     t.effects[claim.key])
  }
}
