/** The approval, capability and effect store, in place: each method is one transaction under the Case lock. */
module ApprovalStore {
  import opened Domain
  import opened Tables
  import opened CaseTransactions
  import opened AuthorizationTransactions
  import opened Database

  class Approvals {
    const db: Store
    const tenant: Id

    constructor (db: Store, tenant: Id)
      ensures this.db == db && this.tenant == tenant
    {
      this.db, this.tenant := db, tenant;
    }

    predicate Locks(c: Id)
      reads db
    {
      c in db.cases && db.cases[c].tenant == tenant
    }

    method RequestApproval(approvalId: Id, request: Approval, revision: Time) returns (answer: Answer<()>)
      modifies db
      ensures Performs(AuthorizationTransactions.RequestApproval(old(db.State()), tenant, approvalId, request, revision),
                       old(db.State()), db.State(), answer)
    {
      var intent := request.intent;
      var c := intent.body.caseId;
      if !Locks(c) { return Raised(ScopeMismatch); }
      if db.cases[c].status.Terminal() { return Raised(ActionNotAllowed); }
      if db.cases[c].revision != revision { return Raised(StaleAuthorization); }
      if intent.intentId in db.intents && db.intents[intent.intentId] != intent { return Raised(StaleAuthorization); }
      if approvalId in db.approvals { return Raised(IntegrityConflict); }
      db.intents := db.intents[intent.intentId := intent];
      db.approvals := db.approvals[approvalId := request.(status := Pending)];
      answer := Done(());
    }

    method DecideApproval(approvalId: Id, decision: ApprovalStatus, actor: Id, now: Time) returns (answer: Answer<()>)
      modifies db
      ensures Performs(AuthorizationTransactions.DecideApproval(old(db.State()), tenant, approvalId, decision, actor, now),
                       old(db.State()), db.State(), answer)
      ensures answer.Done? <==> MayDecide(old(db.State()), tenant, approvalId, decision, now)
      ensures Stores(old(db.State()), db.State(), tenant, approvalId, decision, actor, now)
    {
      DecideStores(db.State(), tenant, approvalId, decision, actor, now);
      if approvalId !in db.approvals { return Raised(ApprovalRequired); }
      var a := db.approvals[approvalId];
      if !Locks(a.intent.body.caseId) { return Raised(ScopeMismatch); }
      if db.cases[a.intent.body.caseId].status.Terminal() { return Raised(ActionNotAllowed); }
      var current := StatusAt(a, now);
      if !Decidable(current, decision) { return Raised(if current.Expired? then ApprovalExpired else ApprovalNotApproved); }
      db.approvals := db.approvals[approvalId := a.(status := decision, decidedAt := Some(now), actor := Some(actor))];
      answer := Done(());
    }

    /** Stores a minted capability, and its intent if it is new. */
    method Issue(intent: Intent, cap: Capability, now: Time) returns (answer: Answer<Capability>)
      modifies db
      ensures Performs(AuthorizationTransactions.Issue(old(db.State()), tenant, intent, cap, now), old(db.State()), db.State(), answer)
    {
      hide CheckApproval, KeyOf;
      var c := intent.body.caseId;
      if !Locks(c) { return Raised(ScopeMismatch); }
      if db.cases[c].status.Terminal() { return Raised(ActionNotAllowed); }
      if db.cases[c].revision != cap.expectedRevision || now >= cap.expiresAt { return Raised(StaleAuthorization); }
      var fault := CheckApproval(db.State(), intent, cap.approvalId, now);
      if fault.Some? { return Raised(fault.value); }
      if Fenced(db.State(), KeyOf(cap), cap.caseId) { return Raised(WriteFenced); }
      if intent.intentId in db.intents && db.intents[intent.intentId] != intent { return Raised(StaleAuthorization); }
      if cap.capabilityId in db.capabilities { return Raised(IntegrityConflict); }
      db.intents := db.intents[intent.intentId := intent];
      db.capabilities := db.capabilities[cap.capabilityId := CapabilityRow(cap, None)];
      answer := Done(cap);
    }

    /** The effect already recorded under the capability's key, which then counts as used by it. */
    method UseExisting(cap: Capability) returns (found: Found)
      requires cap.capabilityId in db.capabilities
      modifies db`capabilities
      ensures found == FindExisting(old(db.State()), cap)
      ensures db.capabilities == if found.Existing? then found.capabilities else old(db.capabilities)
    {
      hide KeyOf;
      var row, key := db.capabilities[cap.capabilityId], KeyOf(cap);
      if key in db.effects {
        var ledger := db.effects[key];
        if ledger.payloadHash != cap.payloadHash || ledger.targetHash != cap.targetHash || ledger.caseId != cap.caseId
           || ledger.action != cap.action || ledger.tenant != cap.tenant {
          return Refused(IdempotencyConflict);
        }
        if row.usedEffect.Some? && row.usedEffect.value != key { return Refused(CapabilityAlreadyUsed); }
        db.capabilities := db.capabilities[cap.capabilityId := row.(usedEffect := Some(key))];
        return Existing(db.capabilities, ledger);
      }
      found := if row.usedEffect.Some? then Refused(CapabilityAlreadyUsed) else Fresh;
    }

    method ExistingEffect(cap: Capability, now: Time) returns (answer: Answer<Option<Ledger>>)
      modifies db
      ensures Performs(AuthorizationTransactions.ExistingEffect(old(db.State()), tenant, cap, now), old(db.State()), db.State(), answer)
    {
      hide CheckCapability, CheckApproval, FindExisting, KeyOf;
      if !Locks(cap.caseId) { return Raised(ScopeMismatch); }
      var fault := CheckCapability(db.State(), tenant, cap, now);
      if fault.Some? { return Raised(fault.value); }
      var found := UseExisting(cap);
      match found
      case Refused(fault) => answer := Raised(fault);
      case Fresh => answer := Done(None);
      case Existing(_, ledger) => answer := Done(Some(ledger));
    }

    /** The first row of an effect, its capability's use and the new case revision. */
    method InsertEffect(cap: Capability, correlation: Id, clock: Time, now: Time)
      requires cap.caseId in db.cases
      modifies db
      ensures db.State() == Insert(old(db.State()), cap, correlation, clock, now) && KeyOf(cap) in db.effects
    {
      hide Synchronize, NewLedger, KeyOf, NextRevision;
      var row := db.cases[cap.caseId];
      var revision := if cap.action.NoRemediation? then row.revision else NextRevision(row.revision, clock);
      db.cases := db.cases[cap.caseId := row.(revision := revision)];
      var ledger := NewLedger(cap, revision, correlation, now);
      db.effects := db.effects[ledger.effectId := ledger];
      db.capabilities := db.capabilities[cap.capabilityId := CapabilityRow(cap, Some(ledger.effectId))];
      db.recoveries := Synchronize(db.recoveries, ledger);
    }

    method Prepare(cap: Capability, correlation: Id, clock: Time, now: Time) returns (answer: Answer<PrepareResult>)
      modifies db
      ensures Performs(AuthorizationTransactions.Prepare(old(db.State()), tenant, cap, correlation, clock, now),
                       old(db.State()), db.State(), answer)
    {
      hide CheckCapability, CheckApproval, FindExisting, KeyOf, Insert;
      if !Locks(cap.caseId) { return Raised(ScopeMismatch); }
      if db.cases[cap.caseId].status.Terminal() { return Raised(ActionNotAllowed); }
      var fault := CheckCapability(db.State(), tenant, cap, now);
      if fault.Some? { return Raised(fault.value); }
      var found := UseExisting(cap);
      match found {
        case Refused(fault) => answer := Raised(fault);
        case Existing(_, ledger) => answer := Done(PrepareResult(ledger, false));
        case Fresh =>
          if db.cases[cap.caseId].revision != cap.expectedRevision { return Raised(StaleAuthorization); }
          InsertEffect(cap, correlation, clock, now);
          answer := Done(PrepareResult(db.effects[KeyOf(cap)], !cap.action.NoRemediation?));
      }
    }

    /** Moves a ledger row, and the recovery row beside it. */
    method MoveEffect(key: EffectKey, row: Ledger)
      modifies db`effects, db`recoveries
      ensures db.effects == old(db.effects)[key := row] && db.recoveries == Synchronize(old(db.recoveries), row)
    {
      db.effects := db.effects[key := row];
      db.recoveries := Synchronize(db.recoveries, row);
    }

    method DispatchPrepared(cap: Capability, claim: Option<RecoveryClaim>, now: Time) returns (answer: Answer<Ledger>)
      modifies db
      ensures Performs(AuthorizationTransactions.DispatchPrepared(old(db.State()), tenant, cap, claim, now),
                       old(db.State()), db.State(), answer)
    {
      hide CheckCapability, CheckApproval, Synchronize;
      if !Locks(cap.caseId) { return Raised(ScopeMismatch); }
      if db.cases[cap.caseId].status.Terminal() { return Raised(ActionNotAllowed); }
      var fault := CheckCapability(db.State(), tenant, cap, now);
      if fault.Some? { return Raised(fault.value); }
      var used := db.capabilities[cap.capabilityId].usedEffect;
      if used.None? || used.value !in db.effects || db.effects[used.value].capabilityId != cap.capabilityId {
        return Raised(CapabilityAlreadyUsed);
      }
      var ledger := db.effects[used.value];
      if claim.Some? && !ClaimHolds(db.State(), ledger.effectId, claim.value, now) { return Raised(StaleAuthorization); }
      if db.cases[cap.caseId].revision != ledger.preparedRevision { return Raised(StaleAuthorization); }
      if !ledger.status.Prepared? { return Raised(InvalidTransition); }
      var changed := ledger.(status := Dispatched, attemptCount := 1, updatedAt := now);
      MoveEffect(used.value, changed);
      answer := Done(changed);
    }

    /** Reads the rows `t` of the transaction. */
    static method CheckTransition(t: Tables, tenant: Id, key: EffectKey, expected: EffectStatus, status: EffectStatus,
                                  receipt: Option<Receipt>) returns (fault: Option<Fault>)
      ensures fault == TransitionFault(t, tenant, key, expected, status, receipt)
    {
      hide TransitionAllowed, ReceiptConflicts, Unreceipted, Lockable, Owns;
      if !TransitionAllowed(expected, status) || Unreceipted(status, receipt) { return Some(InvalidTransition); }
      if key !in t.effects { return Some(ScopeMismatch); }
      var ledger := t.effects[key];
      if !Lockable(t, tenant, ledger.caseId) { return Some(ScopeMismatch); }
      if ReceiptConflicts(receipt, ledger) || ledger.status != expected { return Some(InvalidTransition); }
      fault := if ledger.intentId !in t.intents then Some(StaleAuthorization) else None;
    }

    method Transition(key: EffectKey, expected: EffectStatus, status: EffectStatus, now: Time, receipt: Option<Receipt>,
                      failure: Option<Failure>) returns (answer: Answer<Ledger>)
      modifies db
      ensures Performs(AuthorizationTransactions.Transition(old(db.State()), tenant, key, expected, status, now, receipt, failure),
                       old(db.State()), db.State(), answer)
    {
      hide TransitionFault, Synchronize;
      var fault := CheckTransition(db.State(), tenant, key, expected, status, receipt);
      if fault.Some? { return Raised(fault.value); }
      var ledger := db.effects[key];
      var changed := ledger.(status := status, updatedAt := now, failure := failure,
                             externalRef := if receipt.Some? then receipt.value.externalRef else ledger.externalRef);
      MoveEffect(key, changed);
      answer := Done(changed);
    }
  }
}
