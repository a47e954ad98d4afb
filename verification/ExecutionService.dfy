/** The worker: store commits around one adapter call. */
module ExecutionService {
  import opened Domain
  import opened Tables
  import opened AuthorizationTransactions
  import opened Protocol
  import opened EffectSteps
  import opened Database
  import opened ApprovalStore

  /** The remote side: it records each call and answers anything at all. */
  class Adapter {
    var sent: seq<Sent>

    constructor ()
      ensures sent == []
    {
      sent := [];
    }

    method Dispatch(key: EffectKey, capabilityId: Id, correlation: Id, command: Built, reply: Reply) returns (answered: Reply)
      modifies this
      ensures sent == old(sent) + [Sent(key, capabilityId, correlation, command)] && answered == reply
    {
      sent := sent + [Sent(key, capabilityId, correlation, command)];
      answered := reply;
    }
  }

  // What verifying the intent afresh found: it still stands at a case revision, it is stale, or another error.
  datatype Freshness = StillStands(intent: Intent, seen: Time) | NoLonger | VerificationError(fault: Fault)

  datatype Execution = Execution(ledger: Ledger, executedNow: bool, replay: bool)

  // The clock readings of one execution, in order.
  datatype Clock = Clock(lookup: Time, again: Time, revision: Time, prepare: Time, dispatch: Time, report: Time)

  class Service {
    const store: Approvals
    const adapter: Adapter

    constructor (store: Approvals, adapter: Adapter)
      ensures this.store == store && this.adapter == adapter
    {
      this.store, this.adapter := store, adapter;
    }

    /** The answer is the ledger row of the capability's own effect, and nothing was sent for it now. */
    static predicate Answered(t: Tables, cap: Capability, e: Execution) {
      !e.executedNow && KeyOf(cap) in t.effects && e.ledger == t.effects[KeyOf(cap)]
    }

    /** A duplicate request is answered from the ledger; nothing recorded means the request is stale. */
    method Replay(cap: Capability, now: Time) returns (answer: Answer<Execution>)
      modifies store.db
      ensures store.db.effects == old(store.db.effects)
      ensures answer.Done? ==> Answered(store.db.State(), cap, answer.value) && answer.value.replay
    {
      hide CheckCapability, FindExisting, KeyOf;
      ExistingStep(store.db.State(), store.tenant, cap, now);
      ExistingIsRecorded(store.db.State(), store.tenant, cap, now);
      var found := store.ExistingEffect(cap, now);
      match found
      case Raised(fault) => answer := Raised(fault);
      case Done(None) => answer := Raised(StaleAuthorization);
      case Done(Some(ledger)) => answer := Done(Execution(ledger, false, true));
    }

    static lemma ExistingIsRecorded(t: Tables, tenant: Id, cap: Capability, now: Time)
      ensures var tx := ExistingEffect(t, tenant, cap, now);
        tx.Committed? ==> (tx.value.Some? <==> KeyOf(cap) in t.effects) && (tx.value.Some? ==> tx.value.value == t.effects[KeyOf(cap)])
    {
      hide CheckCapability, CheckApproval, KeyOf, FindExisting;
    }

    static lemma PreparedIsRecorded(t: Tables, tenant: Id, cap: Capability, correlation: Id, clock: Time, now: Time)
      ensures var tx := Prepare(t, tenant, cap, correlation, clock, now);
        tx.Committed? ==> KeyOf(cap) in tx.tables.effects && tx.value.ledger == tx.tables.effects[KeyOf(cap)]
    {
      hide CheckCapability, CheckApproval, KeyOf, Synchronize;
    }

    /** Everything a preparing capability guarantees about the dispatch that follows it. */
    static lemma PreparedDispatches(t: Tables, tenant: Id, cap: Capability, correlation: Id, clock: Time, now: Time, later: Time)
      requires Prepare(t, tenant, cap, correlation, clock, now).Committed?
      requires Prepare(t, tenant, cap, correlation, clock, now).value.ownsDispatch
      ensures var t' := Prepare(t, tenant, cap, correlation, clock, now).tables;
        && KeyOf(cap) !in t.effects && KeyOf(cap) in t'.effects && t'.effects[KeyOf(cap)].status.Prepared?
        && t'.effects[KeyOf(cap)].correlation == correlation && !cap.action.NoRemediation?
        && (DispatchPrepared(t', tenant, cap, None, later).Committed? ==>
              var l := DispatchPrepared(t', tenant, cap, None, later).value;
              && l == t'.effects[KeyOf(cap)].(status := Dispatched, attemptCount := 1, updatedAt := later)
              && var d := DispatchPrepared(t', tenant, cap, None, later).tables;
              && KeyOf(cap) in d.effects && d.effects[KeyOf(cap)] == l && d.intents == t'.intents && d.cases == t'.cases
              && l.effectId == KeyOf(cap) && l.capabilityId == cap.capabilityId && l.externalRef.None?
              && l.intentId == cap.intentId && l.intentId in t'.intents && Lockable(t', tenant, l.caseId))
    {
      hide CheckCapability, CheckApproval, Synchronize, FindExisting;
    }

    /** A fresh dispatch always accepts the outcome its reply supports. */
    static lemma OutcomeAccepted(t: Tables, tenant: Id, l: Ledger, reply: Reply, now: Time)
      requires l.effectId in t.effects && t.effects[l.effectId] == l && l.status.Dispatched? && l.externalRef.None?
      requires l.intentId in t.intents && Lockable(t, tenant, l.caseId)
      ensures var o := Classify(reply, l.correlation);
        TransitionFault(t, tenant, l.effectId, Dispatched, o.status, o.receipt).None?
    {
    }

    /** The call sends a command, addressed to the intent's own action, tenant, case, order and target. */
    static predicate SentFor(b: IntentBody, m: Sent) {
      && m.key == EffectKey(b.tenant, b.caseId, b.order, b.action, b.target)
      && m.command.Command? && Addresses(m.key, m.command)
    }

    static lemma BuiltIsSentFor(intent: Intent, cap: Capability, correlation: Id)
      requires Build(intent, cap).Some? && !cap.action.NoRemediation?
      ensures SentFor(intent.body, Sent(KeyOf(cap), cap.capabilityId, correlation, Build(intent, cap).value))
    {
      BuildAddresses(intent, cap);
    }

    /** At most one adapter call: only after this execution itself prepared and dispatched the effect, with the rebuilt
        command, and its outcome is recorded. */
    method Execute(cap: Capability, verified: Freshness, correlation: Id, clock: Clock, reply: Reply) returns (answer: Answer<Execution>)
      modifies store.db, adapter
      ensures adapter.sent == old(adapter.sent) ==> answer.Done? ==> Answered(store.db.State(), cap, answer.value)
      ensures adapter.sent != old(adapter.sent) ==>
        && KeyOf(cap) !in old(store.db.effects) && KeyOf(cap) in store.db.effects
        && verified.StillStands? && verified.seen == cap.expectedRevision && Build(verified.intent, cap).Some?
        && adapter.sent == old(adapter.sent) + [Sent(KeyOf(cap), cap.capabilityId, correlation, Build(verified.intent, cap).value)]
        && SentFor(verified.intent.body, adapter.sent[|adapter.sent| - 1])
        && var l := store.db.effects[KeyOf(cap)];
           && l.attemptCount == 1 && l.capabilityId == cap.capabilityId && l.correlation == correlation
           && Recognised(reply, correlation, l.status, l.externalRef, l.failure) && answer == Done(Execution(l, true, false))
    {
      hide CheckCapability, CheckApproval, FindExisting, KeyOf, Build, Insert, Synchronize, SentFor, Recognised;
      var db := store.db;
      ExistingIsRecorded(db.State(), store.tenant, cap, clock.lookup);
      ExistingStep(db.State(), store.tenant, cap, clock.lookup);
      var found := store.ExistingEffect(cap, clock.lookup);
      match found {
        case Raised(fault) => return Raised(fault);
        case Done(Some(ledger)) => return Done(Execution(ledger, false, true));
        case Done(None) =>
      }
      if verified.VerificationError? { return Raised(verified.fault); }
      if verified.NoLonger? || verified.seen != cap.expectedRevision {
        answer := Replay(cap, clock.again);
        return;
      }
      var command := Build(verified.intent, cap);
      if command.None? { return Raised(BindingMismatch); }
      ghost var before := db.State();
      var prepared := store.Prepare(cap, correlation, clock.revision, clock.prepare);
      PreparedIsRecorded(before, store.tenant, cap, correlation, clock.revision, clock.prepare);
      if prepared.Raised? { return Raised(prepared.fault); }
      if !prepared.value.ownsDispatch {
        var ledger := prepared.value.ledger;
        return Done(Execution(ledger, false, ledger.capabilityId != cap.capabilityId || !ledger.status.Noop?));
      }
      BuiltIsSentFor(verified.intent, cap, correlation);
      PreparedDispatches(before, store.tenant, cap, correlation, clock.revision, clock.prepare, clock.dispatch);
      var dispatched := store.DispatchPrepared(cap, None, clock.dispatch);
      if dispatched.Raised? { return Raised(dispatched.fault); }
      answer := CompleteDispatch(cap, command.value, dispatched.value, clock.report, reply);
    }

    /** The shared tail of an initial or resumed dispatch; DISPATCHED has committed. */
    method CompleteDispatch(cap: Capability, command: Built, ledger: Ledger, now: Time, reply: Reply) returns (answer: Answer<Execution>)
      requires ledger.effectId in store.db.effects && store.db.effects[ledger.effectId] == ledger
      requires ledger.status.Dispatched? && ledger.externalRef.None? && ledger.intentId in store.db.intents
      requires Lockable(store.db.State(), store.tenant, ledger.caseId)
      modifies store.db, adapter
      ensures adapter.sent == old(adapter.sent) + [Sent(ledger.effectId, cap.capabilityId, ledger.correlation, command)]
      ensures ledger.effectId in store.db.effects
      ensures var l := store.db.effects[ledger.effectId];
        && SameEffect(ledger, l) && l.attemptCount == ledger.attemptCount
        && Recognised(reply, ledger.correlation, l.status, l.externalRef, l.failure)
        && answer == Done(Execution(l, true, false))
    {
      hide Classify, TransitionFault, Synchronize;
      OutcomeAccepted(store.db.State(), store.tenant, ledger, reply, now);
      var answered := adapter.Dispatch(ledger.effectId, cap.capabilityId, ledger.correlation, command, reply);
      var o := Classify(answered, ledger.correlation);
      var settled := store.Transition(ledger.effectId, Dispatched, o.status, now, o.receipt, o.failure);
      answer := Done(Execution(store.db.effects[ledger.effectId], true, false));
    }
  }
}
