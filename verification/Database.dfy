/** The mutable tables behind the repositories. */
module Database {
  import opened Domain
  import opened Tables

  class Store {
    var cases: map<Id, CaseRow>
    var calls: map<Id, CallRow>
    var observations: map<Id, ObservationRow>
    var evidence: map<Id, EvidenceRow>
    var origins: set<Origin>
    var intents: map<IntentId, Intent>
    var approvals: map<Id, Approval>
    var capabilities: map<Id, CapabilityRow>
    var effects: map<EffectKey, Ledger>
    var recoveries: map<EffectKey, RecoveryRow>
    var attempts: map<Id, Attempt>
    var reports: map<Id, Report>
    var closures: map<Id, ClosureRecord>

    constructor ()
      ensures State() == EMPTY
    {
      cases, calls, observations, evidence, origins := map[], map[], map[], map[], {};
      intents, approvals, capabilities, effects := map[], map[], map[], map[];
      recoveries, attempts, reports, closures := map[], map[], map[], map[];
    }

    /** The rows a transaction starting now would see. */
    function State(): Tables
      reads this
    {
      Tables(cases := cases, calls := calls, observations := observations, evidence := evidence, origins := origins,
             intents := intents, approvals := approvals, capabilities := capabilities, effects := effects,
             recoveries := recoveries, attempts := attempts, reports := reports, closures := closures)
    }

    /** Takes on the rows other workers left behind. */
    method Become(t: Tables)
      modifies this
      ensures cases == t.cases && calls == t.calls && observations == t.observations && evidence == t.evidence
      ensures origins == t.origins && intents == t.intents && approvals == t.approvals && capabilities == t.capabilities
      ensures effects == t.effects && recoveries == t.recoveries && attempts == t.attempts
      ensures reports == t.reports && closures == t.closures
    {
      BecomeReads(t);
      BecomeGrants(t);
      BecomeRecords(t);
    }

    method BecomeReads(t: Tables)
      modifies `cases, `calls, `observations, `evidence, `origins
      ensures cases == t.cases && calls == t.calls && observations == t.observations && evidence == t.evidence && origins == t.origins
    {
      cases, calls, observations, evidence, origins := t.cases, t.calls, t.observations, t.evidence, t.origins;
    }

    method BecomeGrants(t: Tables)
      modifies `intents, `approvals, `capabilities, `effects
      ensures intents == t.intents && approvals == t.approvals && capabilities == t.capabilities && effects == t.effects
    {
      intents, approvals, capabilities, effects := t.intents, t.approvals, t.capabilities, t.effects;
    }

    method BecomeRecords(t: Tables)
      modifies `recoveries, `attempts, `reports, `closures
      ensures recoveries == t.recoveries && attempts == t.attempts && reports == t.reports && closures == t.closures
    {
      recoveries, attempts, reports, closures := t.recoveries, t.attempts, t.reports, t.closures;
    }

    /** Undoes the writes of a publication since `savepoint` was taken. */
    method Rollback(savepoint: Tables)
      modifies `cases, `calls, `evidence, `origins
      ensures cases == savepoint.cases && calls == savepoint.calls
      ensures evidence == savepoint.evidence && origins == savepoint.origins
    {
      cases, calls, evidence, origins := savepoint.cases, savepoint.calls, savepoint.evidence, savepoint.origins;
    }
  }

  // What a repository call returns: a value, or the error it raises.
  datatype Answer<+T> = Done(value: T) | Raised(fault: Fault)

  /** The answer and the rows left behind are those of the transaction. */
  predicate Performs<T(==)>(tx: Tx<T>, before: Tables, after: Tables, answer: Answer<T>) {
    after == tx.After(before) && answer == if tx.Committed? then Done(tx.value) else Raised(tx.fault)
  }
}
