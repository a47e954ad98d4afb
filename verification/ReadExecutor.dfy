/** One budgeted read: reserve, observe, then publish or mark the call failed. */
module ReadExecutor {
  import opened Domain
  import opened Tables
  import opened CaseTransactions
  import opened CaseRepository
  import opened EvidenceRepository

  datatype Executed = Observed(callId: Id, refs: set<Id>) | Failed(callId: Id) | NotReserved(fault: Fault)

  class Executor {
    const cases: Cases
    const evidence: Evidences

    constructor (cases: Cases, evidence: Evidences)
      requires cases.db == evidence.db && cases.tenant == evidence.tenant
      ensures this.cases == cases && this.evidence == evidence
    {
      this.cases, this.evidence := cases, evidence;
    }

    /** Reserving spends one unit and adds one pending call. */
    static lemma ReservedOne(t: Tables, tenant: Id, c: Id, tool: Tool, query: Query, pre: Option<Precondition>, guards: Guards, callId: Id, now: Time)
      ensures var tx := CaseTransactions.ReserveCall(t, tenant, c, tool, query, pre, guards, callId, now);
        tx.Committed? ==>
          && tx.value == callId && c in t.cases && c in tx.tables.cases && callId !in t.calls && callId in tx.tables.calls
          && Owns(tx.tables, tenant, c)
          && tx.tables.cases[c].usedCalls == t.cases[c].usedCalls + 1
          && tx.tables.calls[callId].caseId == c && tx.tables.calls[callId].state == CallDispatched
          && tx.tables.calls[callId].sequence == t.cases[c].usedCalls + 1
    {
      hide InScope, Holds;
    }

    /** Publishing answers the call and touches neither budget nor sequence. */
    static lemma PublishedOne(t: Tables, x: Extractor, tenant: Id, c: Id, callId: Id, obs: Observation, now: Time)
      requires callId in t.calls && t.calls[callId].state == CallDispatched && c in t.cases
      ensures var tx := CaseTransactions.RecordCall(t, x, tenant, c, callId, obs, false, now);
        tx.Committed? ==>
          && c in tx.tables.cases && tx.tables.cases[c].usedCalls == t.cases[c].usedCalls
          && callId in tx.tables.calls && tx.tables.calls[callId].state == CallObserved
          && tx.tables.calls[callId].caseId == t.calls[callId].caseId && tx.tables.calls[callId].sequence == t.calls[callId].sequence
    {
      hide ReceiptFault, DistinctIds, OriginsFor, NewRows, Ids;
    }

    /** `seen` is what the tool answered, if it answered. A reserved attempt spends exactly one unit, whether it is
        observed or fails; an attempt that was not reserved changes nothing. */
    method Execute(c: Id, tool: Tool, query: Query, pre: Option<Precondition>, guards: Guards, callId: Id, seen: Option<Observation>, now: Time, later: Time)
      returns (outcome: Executed)
      requires cases.db == evidence.db && cases.tenant == evidence.tenant
      modifies cases.db
      ensures outcome.NotReserved? ==> cases.db.State() == old(cases.db.State())
      ensures !outcome.NotReserved? ==>
        && outcome.callId == callId && callId !in old(cases.db.calls) && callId in cases.db.calls
        && c in old(cases.db.cases) && c in cases.db.cases
        && cases.db.cases[c].usedCalls == old(cases.db.cases)[c].usedCalls + 1
        && cases.db.calls[callId].caseId == c && cases.db.calls[callId].sequence == cases.db.cases[c].usedCalls
        && cases.db.calls[callId].state == if outcome.Observed? then CallObserved else CallError
    {
      hide InScope, Holds, CaseTransactions.ReserveCall, CaseTransactions.RecordCall;
      ReservedOne(cases.db.State(), cases.tenant, c, tool, query, pre, guards, callId, now);
      var reserved := cases.ReserveCall(c, tool, query, pre, guards, callId, now);
      if reserved.Raised? { return NotReserved(reserved.fault); }
      if seen.Some? {
        PublishedOne(cases.db.State(), evidence.extract, cases.tenant, c, callId, seen.value, later);
        var recorded := evidence.RecordCall(c, callId, seen.value, false, later);
        if recorded.Done? { return Observed(callId, recorded.value); }
      }
      var marked := cases.MarkError(c, callId);
      outcome := Failed(callId);
    }
  }
}
