/** The Case repository: budget reservation, call errors and pauses, in place. */
module CaseRepository {
  import opened Domain
  import opened Tables
  import opened CaseTransactions
  import opened Database

  class Cases {
    const db: Store
    const tenant: Id

    constructor (db: Store, tenant: Id)
      ensures this.db == db && this.tenant == tenant
    {
      this.db, this.tenant := db, tenant;
    }

    method Create(c: Id, row: CaseRow, grant: Option<Grant>, clock: Option<Time>) returns (answer: Answer<CaseRow>)
      modifies db
      ensures Performs(CaseTransactions.Create(old(db.State()), tenant, c, row, grant, clock), old(db.State()), db.State(), answer)
    {
      if !Consistent(row) { return Raised(PolicyRefused); }
      if row.tenant != tenant { return Raised(CaseUnavailable); }
      if row.status != New || row.usedCalls != 0 || row.lookupRetryAfter != None { return Raised(PolicyRefused); }
      if !Covers(grant, clock, row) { return Raised(CaseUnavailable); }
      if c in db.cases { return Raised(IntegrityConflict); }
      db.cases := db.cases[c := row.(grantHash := grant.value.hash)];
      answer := Done(row);
    }

    /** One unit is spent, and the call takes the number it leaves. */
    method Spend(c: Id, tool: Tool, query: Query, callId: Id, now: Time)
      requires c in db.cases
      modifies db`cases, db`calls
      ensures db.cases == old(db.cases)[c := old(db.cases)[c].(usedCalls := old(db.cases)[c].usedCalls + 1, status := Investigating,
                                                               revision := NextRevision(old(db.cases)[c].revision, now))]
      ensures db.calls == old(db.calls)[callId := CallRow(c, Some(callId), db.cases[c].usedCalls, tool, query, CallDispatched, None)]
    {
      hide NextRevision;
      var row := db.cases[c];
      db.cases := db.cases[c := row.(usedCalls := row.usedCalls + 1, status := Investigating, revision := NextRevision(row.revision, now))];
      var sequence := db.cases[c].usedCalls;
      db.calls := db.calls[callId := CallRow(c, Some(callId), sequence, tool, query, CallDispatched, None)];
    }

    /** A guarded UPDATE spends one unit; only a row it changed gets a call. */
    method ReserveCall(c: Id, tool: Tool, query: Query, pre: Option<Precondition>, guards: Guards, callId: Id, now: Time) returns (answer: Answer<Id>)
      modifies db
      ensures Performs(CaseTransactions.ReserveCall(old(db.State()), tenant, c, tool, query, pre, guards, callId, now),
                       old(db.State()), db.State(), answer)
    {
      hide InScope, Holds, Investigable, NextRevision;
      if pre.Some? && (pre.value.caseId != c || pre.value.tenant != tenant) { return Raised(PreconditionFailed); }
      if !guards.leased { return Raised(PreconditionFailed); }
      if c !in db.cases || db.cases[c].tenant != tenant { return Raised(CaseUnavailable); }
      var row := db.cases[c];
      if !InScope(row, tool, query) { return Raised(PolicyRefused); }
      if guards.route.Some? { return Raised(guards.route.value); }
      var rowcount := if Investigable(row.status) && row.usedCalls < row.maxCalls && (pre.None? || Holds(pre.value, row)) then 1 else 0;
      if rowcount != 1 { return Raised(if pre.Some? then PreconditionFailed else PolicyRefused); }
      if callId in db.calls { return Raised(IntegrityConflict); }
      Spend(c, tool, query, callId, now);
      answer := Done(callId);
    }

    method MarkError(c: Id, callId: Id) returns (answer: Answer<()>)
      modifies db
      ensures Performs(CaseTransactions.MarkError(old(db.State()), tenant, c, callId), old(db.State()), db.State(), answer)
    {
      if c !in db.cases || db.cases[c].tenant != tenant { return Raised(CaseUnavailable); }
      if callId in db.calls && db.calls[callId].caseId == c && db.calls[callId].state == CallDispatched {
        db.calls := db.calls[callId := db.calls[callId].(state := CallError)];
      }
      answer := Done(());
    }

    /** `seen` was read before the UPDATE took the row. */
    method Pause(c: Id, status: CaseStatus, seen: Time, now: Time) returns (answer: Answer<()>)
      modifies db
      ensures Performs(CaseTransactions.Pause(old(db.State()), tenant, c, status, seen, now), old(db.State()), db.State(), answer)
    {
      if !Pausable(status) { return Raised(PolicyRefused); }
      if c !in db.cases || db.cases[c].tenant != tenant { return Raised(CaseUnavailable); }
      if db.cases[c].status.Terminal() { return Raised(PolicyRefused); }
      db.cases := db.cases[c := db.cases[c].(status := status, revision := NextRevision(seen, now))];
      answer := Done(());
    }

    method PauseIfCurrent(c: Id, status: CaseStatus, pre: Precondition, leased: bool, atLimit: bool, now: Time) returns (answer: Answer<()>)
      modifies db
      ensures Performs(CaseTransactions.PauseIfCurrent(old(db.State()), tenant, c, status, pre, leased, atLimit, now), old(db.State()), db.State(), answer)
    {
      if !Pausable(status) { return Raised(PolicyRefused); }
      if pre.caseId != c || pre.tenant != tenant || !leased { return Raised(PreconditionFailed); }
      if c !in db.cases || db.cases[c].tenant != tenant { return Raised(CaseUnavailable); }
      var row := db.cases[c];
      if !Investigable(row.status) || !Holds(pre, row) { return Raised(PreconditionFailed); }
      db.cases := db.cases[c := row.(status := status, revision := NextRevision(row.revision, now))];
      if db.cases[c].status.Waiting? && atLimit { db.cases := db.cases[c := db.cases[c].(status := Escalated)]; }
      answer := Done(());
    }
  }
}
