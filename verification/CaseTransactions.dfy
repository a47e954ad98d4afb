/** What each transaction of the Case and Evidence repositories commits. Every function
    is one `session.begin()` block: all of its writes, or a rollback. */
module CaseTransactions {
  import opened Domain
  import opened Tables

  /** The next revision of a row last seen at `previous`: strictly later, even with a frozen clock. */
  function NextRevision(previous: Time, now: Time): (revision: Time)
    ensures previous < revision && now <= revision
    ensures revision == now || revision == previous + 1
  {
    Max(now, previous + 1)
  }

  predicate Owns(t: Tables, tenant: Id, c: Id) {
    c in t.cases && t.cases[c].tenant == tenant
  }

  predicate Investigable(s: CaseStatus) { s.New? || s.Investigating? }

  datatype Precondition = Precondition(caseId: Id, tenant: Id, status: CaseStatus, usedCalls: nat, revision: Time)

  predicate Holds(p: Precondition, row: CaseRow) {
    row.status == p.status && row.usedCalls == p.usedCalls && row.revision == p.revision
  }

  // A tool credential's grant, for one order of one simulation.
  datatype Grant = Grant(hash: Id, simulation: Id, order: Id, allowedTools: set<Tool>, expiresAt: Time)

  /** What every Case value satisfies: its own order is in its scope, and neither budget nor time runs backwards. */
  predicate Consistent(row: CaseRow) {
    row.order in row.allowedOrders && row.usedCalls <= row.maxCalls && row.createdAt <= row.revision
  }

  /** The scope of the case lies within a live grant for its simulation, whose clock shows `clock`. */
  predicate Covers(grant: Option<Grant>, clock: Option<Time>, row: CaseRow) {
    && grant.Some? && clock.Some? && grant.value.simulation == row.simulation && clock.value < grant.value.expiresAt
    && row.allowedOrders <= {grant.value.order} && row.allowedTools <= grant.value.allowedTools
  }

  function Create(t: Tables, tenant: Id, c: Id, row: CaseRow, grant: Option<Grant>, clock: Option<Time>): (tx: Tx<CaseRow>)
    ensures tx.Committed? ==> tx.tables == t.(cases := tx.tables.cases)
  {
    if !Consistent(row) then RolledBack(PolicyRefused)
    else if row.tenant != tenant then RolledBack(CaseUnavailable)
    else if row.status != New || row.usedCalls != 0 || row.lookupRetryAfter != None then RolledBack(PolicyRefused)
    else if !Covers(grant, clock, row) then RolledBack(CaseUnavailable)
    else if c in t.cases then RolledBack(IntegrityConflict)
    else Committed(t.(cases := t.cases[c := row.(grantHash := grant.value.hash)]), row)
  }

  /** The grant of a case is for one order, so its scope is exactly its own order. */
  lemma OneOrderPerGrant(t: Tables, tenant: Id, c: Id, row: CaseRow, grant: Option<Grant>, clock: Option<Time>)
    ensures Create(t, tenant, c, row, grant, clock).Committed? ==> row.allowedOrders == {row.order}
  {
  }

  predicate InScope(row: CaseRow, tool: Tool, query: Query) {
    && query.order in row.allowedOrders
    && tool in row.allowedTools && tool !in row.forbiddenTools
    && (tool != ProtocolTool ==> query.protocolVersion == None && query.effectiveAt == None)
  }

  // What the work-lease fence and the registry guard of the same transaction find: the lease (if any) is held by this
  // caller, and the tool route may be taken.
  datatype Guards = Guards(leased: bool, route: Option<Fault>)

  function ReserveCall(t: Tables, tenant: Id, c: Id, tool: Tool, query: Query, pre: Option<Precondition>, guards: Guards,
                       callId: Id, now: Time): (tx: Tx<Id>)
    ensures tx.Committed? ==> tx.tables == t.(cases := tx.tables.cases, calls := tx.tables.calls)
  {
    if pre.Some? && (pre.value.caseId != c || pre.value.tenant != tenant) then RolledBack(PreconditionFailed)
    else if !guards.leased then RolledBack(PreconditionFailed)
    else if !Owns(t, tenant, c) then RolledBack(CaseUnavailable)
    else
      var row := t.cases[c];
      if !InScope(row, tool, query) then RolledBack(PolicyRefused)
      else if guards.route.Some? then RolledBack(guards.route.value)
      else if !Investigable(row.status) || row.usedCalls >= row.maxCalls
              || (pre.Some? && !Holds(pre.value, row)) then
        RolledBack(if pre.Some? then PreconditionFailed else PolicyRefused)
      else if callId in t.calls then RolledBack(IntegrityConflict)
      else
        var reserved := row.(usedCalls := row.usedCalls + 1, status := Investigating,
                             revision := NextRevision(row.revision, now));
        var call := CallRow(c, Some(callId), reserved.usedCalls, tool, query, CallDispatched, None);
        Committed(t.(cases := t.cases[c := reserved], calls := t.calls[callId := call]), callId)
  }

  function MarkError(t: Tables, tenant: Id, c: Id, callId: Id): (tx: Tx<()>)
    ensures tx.Committed? ==> tx.tables == t.(calls := tx.tables.calls)
  {
    if !Owns(t, tenant, c) then RolledBack(CaseUnavailable)
    else if callId in t.calls && t.calls[callId].caseId == c && t.calls[callId].state == CallDispatched then
      Committed(t.(calls := t.calls[callId := t.calls[callId].(state := CallError)]), ())
    else Committed(t, ())
  }

  predicate Pausable(s: CaseStatus) { s.Waiting? || s.Escalated? }

  function HandedOff(status: CaseStatus, atLimit: bool): CaseStatus {
    if status.Waiting? && atLimit then Escalated else status
  }

  /** `seen` is the revision an earlier, unlocked SELECT of the row returned. */
  function Pause(t: Tables, tenant: Id, c: Id, status: CaseStatus, seen: Time, now: Time): (tx: Tx<()>)
    ensures tx.Committed? ==> tx.tables == t.(cases := tx.tables.cases)
  {
    if !Pausable(status) then RolledBack(PolicyRefused)
    else if !Owns(t, tenant, c) then RolledBack(CaseUnavailable)
    else if t.cases[c].status.Terminal() then RolledBack(PolicyRefused)
    else Committed(t.(cases := t.cases[c := t.cases[c].(status := status, revision := NextRevision(seen, now))]), ())
  }

  /** `atLimit`: the orchestration state that the same transaction hands the pause to has no resume cycle left, which
      turns waiting into escalation. */
  function PauseIfCurrent(t: Tables, tenant: Id, c: Id, status: CaseStatus, pre: Precondition, leased: bool, atLimit: bool,
                          now: Time): (tx: Tx<()>)
    ensures tx.Committed? ==> tx.tables == t.(cases := tx.tables.cases)
  {
    if !Pausable(status) then RolledBack(PolicyRefused)
    else if pre.caseId != c || pre.tenant != tenant || !leased then RolledBack(PreconditionFailed)
    else if !Owns(t, tenant, c) then RolledBack(CaseUnavailable)
    else
      var row := t.cases[c];
      if !Investigable(row.status) || !Holds(pre, row) then RolledBack(PreconditionFailed)
      else
        var paused := row.(status := HandedOff(status, atLimit), revision := NextRevision(row.revision, now));
        Committed(t.(cases := t.cases[c := paused]), ())
  }

  /** Orchestration moves a paused case back to investigation, or escalates it, under the Case lock. */
  function Reopen(t: Tables, tenant: Id, c: Id, escalate: bool, now: Time): (tx: Tx<()>)
    ensures tx.Committed? ==> tx.tables == t.(cases := tx.tables.cases)
  {
    if !Owns(t, tenant, c) then RolledBack(CaseUnavailable)
    else if t.cases[c].status.Terminal() then RolledBack(PolicyRefused)
    else
      var row := t.cases[c];
      var moved := if escalate then row.(status := Escalated)
                   else row.(status := Investigating, lookupRetryAfter := Some(now));
      Committed(t.(cases := t.cases[c := moved.(revision := NextRevision(row.revision, now))]), ())
  }

  // ---- evidence publication ----

  /** Re-derivation of claims from one observation; None when extraction raises. */
  type Extractor = (Id, Scope, Observation, Query) -> Option<seq<Evidence>>

  /** The tool service inserts an observation; its correlation is whatever the caller sent. */
  function InsertObservation(t: Tables, oid: Id, row: ObservationRow): (tx: Tx<()>)
    ensures tx.Committed? ==> tx.tables == t.(observations := tx.tables.observations)
  {
    if oid in t.observations then RolledBack(IntegrityConflict)
    else Committed(t.(observations := t.observations[oid := row]), ())
  }

  predicate EnvelopeOk(oid: Id, row: ObservationRow) {
    && row.hashed == row.observation
    && row.observation.observationId == oid
    && row.observation.tool == row.tool
    && row.request.order == row.observation.order
  }

  predicate DispatchMatches(case_: CaseRow, call: CallRow, row: ObservationRow) {
    && row.simulation == case_.simulation && row.grantHash == case_.grantHash
    && row.tool == call.tool && row.request == call.request
  }

  predicate CorrelationMatches(call: CallRow, row: ObservationRow) {
    call.correlation.Some? && row.correlation == call.correlation
  }

  predicate Assigned(t: Tables, oid: Id) {
    exists k :: k in t.calls && t.calls[k].observationId == Some(oid)
  }

  predicate DistinctIds(items: seq<Evidence>) {
    forall i, j :: 0 <= i < j < |items| ==> items[i].id != items[j].id
  }

  function Ids(items: seq<Evidence>): set<Id> {
    set e | e in items :: e.id
  }

  function OriginsFor(items: seq<Evidence>, callId: Id): set<Origin> {
    set e | e in items :: Origin(e.id, callId)
  }

  function NewRows(known: map<Id, EvidenceRow>, c: Id, oid: Id, items: seq<Evidence>): map<Id, EvidenceRow>
    requires DistinctIds(items)
  {
    map e | e in items && e.id !in known :: e.id := EvidenceRow(c, oid, e)
  }

  function Publish(t: Tables, c: Id, callId: Id, oid: Id, items: seq<Evidence>, now: Time): Tables
    requires c in t.cases && callId in t.calls && DistinctIds(items)
  {
    t.(cases := t.cases[c := t.cases[c].(revision := NextRevision(t.cases[c].revision, now))],
       calls := t.calls[callId := t.calls[callId].(observationId := Some(oid), state := CallObserved)],
       evidence := t.evidence + NewRows(t.evidence, c, oid, items),
       origins := t.origins + OriginsFor(items, callId))
  }

  predicate Republished(call: CallRow, oid: Id, recovery: bool) {
    recovery && call.state == CallObserved && call.observationId == Some(oid)
  }

  /** Why the receipt `obs` cannot be published (or republished) for this call, if it cannot. */
  function ReceiptFault(t: Tables, tenant: Id, c: Id, callId: Id, obs: Observation, recovery: bool): (fault: Option<Fault>)
    ensures fault.None? ==> c in t.cases && callId in t.calls && obs.observationId in t.observations
  {
    if !Owns(t, tenant, c) then Some(CaseUnavailable)
    else if t.cases[c].status.Terminal() then Some(ProvenanceRefused)
    else if callId !in t.calls || t.calls[callId].caseId != c
            || (t.calls[callId].state != CallDispatched && !recovery) then Some(ProvenanceRefused)
    else if obs.observationId !in t.observations then Some(ProvenanceRefused)
    else
      var call, oid := t.calls[callId], obs.observationId;
      var row := t.observations[oid];
      if !EnvelopeOk(oid, row) || !DispatchMatches(t.cases[c], call, row) || row.observation != obs then Some(ProvenanceRefused)
      else if Assigned(t, oid) && !Republished(call, oid, recovery) then Some(ProvenanceRefused)
      else if !CorrelationMatches(call, row) then Some(ProvenanceRefused)
      else None
  }

  function RecordCall(t: Tables, x: Extractor, tenant: Id, c: Id, callId: Id, obs: Observation, recovery: bool,
                      now: Time): (tx: Tx<set<Id>>)
    ensures tx.Committed? ==> tx.tables == t.(cases := tx.tables.cases, calls := tx.tables.calls, evidence := tx.tables.evidence, origins := tx.tables.origins)
  {
    match ReceiptFault(t, tenant, c, callId, obs, recovery)
    case Some(fault) => RolledBack(fault)
    case None =>
      var oid := obs.observationId;
      if Republished(t.calls[callId], oid, recovery) then
        Committed(t, set o | o in t.origins && o.callId == callId :: o.evidenceId)
      else
        match x(c, ScopeOf(t.cases[c]), obs, t.observations[oid].request)
        case None => RolledBack(PolicyRefused)
        case Some(items) =>
          if !DistinctIds(items) || OriginsFor(items, callId) * t.origins != {} then RolledBack(IntegrityConflict)
          else Committed(Publish(t, c, callId, oid, items, now), Ids(items))
  }

  /** Observations that carry the correlation of a dispatch. */
  function Correlated(t: Tables, correlation: Id): set<Id> {
    set o | o in t.observations && t.observations[o].correlation == Some(correlation) :: o
  }

  /** Restart recovery of one dispatched read: it publishes only an unambiguous observation. */
  function RecoverRead(t: Tables, x: Extractor, tenant: Id, c: Id, callId: Id, oid: Id, now: Time): (tx: Tx<set<Id>>)
    ensures tx.Committed? ==> tx.tables == t.(cases := tx.tables.cases, calls := tx.tables.calls, evidence := tx.tables.evidence, origins := tx.tables.origins)
  {
    if !Owns(t, tenant, c) then RolledBack(CaseUnavailable)
    else if callId !in t.calls || t.calls[callId].caseId != c then RolledBack(CaseUnavailable)
    else if t.cases[c].status.Terminal() then RolledBack(PolicyRefused)
    else if t.calls[callId].correlation == None then RolledBack(ProvenanceRefused)
    else
      var correlation := t.calls[callId].correlation;
      if exists k :: k in t.calls && k != callId && t.calls[k].correlation == correlation then
        RolledBack(AmbiguousObservation)
      else if Correlated(t, correlation.value) == {} then RolledBack(ObservationMissing)
      else if Correlated(t, correlation.value) != {oid} then RolledBack(AmbiguousObservation)
      else if oid !in t.observations || !EnvelopeOk(oid, t.observations[oid]) then RolledBack(ProvenanceRefused)
      else RecordCall(t, x, tenant, c, callId, t.observations[oid].observation, true, now)
  }
}
