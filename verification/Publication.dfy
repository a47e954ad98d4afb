/** When an observation is published, and everything a publication changes. */
module Publication {
  import opened Domain
  import opened Tables
  import opened CaseTransactions

  /** The facts extraction derives from the stored observation `oid` for case `c`. */
  function FactsOf(t: Tables, x: Extractor, c: Id, oid: Id): Option<seq<Evidence>>
    requires c in t.cases && oid in t.observations
  {
    x(c, ScopeOf(t.cases[c]), t.observations[oid].observation, t.observations[oid].request)
  }

  /** Observation `oid` is the intact, unassigned answer to call `callId` of the open case `c`. */
  predicate Publishable(t: Tables, x: Extractor, c: Id, callId: Id, oid: Id) {
    && c in t.cases && !t.cases[c].status.Terminal()
    && callId in t.calls && t.calls[callId].caseId == c
    && oid in t.observations && EnvelopeOk(oid, t.observations[oid])
    && DispatchMatches(t.cases[c], t.calls[callId], t.observations[oid])
    && CorrelationMatches(t.calls[callId], t.observations[oid])
    && !Assigned(t, oid)
    && FactsOf(t, x, c, oid).Some? && DistinctIds(FactsOf(t, x, c, oid).value)
    && OriginsFor(FactsOf(t, x, c, oid).value, callId) * t.origins == {}
  }

  function Published(t: Tables, x: Extractor, c: Id, callId: Id, oid: Id, now: Time): Tables
    requires Publishable(t, x, c, callId, oid)
  {
    Publish(t, c, callId, oid, FactsOf(t, x, c, oid).value, now)
  }

  /** Recording a call either changes nothing or publishes one publishable observation. */
  lemma RecordStep(t: Tables, x: Extractor, tenant: Id, c: Id, callId: Id, obs: Observation, recovery: bool, now: Time)
    ensures var t' := RecordCall(t, x, tenant, c, callId, obs, recovery, now).After(t);
      t' == t || (&& Publishable(t, x, c, callId, obs.observationId)
                  && (recovery || t.calls[callId].state == CallDispatched)
                  && t' == Published(t, x, c, callId, obs.observationId, now))
  {
    hide EnvelopeOk, DispatchMatches, CorrelationMatches, Assigned, DistinctIds, OriginsFor, Ids, Publish;
  }

  /** The stored observation is what the caller was given. */
  predicate Receives(t: Tables, obs: Observation) {
    obs.observationId in t.observations && t.observations[obs.observationId].observation == obs
  }

  /** Call `callId` of the open case `c` has already been answered by this very receipt. */
  predicate AlreadyPublished(t: Tables, c: Id, callId: Id, oid: Id) {
    && c in t.cases && !t.cases[c].status.Terminal()
    && callId in t.calls && t.calls[callId].caseId == c
    && t.calls[callId].state == CallObserved && t.calls[callId].observationId == Some(oid)
    && oid in t.observations && EnvelopeOk(oid, t.observations[oid])
    && DispatchMatches(t.cases[c], t.calls[callId], t.observations[oid])
    && CorrelationMatches(t.calls[callId], t.observations[oid])
  }

  /** A receipt is recorded exactly when it is the intact, unassigned answer to a pending call of an open case of this
      tenant and extracts to new facts; recovery also accepts a failed call, and the receipt a call already holds. */
  lemma RecordExactly(t: Tables, x: Extractor, tenant: Id, c: Id, callId: Id, obs: Observation, recovery: bool, now: Time)
    ensures RecordCall(t, x, tenant, c, callId, obs, recovery, now).Committed? <==>
      && Owns(t, tenant, c) && Receives(t, obs)
      && (|| (Publishable(t, x, c, callId, obs.observationId) && (recovery || t.calls[callId].state == CallDispatched))
          || (recovery && AlreadyPublished(t, c, callId, obs.observationId)))
  {
    hide EnvelopeOk, DispatchMatches, CorrelationMatches, DistinctIds, OriginsFor, Ids, Publish;
    if AlreadyPublished(t, c, callId, obs.observationId) { assert Assigned(t, obs.observationId); }
  }

  /** Restart recovery publishes only the single observation that carries the call's correlation. */
  lemma RecoverStep(t: Tables, x: Extractor, tenant: Id, c: Id, callId: Id, oid: Id, now: Time)
    ensures var t' := RecoverRead(t, x, tenant, c, callId, oid, now).After(t);
      t' == t || (&& Publishable(t, x, c, callId, oid)
                  && Correlated(t, t.calls[callId].correlation.value) == {oid}
                  && t' == Published(t, x, c, callId, oid, now))
  {
    if oid in t.observations {
      RecordStep(t, x, tenant, c, callId, t.observations[oid].observation, true, now);
    }
    hide RecordCall, Publish, Publishable;
  }

  lemma RowsElsewhere(known: map<Id, EvidenceRow>, k: Id, oid: Id, items: seq<Evidence>, c: Id)
    requires c != k && DistinctIds(items)
    ensures EvidenceOf(known + NewRows(known, k, oid, items), c) == EvidenceOf(known, c)
  {
  }

  lemma CallElsewhere(calls: map<Id, CallRow>, callId: Id, row: CallRow, c: Id)
    requires row.caseId != c && (callId in calls ==> calls[callId].caseId != c)
    ensures CallsOf(calls[callId := row], c) == CallsOf(calls, c)
  {
  }
}
