/** Publication of evidence, in place: one call, its revision, its facts and their origins. */
module EvidenceRepository {
  import opened Domain
  import opened Tables
  import opened CaseTransactions
  import opened Database

  class Evidences {
    const db: Store
    const tenant: Id
    const extract: Extractor

    constructor (db: Store, tenant: Id, extract: Extractor)
      ensures this.db == db && this.tenant == tenant && this.extract == extract
    {
      this.db, this.tenant, this.extract := db, tenant, extract;
    }

    /** Inserts the facts of one publication one by one; false at the first identifier or origin already written by it. */
    method InsertFacts(c: Id, callId: Id, oid: Id, items: seq<Evidence>) returns (ok: bool)
      modifies db`evidence, db`origins
      ensures ok <==> DistinctIds(items) && OriginsFor(items, callId) * old(db.origins) == {}
      ensures ok ==> db.evidence == old(db.evidence) + NewRows(old(db.evidence), c, oid, items)
      ensures ok ==> db.origins == old(db.origins) + OriginsFor(items, callId)
    {
      ghost var known, before := db.evidence, db.origins;
      for i := 0 to |items|
        invariant DistinctIds(items[..i]) && OriginsFor(items[..i], callId) * before == {}
        invariant db.evidence == known + NewRows(known, c, oid, items[..i])
        invariant db.origins == before + OriginsFor(items[..i], callId)
      {
        var item := items[i];
        if Origin(item.id, callId) in db.origins {
          Clash(items, i, callId, before);
          return false;
        }
        if item.id !in db.evidence { db.evidence := db.evidence[item.id := EvidenceRow(c, oid, item)]; }
        db.origins := db.origins + {Origin(item.id, callId)};
        Grows(known, c, oid, items, i, callId, before);
      }
      assert items[..|items|] == items;
      ok := true;
    }

    static lemma Clash(items: seq<Evidence>, i: nat, callId: Id, before: set<Origin>)
      requires i < |items| && Origin(items[i].id, callId) in before + OriginsFor(items[..i], callId)
      ensures !(DistinctIds(items) && OriginsFor(items, callId) * before == {})
    {
      assert Origin(items[i].id, callId) in OriginsFor(items, callId);
      if Origin(items[i].id, callId) in before {
        assert Origin(items[i].id, callId) in OriginsFor(items, callId) * before;
      } else {
        var e :| e in items[..i] && Origin(e.id, callId) == Origin(items[i].id, callId);
        var k :| 0 <= k < i && items[k] == e;
      }
    }

    static lemma Grows(known: map<Id, EvidenceRow>, c: Id, oid: Id, items: seq<Evidence>, i: nat, callId: Id, before: set<Origin>)
      requires i < |items| && DistinctIds(items[..i]) && Origin(items[i].id, callId) !in before + OriginsFor(items[..i], callId)
      ensures DistinctIds(items[..i + 1])
      ensures OriginsFor(items[..i + 1], callId) == OriginsFor(items[..i], callId) + {Origin(items[i].id, callId)}
      ensures known + NewRows(known, c, oid, items[..i + 1])
                == if items[i].id in known + NewRows(known, c, oid, items[..i]) then known + NewRows(known, c, oid, items[..i])
                   else (known + NewRows(known, c, oid, items[..i]))[items[i].id := EvidenceRow(c, oid, items[i])]
    {
      assert items[..i + 1] == items[..i] + [items[i]];
      OriginsGrow(items[..i], items[i], callId);
      hide NewRows, OriginsFor;
      RowsGrow(known, c, oid, items[..i], items[i]);
    }

    static lemma OriginsGrow(items: seq<Evidence>, e: Evidence, callId: Id)
      requires DistinctIds(items)
      ensures OriginsFor(items + [e], callId) == OriginsFor(items, callId) + {Origin(e.id, callId)}
      ensures Origin(e.id, callId) !in OriginsFor(items, callId) ==> DistinctIds(items + [e])
    {
      assert forall o :: o in items + [e] <==> o in items || o == e;
      if Origin(e.id, callId) !in OriginsFor(items, callId) {
        forall k | 0 <= k < |items| ensures items[k].id != e.id {
          assert items[k] in items;
        }
      }
    }

    static lemma RowsGrow(known: map<Id, EvidenceRow>, c: Id, oid: Id, items: seq<Evidence>, e: Evidence)
      requires DistinctIds(items + [e]) && DistinctIds(items)
      ensures NewRows(known, c, oid, items + [e])
                == if e.id in known then NewRows(known, c, oid, items) else NewRows(known, c, oid, items)[e.id := EvidenceRow(c, oid, e)]
      ensures e.id !in NewRows(known, c, oid, items)
    {
      forall o | o in items ensures o.id != e.id {
        var k :| 0 <= k < |items| && items[k] == o;
        assert (items + [e])[k] == o && (items + [e])[|items|] == e;
      }
      assert forall o :: o in items + [e] <==> o in items || o == e;
    }

    method CheckReceipt(c: Id, callId: Id, obs: Observation, recovery: bool) returns (fault: Option<Fault>)
      ensures fault == ReceiptFault(db.State(), tenant, c, callId, obs, recovery)
    {
      hide EnvelopeOk, DispatchMatches, CorrelationMatches, Assigned, Republished;
      if c !in db.cases || db.cases[c].tenant != tenant { return Some(CaseUnavailable); }
      if db.cases[c].status.Terminal() { return Some(ProvenanceRefused); }
      if callId !in db.calls || db.calls[callId].caseId != c || (db.calls[callId].state != CallDispatched && !recovery) {
        return Some(ProvenanceRefused);
      }
      if obs.observationId !in db.observations { return Some(ProvenanceRefused); }
      var call, oid := db.calls[callId], obs.observationId;
      var row := db.observations[oid];
      if !EnvelopeOk(oid, row) || !DispatchMatches(db.cases[c], call, row) || row.observation != obs { return Some(ProvenanceRefused); }
      if Assigned(db.State(), oid) && !Republished(call, oid, recovery) { return Some(ProvenanceRefused); }
      if !CorrelationMatches(call, row) { return Some(ProvenanceRefused); }
      fault := None;
    }

    /** The revision moves, the call is answered, and its facts and origins are inserted in turn; or nothing happens. */
    method PublishRows(c: Id, callId: Id, oid: Id, items: seq<Evidence>, now: Time) returns (ok: bool)
      requires c in db.cases && callId in db.calls
      modifies db
      ensures ok <==> DistinctIds(items) && OriginsFor(items, callId) * old(db.origins) == {}
      ensures db.State() == if ok then Publish(old(db.State()), c, callId, oid, items, now) else old(db.State())
    {
      hide DistinctIds, OriginsFor, NewRows, NextRevision;
      var savepoint := db.State();
      db.cases := db.cases[c := db.cases[c].(revision := NextRevision(db.cases[c].revision, now))];
      db.calls := db.calls[callId := db.calls[callId].(observationId := Some(oid), state := CallObserved)];
      ok := InsertFacts(c, callId, oid, items);
      if !ok { db.Rollback(savepoint); }
    }

    method RecordCall(c: Id, callId: Id, obs: Observation, recovery: bool, now: Time) returns (answer: Answer<set<Id>>)
      modifies db
      ensures Performs(CaseTransactions.RecordCall(old(db.State()), extract, tenant, c, callId, obs, recovery, now),
                       old(db.State()), db.State(), answer)
    {
      hide ReceiptFault, DistinctIds, OriginsFor, Publish, Ids, ScopeOf, Republished;
      var fault := CheckReceipt(c, callId, obs, recovery);
      if fault.Some? { return Raised(fault.value); }
      var oid := obs.observationId;
      if Republished(db.calls[callId], oid, recovery) { return Done(set o | o in db.origins && o.callId == callId :: o.evidenceId); }
      var extracted := extract(c, ScopeOf(db.cases[c]), obs, db.observations[oid].request);
      if extracted.None? { return Raised(PolicyRefused); }
      var inserted := PublishRows(c, callId, oid, extracted.value, now);
      answer := if inserted then Done(Ids(extracted.value)) else Raised(IntegrityConflict);
    }
  }
}
