/** The loops that revalidate an evidence store and read the state of a case for judgement. */
module VerificationReader {
  import opened Domain
  import opened Tables
  import opened CaseTransactions
  import opened EvidenceVerification
  import opened ClosureTransactions

  // ---- one identifier in one observation is one fact ----

  datatype Occurrence = Occurrence(id: Id, observationId: Id)

  function OccurrenceOf(e: Evidence): Occurrence { Occurrence(e.id, e.observationId) }

  predicate Functional(all: set<Evidence>) {
    forall a, b :: a in all && b in all && OccurrenceOf(a) == OccurrenceOf(b) ==> a == b
  }

  lemma ExtractedFunctional(t: Tables, x: Extractor, digest: Content -> Id, c: Id)
    requires c in t.cases && Lawful(x, digest)
    ensures Functional(Extracted(t, x, c))
  {
    hide DispatchMatches, CorrelationMatches, OriginsFor, Lawful;
    forall a, b | a in Extracted(t, x, c) && b in Extracted(t, x, c) && OccurrenceOf(a) == OccurrenceOf(b) ensures a == b {
      var j :| j in ObservedCalls(t, c) && ReceiptOk(t, x, c, j) && a in ItemsOf(t, x, c, j).value;
      var k :| k in ObservedCalls(t, c) && ReceiptOk(t, x, c, k) && b in ItemsOf(t, x, c, k).value;
      ItemObservation(t, x, digest, c, j, a);
      ItemObservation(t, x, digest, c, k, b);
    }
  }

  lemma ItemObservation(t: Tables, x: Extractor, digest: Content -> Id, c: Id, k: Id, e: Evidence)
    requires c in t.cases && k in t.calls && Lawful(x, digest) && ReceiptOk(t, x, c, k) && e in ItemsOf(t, x, c, k).value
    ensures t.calls[k].observationId == Some(e.observationId) && DistinctIds(ItemsOf(t, x, c, k).value)
  {
    hide DispatchMatches, CorrelationMatches, OriginsFor;
  }

  // ---- extraction ----

  /** The latest occurrence per identifier, and every occurrence, of the facts in `all`. */
  predicate Collected(all: set<Evidence>, extracted: map<Id, Evidence>, originals: map<Occurrence, Evidence>) {
    && (forall e :: e in all ==> e.id in extracted && OccurrenceOf(e) in originals)
    && (forall i :: i in extracted ==> extracted[i].id == i && Latest(all, extracted[i]))
    && (forall o :: o in originals ==> originals[o] in all && OccurrenceOf(originals[o]) == o)
  }

  function Keep(extracted: map<Id, Evidence>, e: Evidence): map<Id, Evidence> {
    if e.id !in extracted || Later(e, extracted[e.id]) then extracted[e.id := e] else extracted
  }

  lemma CollectsMore(all: set<Evidence>, extracted: map<Id, Evidence>, originals: map<Occurrence, Evidence>, e: Evidence)
    requires Collected(all, extracted, originals)
    ensures Collected(all + {e}, Keep(extracted, e), originals[OccurrenceOf(e) := e])
  {
  }

  function FactSet(items: seq<Evidence>): set<Evidence> { set e | e in items }

  lemma FactSetGrows(items: seq<Evidence>, i: nat)
    requires i < |items|
    ensures FactSet(items[..i + 1]) == FactSet(items[..i]) + {items[i]}
  {
    assert items[..i + 1] == items[..i] + [items[i]];
  }

  method CollectCall(items: seq<Evidence>, ghost all: set<Evidence>, extracted: map<Id, Evidence>, originals: map<Occurrence, Evidence>)
    returns (extracted': map<Id, Evidence>, originals': map<Occurrence, Evidence>)
    requires Collected(all, extracted, originals)
    ensures Collected(all + FactSet(items), extracted', originals')
  {
    hide Collected, Keep;
    extracted', originals' := extracted, originals;
    assert all + FactSet(items[..0]) == all;
    for i := 0 to |items|
      invariant Collected(all + FactSet(items[..i]), extracted', originals')
    {
      CollectsMore(all + FactSet(items[..i]), extracted', originals', items[i]);
      FactSetGrows(items, i);
      assert all + FactSet(items[..i]) + {items[i]} == all + FactSet(items[..i + 1]);
      extracted', originals' := Keep(extracted', items[i]), originals'[OccurrenceOf(items[i]) := items[i]];
    }
    assert items[..|items|] == items;
  }

  /** Facts of the valid receipts among `calls`. */
  function FactsOfCalls(t: Tables, x: Extractor, c: Id, calls: set<Id>): set<Evidence>
    requires c in t.cases && calls <= ObservedCalls(t, c)
  {
    set k, e | k in calls && ReceiptOk(t, x, c, k) && e in ItemsOf(t, x, c, k).value :: e
  }

  lemma FactsOfCallsGrow(t: Tables, x: Extractor, c: Id, calls: set<Id>, k: Id)
    requires c in t.cases && calls <= ObservedCalls(t, c) && k in ObservedCalls(t, c)
    ensures FactsOfCalls(t, x, c, calls + {k})
      == FactsOfCalls(t, x, c, calls) + if ReceiptOk(t, x, c, k) then FactSet(ItemsOf(t, x, c, k).value) else {}
  {
    hide EnvelopeOk, DispatchMatches, CorrelationMatches, OriginsFor, ItemsOf;
  }

  method CollectCalls(t: Tables, x: Extractor, c: Id)
    returns (valid: bool, extracted: map<Id, Evidence>, originals: map<Occurrence, Evidence>)
    requires c in t.cases
    ensures valid <==> forall k :: k in ObservedCalls(t, c) ==> ReceiptOk(t, x, c, k)
    ensures Collected(Extracted(t, x, c), extracted, originals)
  {
    hide ReceiptOk, Collected, FactsOfCalls, FactSet;
    valid, extracted, originals := true, map[], map[];
    NothingCollected(t, x, c);
    var rest, calls := ObservedCalls(t, c), ObservedCalls(t, c);
    while rest != {}
      invariant rest <= calls
      invariant valid <==> forall k :: k in calls - rest ==> ReceiptOk(t, x, c, k)
      invariant Collected(FactsOfCalls(t, x, c, calls - rest), extracted, originals)
    {
      var k :| k in rest;
      FactsOfCallsGrow(t, x, c, calls - rest, k);
      assert calls - (rest - {k}) == (calls - rest) + {k};
      if ReceiptOk(t, x, c, k) {
        ReceiptHasItems(t, x, c, k);
        extracted, originals := CollectCall(ItemsOf(t, x, c, k).value, FactsOfCalls(t, x, c, calls - rest), extracted, originals);
      } else {
        valid := false;
        assert FactsOfCalls(t, x, c, calls - rest) + {} == FactsOfCalls(t, x, c, calls - rest);
      }
      rest := rest - {k};
    }
    assert calls - rest == calls;
    AllCollected(t, x, c);
  }

  lemma NothingCollected(t: Tables, x: Extractor, c: Id)
    requires c in t.cases
    ensures Collected(FactsOfCalls(t, x, c, {}), map[], map[])
    ensures ObservedCalls(t, c) - ObservedCalls(t, c) == {}
  {
  }

  lemma ReceiptHasItems(t: Tables, x: Extractor, c: Id, k: Id)
    requires c in t.cases && k in t.calls && ReceiptOk(t, x, c, k)
    ensures ItemsOf(t, x, c, k).Some?
  {
  }

  lemma AllCollected(t: Tables, x: Extractor, c: Id)
    requires c in t.cases
    ensures FactsOfCalls(t, x, c, ObservedCalls(t, c)) == Extracted(t, x, c)
  {
    hide ReceiptOk;
  }

  // ---- the stored rows ----

  lemma RowOkExactly(digest: Content -> Id, all: set<Evidence>, extracted: map<Id, Evidence>, originals: map<Occurrence, Evidence>,
                     i: Id, row: EvidenceRow)
    requires Functional(all) && Collected(all, extracted, originals)
    ensures RowOk(digest, all, i, row) <==>
      && row.payload.id == i && row.payload.caseId == row.caseId && row.payload.observationId == row.observationId
      && row.payload.id == digest(ContentOf(row.payload))
      && OccurrenceOf(row.payload) in originals && originals[OccurrenceOf(row.payload)] == row.payload
  {
    hide ContentOf;
  }

  /** Extracted facts without those whose stored row is bad. */
  function Dropping(extracted: map<Id, Evidence>, bad: set<Id>): map<Id, Evidence> {
    map i | i in extracted && i !in bad :: extracted[i]
  }

  lemma SomeMember(s: set<Id>)
    ensures s == {} || exists i :: i in s
  {
    if forall i :: i !in s { assert s == {}; }
  }

  method CheckRows(digest: Content -> Id, ghost all: set<Evidence>, rows: map<Id, EvidenceRow>, extracted: map<Id, Evidence>,
                   originals: map<Occurrence, Evidence>)
    returns (stored: set<Id>, bad: set<Id>)
    requires Functional(all) && Collected(all, extracted, originals)
    ensures stored == set i | i in rows && RowOk(digest, all, i, rows[i])
    ensures bad == rows.Keys - stored
  {
    hide RowOk, Collected, Functional, ContentOf;
    stored, bad := {}, {};
    var rest: set<Id> := rows.Keys;
    while rest != {}
      invariant rest <= rows.Keys
      invariant stored == set i | i in rows.Keys - rest && RowOk(digest, all, i, rows[i])
      invariant bad == rows.Keys - rest - stored
    {
      SomeMember(rest);
      var i :| i in rest;
      var row := rows[i];
      RowOkExactly(digest, all, extracted, originals, i, row);
      if row.payload.id != i || row.payload.caseId != row.caseId || row.payload.observationId != row.observationId
         || row.payload.id != digest(ContentOf(row.payload))
         || OccurrenceOf(row.payload) !in originals || originals[OccurrenceOf(row.payload)] != row.payload {
        bad := bad + {i};
      } else {
        stored := stored + {i};
      }
      rest := rest - {i};
    }
  }

  /** Re-extracts every observed call, then checks every stored row against its own extraction. */
  method ReadVerified(t: Tables, x: Extractor, digest: Content -> Id, c: Id) returns (read: VerifiedRead)
    requires c in t.cases && Lawful(x, digest)
    ensures read == Read(t, x, digest, c)
  {
    hide Lawful, Extracted, ReceiptOk, RowOk, Collected, Functional, Latest;
    var valid, extracted, originals := CollectCalls(t, x, c);
    ExtractedFunctional(t, x, digest, c);
    ghost var all := Extracted(t, x, c);
    var rows := EvidenceOf(t.evidence, c);
    var stored, bad := CheckRows(digest, all, rows, extracted, originals);
    var kept := Dropping(extracted, bad);
    assert stored == StoredIds(t, digest, all, c);
    KeptAreLatest(all, extracted, originals, stored, bad);
    KeptIds(all, extracted, originals);
    assert stored <= rows.Keys;
    NoneBad(rows.Keys, stored, bad, extracted);
    read := VerifiedRead(set i | i in stored && i in kept :: kept[i], valid && bad == {} && kept.Keys == stored);
  }

  lemma NoneBad(ids: set<Id>, stored: set<Id>, bad: set<Id>, extracted: map<Id, Evidence>)
    requires stored <= ids && bad == ids - stored
    ensures bad == {} <==> stored == ids
    ensures bad == {} ==> Dropping(extracted, bad) == extracted
  {
    assert stored == ids - bad;
  }

  lemma KeptAreLatest(all: set<Evidence>, extracted: map<Id, Evidence>, originals: map<Occurrence, Evidence>, stored: set<Id>, bad: set<Id>)
    requires Collected(all, extracted, originals) && Functional(all) && stored !! bad
    ensures (set i | i in stored && i in Dropping(extracted, bad) :: Dropping(extracted, bad)[i])
      == set e | e in all && e.id in stored && Latest(all, e)
  {
    forall e | e in all && Latest(all, e) ensures e.id in extracted && extracted[e.id] == e {
      assert Latest(all, extracted[e.id]);
      assert OccurrenceOf(extracted[e.id]) == OccurrenceOf(e);
    }
  }

  lemma KeptIds(all: set<Evidence>, extracted: map<Id, Evidence>, originals: map<Occurrence, Evidence>)
    requires Collected(all, extracted, originals)
    ensures extracted.Keys == set e | e in all :: e.id
  {
    forall i | i in extracted ensures extracted[i] in all && extracted[i].id == i { }
  }

  // ---- the newest lookups ----

  datatype LookupKey = LookupKey(tool: Tool, scope: Query)

  function LookupOf(e: Evidence): LookupKey { LookupKey(e.tool, e.scope) }

  /** The newest instant of every lookup among `seen`. */
  predicate Watermarks(seen: set<Evidence>, newest: map<LookupKey, Time>) {
    && (forall e :: e in seen ==> LookupOf(e) in newest && e.observedAt <= newest[LookupOf(e)])
    && (forall k :: k in newest ==> exists e :: e in seen && LookupOf(e) == k && e.observedAt == newest[k])
  }

  lemma WatermarkRises(seen: set<Evidence>, newest: map<LookupKey, Time>, e: Evidence)
    requires Watermarks(seen, newest)
    ensures Watermarks(seen + {e}, newest[LookupOf(e) := if LookupOf(e) in newest then Max(newest[LookupOf(e)], e.observedAt) else e.observedAt])
  {
    var newest' := newest[LookupOf(e) := if LookupOf(e) in newest then Max(newest[LookupOf(e)], e.observedAt) else e.observedAt];
    forall k | k in newest' ensures exists o :: o in seen + {e} && LookupOf(o) == k && o.observedAt == newest'[k] {
      if k == LookupOf(e) && (k !in newest || newest[k] <= e.observedAt) {
        assert e in seen + {e};
      } else {
        var o :| o in seen && LookupOf(o) == k && o.observedAt == newest[k];
        assert o in seen + {e};
      }
    }
  }

  /** Keeps the facts observed at the watermark of their own lookup. */
  method SelectLatestObservations(evidence: set<Evidence>) returns (latest: set<Evidence>)
    ensures latest == LatestObservations(evidence)
  {
    hide Watermarks;
    var newest: map<LookupKey, Time> := map[];
    var rest := evidence;
    NoWatermarks();
    assert evidence - rest == {};
    while rest != {}
      invariant rest <= evidence && Watermarks(evidence - rest, newest)
    {
      var e :| e in rest;
      WatermarkRises(evidence - rest, newest, e);
      assert evidence - (rest - {e}) == (evidence - rest) + {e};
      newest := newest[LookupOf(e) := if LookupOf(e) in newest then Max(newest[LookupOf(e)], e.observedAt) else e.observedAt];
      rest := rest - {e};
    }
    assert evidence - rest == evidence;
    AtWatermark(evidence, newest);
    latest := set e | e in evidence && LookupOf(e) in newest && e.observedAt == newest[LookupOf(e)];
  }

  lemma NoWatermarks()
    ensures Watermarks({}, map[])
  {
  }

  lemma AtWatermark(evidence: set<Evidence>, newest: map<LookupKey, Time>)
    requires Watermarks(evidence, newest)
    ensures (set e | e in evidence && LookupOf(e) in newest && e.observedAt == newest[LookupOf(e)]) == LatestObservations(evidence)
  {
    forall e | e in evidence ensures e.observedAt == newest[LookupOf(e)] <==> e in LatestObservations(evidence) {
      var m :| m in evidence && LookupOf(m) == LookupOf(e) && m.observedAt == newest[LookupOf(e)];
    }
  }

  // ---- effects and recovery ----

  /** Keeps the ledger rows whose stored authorization binds them, and flags every other row. */
  method ReadEffects(t: Tables, c: Id) returns (effects: map<EffectKey, BoundEffect>, invalid: bool)
    requires c in t.cases
    ensures effects == BoundEffects(t, c) && (invalid <==> PolicyInvalid(t, c))
  {
    hide Bound, RiskOf;
    effects, invalid := map[], false;
    var keys := EffectsOf(t.effects, c).Keys;
    var rest := keys;
    while rest != {}
      invariant rest <= keys
      invariant effects == map k | k in keys - rest && Bound(t, c, k) :: EffectTarget(t, c, k)
      invariant invalid <==> exists k :: k in keys - rest && (!Bound(t, c, k) || MisratedRisk(t, c, k))
    {
      var k :| k in rest;
      if Bound(t, c, k) {
        effects := effects[k := EffectTarget(t, c, k)];
        if MisratedRisk(t, c, k) { invalid := true; }
      } else {
        invalid := true;
      }
      rest := rest - {k};
    }
    assert keys - rest == keys;
    EffectsRead(t, c);
  }

  function EffectTarget(t: Tables, c: Id, k: EffectKey): BoundEffect
    requires c in t.cases && k in t.effects && Bound(t, c, k)
  {
    BoundEffect(t.effects[k], t.intents[t.effects[k].intentId].body.target)
  }

  predicate MisratedRisk(t: Tables, c: Id, k: EffectKey)
    requires c in t.cases && k in t.effects && Bound(t, c, k)
  {
    t.intents[t.effects[k].intentId].body.risk != RiskOf(t.effects[k].action)
  }

  lemma EffectsRead(t: Tables, c: Id)
    requires c in t.cases
    ensures var keys := EffectsOf(t.effects, c).Keys;
      && (map k | k in keys && Bound(t, c, k) :: EffectTarget(t, c, k)) == BoundEffects(t, c)
      && ((exists k :: k in keys && (!Bound(t, c, k) || MisratedRisk(t, c, k))) <==> PolicyInvalid(t, c))
  {
    hide RiskOf;
    assert forall k :: k in EffectsOf(t.effects, c).Keys <==> k in t.effects && t.effects[k].caseId == c;
  }
}
