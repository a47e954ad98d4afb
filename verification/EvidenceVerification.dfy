/** Read-only revalidation of the whole evidence store of one case. */
module EvidenceVerification {
  import opened Domain
  import opened Tables
  import opened CaseTransactions

  /** What every extraction guarantees: an identifier is the digest of its fact's content, facts name their case,
      observation and order within the scope, and one observation yields no two facts under one identifier. */
  ghost predicate Lawful(x: Extractor, digest: Content -> Id) {
    && (forall c, scope, obs, query, e ::
          x(c, scope, obs, query).Some? && e in x(c, scope, obs, query).value ==>
            && e.id == digest(ContentOf(e)) && e.caseId == c && e.observationId == obs.observationId
            && e.observedAt == obs.observedAt && e.scope.order == e.subject.order
            && e.subject.order in scope.allowedOrders && e.tool in scope.allowedTools)
    && (forall c, scope, obs, query ::
          x(c, scope, obs, query).Some? ==> DistinctIds(x(c, scope, obs, query).value))
  }

  function ItemsOf(t: Tables, x: Extractor, c: Id, k: Id): Option<seq<Evidence>>
    requires c in t.cases && k in t.calls
  {
    var oid := t.calls[k].observationId;
    if oid.None? || oid.value !in t.observations then None
    else x(c, ScopeOf(t.cases[c]), t.observations[oid.value].observation, t.observations[oid.value].request)
  }

  function OriginsOfCall(t: Tables, k: Id): set<Origin> {
    set o | o in t.origins && o.callId == k :: o
  }

  /** The observation behind an OBSERVED call is intact, matches its dispatch and re-extracts to its origins. */
  predicate ReceiptOk(t: Tables, x: Extractor, c: Id, k: Id)
    requires c in t.cases && k in t.calls
  {
    var call := t.calls[k];
    && call.observationId.Some? && call.observationId.value in t.observations
    && EnvelopeOk(call.observationId.value, t.observations[call.observationId.value])
    && DispatchMatches(t.cases[c], call, t.observations[call.observationId.value])
    && CorrelationMatches(call, t.observations[call.observationId.value])
    && ItemsOf(t, x, c, k).Some?
    && OriginsFor(ItemsOf(t, x, c, k).value, k) == OriginsOfCall(t, k)
  }

  function ObservedCalls(t: Tables, c: Id): set<Id> {
    set k | k in t.calls && t.calls[k].caseId == c && t.calls[k].state == CallObserved :: k
  }

  /** Every fact re-extracted from a valid receipt of the case. */
  function Extracted(t: Tables, x: Extractor, c: Id): set<Evidence>
    requires c in t.cases
  {
    set k, e | k in ObservedCalls(t, c) && ReceiptOk(t, x, c, k) && e in ItemsOf(t, x, c, k).value :: e
  }

  predicate Later(a: Evidence, b: Evidence) {
    a.observedAt > b.observedAt || (a.observedAt == b.observedAt && a.observationId > b.observationId)
  }

  /** `e` is the latest occurrence of its identifier. */
  predicate Latest(all: set<Evidence>, e: Evidence) {
    e in all && forall o :: o in all && o.id == e.id ==> !Later(o, e)
  }

  /** A stored row equals the fact originally extracted from the observation it names. */
  predicate RowOk(digest: Content -> Id, all: set<Evidence>, i: Id, row: EvidenceRow) {
    && row.payload.id == i && row.payload.caseId == row.caseId && row.payload.observationId == row.observationId
    && row.payload.id == digest(ContentOf(row.payload)) && row.payload in all
  }

  function StoredIds(t: Tables, digest: Content -> Id, all: set<Evidence>, c: Id): set<Id> {
    set i | i in t.evidence && t.evidence[i].caseId == c && RowOk(digest, all, i, t.evidence[i]) :: i
  }

  datatype VerifiedRead = VerifiedRead(evidence: set<Evidence>, valid: bool)

  function Read(t: Tables, x: Extractor, digest: Content -> Id, c: Id): VerifiedRead
    requires c in t.cases
  {
    var all := Extracted(t, x, c);
    var stored := StoredIds(t, digest, all, c);
    VerifiedRead(
      set e | e in all && e.id in stored && Latest(all, e) :: e,
      && (forall k :: k in ObservedCalls(t, c) ==> ReceiptOk(t, x, c, k))
      && stored == EvidenceOf(t.evidence, c).Keys
      && (set e | e in all :: e.id) == stored)
  }

  function DigestOf(t: Tables, c: Id): EvidenceDigest {
    EvidenceDigest(EvidenceOf(t.evidence, c), OriginsOf(t.origins, t.calls, c),
      map k | k in ObservedCalls(t, c) && t.calls[k].observationId.Some? && t.calls[k].observationId.value in t.observations
        :: t.observations[t.calls[k].observationId.value])
  }
}
