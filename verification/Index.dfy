/** The evidence index of one case: what is current, what is agreed, and which request it is about. */
module Index {
  import opened Domain
  import opened Tables

  /** Evidence the index admits for case `c`. */
  predicate Admissible(row: CaseRow, c: Id, e: Evidence) {
    e.caseId == c && e.subject.order == row.order && e.scope.order == row.order && e.tool in row.allowedTools
  }

  predicate OneFactPerId(evidence: set<Evidence>) {
    forall a, b :: a in evidence && b in evidence && a.id == b.id ==> a == b
  }

  predicate Accepts(row: CaseRow, c: Id, evidence: set<Evidence>) {
    (forall e :: e in evidence ==> Admissible(row, c, e)) && OneFactPerId(evidence)
  }

  datatype EvidenceIndex = EvidenceIndex(row: CaseRow, evidence: set<Evidence>)

  // What makes two facts rivals: the full subject, and the version of a protocol document.
  datatype Rivalry = Rivalry(subject: Subject, protocolVersion: Option<Text>)

  function RivalryOf(e: Evidence): Rivalry {
    Rivalry(e.subject, if e.tool == ProtocolTool then e.protocolVersion else None)
  }

  function BusinessTime(e: Evidence): Time {
    if e.eventTime.Some? then e.eventTime.value else if e.sourceAsOf.Some? then e.sourceAsOf.value else e.observedAt
  }

  /** The rivals of latest business time; facts of equal time all survive. */
  function Latest(candidates: set<Evidence>): set<Evidence> {
    set e | e in candidates
      && forall o :: o in candidates && RivalryOf(o) == RivalryOf(e) ==> BusinessTime(o) <= BusinessTime(e)
  }

  function All(index: EvidenceIndex, claim: Claim): set<Evidence> {
    set e | e in index.evidence && e.claim == claim
  }

  /** A later (or simultaneous) failed lookup of the same tool and query hides a fact. */
  predicate Shadowed(index: EvidenceIndex, e: Evidence) {
    exists l :: l in index.evidence && l.claim == SourceLookupStatus && l.tool == e.tool && l.scope == e.scope
      && l.observedAt >= e.observedAt
  }

  predicate Usable(index: EvidenceIndex, e: Evidence) {
    e.freshness == Freshness.Current && e.completeness == Complete && e.sourceAsOf.Some? && !Shadowed(index, e)
  }

  function UsableOf(index: EvidenceIndex, claim: Claim): set<Evidence> {
    set e | e in All(index, claim) && Usable(index, e)
  }

  function CurrentOf(index: EvidenceIndex, claim: Claim): set<Evidence> { Latest(UsableOf(index, claim)) }

  /** Current facts of this value that no current rival contradicts. */
  function Agreed(index: EvidenceIndex, claim: Claim, value: Value): set<Evidence> {
    set e | e in CurrentOf(index, claim) && e.value == value
      && forall o :: o in CurrentOf(index, claim) && RivalryOf(o) == RivalryOf(e) ==> o.value == value
  }

  function TheOnly(s: set<Text>): Option<Text> {
    if exists a :: a in s && s == {a} then var a :| a in s && s == {a}; Some(a) else None
  }

  function TraceAnchors(index: EvidenceIndex): set<Text> {
    set e | e in CurrentOf(index, RequestSent) + CurrentOf(index, HttpResponseStatus) + CurrentOf(index, GuaranteeStatus)
      && e.fundRequestId.Some? && e.sourceKind == Primary && (e.tool == TraceTool || e.tool == GuaranteeTool)
      :: e.fundRequestId.value
  }

  function FundAnchors(index: EvidenceIndex): set<Text> {
    set e | e in CurrentOf(index, FundBusinessStatus) && e.subject.kind == FundRequestSubject && e.tool == FundTool
      && e.sourceKind == Primary :: e.subject.identifier
  }

  /** The one original fund request the evidence is about, if it is unambiguous. */
  function RequestId(index: EvidenceIndex): Option<Text> {
    TheOnly(if TraceAnchors(index) != {} then TraceAnchors(index) else FundAnchors(index))
  }

  function LinkedRequest(e: Evidence): Text {
    if e.fundRequestId.Some? then e.fundRequestId.value else e.subject.identifier
  }

  function ForRequest(index: EvidenceIndex, items: set<Evidence>): set<Evidence> {
    set e | e in items && RequestId(index) == Some(LinkedRequest(e))
  }

  function Refs(items: set<Evidence>): set<Id> { set e | e in items :: e.id }

  // ---- the loops ----

  /** Collects the evidence of one case by identifier; refuses a foreign fact or two facts under one identifier. */
  method BuildIndex(row: CaseRow, c: Id, items: seq<Evidence>) returns (index: Option<EvidenceIndex>)
    ensures index.Some? <==> Accepts(row, c, set e | e in items)
    ensures index.Some? ==> index.value == EvidenceIndex(row, set e | e in items)
  {
    var byId: map<Id, Evidence> := map[];
    for i := 0 to |items|
      invariant forall k :: 0 <= k < i ==> Admissible(row, c, items[k]) && items[k].id in byId && byId[items[k].id] == items[k]
      invariant forall id :: id in byId ==> byId[id] in items[..i] && byId[id].id == id
    {
      var e := items[i];
      if !Admissible(row, c, e) || (e.id in byId && byId[e.id] != e) {
        ghost var all := set o | o in items;
        assert e in all;
        if e.id in byId { assert byId[e.id] in items[..i] && byId[e.id] in all && byId[e.id].id == e.id; }
        return None;
      }
      byId := byId[e.id := e];
    }
    assert items[..|items|] == items;
    index := Some(EvidenceIndex(row, set e | e in items));
  }

  /** Groups candidates by rivalry and keeps the maximal business time of each group. */
  method SelectLatest(candidates: seq<Evidence>) returns (latest: set<Evidence>)
    ensures latest == Latest(set e | e in candidates)
  {
    var newest: map<Rivalry, Time> := map[];
    for i := 0 to |candidates|
      invariant forall k :: 0 <= k < i ==>
        RivalryOf(candidates[k]) in newest && BusinessTime(candidates[k]) <= newest[RivalryOf(candidates[k])]
      invariant forall r :: r in newest ==>
        exists k :: 0 <= k < i && RivalryOf(candidates[k]) == r && BusinessTime(candidates[k]) == newest[r]
    {
      var r, at := RivalryOf(candidates[i]), BusinessTime(candidates[i]);
      newest := newest[r := if r in newest then Max(newest[r], at) else at];
    }
    latest := {};
    for i := 0 to |candidates|
      invariant latest == set k | 0 <= k < i && BusinessTime(candidates[k]) == newest[RivalryOf(candidates[k])] :: candidates[k]
    {
      if BusinessTime(candidates[i]) == newest[RivalryOf(candidates[i])] {
        latest := latest + {candidates[i]};
      }
    }
  }

  // ---- what the queries mean ----

  /** No two rivals survive with different business times, and every usable fact has a surviving rival at least as late. */
  lemma LatestDominates(candidates: set<Evidence>, e: Evidence)
    requires e in candidates
    ensures exists m :: m in Latest(candidates) && RivalryOf(m) == RivalryOf(e) && BusinessTime(e) <= BusinessTime(m)
  {
    var m := LatestRival(candidates, candidates, e);
    assert m in Latest(candidates);
  }

  lemma {:induction false} LatestRival(all: set<Evidence>, rest: set<Evidence>, e: Evidence) returns (m: Evidence)
    requires e in all && rest <= all
    requires forall o :: o in all && o !in rest && RivalryOf(o) == RivalryOf(e) ==> BusinessTime(o) <= BusinessTime(e)
    ensures m in all && RivalryOf(m) == RivalryOf(e) && BusinessTime(e) <= BusinessTime(m)
    ensures forall o :: o in all && RivalryOf(o) == RivalryOf(m) ==> BusinessTime(o) <= BusinessTime(m)
    decreases rest
  {
    if o :| o in rest && RivalryOf(o) == RivalryOf(e) && BusinessTime(o) > BusinessTime(e) {
      m := LatestRival(all, rest - {o}, o);
    } else {
      m := e;
    }
  }

  /** A claim with a fact that no later lookup failure hides always has a current value. */
  lemma UsableHasCurrent(index: EvidenceIndex, claim: Claim, e: Evidence)
    requires e in All(index, claim) && Usable(index, e)
    ensures exists m :: m in CurrentOf(index, claim) && RivalryOf(m) == RivalryOf(e)
  {
    LatestDominates(UsableOf(index, claim), e);
  }

  lemma CurrentIsUsable(index: EvidenceIndex, claim: Claim, e: Evidence)
    requires e in CurrentOf(index, claim)
    ensures e in index.evidence && e.claim == claim && Usable(index, e)
  {
  }

  /** Two agreed values of one subject are never both agreed. */
  lemma AgreedIsUnique(index: EvidenceIndex, claim: Claim, v: Value, w: Value, a: Evidence, b: Evidence)
    requires a in Agreed(index, claim, v) && b in Agreed(index, claim, w) && RivalryOf(a) == RivalryOf(b)
    ensures v == w
  {
  }
}
