/** Bounded previews of references: repeated lookups keep only their first and last, and every preview has a limit. */
module ContextPreview {
  import opened Domain
  import Compaction

  /** Order of observation; identifiers break ties. */
  predicate Earlier(a: Evidence, b: Evidence) { a.observedAt < b.observedAt || (a.observedAt == b.observedAt && a.id < b.id) }

  /** The first or the last of `items`. */
  predicate AtEnd(items: set<Evidence>, e: Evidence) {
    e in items && ((forall o :: o in items ==> !Earlier(o, e)) || (forall o :: o in items ==> !Earlier(e, o)))
  }

  function EndRefs(items: set<Evidence>): set<Id> { set e | e in items && AtEnd(items, e) :: e.id }

  /** The lookup answers `answer` among `items`. */
  function Answered(items: set<Evidence>, answer: Value): set<Evidence> {
    set e | e in items && e.claim == SourceLookupStatus && e.value == answer
  }

  /** A fact that is no lookup answer, or the first or last of the like answers among `items`. */
  predicate Kept(items: set<Evidence>, e: Evidence) {
    e.claim != SourceLookupStatus || AtEnd(Answered(Compaction.LookupsOf(items, e.tool, e.scope), e.value), e)
  }

  /** Facts keep their reference; of one tool, query and answer only the first and the last lookup do. */
  function KeptRefs(items: set<Evidence>): set<Id> {
    set e | e in items && Kept(items, e) :: e.id
  }

  /** The `n` smallest of `s`. */
  function Smallest(s: set<Id>, n: nat): set<Id> { set i | i in s && |Below(s, i)| < n }

  function Below(s: set<Id>, i: Id): set<Id> { set j | j in s && j < i }

  function Items(evidence: set<Evidence>, refs: set<Id>): set<Evidence> { set e | e in evidence && e.id in refs }

  function RelationRefs(evidence: set<Evidence>, refs: set<Id>, limit: nat): set<Id> {
    Smallest(KeptRefs(Items(evidence, refs)), limit)
  }

  lemma SomeRef(s: set<Id>)
    ensures s == {} || exists i :: i in s
  {
    if forall i :: i !in s { assert s == {}; }
  }

  lemma {:induction false} Greatest(s: set<Id>) returns (m: Id)
    requires s != {}
    ensures m in s && forall i :: i in s ==> i <= m
  {
    SomeRef(s);
    var i :| i in s;
    if s == {i} {
      m := i;
    } else {
      assert s == (s - {i}) + {i};
      m := Greatest(s - {i});
      if m < i { m := i; }
    }
  }

  /** There are never more than `n` of the `n` smallest. */
  lemma SmallestBounded(s: set<Id>, n: nat)
    ensures Smallest(s, n) <= s && |Smallest(s, n)| <= n
  {
    var few := Smallest(s, n);
    if few != {} {
      var m := Greatest(few);
      assert few - {m} <= Below(s, m);
      Subset(few - {m}, Below(s, m));
    }
  }

  lemma {:induction false} Subset(a: set<Id>, b: set<Id>)
    requires a <= b
    ensures |a| <= |b|
  {
    if a != {} {
      var i := Greatest(a);
      Subset(a - {i}, b - {i});
    }
  }

  /** A preview shows only references it was given, no more than its limit, lookup answers only by their first and last, and
      it leaves one out only for being neither, or when it is full of smaller ones. */
  lemma RelationRefsBounded(evidence: set<Evidence>, refs: set<Id>, limit: nat)
    ensures RelationRefs(evidence, refs, limit) <= refs && |RelationRefs(evidence, refs, limit)| <= limit
    ensures forall i :: i in RelationRefs(evidence, refs, limit) ==>
      exists e :: e in Items(evidence, refs) && e.id == i && Kept(Items(evidence, refs), e)
    ensures forall e :: e in Items(evidence, refs) && Kept(Items(evidence, refs), e) && e.id !in RelationRefs(evidence, refs, limit) ==>
      |Below(KeptRefs(Items(evidence, refs)), e.id)| >= limit
  {
    SmallestBounded(KeptRefs(Items(evidence, refs)), limit);
    hide AtEnd, Answered, Below;
  }
}
