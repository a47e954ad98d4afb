/** Projects the rule decisions into a hypothesis graph, and the validator that graph must pass. */
module Engine {
  import opened Domain
  import opened Index
  import opened Rules
  import Gaps

  function Catalog(): set<Hypothesis> { {H1, H2, H3, H4, H5, H6, H6Schema, H6Stale, H7, H8} }

  function Definitions(): map<Hypothesis, Option<Hypothesis>> { map h | h in Catalog() :: Parent(h) }

  // What the graph records of one proposition: the references of its relations, and the open questions it still waits for.
  datatype HypothesisState = HypothesisState(
    status: HypothesisStatus, supporting: set<Id>, contradicting: set<Id>, decisive: set<Id>, missing: set<Gaps.GapName>)

  function Related(result: RuleResult, relations: set<Relation>): set<Id> {
    set i | i in result.relations && result.relations[i] in relations
  }

  function OpenFor(gaps: set<Gaps.Gap>, h: Hypothesis): set<Gaps.GapName> {
    set g | g in gaps && !g.satisfied && h in Gaps.HypothesesOf(g.name) :: g.name
  }

  function StateFrom(result: RuleResult, gaps: set<Gaps.Gap>, h: Hypothesis): HypothesisState {
    HypothesisState(result.status, Related(result, {Supports, DecisiveSupport}), Related(result, {Contradicts, DecisiveContradiction}),
                    Related(result, {DecisiveSupport, DecisiveContradiction}),
                    if result.status.Confirmed? || result.status.Eliminated? then {} else OpenFor(gaps, h))
  }

  function StateOf(index: EvidenceIndex, h: Hypothesis): HypothesisState {
    StateFrom(Decide(index, h), Gaps.GapsOf(index), h)
  }

  function GraphOf(index: EvidenceIndex): map<Hypothesis, HypothesisState> { map h | h in Catalog() :: StateOf(index, h) }

  function StatesOf(index: EvidenceIndex): map<Hypothesis, HypothesisStatus> {
    map h | h in Catalog() :: Decide(index, h).status
  }

  // ---- the validator ----

  /** Climbing from `parent` never leaves the graph nor meets a proposition in `seen`. */
  predicate Climbs(definitions: map<Hypothesis, Option<Hypothesis>>, parent: Option<Hypothesis>, seen: set<Hypothesis>)
    decreases |definitions.Keys - seen|
  {
    parent.None? ||
    (&& parent.value in definitions && parent.value !in seen
     && (FewerLeft(definitions.Keys, seen, parent.value); Climbs(definitions, definitions[parent.value], seen + {parent.value})))
  }

  lemma FewerLeft(all: set<Hypothesis>, seen: set<Hypothesis>, h: Hypothesis)
    requires h in all && h !in seen
    ensures |all - (seen + {h})| < |all - seen|
  {
    assert all - seen == (all - (seen + {h})) + {h};
  }

  predicate ValidNode(definitions: map<Hypothesis, Option<Hypothesis>>, states: map<Hypothesis, HypothesisStatus>, h: Hypothesis)
    requires h in definitions && h in states
  {
    definitions[h].Some? ==>
      && definitions[h].value in states
      && (states[h].Confirmed? ==> states[definitions[h].value].Confirmed?)
      && Climbs(definitions, definitions[h], {h})
  }

  predicate ValidGraph(definitions: map<Hypothesis, Option<Hypothesis>>, states: map<Hypothesis, HypothesisStatus>) {
    definitions.Keys == states.Keys && forall h :: h in definitions.Keys * states.Keys ==> ValidNode(definitions, states, h)
  }

  /** Walks the parent chain. */
  method ClimbParents(definitions: map<Hypothesis, Option<Hypothesis>>, h: Hypothesis) returns (ok: bool)
    requires h in definitions
    ensures ok <==> Climbs(definitions, definitions[h], {h})
  {
    var seen, parent := {h}, definitions[h];
    while parent.Some?
      invariant Climbs(definitions, definitions[h], {h}) <==> Climbs(definitions, parent, seen)
      decreases |definitions.Keys - seen|
    {
      if parent.value in seen || parent.value !in definitions { return false; }
      FewerLeft(definitions.Keys, seen, parent.value);
      seen := seen + {parent.value};
      parent := definitions[parent.value];
    }
    ok := true;
  }

  method Validate(definitions: map<Hypothesis, Option<Hypothesis>>, states: map<Hypothesis, HypothesisStatus>) returns (ok: bool)
    ensures ok <==> ValidGraph(definitions, states)
  {
    if definitions.Keys != states.Keys { return false; }
    var rest := definitions.Keys;
    while rest != {}
      invariant rest <= definitions.Keys
      invariant forall h :: h in definitions.Keys - rest ==> ValidNode(definitions, states, h)
    {
      var h :| h in rest;
      rest := rest - {h};
      assert h in definitions.Keys * states.Keys;
      if definitions[h].Some? {
        var parent := definitions[h].value;
        if parent !in states || (states[h].Confirmed? && !states[parent].Confirmed?) { return false; }
        var climbs := ClimbParents(definitions, h);
        if !climbs { return false; }
      }
    }
    ok := true;
  }

  /** The n-th ancestor. */
  function Up(definitions: map<Hypothesis, Option<Hypothesis>>, h: Option<Hypothesis>, n: nat): Option<Hypothesis>
    decreases n
  {
    if n == 0 || h.None? || h.value !in definitions then h else Up(definitions, definitions[h.value], n - 1)
  }

  /** In a valid graph no proposition is its own ancestor. */
  lemma NoCycle(definitions: map<Hypothesis, Option<Hypothesis>>, states: map<Hypothesis, HypothesisStatus>, h: Hypothesis, n: nat)
    requires ValidGraph(definitions, states) && h in definitions
    ensures Up(definitions, definitions[h], n) != Some(h)
  {
    assert ValidNode(definitions, states, h);
    ClimbAvoids(definitions, definitions[h], {h}, n);
  }

  lemma {:induction false} ClimbAvoids(definitions: map<Hypothesis, Option<Hypothesis>>, parent: Option<Hypothesis>,
                                       seen: set<Hypothesis>, n: nat)
    requires Climbs(definitions, parent, seen)
    ensures Up(definitions, parent, n).Some? ==> Up(definitions, parent, n).value !in seen
    decreases n
  {
    if n > 0 && parent.Some? {
      ClimbAvoids(definitions, definitions[parent.value], seen + {parent.value}, n - 1);
    }
  }

  // ---- the engine ----

  method EvaluateRules(index: EvidenceIndex) returns (states: map<Hypothesis, HypothesisState>)
    ensures states == GraphOf(index)
  {
    hide Decide, Gaps.GapsOf, StateFrom;
    states := map[];
    var gaps := Gaps.DeriveGaps(index);
    var rest := Catalog();
    while rest != {}
      invariant rest <= Catalog()
      invariant states == map h | h in Catalog() - rest :: StateOf(index, h)
    {
      var h :| h in rest;
      var result := DecideHypothesis(index, h);
      states := states[h := StateFrom(result, gaps, h)];
      rest := rest - {h};
    }
    assert Catalog() - rest == Catalog();
  }

  /** A confirmed proposition always shows the references that confirm it, an undecided one shows none, and what decides is
      always among what supports or contradicts. */
  lemma DecisiveExactly(index: EvidenceIndex, h: Hypothesis)
    ensures var s := StateOf(index, h);
      && (s.decisive != {} <==> s.status.Confirmed? || s.status.Eliminated?)
      && s.decisive <= s.supporting + s.contradicting
      && (s.status.Confirmed? ==> s.decisive <= s.supporting) && (s.status.Eliminated? ==> s.decisive <= s.contradicting)
  {
    DecidedExactly(index, h);
    hide Decide, Gaps.GapsOf;
    DecisiveSides(Decide(index, h), Gaps.GapsOf(index), h);
  }

  lemma DecisiveSides(r: RuleResult, gaps: set<Gaps.Gap>, h: Hypothesis)
    requires (r.status.Confirmed? <==> Has(r, DecisiveSupport)) && (r.status.Eliminated? <==> Has(r, DecisiveContradiction))
    ensures var s := StateFrom(r, gaps, h);
      && (s.decisive != {} <==> s.status.Confirmed? || s.status.Eliminated?)
      && s.decisive <= s.supporting + s.contradicting
      && (s.status.Confirmed? ==> s.decisive <= s.supporting) && (s.status.Eliminated? ==> s.decisive <= s.contradicting)
  {
    hide OpenFor;
    var s := StateFrom(r, gaps, h);
    forall i | i in s.decisive
      ensures r.relations[i].DecisiveSupport? ==> r.status.Confirmed?
      ensures r.relations[i].DecisiveContradiction? ==> r.status.Eliminated?
    {
    }
    SomeRef(s.decisive);
    if Has(r, DecisiveSupport) { var i :| i in r.relations && r.relations[i] == DecisiveSupport; assert i in s.decisive; }
    if Has(r, DecisiveContradiction) { var i :| i in r.relations && r.relations[i] == DecisiveContradiction; assert i in s.decisive; }
  }

  lemma SomeRef(s: set<Id>)
    ensures s == {} || exists i :: i in s
  {
    if forall i :: i !in s { assert s == {}; }
  }

  /** Whatever the evidence, the rules never produce a graph the validator rejects. */
  lemma GraphAlwaysValid(index: EvidenceIndex)
    ensures ValidGraph(Definitions(), StatesOf(index))
  {
    ConfirmedChildren(index);
    hide Decide;
    var definitions, states := Definitions(), StatesOf(index);
    forall h | h in definitions.Keys * states.Keys ensures ValidNode(definitions, states, h) {
      if definitions[h].Some? {
        assert definitions[H6] == None;
        assert Climbs(definitions, None, {h, H6});
        assert {h} + {H6} == {h, H6};
        assert Climbs(definitions, Some(H6), {h});
      }
    }
  }
}
