/** The budgeted context: a mandatory tier, a greedy fill with undo, and a final trim. */
module Assembler {
  import opened Domain
  import opened Index
  import opened Rules
  import opened Engine
  import Gaps
  import Compaction
  import Seal

  datatype Slot = Facts | Hypotheses | OpenGaps | Resolved | Lookups | Transitions

  // What a capsule is about: it is unique within its slot.
  datatype Name =
    | OfFact(ref: Id) | OfHypothesis(h: Hypothesis) | OfGap(gap: Gaps.GapName) | OfLookup(lookup: Compaction.GroupKey)
    | OfState(claim: Claim, subject: Subject, protocolVersion: Option<Text>)

  // The fields of a fact a context repeats.
  datatype FactView = FactView(
    claim: Claim, value: Value, subject: Subject, businessTime: Time, observedAt: Time, freshness: Freshness,
    completeness: Completeness, tool: Tool, sourceKind: SourceKind, sourceAsOf: Option<Time>,
    sourceVersion: Option<Value>, protocolVersion: Option<Text>)

  function ViewOf(e: Evidence): FactView {
    FactView(e.claim, e.value, e.subject, BusinessTime(e), e.observedAt, e.freshness, e.completeness, e.tool, e.sourceKind,
             e.sourceAsOf, e.sourceVersion, e.protocolVersion)
  }

  // What a capsule says. A hypothesis states counts and digests of all its relations, whatever its previews show.
  datatype Content =
    | FactContent(view: FactView)
    | HypothesisContent(status: HypothesisStatus, allSupporting: set<Id>, allContradicting: set<Id>, missing: set<Gaps.GapName>)
    | GapContent(critical: bool) | ResolvedContent(status: HypothesisStatus) | LookupContent(consecutive: nat) | StateContent

  // A capsule: its name, its content, the references it always carries, and its bounded previews.
  datatype Capsule = Capsule(key: Name, content: Content, core: set<Id>, supporting: set<Id>, contradicting: set<Id>) {
    function Refs(): set<Id> { core + supporting + contradicting }
    predicate Confirmed() { content.HypothesisContent? && content.status.Confirmed? }
  }

  datatype Selected = Selected(
    facts: seq<Capsule>, hypotheses: seq<Capsule>, gaps: seq<Capsule>, resolved: seq<Capsule>, lookups: seq<Capsule>, states: seq<Capsule>)
  {
    function At(slot: Slot): seq<Capsule> {
      match slot
      case Facts => facts case Hypotheses => hypotheses case OpenGaps => gaps
      case Resolved => resolved case Lookups => lookups case Transitions => states
    }

    function With(slot: Slot, items: seq<Capsule>): Selected {
      match slot
      case Facts => this.(facts := items) case Hypotheses => this.(hypotheses := items) case OpenGaps => this.(gaps := items)
      case Resolved => this.(resolved := items) case Lookups => this.(lookups := items) case Transitions => this.(states := items)
    }

    /** Every reference some selected capsule carries. */
    function Refs(): set<Id> {
      set slot, c, r | slot in SLOTS && c in At(slot) && r in c.Refs() :: r
    }
  }

  const SLOTS: set<Slot> := {Facts, Hypotheses, OpenGaps, Resolved, Lookups, Transitions}

  datatype Reason =
    | EligibilityDenied | RepeatedLookup | HistoricalSuperseded | Irrelevant | SizeBudget | RelationCompacted | IdentityCompacted

  const REASONS: set<Reason> := {EligibilityDenied, RepeatedLookup, HistoricalSuperseded, Irrelevant, SizeBudget, RelationCompacted,
                                 IdentityCompacted}

  // A preview candidate replaces the capsule of a confirmed hypothesis; any other one is appended to its slot.
  datatype Candidate = Candidate(preview: bool, slot: Slot, capsule: Capsule)

  datatype Limits = Limits(chars: nat, facts: nat, hypotheses: nat, gaps: nat, history: nat, preview: nat)

  /** What the rules, the gaps, the compactor and the projector hand to the assembler; module ContextSource builds it from an
      evidence index. `source` is what the fingerprints digest; `current` holds the current facts; `length` measures the rest
      of the text for a selection and its omission summary; `candidates` come in their order of preference. */
  datatype Input = Input(
    source: EvidenceIndex, ids: set<Id>, eligible: set<Id>, current: map<Id, FactView>, critical: set<Id>, identity: set<Id>,
    states: map<Hypothesis, HypothesisState>, gaps: set<Capsule>, criticalGaps: seq<Capsule>, confirmed: seq<Capsule>,
    groups: set<Capsule>, candidates: seq<Candidate>, historyComplete: bool, reasons: map<Id, Reason>, limits: Limits,
    length: (Selected, map<Reason, set<Id>>) -> nat)

  datatype Usage = Usage(size: Seal.Usage, facts: nat, hypotheses: nat, gaps: nat, history: nat)

  datatype ContextSnapshot = ContextSnapshot(
    source: EvidenceIndex, selected: Selected, identity: set<Id>, refs: set<Id>, omitted: map<Reason, set<Id>>, complete: bool, usage: Usage)

  // ---- apply and undo ----

  predicate HasKey(items: seq<Capsule>, key: Name) { exists i :: 0 <= i < |items| && items[i].key == key }

  function PositionOf(items: seq<Capsule>, key: Name): (p: nat)
    requires HasKey(items, key)
    ensures p < |items| && items[p].key == key && forall i :: 0 <= i < p ==> items[i].key != key
  {
    if items[0].key == key then 0
    else
      assert HasKey(items[1..], key) by {
        var i :| 0 <= i < |items| && items[i].key == key;
        assert items[1..][i - 1] == items[i];
      }
      1 + PositionOf(items[1..], key)
  }

  datatype Placed = Placed(position: nat, capsule: Capsule)

  /** Can `cand` be applied as intended: a preview finds its hypothesis, anything else is new to its slot. */
  predicate CanApply(selected: Selected, cand: Candidate) {
    if cand.preview then cand.slot == Hypotheses && HasKey(selected.hypotheses, cand.capsule.key)
    else !HasKey(selected.At(cand.slot), cand.capsule.key)
  }

  function Apply(selected: Selected, cand: Candidate): Selected
    requires CanApply(selected, cand)
  {
    if cand.preview then
      selected.(hypotheses := selected.hypotheses[PositionOf(selected.hypotheses, cand.capsule.key) := cand.capsule])
    else selected.With(cand.slot, selected.At(cand.slot) + [cand.capsule])
  }

  function Before(selected: Selected, cand: Candidate): Option<Placed>
    requires CanApply(selected, cand)
  {
    if cand.preview then
      var p := PositionOf(selected.hypotheses, cand.capsule.key);
      Some(Placed(p, selected.hypotheses[p]))
    else None
  }

  /** Removal of the first equal item, as a list does it. */
  function RemoveFirst(items: seq<Capsule>, c: Capsule): seq<Capsule> {
    if items == [] then [] else if items[0] == c then items[1..] else [items[0]] + RemoveFirst(items[1..], c)
  }

  function Undo(selected: Selected, cand: Candidate, previous: Option<Placed>): Selected {
    if previous.Some? then
      if previous.value.position < |selected.hypotheses|
      then selected.(hypotheses := selected.hypotheses[previous.value.position := previous.value.capsule]) else selected
    else selected.With(cand.slot, RemoveFirst(selected.At(cand.slot), cand.capsule))
  }

  lemma {:induction false} RemoveAppended(items: seq<Capsule>, c: Capsule)
    requires c !in items
    ensures RemoveFirst(items + [c], c) == items
  {
    if items != [] {
      RemoveAppended(items[1..], c);
      assert (items + [c])[1..] == items[1..] + [c];
    }
  }

  lemma KeysNameItems(items: seq<Capsule>, c: Capsule)
    ensures c in items ==> HasKey(items, c.key)
  {
  }

  /** Undo is the exact inverse of apply. */
  lemma UndoApply(selected: Selected, cand: Candidate)
    requires CanApply(selected, cand)
    ensures Undo(Apply(selected, cand), cand, Before(selected, cand)) == selected
  {
    if !cand.preview {
      KeysNameItems(selected.At(cand.slot), cand.capsule);
      RemoveAppended(selected.At(cand.slot), cand.capsule);
    }
  }

  /** Removing by equality undoes an append exactly when the slot held no equal capsule, or nothing else from the first one
      on: otherwise the wrong occurrence goes and what is left is out of order. */
  lemma {:induction false} RemovalUndoesExactly(items: seq<Capsule>, c: Capsule)
    ensures RemoveFirst(items + [c], c) == items <==>
      exists p: nat :: p <= |items| && c !in items[..p] && forall i :: p <= i < |items| ==> items[i] == c
  {
    if items == [] {
      assert RemoveFirst([] + [c], c) == [];
      assert 0 <= |items| && c !in items[..0];
    } else if items[0] == c {
      HeadRemoved(items, c);
      if forall i :: 0 <= i < |items| ==> items[i] == c {
        var p: nat := 0;
        assert p <= |items| && c !in items[..p] && forall i :: p <= i < |items| ==> items[i] == c;
      }
      if p: nat :| p <= |items| && c !in items[..p] && forall i :: p <= i < |items| ==> items[i] == c {
        assert p == 0;
      }
    } else {
      var rest := items[1..];
      RemovalUndoesExactly(rest, c);
      assert (items + [c])[1..] == rest + [c];
      assert items == [items[0]] + rest;
      if p: nat :| p <= |rest| && c !in rest[..p] && forall i :: p <= i < |rest| ==> rest[i] == c {
        assert items[..p + 1] == [items[0]] + rest[..p];
        assert forall i :: p + 1 <= i < |items| ==> items[i] == rest[i - 1];
      }
      if p: nat :| p <= |items| && c !in items[..p] && forall i :: p <= i < |items| ==> items[i] == c {
        assert p > 0;
        assert rest[..p - 1] == items[1..p];
        assert forall i :: p - 1 <= i < |rest| ==> rest[i] == items[i + 1];
      }
    }
  }

  lemma HeadRemoved(items: seq<Capsule>, c: Capsule)
    requires items != [] && items[0] == c
    ensures RemoveFirst(items + [c], c) == items <==> forall i :: 0 <= i < |items| ==> items[i] == c
    ensures forall p: nat :: 0 < p <= |items| ==> c in items[..p]
  {
    var rest := items[1..] + [c];
    assert (items + [c])[1..] == rest;
    assert forall p: nat :: 0 < p <= |items| ==> items[..p][0] == c;
    if rest == items { AllEqual(items, c, |items|); }
    if forall i :: 0 <= i < |items| ==> items[i] == c { assert rest == items; }
  }

  lemma {:induction false} AllEqual(items: seq<Capsule>, c: Capsule, n: nat)
    requires items != [] && items[0] == c && items[1..] + [c] == items && n <= |items|
    ensures forall i :: 0 <= i < n ==> items[i] == c
  {
    if n > 1 {
      AllEqual(items, c, n - 1);
      assert (items[1..] + [c])[n - 2] == items[n - 1];
    }
  }

  datatype Taken = Taken(cand: Candidate, previous: Option<Placed>)

  /** `selected` is the mandatory tier with the accepted candidates applied in order, each undo record exact. */
  predicate Replays(mandatory: Selected, accepted: seq<Taken>, selected: Selected) {
    if accepted == [] then selected == mandatory
    else
      var last := accepted[|accepted| - 1];
      var earlier := Undo(selected, last.cand, last.previous);
      && Replays(mandatory, accepted[..|accepted| - 1], earlier)
      && CanApply(earlier, last.cand) && Apply(earlier, last.cand) == selected && Before(earlier, last.cand) == last.previous
  }

  lemma ReplaysMore(mandatory: Selected, accepted: seq<Taken>, selected: Selected, cand: Candidate)
    requires Replays(mandatory, accepted, selected) && CanApply(selected, cand)
    ensures Replays(mandatory, accepted + [Taken(cand, Before(selected, cand))], Apply(selected, cand))
  {
    UndoApply(selected, cand);
    assert (accepted + [Taken(cand, Before(selected, cand))])[..|accepted|] == accepted;
  }

  // ---- rendering ----

  function OmittedFor(input: Input, refs: set<Id>, reasons: map<Id, Reason>, r: Reason): set<Id> {
    set i | i in input.ids - refs && i in reasons && reasons[i] == r
  }

  function Omitted(input: Input, refs: set<Id>, reasons: map<Id, Reason>): map<Reason, set<Id>> {
    map r | r in REASONS && OmittedFor(input, refs, reasons, r) != {} :: OmittedFor(input, refs, reasons, r)
  }

  function Render(input: Input, selected: Selected, reasons: map<Id, Reason>): ContextSnapshot {
    var refs := input.identity + selected.Refs();
    var omitted := Omitted(input, refs, reasons);
    var size := Seal.Round(input.length(selected, omitted), 4);
    ContextSnapshot(input.source, selected, input.identity, refs, omitted, |selected.lookups| == |input.groups| && input.historyComplete,
             Usage(size, |selected.facts|, |selected.hypotheses| + |selected.resolved|, |selected.gaps|,
                   |selected.lookups| + |selected.states|))
  }

  predicate Fits(limits: Limits, s: ContextSnapshot) {
    && s.usage.size.chars <= limits.chars && s.usage.facts <= limits.facts && s.usage.hypotheses <= limits.hypotheses
    && s.usage.gaps <= limits.gaps && s.usage.history <= limits.history
  }

  // ---- what the inputs and a selection must satisfy ----

  /** A hypothesis capsule projects its state: decisive references whole, previews bounded and taken from the state. */
  predicate HypothesisOk(input: Input, c: Capsule) {
    && c.key.OfHypothesis? && c.key.h in input.states
    && var state := input.states[c.key.h];
    && c.core == state.decisive
    && c.content == HypothesisContent(state.status, state.supporting, state.contradicting, state.missing)
    && c.supporting <= state.supporting && c.contradicting <= state.contradicting
    && |c.supporting| <= input.limits.preview && |c.contradicting| <= input.limits.preview
  }

  function FactCapsule(ref: Id, view: FactView): Capsule { Capsule(OfFact(ref), FactContent(view), {ref}, {}, {}) }

  /** The projection of one current fact. */
  predicate FactOk(input: Input, c: Capsule) {
    c.key.OfFact? && c.key.ref in input.current && c == FactCapsule(c.key.ref, input.current[c.key.ref])
  }

  predicate CapsuleOk(input: Input, slot: Slot, c: Capsule) {
    match slot
    case Facts => FactOk(input, c)
    case Hypotheses => HypothesisOk(input, c)
    case OpenGaps => c in input.gaps
    case Lookups => c in input.groups
    case _ => true
  }

  predicate DistinctKeys(items: seq<Capsule>) { forall i, j :: 0 <= i < j < |items| ==> items[i].key != items[j].key }

  predicate SameCandidate(a: Candidate, b: Candidate) {
    a.preview == b.preview && a.slot == b.slot && a.capsule.key == b.capsule.key
  }

  function KeysOf(items: seq<Capsule>): set<Name> { set c | c in items :: c.key }

  /** The facts some capsules show. */
  function FactsOf(items: seq<Capsule>): set<Id> { set c | c in items && c.key.OfFact? :: c.key.ref }

  /** Every reference is to known evidence, and everything critical is current. */
  predicate RefsWellFormed(input: Input) {
    && input.eligible <= input.ids && input.current.Keys <= input.ids && input.critical <= input.current.Keys
    && input.identity <= input.ids && input.reasons.Keys == input.ids
  }

  /** The mandatory hypotheses are the confirmed ones, faithful and without previews; the mandatory gaps are gaps. */
  predicate TierWellFormed(input: Input) {
    && DistinctKeys(input.confirmed) && DistinctKeys(input.criticalGaps)
    && (forall c :: c in input.confirmed ==> HypothesisOk(input, c) && c.Confirmed() && c.core != {} && c.supporting == {} && c.contradicting == {})
    && (forall h :: h in input.states && input.states[h].status.Confirmed? ==> OfHypothesis(h) in KeysOf(input.confirmed))
    && (forall c :: c in input.criticalGaps ==> c in input.gaps)
  }

  /** Every candidate is faithful and offered once. */
  predicate CandidatesWellFormed(input: Input) {
    && (forall i :: 0 <= i < |input.candidates| ==> CandidateOk(input, input.candidates[i]))
    && (forall i, j :: 0 <= i < j < |input.candidates| ==> !SameCandidate(input.candidates[i], input.candidates[j]))
  }

  /** What the earlier stages guarantee of the assembler's inputs; module ContextSource proves it of every input it builds. */
  predicate WellFormed(input: Input) {
    RefsWellFormed(input) && TierWellFormed(input) && CandidatesWellFormed(input)
  }

  /** A preview names a confirmed hypothesis; any other candidate is new to the mandatory tier of its slot. */
  predicate CandidateOk(input: Input, cand: Candidate) {
    && CapsuleOk(input, cand.slot, cand.capsule)
    && if cand.preview then cand.slot == Hypotheses && cand.capsule.key in KeysOf(input.confirmed)
       else match cand.slot
         case Facts => cand.capsule.key.ref !in MandatoryRefs(input)
         case Hypotheses => cand.capsule.key !in KeysOf(input.confirmed)
         case OpenGaps => cand.capsule.key !in KeysOf(input.criticalGaps)
         case _ => true
  }

  function CoreRefs(items: seq<Capsule>): set<Id> { set c, r | c in items && r in c.Refs() :: r }

  /** The references no context may omit. */
  function MandatoryRefs(input: Input): set<Id> {
    input.identity + CoreRefs(input.confirmed) + CoreRefs(input.criticalGaps) + input.critical
  }

  predicate TierIn(items: seq<Capsule>, tier: seq<Capsule>) { forall c :: c in tier ==> c in items }

  /** Confirmed hypothesis `c` is still shown as confirmed, with all its decisive references. */
  predicate Keeps(items: seq<Capsule>, c: Capsule) { exists h :: h in items && h.key == c.key && h.Confirmed() && h.core == c.core }

  /** Only eligible references, every capsule faithful, and the mandatory tier intact. */
  ghost predicate Good(input: Input, selected: Selected) {
    && selected.Refs() <= input.eligible
    && (forall slot, c :: c in selected.At(slot) ==> CapsuleOk(input, slot, c))
    && DistinctKeys(selected.hypotheses)
    && MandatoryRefs(input) * input.current.Keys <= FactsOf(selected.facts)
    && TierIn(selected.gaps, input.criticalGaps)
    && (forall c :: c in input.confirmed ==> Keeps(selected.hypotheses, c))
  }

  lemma ApplyAt(selected: Selected, cand: Candidate, slot: Slot, c: Capsule)
    requires CanApply(selected, cand) && c in Apply(selected, cand).At(slot)
    ensures c in selected.At(slot) || (slot == cand.slot && c == cand.capsule)
  {
  }

  lemma ApplyRefs(selected: Selected, cand: Candidate)
    requires CanApply(selected, cand)
    ensures Apply(selected, cand).Refs() <= selected.Refs() + cand.capsule.Refs()
  {
    hide Apply, CanApply;
    forall r | r in Apply(selected, cand).Refs() ensures r in selected.Refs() + cand.capsule.Refs() {
      var slot, c :| slot in SLOTS && c in Apply(selected, cand).At(slot) && r in c.Refs();
      ApplyAt(selected, cand, slot, c);
    }
  }

  lemma AppliedKeeps(input: Input, selected: Selected, cand: Candidate)
    requires Good(input, selected) && CanApply(selected, cand) && CapsuleOk(input, cand.slot, cand.capsule)
    ensures var after := Apply(selected, cand);
      && DistinctKeys(after.hypotheses)
      && FactsOf(selected.facts) <= FactsOf(after.facts)
      && TierIn(after.gaps, input.criticalGaps)
      && (forall c :: c in input.confirmed && HypothesisOk(input, c) && c.Confirmed() ==> Keeps(after.hypotheses, c))
  {
    var after := Apply(selected, cand);
    forall c | c in input.confirmed && HypothesisOk(input, c) && c.Confirmed() ensures Keeps(after.hypotheses, c) {
      StillKeeps(input, selected, cand, c);
    }
    forall c | c in selected.facts ensures c in after.facts { }
    forall c | c in selected.gaps ensures c in after.gaps { }
  }

  lemma StillKeeps(input: Input, selected: Selected, cand: Candidate, c: Capsule)
    requires Keeps(selected.hypotheses, c) && CanApply(selected, cand) && CapsuleOk(input, cand.slot, cand.capsule)
    requires HypothesisOk(input, c) && c.Confirmed()
    ensures Keeps(Apply(selected, cand).hypotheses, c)
  {
    var h :| h in selected.hypotheses && h.key == c.key && h.Confirmed() && h.core == c.core;
    var i :| 0 <= i < |selected.hypotheses| && selected.hypotheses[i] == h;
    var after := Apply(selected, cand).hypotheses;
    if cand.preview && PositionOf(selected.hypotheses, cand.capsule.key) == i {
      assert after[i] == cand.capsule && cand.capsule in after;
    } else {
      assert after[i] == h;
    }
  }

  lemma ApplyGood(input: Input, selected: Selected, cand: Candidate)
    requires WellFormed(input) && Good(input, selected) && CanApply(selected, cand)
    requires CapsuleOk(input, cand.slot, cand.capsule) && cand.capsule.Refs() <= input.eligible
    ensures Good(input, Apply(selected, cand))
  {
    ApplyRefs(selected, cand);
    AppliedKeeps(input, selected, cand);
    hide Apply, CanApply, DistinctKeys, Keeps, KeysOf, FactsOf, CandidateOk;
    forall slot, c | c in Apply(selected, cand).At(slot) ensures CapsuleOk(input, slot, c) { ApplyAt(selected, cand, slot, c); }
  }

  /** Every accepted capsule is a faithful projection with eligible references only. */
  predicate AcceptedOk(input: Input, accepted: seq<Taken>) {
    forall i :: 0 <= i < |accepted| ==>
      CapsuleOk(input, accepted[i].cand.slot, accepted[i].cand.capsule) && accepted[i].cand.capsule.Refs() <= input.eligible
  }

  lemma {:induction false} ReplaysGood(input: Input, mandatory: Selected, accepted: seq<Taken>, selected: Selected)
    requires WellFormed(input) && Good(input, mandatory) && Replays(mandatory, accepted, selected)
    requires AcceptedOk(input, accepted)
    ensures Good(input, selected)
  {
    if accepted != [] {
      hide Good, WellFormed, CapsuleOk;
      var last := accepted[|accepted| - 1];
      var earlier := Undo(selected, last.cand, last.previous);
      ReplaysGood(input, mandatory, accepted[..|accepted| - 1], earlier);
      ApplyGood(input, earlier, last.cand);
    }
  }

  // ---- the validator ----

  function Count(omitted: map<Reason, set<Id>>, r: Reason): nat { if r in omitted then |omitted[r]| else 0 }

  function Total(omitted: map<Reason, set<Id>>): nat {
    Count(omitted, EligibilityDenied) + Count(omitted, RepeatedLookup) + Count(omitted, HistoricalSuperseded)
    + Count(omitted, Irrelevant) + Count(omitted, SizeBudget) + Count(omitted, RelationCompacted) + Count(omitted, IdentityCompacted)
  }

  /** The references of current facts every context must show as facts. */
  function CriticalFacts(input: Input): set<Id> {
    input.critical + (input.identity * input.current.Keys) + (CoreRefs(input.confirmed) * input.current.Keys)
  }

  /** Only evidence of the case, all of Tier 0, nothing ineligible, and no dangling reference. */
  predicate RefsValid(input: Input, s: ContextSnapshot) {
    && s.refs <= input.ids && MandatoryRefs(input) <= s.refs && s.refs <= input.eligible
    && s.refs == s.identity + s.selected.Refs() && s.identity == input.identity && s.source == input.source
  }

  predicate ConfirmedValid(input: Input, selected: Selected, h: Hypothesis)
    requires h in input.states
  {
    exists c :: c in selected.hypotheses && c.key == OfHypothesis(h) && c.Confirmed() && c.core == input.states[h].decisive && c.core != {}
  }

  /** Safety gaps, confirmed hypotheses and critical facts present, every capsule an unchanged projection. */
  predicate CapsulesValid(input: Input, selected: Selected) {
    && KeysOf(input.criticalGaps) <= KeysOf(selected.gaps)
    && (forall c :: c in selected.gaps ==> c in input.gaps)
    && (forall h :: h in input.states && input.states[h].status.Confirmed? ==> ConfirmedValid(input, selected, h))
    && (forall c :: c in selected.hypotheses ==> HypothesisOk(input, c))
    && CriticalFacts(input) <= FactsOf(selected.facts)
    && (forall c :: c in selected.facts ==> FactOk(input, c))
    && (forall c :: c in selected.lookups ==> c in input.groups)
  }

  /** Omissions account for the rest, counts are true, and the stated length is the length of the text stating it. */
  predicate CountsValid(input: Input, s: ContextSnapshot) {
    && Total(s.omitted) + |s.refs| == |input.ids|
    && s.complete == (|s.selected.lookups| == |input.groups| && input.historyComplete)
    && s.usage.facts == |s.selected.facts| && s.usage.hypotheses == |s.selected.hypotheses| + |s.selected.resolved|
    && s.usage.gaps == |s.selected.gaps| && s.usage.history == |s.selected.lookups| + |s.selected.states|
    && s.usage.size.chars == Seal.LengthOf(input.length(s.selected, s.omitted), s.usage.size)
    && Fits(input.limits, s)
  }

  /** What the validator recomputes and requires of a finished snapshot. */
  predicate Valid(input: Input, s: ContextSnapshot) {
    RefsValid(input, s) && CapsulesValid(input, s.selected) && CountsValid(input, s)
  }

  lemma CardinalityOfUnion(a: set<Id>, b: set<Id>)
    requires a !! b
    ensures |a + b| == |a| + |b|
  {
  }

  function Rank(r: Reason): nat {
    match r
    case EligibilityDenied => 0 case RepeatedLookup => 1 case HistoricalSuperseded => 2 case Irrelevant => 3
    case SizeBudget => 4 case RelationCompacted => 5 case IdentityCompacted => 6
  }

  /** The identifiers left out for a reason ranked below `n`. */
  function OmittedBelow(input: Input, refs: set<Id>, reasons: map<Id, Reason>, n: nat): set<Id> {
    set i | i in input.ids - refs && i in reasons && Rank(reasons[i]) < n
  }

  lemma OneMoreReason(input: Input, refs: set<Id>, reasons: map<Id, Reason>, r: Reason)
    ensures |OmittedBelow(input, refs, reasons, Rank(r) + 1)|
              == |OmittedBelow(input, refs, reasons, Rank(r))| + |OmittedFor(input, refs, reasons, r)|
  {
    var a, b := OmittedBelow(input, refs, reasons, Rank(r)), OmittedFor(input, refs, reasons, r);
    forall i ensures i in OmittedBelow(input, refs, reasons, Rank(r) + 1) <==> i in a + b {
      if i in reasons { RankIsInjective(reasons[i], r); }
    }
    assert OmittedBelow(input, refs, reasons, Rank(r) + 1) == a + b;
    CardinalityOfUnion(a, b);
  }

  lemma RankIsInjective(q: Reason, r: Reason)
    ensures Rank(q) == Rank(r) ==> q == r
    ensures Rank(q) < 7
  {
  }

  lemma AllReasons(input: Input, refs: set<Id>, reasons: map<Id, Reason>)
    ensures |OmittedBelow(input, refs, reasons, 7)| == Total(Omitted(input, refs, reasons))
  {
    CountsOmitted(input, refs, reasons);
    NoneBelow(input, refs, reasons);
    hide OmittedBelow, OmittedFor, Omitted, Count;
    OneMoreReason(input, refs, reasons, EligibilityDenied);
    OneMoreReason(input, refs, reasons, RepeatedLookup);
    OneMoreReason(input, refs, reasons, HistoricalSuperseded);
    OneMoreReason(input, refs, reasons, Irrelevant);
    OneMoreReason(input, refs, reasons, SizeBudget);
    OneMoreReason(input, refs, reasons, RelationCompacted);
    OneMoreReason(input, refs, reasons, IdentityCompacted);
  }

  lemma OmittedHas(input: Input, refs: set<Id>, reasons: map<Id, Reason>, i: Id)
    requires i in input.ids && i !in refs && i in reasons
    ensures reasons[i] in Omitted(input, refs, reasons) && i in Omitted(input, refs, reasons)[reasons[i]]
  {
    EveryReason(reasons[i]);
    assert i in OmittedFor(input, refs, reasons, reasons[i]);
  }

  lemma NoneBelow(input: Input, refs: set<Id>, reasons: map<Id, Reason>)
    ensures OmittedBelow(input, refs, reasons, 0) == {}
  {
    forall i ensures i !in OmittedBelow(input, refs, reasons, 0) { }
  }

  /** Selected and omitted evidence partition the input. */
  lemma OmissionAccounts(input: Input, refs: set<Id>, reasons: map<Id, Reason>)
    requires refs <= input.ids && (forall i :: i in input.ids ==> i in reasons)
    ensures Total(Omitted(input, refs, reasons)) + |refs| == |input.ids|
    ensures forall i :: i in input.ids <==> i in refs || exists r :: r in Omitted(input, refs, reasons) && i in Omitted(input, refs, reasons)[r]
    ensures forall r :: r in Omitted(input, refs, reasons) ==> Omitted(input, refs, reasons)[r] !! refs
  {
    AllReasons(input, refs, reasons);
    hide Total;
    var left := OmittedBelow(input, refs, reasons, 7);
    forall i ensures i in left <==> i in input.ids - refs {
      if i in reasons { RankIsInjective(reasons[i], SizeBudget); }
    }
    assert left + refs == input.ids;
    CardinalityOfUnion(left, refs);
    forall i | i in input.ids - refs ensures exists r :: r in Omitted(input, refs, reasons) && i in Omitted(input, refs, reasons)[r] {
      assert i in left;
      OmittedHas(input, refs, reasons, i);
    }
  }

  lemma EveryReason(r: Reason)
    ensures r in REASONS
  {
    match r
    case EligibilityDenied => case RepeatedLookup => case HistoricalSuperseded => case Irrelevant =>
    case SizeBudget => case RelationCompacted => case IdentityCompacted =>
  }

  lemma CountsOmitted(input: Input, refs: set<Id>, reasons: map<Id, Reason>)
    ensures forall r :: Count(Omitted(input, refs, reasons), r) == |OmittedFor(input, refs, reasons, r)|
  {
    hide OmittedFor;
    forall r ensures r in REASONS { EveryReason(r); }
  }

  lemma RefsAreEnough(input: Input, selected: Selected)
    requires WellFormed(input) && Good(input, selected) && MandatoryRefs(input) <= input.eligible
    ensures MandatoryRefs(input) <= input.identity + selected.Refs()
  {
    hide CapsuleOk, CandidateOk;
    forall r | r in CoreRefs(input.confirmed) ensures r in selected.Refs() {
      var c :| c in input.confirmed && r in c.Refs();
      var h :| h in selected.hypotheses && h.key == c.key && h.Confirmed() && h.core == c.core;
      assert h in selected.At(Hypotheses) && r in h.Refs();
    }
    forall r | r in CoreRefs(input.criticalGaps) ensures r in selected.Refs() {
      var c :| c in input.criticalGaps && r in c.Refs();
      assert c in selected.At(OpenGaps);
    }
    forall r | r in input.critical ensures r in selected.Refs() { FactShown(input, selected, r); }
  }

  lemma FactShown(input: Input, selected: Selected, r: Id)
    requires WellFormed(input) && Good(input, selected) && r in MandatoryRefs(input) && r in input.current
    ensures r in selected.Refs()
  {
    hide HypothesisOk, CandidateOk;
    assert r in FactsOf(selected.facts);
    var c :| c in selected.facts && c.key == OfFact(r);
    assert c in selected.At(Facts) && CapsuleOk(input, Facts, c) && r in c.Refs();
  }

  lemma RenderRefs(input: Input, selected: Selected, reasons: map<Id, Reason>)
    requires WellFormed(input) && Good(input, selected) && MandatoryRefs(input) <= input.eligible
    ensures RefsValid(input, Render(input, selected, reasons))
  {
    RefsAreEnough(input, selected);
    GoodIsEligible(input, selected);
    hide WellFormed, Good, Omitted, MandatoryRefs, Seal.Round, Selected.Refs;
  }

  lemma RenderCounts(input: Input, selected: Selected, reasons: map<Id, Reason>)
    requires input.identity + selected.Refs() <= input.ids && forall i :: i in input.ids ==> i in reasons
    requires Fits(input.limits, Render(input, selected, reasons))
    ensures CountsValid(input, Render(input, selected, reasons))
  {
    OmissionAccounts(input, input.identity + selected.Refs(), reasons);
    SealedLength(input.length(selected, Omitted(input, input.identity + selected.Refs(), reasons)));
    hide Omitted, Total, Fits, Seal.LengthOf, Seal.Round, Selected.Refs;
  }

  /** The assembler refines its validator: a fitting rendering of a good selection is never rejected. */
  lemma RenderValid(input: Input, selected: Selected, reasons: map<Id, Reason>)
    requires WellFormed(input) && Good(input, selected) && MandatoryRefs(input) <= input.eligible
    requires forall i :: i in input.ids ==> i in reasons
    requires Fits(input.limits, Render(input, selected, reasons))
    ensures Valid(input, Render(input, selected, reasons))
  {
    GoodIsEligible(input, selected);
    GoodShows(input, selected);
    RenderRefs(input, selected, reasons);
    RenderCounts(input, selected, reasons);
    hide WellFormed, Good, Omitted, Fits, MandatoryRefs, Seal.Round, Selected.Refs, CapsulesValid, CountsValid, RefsValid;
  }

  lemma GoodIsEligible(input: Input, selected: Selected)
    requires WellFormed(input) && Good(input, selected) && MandatoryRefs(input) <= input.eligible
    ensures input.identity + selected.Refs() <= input.eligible && input.eligible <= input.ids
  {
    hide CapsuleOk, CandidateOk, DistinctKeys, Keeps, HypothesisOk;
  }

  lemma SealedLength(base: nat)
    ensures Seal.Round(base, 4).chars == Seal.LengthOf(base, Seal.Round(base, 4))
  {
    Seal.Converges(base);
  }

  lemma GoodShows(input: Input, selected: Selected)
    requires WellFormed(input) && Good(input, selected)
    ensures CapsulesValid(input, selected)
  {
    hide HypothesisOk, FactOk, CandidateOk, Selected.Refs, ConfirmedValid;
    forall c | c in selected.gaps ensures c in input.gaps { assert CapsuleOk(input, OpenGaps, c) by { assert c in selected.At(OpenGaps); } }
    forall c | c in selected.hypotheses ensures HypothesisOk(input, c) { assert CapsuleOk(input, Hypotheses, c) by { assert c in selected.At(Hypotheses); } }
    forall c | c in selected.facts ensures FactOk(input, c) { assert CapsuleOk(input, Facts, c) by { assert c in selected.At(Facts); } }
    forall c | c in selected.lookups ensures c in input.groups { assert CapsuleOk(input, Lookups, c) by { assert c in selected.At(Lookups); } }
    forall h | h in input.states && input.states[h].status.Confirmed? ensures ConfirmedValid(input, selected, h) {
      ConfirmedShown(input, selected, h);
    }
  }

  lemma ConfirmedShown(input: Input, selected: Selected, h: Hypothesis)
    requires WellFormed(input) && Good(input, selected) && h in input.states && input.states[h].status.Confirmed?
    ensures ConfirmedValid(input, selected, h)
  {
    var c :| c in input.confirmed && c.key == OfHypothesis(h);
    assert HypothesisOk(input, c) && Keeps(selected.hypotheses, c);
  }

  // ---- the assembler ----

  /** Each key of a slot is mandatory or came from an earlier appended candidate. */
  predicate Sourced(mandatory: Selected, cands: seq<Candidate>, selected: Selected) {
    forall slot, c :: c in selected.At(slot) ==> c.key in KeysOf(mandatory.At(slot)) || Offered(cands, slot, c.key)
  }

  predicate Offered(cands: seq<Candidate>, slot: Slot, key: Name) {
    exists j :: 0 <= j < |cands| && !cands[j].preview && cands[j].slot == slot && cands[j].capsule.key == key
  }

  ghost predicate IsTier(input: Input, tier: Selected) {
    && tier.hypotheses == input.confirmed && tier.gaps == input.criticalGaps
    && tier.resolved == [] && tier.lookups == [] && tier.states == []
    && FactsOf(tier.facts) == MandatoryRefs(input) * input.current.Keys && (forall c :: c in tier.facts ==> FactOk(input, c))
  }

  lemma TierGood(input: Input, tier: Selected)
    requires WellFormed(input) && IsTier(input, tier) && MandatoryRefs(input) <= input.eligible
    ensures Good(input, tier)
  {
    hide CandidateOk, HypothesisOk;
    forall r | r in tier.Refs() ensures r in input.eligible {
      var slot, c :| slot in SLOTS && c in tier.At(slot) && r in c.Refs();
      TierRefs(input, tier, slot, c, r);
    }
    forall slot, c | c in tier.At(slot) ensures CapsuleOk(input, slot, c) { }
    forall c | c in input.confirmed ensures Keeps(tier.hypotheses, c) { }
  }

  lemma TierRefs(input: Input, tier: Selected, slot: Slot, c: Capsule, r: Id)
    requires IsTier(input, tier) && c in tier.At(slot) && r in c.Refs()
    ensures r in MandatoryRefs(input)
  {
    hide HypothesisOk;
    if slot.Facts? { assert c.key.ref in FactsOf(tier.facts); }
  }

  /** The next candidate is new to its slot, or finds the hypothesis it previews. */
  lemma NextApplicable(input: Input, tier: Selected, selected: Selected, i: nat)
    requires WellFormed(input) && IsTier(input, tier) && Good(input, selected) && i < |input.candidates|
    requires Sourced(tier, input.candidates[..i], selected)
    ensures CanApply(selected, input.candidates[i])
  {
    hide HypothesisOk, FactOk, CapsuleOk, Selected.Refs, DistinctKeys;
    var cand := input.candidates[i];
    assert CandidateOk(input, cand);
    if cand.preview {
      var c :| c in input.confirmed && c.key == cand.capsule.key;
      assert Keeps(selected.hypotheses, c);
    } else if HasKey(selected.At(cand.slot), cand.capsule.key) {
      NotOffered(input, i);
      NotInTier(input, tier, cand);
    }
  }

  lemma NotOffered(input: Input, i: nat)
    requires WellFormed(input) && i < |input.candidates| && !input.candidates[i].preview
    ensures !Offered(input.candidates[..i], input.candidates[i].slot, input.candidates[i].capsule.key)
  {
    hide CandidateOk, HypothesisOk, DistinctKeys;
  }

  lemma NotInTier(input: Input, tier: Selected, cand: Candidate)
    requires IsTier(input, tier) && CandidateOk(input, cand) && !cand.preview
    ensures cand.capsule.key !in KeysOf(tier.At(cand.slot))
  {
    hide HypothesisOk;
    if cand.slot.Facts? && cand.capsule.key in KeysOf(tier.facts) {
      var c :| c in tier.facts && c.key == cand.capsule.key;
      TierFact(input, tier, c);
    }
  }

  lemma TierFact(input: Input, tier: Selected, c: Capsule)
    requires IsTier(input, tier) && c in tier.facts
    ensures c.key.OfFact? && c.key.ref in MandatoryRefs(input)
  {
    assert c.key.ref in FactsOf(tier.facts);
  }

  lemma StillSourced(tier: Selected, cands: seq<Candidate>, selected: Selected, cand: Candidate)
    requires Sourced(tier, cands, selected) && CanApply(selected, cand)
    ensures Sourced(tier, cands + [cand], selected) && Sourced(tier, cands + [cand], Apply(selected, cand))
  {
    forall slot, key | Offered(cands, slot, key) ensures Offered(cands + [cand], slot, key) {
      var j :| 0 <= j < |cands| && !cands[j].preview && cands[j].slot == slot && cands[j].capsule.key == key;
      assert (cands + [cand])[j] == cands[j];
    }
    assert (cands + [cand])[|cands|] == cand;
    var after := Apply(selected, cand);
    forall slot, c | c in after.At(slot) ensures c.key in KeysOf(tier.At(slot)) || Offered(cands + [cand], slot, c.key) {
      if cand.preview && slot == Hypotheses { PreviewKeepsKeys(selected, cand, c); } else { ApplyAt(selected, cand, slot, c); }
    }
  }

  lemma PreviewKeepsKeys(selected: Selected, cand: Candidate, c: Capsule)
    requires CanApply(selected, cand) && cand.preview && c in Apply(selected, cand).hypotheses
    ensures exists h :: h in selected.At(Hypotheses) && h.key == c.key
  {
    var p := PositionOf(selected.hypotheses, cand.capsule.key);
    assert selected.hypotheses[p] in selected.At(Hypotheses);
  }

  /** Omission reasons as they came in, or relabelled because of the size budget. */
  predicate Labelled(input: Input, reasons: map<Id, Reason>) {
    && input.reasons.Keys == input.ids && reasons.Keys == input.ids
    && forall i :: i in reasons ==> reasons[i] == input.reasons[i] || reasons[i].SizeBudget?
  }

  /** A mandatory tier that fits under its own omission reasons, with the accepted candidates applied in order. */
  ghost predicate FilledFrom(input: Input, accepted: seq<Taken>, selected: Selected) {
    exists tier :: IsTier(input, tier) && Replays(tier, accepted, selected) && Fits(input.limits, Render(input, tier, input.reasons))
  }

  datatype Outcome = Built(snapshot: ContextSnapshot) | Overflow | Ineligible

  class ContextAssembler {
    const input: Input
    var selected: Selected
    var reasons: map<Id, Reason>
    var accepted: seq<Taken>

    constructor (input: Input)
      ensures this.input == input && reasons == input.reasons && accepted == []
    {
      this.input, reasons, accepted := input, input.reasons, [];
      selected := Selected([], [], [], [], [], []);
    }

    method Put(cand: Candidate) returns (previous: Option<Placed>)
      requires CanApply(selected, cand)
      modifies this`selected
      ensures selected == Apply(old(selected), cand) && previous == Before(old(selected), cand)
    {
      if cand.preview {
        var p := 0;
        while selected.hypotheses[p].key != cand.capsule.key
          invariant p <= PositionOf(selected.hypotheses, cand.capsule.key)
          decreases |selected.hypotheses| - p
        {
          p := p + 1;
        }
        previous := Some(Placed(p, selected.hypotheses[p]));
        selected := selected.(hypotheses := selected.hypotheses[p := cand.capsule]);
      } else {
        selected := selected.With(cand.slot, selected.At(cand.slot) + [cand.capsule]);
        previous := None;
      }
    }

    method TakeBack(cand: Candidate, previous: Option<Placed>)
      modifies this`selected
      ensures selected == Undo(old(selected), cand, previous)
    {
      selected := Undo(selected, cand, previous);
    }

    /** Labels what a refused or trimmed capsule would have shown. */
    method Relabel(refs: set<Id>)
      modifies this`reasons
      ensures reasons.Keys == old(reasons.Keys) + refs
      ensures forall i :: i in reasons ==> reasons[i] == if i in refs then SizeBudget else old(reasons)[i]
    {
      reasons := map i | i in reasons.Keys + refs :: if i in refs then SizeBudget else reasons[i];
    }

    /** Tier 0: safety gaps, confirmed hypotheses without previews, and every mandatory current fact. */
    method SelectMandatory()
      requires WellFormed(input)
      modifies this`selected
      ensures IsTier(input, selected)
    {
      var facts: seq<Capsule> := [];
      var all := MandatoryRefs(input) * input.current.Keys;
      var rest := all;
      while rest != {}
        invariant rest <= all
        invariant FactsOf(facts) == all - rest && forall c :: c in facts ==> FactOk(input, c)
      {
        SomeRef(rest);
        var r :| r in rest;
        FactAdded(facts, r, input.current[r]);
        facts := facts + [FactCapsule(r, input.current[r])];
        rest := rest - {r};
      }
      selected := Selected(facts, input.confirmed, input.criticalGaps, [], [], []);
    }

    static lemma SomeRef(s: set<Id>)
      ensures s == {} || exists r :: r in s
    {
      if forall r :: r !in s { assert s == {}; }
    }

    static lemma FactAdded(facts: seq<Capsule>, r: Id, view: FactView)
      ensures FactsOf(facts + [FactCapsule(r, view)]) == FactsOf(facts) + {r}
    {
      var c := FactCapsule(r, view);
      assert forall d :: d in facts + [c] <==> d in facts || d == c;
      assert c in facts + [c];
    }

    /** Applies one candidate whose references are all eligible, and takes it back if the context no longer fits. */
    method Try(cand: Candidate, ghost tier: Selected)
      requires WellFormed(input) && Good(input, selected) && CanApply(selected, cand) && CapsuleOk(input, cand.slot, cand.capsule)
      requires cand.capsule.Refs() <= input.eligible && input.eligible <= input.ids && Labelled(input, reasons)
      requires Replays(tier, accepted, selected) && AcceptedOk(input, accepted)
      modifies this
      ensures Good(input, selected) && Replays(tier, accepted, selected) && AcceptedOk(input, accepted) && Labelled(input, reasons)
      ensures if Fits(input.limits, Render(input, Apply(old(selected), cand), old(reasons)))
        then selected == Apply(old(selected), cand) && accepted == old(accepted) + [Taken(cand, Before(old(selected), cand))]
        else selected == old(selected) && accepted == old(accepted)
    {
      hide WellFormed, Good, Replays, CanApply, Fits, Render, CapsuleOk;
      UndoApply(selected, cand);
      ReplaysMore(tier, accepted, selected, cand);
      ApplyGood(input, selected, cand);
      ghost var before := selected;
      var previous := Put(cand);
      if Fits(input.limits, Render(input, selected, reasons)) {
        accepted := accepted + [Taken(cand, previous)];
      } else {
        TakeBack(cand, previous);
        assert selected == before;
        Relabel(cand.capsule.Refs() - (input.identity + selected.Refs()));
      }
    }

    /** Tries every candidate in order, skipping those with an ineligible reference. */
    method Fill(ghost tier: Selected)
      requires WellFormed(input) && IsTier(input, tier) && MandatoryRefs(input) <= input.eligible
      requires selected == tier && accepted == [] && Labelled(input, reasons)
      modifies this
      ensures Replays(tier, accepted, selected) && AcceptedOk(input, accepted) && Labelled(input, reasons)
    {
      assert AcceptedOk(input, accepted);
      TierGood(input, tier);
      TierSourced(tier, input.candidates[..0]);
      NothingReplays(tier);
      hide WellFormed, IsTier, Good, Sourced, Replays, AcceptedOk, Labelled, MandatoryRefs;
      for i := 0 to |input.candidates|
        invariant Good(input, selected) && Sourced(tier, input.candidates[..i], selected)
        invariant Replays(tier, accepted, selected) && AcceptedOk(input, accepted) && Labelled(input, reasons)
      {
        FillOne(i, tier);
      }
    }

    method FillOne(i: nat, ghost tier: Selected)
      requires WellFormed(input) && IsTier(input, tier) && i < |input.candidates|
      requires Good(input, selected) && Sourced(tier, input.candidates[..i], selected)
      requires Replays(tier, accepted, selected) && AcceptedOk(input, accepted) && Labelled(input, reasons)
      modifies this
      ensures Good(input, selected) && Sourced(tier, input.candidates[..i + 1], selected)
      ensures Replays(tier, accepted, selected) && AcceptedOk(input, accepted) && Labelled(input, reasons)
    {
      hide WellFormed, IsTier, Good, Sourced, Replays, CanApply, CapsuleOk, Apply, Before, Fits, Render, Labelled, AcceptedOk;
      var cand := input.candidates[i];
      EligibleKnown(input);
      NextApplicable(input, tier, selected, i);
      CandidateCapsule(input, i);
      StillSourced(tier, input.candidates[..i], selected, cand);
      assert input.candidates[..i] + [cand] == input.candidates[..i + 1];
      if cand.capsule.Refs() <= input.eligible { Try(cand, tier); }
    }

    static lemma TierSourced(tier: Selected, cands: seq<Candidate>)
      ensures Sourced(tier, cands, tier)
    {
    }

    static lemma NothingReplays(tier: Selected)
      ensures Replays(tier, [], tier)
    {
    }

    static lemma EligibleKnown(input: Input)
      requires WellFormed(input)
      ensures input.eligible <= input.ids
    {
    }

    static lemma CandidateCapsule(input: Input, i: nat)
      requires WellFormed(input) && i < |input.candidates|
      ensures CapsuleOk(input, input.candidates[i].slot, input.candidates[i].capsule)
    {
      assert CandidateOk(input, input.candidates[i]);
    }

    /** Without its last entry the selection replays still, and that entry was eligible. */
    static lemma OneFewer(input: Input, tier: Selected, accepted: seq<Taken>, selected: Selected)
      requires Replays(tier, accepted, selected) && AcceptedOk(input, accepted) && accepted != []
      ensures var last := accepted[|accepted| - 1];
        && Replays(tier, accepted[..|accepted| - 1], Undo(selected, last.cand, last.previous))
        && AcceptedOk(input, accepted[..|accepted| - 1]) && last.cand.capsule.Refs() <= input.eligible
    {
      hide CapsuleOk;
    }

    static lemma StillLabelled(input: Input, before: map<Id, Reason>, after: map<Id, Reason>, refs: set<Id>)
      requires Labelled(input, before) && refs <= input.ids && after.Keys == before.Keys + refs
      requires forall i :: i in after ==> after[i] == if i in refs then SizeBudget else before[i]
      ensures Labelled(input, after)
    {
    }

    /** Takes back accepted candidates, last first, until the labelled context fits or only Tier 0 is left. */
    method Trim(ghost tier: Selected)
      requires Replays(tier, accepted, selected) && Labelled(input, reasons) && input.eligible <= input.ids
      requires AcceptedOk(input, accepted)
      modifies this
      ensures Replays(tier, accepted, selected) && Labelled(input, reasons)
      ensures Fits(input.limits, Render(input, selected, reasons)) || accepted == []
      ensures AcceptedOk(input, accepted)
    {
      hide Fits, Render, CapsuleOk, Replays, Undo, AcceptedOk, Labelled;
      while !Fits(input.limits, Render(input, selected, reasons)) && accepted != []
        invariant Replays(tier, accepted, selected) && Labelled(input, reasons)
        invariant AcceptedOk(input, accepted)
        decreases |accepted|
      {
        var last := accepted[|accepted| - 1];
        OneFewer(input, tier, accepted, selected);
        accepted := accepted[..|accepted| - 1];
        TakeBack(last.cand, last.previous);
        ghost var before := reasons;
        Relabel(last.cand.capsule.Refs());
        StillLabelled(input, before, reasons, last.cand.capsule.Refs());
      }
    }

    /** All or nothing: a context that fits all five limits, holds every mandatory reference and passes its validator,
        or no context. What is built extends a Tier 0 that fitted under its own omission reasons by the accepted candidates;
        it overflows only when Tier 0 alone does not fit, under those reasons or with some relabelled as SIZE_BUDGET. */
    method Assemble() returns (outcome: Outcome)
      requires WellFormed(input) && accepted == [] && reasons == input.reasons
      modifies this
      ensures outcome.Ineligible? <==> !(MandatoryRefs(input) <= input.eligible)
      ensures outcome.Built? ==>
        && outcome.snapshot == Render(input, selected, reasons) && Fits(input.limits, outcome.snapshot)
        && Good(input, selected) && Valid(input, outcome.snapshot) && FilledFrom(input, accepted, selected)
      ensures outcome.Overflow? ==> IsTier(input, selected) && Labelled(input, reasons) && !Fits(input.limits, Render(input, selected, reasons))
    {
      hide WellFormed, IsTier, Good, Replays, Fits, Render, CapsuleOk, Valid;
      if !(MandatoryRefs(input) <= input.eligible) { return Ineligible; }
      SelectMandatory();
      ghost var tier := selected;
      TierGood(input, tier);
      KnownReasons(input);
      if !Fits(input.limits, Render(input, selected, reasons)) { return Overflow; }
      Fill(tier);
      Trim(tier);
      if !Fits(input.limits, Render(input, selected, reasons)) {
        OnlyTier(tier, accepted, selected);
        return Overflow;
      }
      ReplaysGood(input, tier, accepted, selected);
      FilledOver(input, tier, accepted, selected);
      RenderValid(input, selected, reasons);
      outcome := Built(Render(input, selected, reasons));
    }

    static lemma FilledOver(input: Input, tier: Selected, accepted: seq<Taken>, selected: Selected)
      requires IsTier(input, tier) && Replays(tier, accepted, selected) && Fits(input.limits, Render(input, tier, input.reasons))
      ensures FilledFrom(input, accepted, selected)
    {
      hide Replays, IsTier, Fits, Render;
    }

    static lemma KnownReasons(input: Input)
      requires WellFormed(input)
      ensures Labelled(input, input.reasons) && input.eligible <= input.ids
    {
    }

    static lemma OnlyTier(tier: Selected, accepted: seq<Taken>, selected: Selected)
      requires Replays(tier, accepted, selected) && accepted == []
      ensures selected == tier
    {
    }
  }
}
