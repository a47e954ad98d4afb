/** What the hypothesis graph shows of each proposition, over the evidence. */
module GraphMeaning {
  import opened Domain
  import opened Index
  import opened Rules
  import opened Propositions
  import opened Questions
  import opened Engine
  import Gaps

  /** No rule has facts that merely contradict. */
  lemma NothingMerelyContradicts(index: EvidenceIndex, h: Hypothesis)
    ensures GroundsOf(index, h).contradict == {}
  {
  }

  lemma SidesShown(context: set<Evidence>, g: Grounds, status: HypothesisStatus, gaps: set<Gaps.Gap>, h: Hypothesis)
    requires g.contradict == {}
    ensures var s := StateFrom(RuleResult(status, RelationsOf(context, Resolved(g))), gaps, h);
      && s.supporting == Refs(g.support + g.confirm) - Refs(g.eliminate)
      && s.contradicting == Refs(g.eliminate)
      && s.decisive == if g.confirm != {} && g.eliminate != {} then {} else (Refs(g.confirm) + Refs(g.eliminate))
  {
    hide OpenFor;
    var s := StateFrom(RuleResult(status, RelationsOf(context, Resolved(g))), gaps, h);
    RefsOfBoth(g.support, g.confirm);
    RefsOfBoth(g.contradict, g.eliminate);
    forall i
      ensures i in s.supporting <==> i in Refs(g.support + g.confirm) - Refs(g.eliminate)
      ensures i in s.contradicting <==> i in Refs(g.eliminate)
      ensures i in s.decisive <==> !(g.confirm != {} && g.eliminate != {}) && i in Refs(g.confirm) + Refs(g.eliminate)
    {
      RefShown(context, g, i);
    }
  }

  lemma RefsOfBoth(a: set<Evidence>, b: set<Evidence>)
    ensures Refs(a + b) == Refs(a) + Refs(b)
  {
  }

  lemma RefShown(context: set<Evidence>, g: Grounds, i: Id)
    requires g.contradict == {}
    ensures var r := RelationsOf(context, Resolved(g)); var both := g.confirm != {} && g.eliminate != {};
      && (i in r && (r[i].Supports? || r[i].DecisiveSupport?) <==> i in Refs(g.support) + Refs(g.confirm) && i !in Refs(g.eliminate))
      && (i in r && (r[i].Contradicts? || r[i].DecisiveContradiction?) <==> i in Refs(g.eliminate))
      && (i in r && r[i].Decisive() <==> !both && i in Refs(g.confirm) + Refs(g.eliminate))
  {
    RefsOfBoth(g.support, g.confirm);
    RefsOfBoth({}, g.eliminate);
    EmptyRefs(g.confirm, i);
    EmptyRefs(g.eliminate, i);
    hide Refs;
  }

  /** The graph shows as supporting whatever supports or confirms and does not eliminate, as contradicting whatever
      eliminates, as decisive what decided, and as missing the unanswered questions an undecided proposition waits for. */
  lemma StateMeans(index: EvidenceIndex, h: Hypothesis)
    requires OneFactPerId(index.evidence)
    ensures var s := StateOf(index, h);
      && s.status == Decide(index, h).status
      && s.supporting == Refs(SupportingFacts(index, h) + ConfirmingFacts(index, h)) - Refs(EliminatingFacts(index, h))
      && s.contradicting == Refs(EliminatingFacts(index, h))
      && (s.status.Confirmed? ==> s.decisive == Refs(ConfirmingFacts(index, h)))
      && (s.status.Eliminated? ==> s.decisive == Refs(EliminatingFacts(index, h)))
      && forall name :: name in s.missing <==>
           && !s.status.Confirmed? && !s.status.Eliminated? && h in Gaps.HypothesesOf(name) && Asked(index, name)
           && forall e :: e in index.evidence ==> !Answers(index, name, e)
  {
    GroundsExactly(index, h);
    NothingMerelyContradicts(index, h);
    hide GroundsOf, ContextFacts, Gaps.GapsOf, OpenFor, ConfirmingFacts, EliminatingFacts, SupportingFacts, Asked, Answers, RelationsOf;
    SidesShown(ContextFacts(index, h), GroundsOf(index, h), Decide(index, h).status, Gaps.GapsOf(index), h);
    forall name
      ensures name in OpenFor(Gaps.GapsOf(index), h) <==>
        h in Gaps.HypothesesOf(name) && Asked(index, name) && forall e :: e in index.evidence ==> !Answers(index, name, e)
    {
      OpenMeans(index, h, name);
    }
  }

  lemma OpenMeans(index: EvidenceIndex, h: Hypothesis, name: Gaps.GapName)
    requires OneFactPerId(index.evidence)
    ensures name in OpenFor(Gaps.GapsOf(index), h) <==>
      h in Gaps.HypothesesOf(name) && Asked(index, name) && forall e :: e in index.evidence ==> !Answers(index, name, e)
  {
    OpenNamed(index, h, name);
    hide Gaps.GapsOf, Gaps.GapOf, Asked, Answers, Gaps.HypothesesOf, OpenFor;
    QuestionExactly(index, name);
  }

  lemma OpenNamed(index: EvidenceIndex, h: Hypothesis, name: Gaps.GapName)
    ensures var gap := Gaps.GapOf(index, name);
      name in OpenFor(Gaps.GapsOf(index), h) <==> gap in Gaps.GapsOf(index) && !gap.satisfied && h in Gaps.HypothesesOf(name)
  {
    GapsNamed(index);
    NameOf(index, name);
    hide Gaps.GapsOf, Gaps.GapOf, Gaps.HypothesesOf;
  }

  lemma GapsNamed(index: EvidenceIndex)
    ensures forall g :: g in Gaps.GapsOf(index) ==> g == Gaps.GapOf(index, g.name)
  {
    hide Gaps.Raised, Gaps.Answer, Gaps.Names;
  }

  lemma NameOf(index: EvidenceIndex, name: Gaps.GapName)
    ensures Gaps.GapOf(index, name).name == name
  {
    hide Gaps.Answer;
  }
}
