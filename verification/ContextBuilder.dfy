/** Building a context from a case and its evidence, end to end. */
module ContextBuilder {
  import opened Domain
  import opened Tables
  import opened Index
  import opened PaymentIdentity
  import opened IdentityProjection
  import opened Rules
  import Engine
  import Gaps
  import Compaction
  import Assembler
  import opened ContextSource

  datatype Outcome = Context(snapshot: Assembler.ContextSnapshot) | EvidenceRejected | IneligibleContext | ContextOverflow

  /** The elements of a set in some order, each once. */
  method Enumerate<T(==)>(all: set<T>) returns (listed: seq<T>)
    ensures (set x | x in listed) == all
    ensures forall i, j :: 0 <= i < j < |listed| ==> listed[i] != listed[j]
  {
    listed := [];
    var rest := all;
    while rest != {}
      invariant rest <= all && (set x | x in listed) == all - rest
      invariant forall i, j :: 0 <= i < j < |listed| ==> listed[i] != listed[j]
    {
      var x :| x in rest;
      Listed(listed, x);
      listed := listed + [x];
      rest := rest - {x};
    }
    assert all - rest == all;
  }

  lemma Listed<T>(listed: seq<T>, x: T)
    ensures (set y | y in listed + [x]) == (set y | y in listed) + {x}
    ensures x in listed <==> x in set y | y in listed
  {
    assert forall y :: y in listed + [x] <==> y in listed || y == x;
  }

  /** The bare mandatory tier of `input` does not fit, under its own omission reasons or with some of them relabelled as
      SIZE_BUDGET. */
  ghost predicate TierOverflows(input: Assembler.Input) {
    exists tier, reasons :: Assembler.IsTier(input, tier) && Assembler.Labelled(input, reasons) && !Assembler.Fits(input.limits, Assembler.Render(input, tier, reasons))
  }

  /** The snapshot extends a mandatory tier that fits under its own omission reasons by accepted candidates. */
  ghost predicate Fills(input: Assembler.Input, s: Assembler.ContextSnapshot) {
    exists accepted :: Assembler.FilledFrom(input, accepted, s.selected)
  }

  /** What one assembly reads, from the index up: the projected identity and the counted runs of failed lookups. */
  method ReadSource(index: EvidenceIndex, policy: Policy) returns (src: Source)
    requires OneFactPerId(index.evidence)
    ensures src.index == index && src.policy == policy && ContextSource.Consistent(src)
    ensures forall k :: k in src.counts ==>
      src.counts[k] == |Compaction.Run(Compaction.LookupsOf(Eligible(src), k.tool, k.scope), k.answer, index.row.lookupRetryAfter)|
  {
    hide Verified, Witnesses, Compaction.Groups, Compaction.Run, Compaction.LookupsOf;
    var ws := Enumerate(Witnesses(index));
    var identity := Project(index, ws);
    var eligible := set e | e in index.evidence && policy.allows(e);
    var counts := Compaction.LookupGroups(eligible, index.row.lookupRetryAfter);
    src := Source(index, policy, identity, counts);
    assert Eligible(src) == eligible;
  }

  /** For every case, evidence and policy: a context that the validator accepts against everything recomputed from this very
      evidence, or an error that says which of foreign evidence, ineligible mandatory references and budget stood in the way. */
  method BuildContext(row: CaseRow, c: Id, items: seq<Evidence>, policy: Policy)
    returns (outcome: Outcome, ghost src: Source, ghost cands: seq<Candidate>)
    ensures outcome.EvidenceRejected? <==> !Accepts(row, c, set e | e in items)
    ensures !outcome.EvidenceRejected? ==>
      && src.index == EvidenceIndex(row, set e | e in items) && src.policy == policy
      && ContextSource.Consistent(src) && Lists(cands, CandidatesOf(src))
      && (outcome.IneligibleContext? <==> !(Mandatory(src) <= Refs(Eligible(src))))
      && (outcome.ContextOverflow? ==> TierOverflows(InputOf(src, cands)))
      && (outcome.Context? ==> Assembler.Valid(InputOf(src, cands), outcome.snapshot) && Fills(InputOf(src, cands), outcome.snapshot))
  {
    hide ContextSource.Consistent, InputOf, CandidatesOf, Lists, Assembler.WellFormed, Assembler.Valid, Assembler.Fits, Assembler.Render, Assembler.IsTier,
         Assembler.FilledFrom, Assembler.MandatoryRefs, Mandatory;
    cands := [];
    var built := BuildIndex(row, c, items);
    if built.None? {
      src := Source(EvidenceIndex(row, {}), policy, IdentityContext(UNKNOWN, {}, {}, {}, {}, {}), map[]);
      return EvidenceRejected, src, cands;
    }
    var read := ReadSource(built.value, policy);
    src := read;
    var listed := Enumerate(CandidatesOf(read));
    cands := listed;
    assert Lists(cands, CandidatesOf(src)) by { AreListed(listed, CandidatesOf(read)); }
    SourceWellFormed(read, listed);
    MandatoryIs(read, listed);
    var assembler := new Assembler.ContextAssembler(InputOf(read, listed));
    var assembled := assembler.Assemble();
    match assembled
    case Built(snapshot) =>
      Rendered(InputOf(read, listed), assembler.selected, assembler.reasons);
      assert Assembler.FilledFrom(InputOf(read, listed), assembler.accepted, snapshot.selected);
      outcome := Context(snapshot);
    case Overflow => outcome := ContextOverflow;
    case Ineligible => outcome := IneligibleContext;
  }

  lemma Rendered(input: Assembler.Input, selected: Assembler.Selected, reasons: map<Id, Assembler.Reason>)
    ensures Assembler.Render(input, selected, reasons).selected == selected
  {
    hide Assembler.Omitted;
  }

  lemma AreListed(cands: seq<Candidate>, all: set<Candidate>)
    requires (set c | c in cands) == all && forall i, j :: 0 <= i < j < |cands| ==> cands[i] != cands[j]
    ensures Lists(cands, all)
  {
  }

  lemma MandatoryIs(src: Source, cands: seq<Candidate>)
    requires OneFactPerId(src.index.evidence)
    ensures Assembler.MandatoryRefs(InputOf(src, cands)) == Mandatory(src) && InputOf(src, cands).eligible == Refs(Eligible(src))
  {
    hide ConfirmedCapsules, CriticalCapsules, Critical, Assembler.CoreRefs, Eligible, AllCurrent, LookupCapsule, ReasonOf, HistoryComplete,
         Unanswered, Engine.GraphOf;
  }

  // ---- what an accepted context shows ----

  /** What was sent, answered, paid, to whom and for which request, received and consumed. */
  predicate MustShow(claim: Claim) {
    match claim
    case RequestSent => true case HttpResponseStatus => true case FundBusinessStatus => true case GuaranteeStatus => true
    case PaymentFinality => true case PaymentTransactionId => true case TransactionFundRequestId => true
    case PaymentAmount => true case PaymentCurrency => true case PaymentCustomerRef => true
    case PaymentBeneficiaryRef => true case PaymentAccountRef => true
    case CallbackGatewayReceived => true case MessageConsumeStatus => true
    case _ => false
  }

  /** Every mandatory current fact is shown unchanged. */
  lemma FactsShown(src: Source, cands: seq<Candidate>, s: Assembler.ContextSnapshot, e: Evidence)
    requires OneFactPerId(src.index.evidence) && Assembler.CapsulesValid(InputOf(src, cands), s.selected)
    requires e in AllCurrent(src.index) && MustShow(e.claim) && e.id !in Auxiliary(src)
    ensures Assembler.FactCapsule(e.id, Assembler.ViewOf(e)) in s.selected.facts
  {
    hide AllCurrent, Auxiliary, ConfirmedCapsules, CriticalCapsules, Assembler.CoreRefs, Assembler.ConfirmedValid, Assembler.HypothesisOk, LookupCapsule,
         GapCapsule, Engine.GraphOf, HistoryComplete, ReasonOf, Eligible, Unanswered;
    assert e.id in Critical(src);
    assert e.id in Assembler.FactsOf(s.selected.facts);
    var c :| c in s.selected.facts && c.key == Assembler.OfFact(e.id);
    assert Assembler.FactOk(InputOf(src, cands), c);
    ViewHeld(src, cands, e);
  }

  lemma ViewHeld(src: Source, cands: seq<Candidate>, e: Evidence)
    requires OneFactPerId(src.index.evidence) && e in AllCurrent(src.index)
    ensures e.id in InputOf(src, cands).current && InputOf(src, cands).current[e.id] == Assembler.ViewOf(e)
  {
    hide CurrentOf, Critical, ConfirmedCapsules, CriticalCapsules, LookupCapsule, GapCapsule, Engine.GraphOf, HistoryComplete, ReasonOf, Eligible,
         Unanswered, Assembler.ViewOf;
  }

  /** Every confirmed proposition is shown as confirmed, with all the references that decide it. */
  lemma ConfirmedShown(src: Source, cands: seq<Candidate>, s: Assembler.ContextSnapshot, h: Hypothesis)
    requires OneFactPerId(src.index.evidence) && Assembler.CapsulesValid(InputOf(src, cands), s.selected)
    requires Engine.StateOf(src.index, h).status.Confirmed?
    ensures exists c :: c in s.selected.hypotheses && c.key == Assembler.OfHypothesis(h) && c.Confirmed()
              && c.core == Engine.StateOf(src.index, h).decisive != {}
  {
    EveryHypothesis(h);
    hide AllCurrent, Auxiliary, ConfirmedCapsules, CriticalCapsules, Assembler.CoreRefs, Assembler.HypothesisOk, LookupCapsule, GapCapsule,
         HistoryComplete, ReasonOf, Eligible, Unanswered, Engine.StateOf, Critical, Assembler.FactOk;
    assert Assembler.ConfirmedValid(InputOf(src, cands), s.selected, h);
  }

  /** Every open safety question is shown. */
  lemma QuestionsShown(src: Source, cands: seq<Candidate>, s: Assembler.ContextSnapshot, n: Gaps.GapName)
    requires OneFactPerId(src.index.evidence) && Assembler.CapsulesValid(InputOf(src, cands), s.selected)
    requires Gaps.SafetyCritical(n) && n in Unanswered(src.index)
    ensures GapCapsule(src.index, n) in s.selected.gaps
  {
    CriticalKeys(src.index, n);
    hide AllCurrent, Auxiliary, ConfirmedCapsules, CriticalCapsules, Assembler.CoreRefs, Assembler.HypothesisOk, LookupCapsule, GapCapsule,
         HistoryComplete, ReasonOf, Eligible, Unanswered, Engine.GraphOf, Critical, Assembler.FactOk, Assembler.ConfirmedValid;
    var c :| c in s.selected.gaps && c.key == Assembler.OfGap(n);
    assert c in InputOf(src, cands).gaps;
  }

  /** A context the validator accepts shows every mandatory current fact unchanged, every confirmed proposition with all its
      decisive references, every open safety question, and no reference that the policy does not allow. */
  lemma ContextShows(src: Source, cands: seq<Candidate>, s: Assembler.ContextSnapshot)
    requires OneFactPerId(src.index.evidence) && Assembler.Valid(InputOf(src, cands), s)
    ensures forall e :: e in AllCurrent(src.index) && MustShow(e.claim) && e.id !in Auxiliary(src) ==>
      Assembler.FactCapsule(e.id, Assembler.ViewOf(e)) in s.selected.facts
    ensures forall h :: Engine.StateOf(src.index, h).status.Confirmed? ==>
      exists c :: c in s.selected.hypotheses && c.key == Assembler.OfHypothesis(h) && c.Confirmed()
        && c.core == Engine.StateOf(src.index, h).decisive != {}
    ensures forall n :: Gaps.SafetyCritical(n) && n in Unanswered(src.index) ==> GapCapsule(src.index, n) in s.selected.gaps
    ensures forall r :: r in s.refs ==> exists e :: e in src.index.evidence && e.id == r && src.policy.allows(e)
  {
    hide MustShow, Assembler.CapsulesValid, Assembler.CountsValid, AllCurrent, Auxiliary, Unanswered, Gaps.SafetyCritical, Engine.StateOf, GapCapsule, InputOf;
    forall e | e in AllCurrent(src.index) && MustShow(e.claim) && e.id !in Auxiliary(src)
      ensures Assembler.FactCapsule(e.id, Assembler.ViewOf(e)) in s.selected.facts
    {
      FactsShown(src, cands, s, e);
    }
    forall h | Engine.StateOf(src.index, h).status.Confirmed?
      ensures exists c :: c in s.selected.hypotheses && c.key == Assembler.OfHypothesis(h) && c.Confirmed()
                && c.core == Engine.StateOf(src.index, h).decisive != {}
    {
      ConfirmedShown(src, cands, s, h);
    }
    forall n | Gaps.SafetyCritical(n) && n in Unanswered(src.index) ensures GapCapsule(src.index, n) in s.selected.gaps {
      QuestionsShown(src, cands, s, n);
    }
    MandatoryIs(src, cands);
    AllowedOnly(src, s.refs);
  }

  lemma AllowedOnly(src: Source, refs: set<Id>)
    ensures refs <= Refs(Eligible(src)) ==> forall r :: r in refs ==> exists e :: e in src.index.evidence && e.id == r && src.policy.allows(e)
  {
  }
}
