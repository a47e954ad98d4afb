/** From an evidence index to what the assembler selects from: capsules, mandatory references, omission reasons and
    candidates. Everything the assembler relies on is established here for every index. */
module ContextSource {
  import opened Domain
  import opened Index
  import opened PaymentIdentity
  import opened IdentityProjection
  import opened Rules
  import opened Engine
  import Gaps
  import Compaction
  import Assembler
  import opened ContextPreview

  type Capsule = Assembler.Capsule
  type Candidate = Assembler.Candidate

  // Deployment policy: what may enter a context, how much of it, and how long the rest of the text is.
  datatype Policy = Policy(
    allows: Evidence -> bool, limits: Assembler.Limits, length: (Assembler.Selected, map<Assembler.Reason, set<Id>>) -> nat)

  /** What one assembly reads: the index, the policy, the projected identity and the counted lookup runs. */
  datatype Source = Source(
    index: EvidenceIndex, policy: Policy, identity: IdentityContext, counts: map<Compaction.GroupKey, nat>)

  predicate Consistent(src: Source) {
    && OneFactPerId(src.index.evidence) && src.identity.refs <= Verified(src.index).refs
    && src.counts.Keys == Compaction.Groups(Eligible(src))
  }

  function Eligible(src: Source): set<Evidence> { set e | e in src.index.evidence && src.policy.allows(e) }

  /** Every fact that is current for its claim. */
  function AllCurrent(index: EvidenceIndex): set<Evidence> {
    set e | e in index.evidence && e in CurrentOf(index, e.claim)
  }

  /** Evidence of the identity verdict that the projection drops. */
  function Auxiliary(src: Source): set<Id> { Verified(src.index).refs - src.identity.refs }

  /** References that only support or contradict, and decide nothing. */
  function RelationAuxiliary(index: EvidenceIndex): set<Id> {
    (set h, i | h in Catalog() && i in StateOf(index, h).supporting + StateOf(index, h).contradicting :: i)
    - (set h, i | h in Catalog() && i in StateOf(index, h).decisive :: i)
  }

  const MANDATORY_CLAIMS: set<Claim> :=
    {RequestSent, PaymentFinality, PaymentTransactionId, TransactionFundRequestId, PaymentAmount, PaymentCurrency,
     PaymentCustomerRef, PaymentBeneficiaryRef, PaymentAccountRef, HttpResponseStatus, FundBusinessStatus, GuaranteeStatus,
     CallbackGatewayReceived, MessageConsumeStatus}

  /** Current facts every context must show, unless the identity projection accounts for them. */
  function Critical(src: Source): set<Id> {
    set e | e in AllCurrent(src.index) && e.claim in MANDATORY_CLAIMS && e.id !in Auxiliary(src) :: e.id
  }

  // ---- capsules ----

  function Previewed(src: Source, refs: set<Id>): set<Id> {
    RelationRefs(src.index.evidence, refs * Refs(Eligible(src)) - Auxiliary(src), src.policy.limits.preview)
  }

  function HypothesisCapsule(src: Source, h: Hypothesis, preview: bool): (c: Capsule)
    ensures c.key == Assembler.OfHypothesis(h)
  {
    var s := StateOf(src.index, h);
    Assembler.Capsule(
      Assembler.OfHypothesis(h), Assembler.HypothesisContent(s.status, s.supporting, s.contradicting, s.missing), s.decisive,
      if preview then Previewed(src, s.supporting) else {}, if preview then Previewed(src, s.contradicting) else {})
  }

  /** Questions raised and not answered. */
  function Unanswered(index: EvidenceIndex): set<Gaps.GapName> {
    set n | n in Gaps.Names() && Gaps.Raised(index, n) && !Gaps.GapOf(index, n).satisfied
  }

  function GapCapsule(index: EvidenceIndex, n: Gaps.GapName): (c: Capsule)
    ensures c.key == Assembler.OfGap(n)
  {
    Assembler.Capsule(Assembler.OfGap(n), Assembler.GapContent(Gaps.SafetyCritical(n)), Gaps.GapOf(index, n).refs, {}, {})
  }

  function ResolvedCapsule(index: EvidenceIndex, h: Hypothesis): Capsule {
    Assembler.Capsule(Assembler.OfHypothesis(h), Assembler.ResolvedContent(Eliminated), StateOf(index, h).decisive, {}, {})
  }

  function LookupCapsule(src: Source, k: Compaction.GroupKey): Capsule
    requires k in src.counts
  {
    Assembler.Capsule(Assembler.OfLookup(k), Assembler.LookupContent(src.counts[k]),
                      EndRefs(Answered(Compaction.LookupsOf(Eligible(src), k.tool, k.scope), k.answer)), {}, {})
  }

  // One thread of superseded facts.
  datatype Thread = Thread(claim: Claim, subject: Subject, protocolVersion: Option<Text>)

  function ThreadOf(e: Evidence): Thread { Thread(e.claim, e.subject, e.protocolVersion) }

  /** Eligible facts that are neither current, nor lookup answers, nor compacted with identity or relations. */
  function Superseded(src: Source): set<Evidence> {
    set e | e in Eligible(src) && e !in AllCurrent(src.index) && e.claim != SourceLookupStatus
      && e.id !in Auxiliary(src) && e.id !in RelationAuxiliary(src.index)
  }

  function ThreadFacts(src: Source, t: Thread): set<Evidence> { set e | e in Superseded(src) && ThreadOf(e) == t }

  function StateCapsule(src: Source, t: Thread): Capsule {
    Assembler.Capsule(Assembler.OfState(t.claim, t.subject, t.protocolVersion), Assembler.StateContent, EndRefs(ThreadFacts(src, t)), {}, {})
  }

  const CATALOG: seq<Hypothesis> := [H1, H2, H3, H4, H5, H6, H6Schema, H6Stale, H7, H8]

  /** The confirmed hypotheses among `hs`, without previews. */
  function ConfirmedCapsules(src: Source, hs: seq<Hypothesis>): seq<Capsule> {
    if hs == [] then []
    else
      var earlier, h := ConfirmedCapsules(src, hs[..|hs| - 1]), hs[|hs| - 1];
      if StateOf(src.index, h).status.Confirmed? then earlier + [HypothesisCapsule(src, h, false)] else earlier
  }

  const CRITICAL_GAPS: seq<Gaps.GapName> := [Gaps.FundProtocolGap, Gaps.FinalityGap, Gaps.IdentityGap, Gaps.AssociationGap]

  /** The open safety questions among `names`. */
  function CriticalCapsules(index: EvidenceIndex, names: seq<Gaps.GapName>): seq<Capsule> {
    if names == [] then []
    else
      var earlier, n := CriticalCapsules(index, names[..|names| - 1]), names[|names| - 1];
      if n in Unanswered(index) then earlier + [GapCapsule(index, n)] else earlier
  }

  // ---- omission reasons ----

  function ReasonOf(src: Source, e: Evidence): Assembler.Reason {
    if !src.policy.allows(e) then Assembler.EligibilityDenied
    else if e.claim == SourceLookupStatus then Assembler.RepeatedLookup
    else if e.id in Auxiliary(src) then Assembler.IdentityCompacted
    else if e.id in RelationAuxiliary(src.index) then Assembler.RelationCompacted
    else if e !in AllCurrent(src.index) then Assembler.HistoricalSuperseded
    else Assembler.Irrelevant
  }

  // ---- candidates ----

  function Mandatory(src: Source): set<Id> {
    src.identity.refs + Assembler.CoreRefs(ConfirmedCapsules(src, CATALOG))
    + Assembler.CoreRefs(CriticalCapsules(src.index, CRITICAL_GAPS)) + Critical(src)
  }

  /** Claims that bear on an open hypothesis or could answer an open question. */
  function ActiveClaims(index: EvidenceIndex): set<Claim> {
    (set h, c | h in Catalog() && !StateOf(index, h).status.Eliminated? && c in Relevant(h) :: c)
    + set n, c | n in Unanswered(index) && c in Gaps.RequiredClaims(n) :: c
  }

  /** References some previewed hypothesis shows. */
  function Shown(src: Source): set<Id> {
    set h, i | h in Catalog() && !StateOf(src.index, h).status.Eliminated?
      && i in HypothesisCapsule(src, h, true).supporting + HypothesisCapsule(src, h, true).contradicting :: i
  }

  /** Protocol documents are offered only for the field the rules compare, unless a preview shows them. */
  predicate OtherField(e: Evidence) {
    || (e.claim == ProtocolFieldType && e.subject.field != Some(LOAN_NO))
    || (e.claim == ProtocolBusinessSemantics && e.subject.field != Some(SUCCESS))
  }

  predicate OffersFact(src: Source, e: Evidence) {
    && e in AllCurrent(src.index) && e in Eligible(src) && e.id !in Auxiliary(src)
    && (e.id in RelationAuxiliary(src.index) ==> e.id in Shown(src))
    && (OtherField(e) ==> e.id in Shown(src))
    && e.id !in Mandatory(src) && (e.claim in ActiveClaims(src.index) || e.id in Shown(src))
  }

  function HypothesisCandidates(src: Source): set<Candidate> {
    set h | h in Catalog() && !StateOf(src.index, h).status.Eliminated? ::
      Assembler.Candidate(StateOf(src.index, h).status.Confirmed?, Assembler.Hypotheses, HypothesisCapsule(src, h, true))
  }

  function GapCandidates(src: Source): set<Candidate> {
    set n | n in Unanswered(src.index) && !Gaps.SafetyCritical(n) :: Assembler.Candidate(false, Assembler.OpenGaps, GapCapsule(src.index, n))
  }

  function FactCandidates(src: Source): set<Candidate> {
    set e | e in src.index.evidence && OffersFact(src, e) ::
      Assembler.Candidate(false, Assembler.Facts, Assembler.FactCapsule(e.id, Assembler.ViewOf(e)))
  }

  function ResolvedCandidates(src: Source): set<Candidate> {
    set h | h in Catalog() && StateOf(src.index, h).status.Eliminated? ::
      Assembler.Candidate(false, Assembler.Slot.Resolved, ResolvedCapsule(src.index, h))
  }

  function LookupCandidates(src: Source): set<Candidate> {
    set k | k in src.counts :: Assembler.Candidate(false, Assembler.Lookups, LookupCapsule(src, k))
  }

  function StateCandidates(src: Source): set<Candidate> {
    set e | e in Superseded(src) :: Assembler.Candidate(false, Assembler.Transitions, StateCapsule(src, ThreadOf(e)))
  }

  function CandidatesOf(src: Source): set<Candidate> {
    HypothesisCandidates(src) + GapCandidates(src) + FactCandidates(src) + ResolvedCandidates(src) + LookupCandidates(src)
    + StateCandidates(src)
  }

  // ---- the assembler's input ----

  function InputOf(src: Source, cands: seq<Candidate>): (input: Assembler.Input)
    requires OneFactPerId(src.index.evidence)
    ensures input.candidates == cands
    ensures input.confirmed == ConfirmedCapsules(src, CATALOG) && input.criticalGaps == CriticalCapsules(src.index, CRITICAL_GAPS)
  {
    Assembler.Input(
      src.index, Refs(src.index.evidence), Refs(Eligible(src)), map e | e in AllCurrent(src.index) :: e.id := Assembler.ViewOf(e),
      Critical(src), src.identity.refs, GraphOf(src.index), set n | n in Unanswered(src.index) :: GapCapsule(src.index, n),
      CriticalCapsules(src.index, CRITICAL_GAPS), ConfirmedCapsules(src, CATALOG),
      set k | k in src.counts :: LookupCapsule(src, k), cands, HistoryComplete(src),
      map e | e in src.index.evidence :: e.id := ReasonOf(src, e), src.policy.limits, src.policy.length)
  }

  /** As many observations are eligible as calls were spent, and no lookup answer is withheld. */
  predicate HistoryComplete(src: Source) {
    && |Compaction.Observations(Eligible(src))| >= src.index.row.usedCalls
    && forall e :: e in src.index.evidence && e.claim == SourceLookupStatus ==> src.policy.allows(e)
  }

  /** The candidates in some order, each once. */
  predicate Lists(cands: seq<Candidate>, all: set<Candidate>) {
    && (set c | c in cands) == all
    && forall i, j :: 0 <= i < j < |cands| ==> cands[i] != cands[j]
  }

  // ---- every input built this way is well formed ----

  lemma AppendDistinct(cs: seq<Capsule>, c: Capsule)
    ensures Assembler.DistinctKeys(cs) && (forall d :: d in cs ==> d.key != c.key) ==> Assembler.DistinctKeys(cs + [c])
  {
  }

  lemma {:induction false} ConfirmedListed(src: Source, hs: seq<Hypothesis>)
    requires forall i, j :: 0 <= i < j < |hs| ==> hs[i] != hs[j]
    ensures var cs := ConfirmedCapsules(src, hs);
      && Assembler.DistinctKeys(cs)
      && (forall c :: c in cs ==> exists h :: h in hs && StateOf(src.index, h).status.Confirmed? && c == HypothesisCapsule(src, h, false))
      && (forall h :: h in hs && StateOf(src.index, h).status.Confirmed? ==> HypothesisCapsule(src, h, false) in cs)
  {
    hide StateOf, HypothesisCapsule;
    if hs != [] {
      var before, h := hs[..|hs| - 1], hs[|hs| - 1];
      ConfirmedListed(src, before);
      assert hs == before + [h];
      AppendDistinct(ConfirmedCapsules(src, before), HypothesisCapsule(src, h, false));
    }
  }

  lemma {:induction false} CriticalListed(index: EvidenceIndex, names: seq<Gaps.GapName>)
    requires forall i, j :: 0 <= i < j < |names| ==> names[i] != names[j]
    ensures var cs := CriticalCapsules(index, names);
      && Assembler.DistinctKeys(cs)
      && (forall c :: c in cs ==> exists n :: n in names && n in Unanswered(index) && c == GapCapsule(index, n))
      && (forall n :: n in names && n in Unanswered(index) ==> GapCapsule(index, n) in cs)
  {
    hide Unanswered, GapCapsule;
    if names != [] {
      var before, n := names[..|names| - 1], names[|names| - 1];
      CriticalListed(index, before);
      assert names == before + [n];
      AppendDistinct(CriticalCapsules(index, before), GapCapsule(index, n));
    }
  }

  lemma EveryHypothesis(h: Hypothesis)
    ensures h in CATALOG && h in Catalog()
    ensures forall i, j :: 0 <= i < j < |CATALOG| ==> CATALOG[i] != CATALOG[j]
  {
    match h
    case H1 => case H2 => case H3 => case H4 => case H5 => case H6 => case H6Schema => case H6Stale => case H7 => case H8 =>
  }

  lemma CriticalNames(n: Gaps.GapName)
    ensures n in CRITICAL_GAPS <==> Gaps.SafetyCritical(n)
    ensures forall i, j :: 0 <= i < j < |CRITICAL_GAPS| ==> CRITICAL_GAPS[i] != CRITICAL_GAPS[j]
  {
  }

  /** The mandatory hypotheses are exactly the confirmed ones. */
  lemma ConfirmedKeys(src: Source, h: Hypothesis)
    ensures Assembler.OfHypothesis(h) in Assembler.KeysOf(ConfirmedCapsules(src, CATALOG)) <==> StateOf(src.index, h).status.Confirmed?
  {
    EveryHypothesis(h);
    ConfirmedListed(src, CATALOG);
    hide StateOf, HypothesisCapsule, ConfirmedCapsules;
    if StateOf(src.index, h).status.Confirmed? {
      assert HypothesisCapsule(src, h, false) in ConfirmedCapsules(src, CATALOG);
    }
  }

  /** The mandatory questions are exactly the open safety ones. */
  lemma CriticalKeys(index: EvidenceIndex, n: Gaps.GapName)
    ensures Assembler.OfGap(n) in Assembler.KeysOf(CriticalCapsules(index, CRITICAL_GAPS)) <==> Gaps.SafetyCritical(n) && n in Unanswered(index)
  {
    CriticalNames(n);
    CriticalListed(index, CRITICAL_GAPS);
    hide Unanswered, GapCapsule, CriticalCapsules;
    if Gaps.SafetyCritical(n) && n in Unanswered(index) {
      assert GapCapsule(index, n) in CriticalCapsules(index, CRITICAL_GAPS);
    }
  }

  /** A hypothesis capsule is a faithful and bounded projection of its state, with or without previews. */
  lemma HypothesisFaithful(src: Source, cands: seq<Candidate>, h: Hypothesis, preview: bool)
    requires OneFactPerId(src.index.evidence)
    ensures Assembler.HypothesisOk(InputOf(src, cands), HypothesisCapsule(src, h, preview))
  {
    EveryHypothesis(h);
    var s := StateOf(src.index, h);
    RelationRefsBounded(src.index.evidence, s.supporting * Refs(Eligible(src)) - Auxiliary(src), src.policy.limits.preview);
    RelationRefsBounded(src.index.evidence, s.contradicting * Refs(Eligible(src)) - Auxiliary(src), src.policy.limits.preview);
    hide StateOf, RelationRefs, Auxiliary, Eligible, AllCurrent, Critical, Unanswered, ConfirmedCapsules, CriticalCapsules, LookupCapsule,
         HistoryComplete, ReasonOf, GapCapsule;
  }

  lemma ConfirmedDecided(src: Source, h: Hypothesis)
    requires StateOf(src.index, h).status.Confirmed?
    ensures HypothesisCapsule(src, h, false).core != {} && HypothesisCapsule(src, h, false).Confirmed()
  {
    DecisiveExactly(src.index, h);
    hide StateOf;
  }

  /** The mandatory tier of the source. */
  lemma TierWellFormed(src: Source, cands: seq<Candidate>)
    requires OneFactPerId(src.index.evidence)
    ensures Assembler.TierWellFormed(InputOf(src, cands))
  {
    TierParts(src, cands);
    hide *;
    TierOf(InputOf(src, cands));
  }

  lemma TierOf(input: Assembler.Input)
    requires Assembler.DistinctKeys(input.confirmed) && Assembler.DistinctKeys(input.criticalGaps)
    requires forall c :: c in input.confirmed ==>
      Assembler.HypothesisOk(input, c) && c.Confirmed() && c.core != {} && c.supporting == {} && c.contradicting == {}
    requires forall h :: h in input.states && input.states[h].status.Confirmed? ==> Assembler.OfHypothesis(h) in Assembler.KeysOf(input.confirmed)
    requires forall c :: c in input.criticalGaps ==> c in input.gaps
    ensures Assembler.TierWellFormed(input)
  {
    hide Assembler.HypothesisOk, Assembler.DistinctKeys, Assembler.KeysOf;
  }

  lemma TierParts(src: Source, cands: seq<Candidate>)
    requires OneFactPerId(src.index.evidence)
    ensures var input := InputOf(src, cands);
      && Assembler.DistinctKeys(input.confirmed) && Assembler.DistinctKeys(input.criticalGaps)
      && (forall c :: c in input.confirmed ==>
            Assembler.HypothesisOk(input, c) && c.Confirmed() && c.core != {} && c.supporting == {} && c.contradicting == {})
      && (forall h :: h in input.states && input.states[h].status.Confirmed? ==> Assembler.OfHypothesis(h) in Assembler.KeysOf(input.confirmed))
      && (forall c :: c in input.criticalGaps ==> c in input.gaps)
  {
    EveryHypothesis(H1);
    CriticalNames(Gaps.IdentityGap);
    ConfirmedListed(src, CATALOG);
    CriticalListed(src.index, CRITICAL_GAPS);
    hide StateOf, ConfirmedCapsules, CriticalCapsules, Assembler.HypothesisOk, Unanswered, Eligible, AllCurrent, Critical, LookupCapsule,
         HistoryComplete, ReasonOf, Auxiliary, Previewed;
    var input := InputOf(src, cands);
    forall c | c in input.confirmed
      ensures Assembler.HypothesisOk(input, c) && c.Confirmed() && c.core != {} && c.supporting == {} && c.contradicting == {}
    {
      var h :| h in CATALOG && StateOf(src.index, h).status.Confirmed? && c == HypothesisCapsule(src, h, false);
      HypothesisFaithful(src, cands, h, false);
      ConfirmedDecided(src, h);
    }
    forall h | h in input.states && input.states[h].status.Confirmed? ensures Assembler.OfHypothesis(h) in Assembler.KeysOf(input.confirmed) {
      EveryHypothesis(h);
      assert HypothesisCapsule(src, h, false) in input.confirmed;
    }
  }

  lemma VerdictRefsKnown(index: EvidenceIndex)
    ensures Verified(index).refs <= Refs(index.evidence)
  {
    hide Verified, CurrentOf;
    forall r | r in Verified(index).refs ensures r in Refs(index.evidence) {
      RefsAreCurrent(index, r);
      var e: Evidence :| e.id == r && CurrentPrimary(index, e);
      CurrentHasClaim(index, e.claim, e);
    }
  }

  lemma CurrentKnown(src: Source, cands: seq<Candidate>)
    requires OneFactPerId(src.index.evidence)
    ensures InputOf(src, cands).current.Keys == Refs(AllCurrent(src.index)) && AllCurrent(src.index) <= src.index.evidence
  {
    hide CurrentOf, ConfirmedCapsules, CriticalCapsules, LookupCapsule, HistoryComplete, ReasonOf, Critical, GraphOf, Unanswered, Eligible,
         Assembler.ViewOf;
  }

  lemma ReasonsKnown(src: Source, cands: seq<Candidate>)
    requires OneFactPerId(src.index.evidence)
    ensures InputOf(src, cands).reasons.Keys == Refs(src.index.evidence)
  {
    hide AllCurrent, ConfirmedCapsules, CriticalCapsules, LookupCapsule, HistoryComplete, ReasonOf, Critical, GraphOf, Unanswered, Eligible,
         Assembler.ViewOf;
  }

  lemma RefsGrow(a: set<Evidence>, b: set<Evidence>)
    requires a <= b
    ensures Refs(a) <= Refs(b)
  {
  }

  lemma CriticalKnown(src: Source)
    ensures Critical(src) <= Refs(AllCurrent(src.index)) && Eligible(src) <= src.index.evidence
  {
    hide AllCurrent, Auxiliary;
  }

  lemma RefsWellFormed(src: Source, cands: seq<Candidate>)
    requires Consistent(src)
    ensures Assembler.RefsWellFormed(InputOf(src, cands))
  {
    VerdictRefsKnown(src.index);
    CurrentKnown(src, cands);
    ReasonsKnown(src, cands);
    CriticalKnown(src);
    RefsGrow(AllCurrent(src.index), src.index.evidence);
    RefsGrow(Eligible(src), src.index.evidence);
    hide Verified, AllCurrent, ConfirmedCapsules, CriticalCapsules, LookupCapsule, HistoryComplete, ReasonOf, Auxiliary, GraphOf, Unanswered,
         Compaction.Groups, Refs, Eligible, Critical, Assembler.ViewOf, GapCapsule;
  }

  // ---- the candidates ----

  lemma OfferedHypothesis(input: Assembler.Input, c: Capsule)
    requires Assembler.HypothesisOk(input, c)
    ensures Assembler.CandidateOk(input, Assembler.Candidate(c.key in Assembler.KeysOf(input.confirmed), Assembler.Hypotheses, c))
  {
    hide Assembler.HypothesisOk, Assembler.KeysOf;
  }

  lemma HypothesisCandidateOk(src: Source, cands: seq<Candidate>, h: Hypothesis)
    requires OneFactPerId(src.index.evidence) && !StateOf(src.index, h).status.Eliminated?
    ensures Assembler.CandidateOk(InputOf(src, cands),
              Assembler.Candidate(StateOf(src.index, h).status.Confirmed?, Assembler.Hypotheses, HypothesisCapsule(src, h, true)))
  {
    ConfirmedKeys(src, h);
    HypothesisFaithful(src, cands, h, true);
    hide StateOf, HypothesisCapsule, InputOf, ConfirmedCapsules, Assembler.HypothesisOk, Assembler.KeysOf, Assembler.CandidateOk;
    OfferedHypothesis(InputOf(src, cands), HypothesisCapsule(src, h, true));
  }

  lemma GapCandidateOk(src: Source, cands: seq<Candidate>, n: Gaps.GapName)
    requires OneFactPerId(src.index.evidence) && n in Unanswered(src.index) && !Gaps.SafetyCritical(n)
    ensures Assembler.CandidateOk(InputOf(src, cands), Assembler.Candidate(false, Assembler.OpenGaps, GapCapsule(src.index, n)))
  {
    CriticalKeys(src.index, n);
    hide StateOf, ConfirmedCapsules, CriticalCapsules, Unanswered, Eligible, AllCurrent, Critical, LookupCapsule, HistoryComplete, ReasonOf,
         Auxiliary, Previewed, Assembler.KeysOf, Assembler.MandatoryRefs, GapCapsule, GraphOf, Gaps.SafetyCritical;
  }

  lemma FactCandidateOk(src: Source, cands: seq<Candidate>, e: Evidence)
    requires Consistent(src) && OffersFact(src, e)
    ensures Assembler.CandidateOk(InputOf(src, cands),
              Assembler.Candidate(false, Assembler.Facts, Assembler.FactCapsule(e.id, Assembler.ViewOf(e))))
  {
    hide StateOf, ConfirmedCapsules, CriticalCapsules, Unanswered, Critical, LookupCapsule, HistoryComplete, ReasonOf, CurrentOf,
         Auxiliary, Previewed, RelationAuxiliary, Shown, ActiveClaims, Verified, Compaction.Groups;
    assert Mandatory(src) == Assembler.MandatoryRefs(InputOf(src, cands));
  }

  lemma LookupCandidateOk(src: Source, cands: seq<Candidate>, k: Compaction.GroupKey)
    requires OneFactPerId(src.index.evidence) && k in src.counts
    ensures Assembler.CandidateOk(InputOf(src, cands), Assembler.Candidate(false, Assembler.Lookups, LookupCapsule(src, k)))
  {
    hide StateOf, ConfirmedCapsules, CriticalCapsules, Unanswered, Eligible, AllCurrent, Critical, LookupCapsule, HistoryComplete, ReasonOf,
         Auxiliary, Previewed;
  }

  lemma EveryCandidateOk(src: Source, cands: seq<Candidate>, cand: Candidate)
    requires Consistent(src) && cand in CandidatesOf(src)
    ensures Assembler.CandidateOk(InputOf(src, cands), cand)
  {
    hide StateOf, HypothesisCapsule, Unanswered, OffersFact, GapCapsule, LookupCapsule, ResolvedCapsule, StateCapsule, Superseded, InputOf,
         Verified, Compaction.Groups, Eligible;
    if cand in HypothesisCandidates(src) {
      var h :| h in Catalog() && !StateOf(src.index, h).status.Eliminated?
        && cand == Assembler.Candidate(StateOf(src.index, h).status.Confirmed?, Assembler.Hypotheses, HypothesisCapsule(src, h, true));
      HypothesisCandidateOk(src, cands, h);
    } else if cand in GapCandidates(src) {
      var n :| n in Unanswered(src.index) && !Gaps.SafetyCritical(n) && cand == Assembler.Candidate(false, Assembler.OpenGaps, GapCapsule(src.index, n));
      GapCandidateOk(src, cands, n);
    } else if cand in FactCandidates(src) {
      var e :| e in src.index.evidence && OffersFact(src, e)
        && cand == Assembler.Candidate(false, Assembler.Facts, Assembler.FactCapsule(e.id, Assembler.ViewOf(e)));
      FactCandidateOk(src, cands, e);
    } else if cand in LookupCandidates(src) {
      var k :| k in src.counts && cand == Assembler.Candidate(false, Assembler.Lookups, LookupCapsule(src, k));
      LookupCandidateOk(src, cands, k);
    }
  }

  /** The thing a candidate is about, which with its slot and kind determines it. */
  lemma SameIsEqual(src: Source, a: Candidate, b: Candidate)
    requires Consistent(src) && a in CandidatesOf(src) && b in CandidatesOf(src) && Assembler.SameCandidate(a, b)
    ensures a == b
  {
    hide StateOf, Previewed, Unanswered, OffersFact, Superseded, Verified, Compaction.Groups, Eligible, EndRefs, Gaps.GapOf, ThreadFacts,
         Compaction.LookupsOf, Answered, BusinessTime;
    match a.slot
    case Hypotheses => SameHypothesis(src, a, b);
    case OpenGaps =>
    case Facts => SameFact(src, a, b);
    case Resolved =>
    case Lookups =>
    case Transitions =>
  }

  lemma SameHypothesis(src: Source, a: Candidate, b: Candidate)
    requires a in HypothesisCandidates(src) && b in HypothesisCandidates(src) && a.capsule.key == b.capsule.key
    ensures a == b
  {
    hide StateOf, Previewed;
  }

  lemma SameFact(src: Source, a: Candidate, b: Candidate)
    requires OneFactPerId(src.index.evidence) && a in FactCandidates(src) && b in FactCandidates(src) && a.capsule.key == b.capsule.key
    ensures a == b
  {
    hide OffersFact, Assembler.ViewOf;
  }

  lemma CandidatesWellFormed(src: Source, cands: seq<Candidate>)
    requires Consistent(src) && Lists(cands, CandidatesOf(src))
    ensures Assembler.CandidatesWellFormed(InputOf(src, cands))
  {
    hide InputOf, CandidatesOf, Assembler.CandidateOk, Assembler.SameCandidate;
    forall i | 0 <= i < |cands| ensures Assembler.CandidateOk(InputOf(src, cands), cands[i]) {
      assert cands[i] in set c | c in cands;
      EveryCandidateOk(src, cands, cands[i]);
    }
    forall i, j | 0 <= i < j < |cands| ensures !Assembler.SameCandidate(cands[i], cands[j]) {
      assert cands[i] in set c | c in cands;
      assert cands[j] in set c | c in cands;
      if Assembler.SameCandidate(cands[i], cands[j]) { SameIsEqual(src, cands[i], cands[j]); }
    }
  }

  /** Whatever the case, the evidence and the policy, the assembler is handed a well-formed input. */
  lemma SourceWellFormed(src: Source, cands: seq<Candidate>)
    requires Consistent(src) && Lists(cands, CandidatesOf(src))
    ensures Assembler.WellFormed(InputOf(src, cands))
  {
    RefsWellFormed(src, cands);
    TierWellFormed(src, cands);
    CandidatesWellFormed(src, cands);
    hide InputOf, Assembler.RefsWellFormed, Assembler.TierWellFormed, Assembler.CandidatesWellFormed;
  }

  /** Every reference of every hypothesis state is evidence of the case, so that looking one up never fails. */
  lemma StatesAreEvidence(index: EvidenceIndex, h: Hypothesis)
    requires OneFactPerId(index.evidence)
    ensures var s := StateOf(index, h); s.supporting + s.contradicting + s.decisive <= Refs(index.evidence)
  {
    RelationsAreEvidence(index, h);
    hide Decide, Gaps.GapsOf, Refs;
  }
}
