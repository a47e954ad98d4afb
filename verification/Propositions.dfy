/** Which facts decide which proposition, stated over the evidence. */
module Propositions {
  import opened Domain
  import opened Index
  import opened PaymentIdentity
  import opened Rules
  import opened RuleFacts

  // ---- what each rule reads ----

  /** The grounds of proposition `h` hold fact `e` exactly where it counts. */
  predicate Counts(index: EvidenceIndex, h: Hypothesis, e: Evidence) {
    && (e in GroundsOf(index, h).confirm <==> e in index.evidence && Confirming(index, h, e))
    && (e in GroundsOf(index, h).eliminate <==> e in index.evidence && Eliminating(index, h, e))
    && (e in GroundsOf(index, h).support <==> e in index.evidence && Supporting(index, h, e))
  }

  lemma CountsSent(index: EvidenceIndex, e: Evidence)
    ensures Counts(index, H1, e)
  {
    FactsMean(index, RequestSent, Flag(false), TraceTool, e);
    FactsMean(index, RequestSent, Flag(true), TraceTool, e);
    hide Facts, Says;
  }

  lemma CountsFund(index: EvidenceIndex, e: Evidence)
    ensures Counts(index, H2, e) && Counts(index, H3, e)
  {
    SettledMeans(index, e);
    FundMeans(index, e);
    RequestMeans(index, FundBusinessStatus, FAILED, FundTool, e);
    hide SettledWitness, MatchFact, FundRecords, FundKnows, RequestFacts, Says, OfRequest;
  }

  lemma MatchShows(index: EvidenceIndex)
    ensures SettledWitness(index) != {} <==> Matches(index)
    ensures Matches(index) <==> exists e :: e in index.evidence && MatchFact(index, e)
  {
    MatchHasWitness(index);
    hide Verified, SettledWitness, MatchFact;
    if e :| e in SettledWitness(index) { SettledMeans(index, e); }
    if e :| e in index.evidence && MatchFact(index, e) { SettledMeans(index, e); }
  }

  lemma TimeoutsExist(index: EvidenceIndex)
    ensures Timeouts(index) != {} <==> exists o :: o in index.evidence && TimedOut(index, o)
  {
    hide Timeouts, TimedOut;
    if o :| o in Timeouts(index) { TimeoutsMean(index, o); }
    if o :| o in index.evidence && TimedOut(index, o) { TimeoutsMean(index, o); }
  }

  lemma CountsTimeout(index: EvidenceIndex, e: Evidence)
    ensures Counts(index, H4, e)
  {
    SettledMeans(index, e);
    MatchShows(index);
    TimeoutsMean(index, e);
    TimeoutsExist(index);
    RequestMeans(index, PaymentFinality, SETTLED, PaymentTool, e);
    RequestMeans(index, HttpResponseStatus, OK, TraceTool, e);
    hide SettledWitness, Matches, Timeouts, TimedOut, RequestFacts, Says, OfRequest, Verified;
  }

  lemma CountsGateway(index: EvidenceIndex, e: Evidence)
    ensures Counts(index, H5, e)
  {
    GatewayMeans(index, e);
    hide Gateway, Received;
  }

  /** A failed callback is one that ended in FAILED. */
  lemma FailedEnds(index: EvidenceIndex, g: Evidence, m: Evidence)
    ensures FailedFor(index, g, m) <==> Ended(index, g, m, FAILED)
    ensures Handled(index, g, m, CONSUMED) <==> Ended(index, g, m, CONSUMED)
  {
    hide Says, Received;
  }

  lemma FailuresExist(index: EvidenceIndex)
    ensures PairFacts(CallbackPairs(index, FAILED)) == {} <==>
      !(exists g, m :: g in index.evidence && m in index.evidence && FailedFor(index, g, m))
  {
    hide CallbackPairs, FailedFor, Ended;
    if e :| e in PairFacts(CallbackPairs(index, FAILED)) {
      PairFactsMean(index, FAILED, e);
      var g, m :| g in index.evidence && m in index.evidence && Ended(index, g, m, FAILED);
      FailedEnds(index, g, m);
    }
    if g, m :| g in index.evidence && m in index.evidence && FailedFor(index, g, m) {
      FailedEnds(index, g, m);
      PairFactsMean(index, FAILED, g);
    }
  }

  lemma CountsConsumption(index: EvidenceIndex, e: Evidence)
    ensures Counts(index, H6, e)
  {
    GatewayMeans(index, e);
    FactsMean(index, MessageConsumeStatus, Word(FAILED), MessagesTool, e);
    PairFactsMean(index, FAILED, e);
    PairFactsMean(index, CONSUMED, e);
    FailuresExist(index);
    hide Facts, Says, Gateway, Received, CallbackPairs, PairFacts, FailedFor, Handled, Ended;
    forall g, m ensures (FailedFor(index, g, m) <==> Ended(index, g, m, FAILED)) && (Handled(index, g, m, CONSUMED) <==> Ended(index, g, m, CONSUMED)) {
      FailedEnds(index, g, m);
    }
  }

  lemma MismatchesExist(index: EvidenceIndex)
    ensures MismatchFacts(index) != {} <==> exists m :: m in index.evidence && WrongType(index, m)
  {
    hide MismatchFacts, WrongType;
    if e :| e in MismatchFacts(index) { MismatchFactsMean(index, e); }
    if m :| m in index.evidence && WrongType(index, m) { MismatchFactsMean(index, m); }
  }

  lemma SchemaSupports(index: EvidenceIndex, e: Evidence)
    ensures e in (if MismatchFacts(index) != {} then MismatchFacts(index) else Messages(index, FAILED))
            <==> e in index.evidence && Supporting(index, H6Schema, e)
  {
    MismatchFactsMean(index, e);
    MismatchesExist(index);
    FactsMean(index, MessageConsumeStatus, Word(FAILED), MessagesTool, e);
    MismatchesAreEvidence(index);
    hide MismatchFacts, WrongType, PartOf, Facts, Says;
  }

  lemma CountsSchema(index: EvidenceIndex, e: Evidence)
    ensures Counts(index, H6Schema, e)
  {
    hide SchemaWitness, MismatchFacts, Messages, Confirming, Supporting;
    WitnessMeans(index, e);
    SchemaSupports(index, e);
    if e in SchemaWitness(index) { SchemaWitnessIsEvidence(index, e); }
  }

  lemma SchemaWitnessIsEvidence(index: EvidenceIndex, e: Evidence)
    requires e in SchemaWitness(index)
    ensures e in index.evidence
  {
    hide SchemaWitness, CurrentPrimary;
    SchemaIsCurrent(index);
    PrimaryIsEvidence(index, e);
  }

  lemma CountsStale(index: EvidenceIndex, e: Evidence)
    ensures Counts(index, H6Stale, e)
  {
    hide StaleSupport, Supporting;
    if e in StaleSupport(index) { StaleSupports(index, e); StaleIsEvidence(index); }
    if Supporting(index, H6Stale, e) { SupportsStale(index, e); }
  }

  lemma AnySays(index: EvidenceIndex, claim: Claim, value: Value, tool: Tool)
    ensures Facts(index, claim, value, {tool}) != {} <==> exists e :: e in index.evidence && Says(index, e, claim, value, tool)
  {
    hide Facts, Says;
    if e :| e in Facts(index, claim, value, {tool}) { FactsMean(index, claim, value, tool, e); }
    if e :| e in index.evidence && Says(index, e, claim, value, tool) { FactsMean(index, claim, value, tool, e); }
  }

  lemma CountsConvergence(index: EvidenceIndex, e: Evidence)
    ensures Counts(index, H7, e)
  {
    AnySays(index, GuaranteeStatus, Word(SUCCESS), GuaranteeTool);
    AnySays(index, AssetDeliveryStatus, Word(FAILED), AssetDeliveryTool);
    AnySays(index, AssetStatus, Word(PROCESSING), AssetTool);
    FactsMean(index, GuaranteeStatus, Word(SUCCESS), GuaranteeTool, e);
    FactsMean(index, AssetDeliveryStatus, Word(FAILED), AssetDeliveryTool, e);
    FactsMean(index, AssetStatus, Word(PROCESSING), AssetTool, e);
    FactsMean(index, AssetStatus, Word(SUCCESS), AssetTool, e);
    hide Facts, Says;
  }

  lemma CountsProtocol(index: EvidenceIndex, e: Evidence)
    ensures Counts(index, H8, e)
  {
    hide ApplicableFacts, Semantics, Confirming, Separates;
    DocumentMeans(index, e.protocolVersion, e);
    if e in ApplicableFacts(index) { ApplicableConfirms(index, e); ApplicableIsCurrent(index); PrimaryIsEvidence(index, e); }
    if Confirming(index, H8, e) { ConfirmsApplicable(index, e); }
  }

  /** The grounds of every rule are these facts and no others. */
  lemma GroundsMean(index: EvidenceIndex, h: Hypothesis, e: Evidence)
    ensures Counts(index, h, e)
  {
    hide Counts;
    match h
    case H1 => CountsSent(index, e);
    case H2 => CountsFund(index, e);
    case H3 => CountsFund(index, e);
    case H4 => CountsTimeout(index, e);
    case H5 => CountsGateway(index, e);
    case H6 => CountsConsumption(index, e);
    case H6Schema => CountsSchema(index, e);
    case H6Stale => CountsStale(index, e);
    case H7 => CountsConvergence(index, e);
    case H8 => CountsProtocol(index, e);
  }

  // ---- what each answer means ----

  function ConfirmingFacts(index: EvidenceIndex, h: Hypothesis): set<Evidence> {
    set e | e in index.evidence && Confirming(index, h, e)
  }

  function EliminatingFacts(index: EvidenceIndex, h: Hypothesis): set<Evidence> {
    set e | e in index.evidence && Eliminating(index, h, e)
  }

  function SupportingFacts(index: EvidenceIndex, h: Hypothesis): set<Evidence> {
    set e | e in index.evidence && Supporting(index, h, e)
  }

  lemma GroundsExactly(index: EvidenceIndex, h: Hypothesis)
    ensures GroundsOf(index, h).confirm == ConfirmingFacts(index, h)
    ensures GroundsOf(index, h).eliminate == EliminatingFacts(index, h)
    ensures GroundsOf(index, h).support == SupportingFacts(index, h)
  {
    hide GroundsOf, Confirming, Eliminating, Supporting;
    var g := GroundsOf(index, h);
    forall e ensures e in g.confirm <==> e in ConfirmingFacts(index, h) { GroundsMean(index, h, e); }
    forall e ensures e in g.eliminate <==> e in EliminatingFacts(index, h) { GroundsMean(index, h, e); }
    forall e ensures e in g.support <==> e in SupportingFacts(index, h) { GroundsMean(index, h, e); }
  }

  predicate Confirmable(index: EvidenceIndex, h: Hypothesis) { exists e :: e in index.evidence && Confirming(index, h, e) }

  predicate Eliminable(index: EvidenceIndex, h: Hypothesis) { exists e :: e in index.evidence && Eliminating(index, h, e) }

  predicate Supportable(index: EvidenceIndex, h: Hypothesis) { exists e :: e in index.evidence && Supporting(index, h, e) }

  /** The status of a proposition some fact confirms, eliminates or supports. */
  predicate Reads(index: EvidenceIndex, r: RuleResult, confirmed: bool, eliminated: bool, supported: bool) {
    && (r.status.Confirmed? <==> confirmed && !eliminated)
    && (r.status.Eliminated? <==> eliminated && !confirmed)
    && (r.status.Supported? <==> (confirmed && eliminated) || (supported && !confirmed && !eliminated))
    && (r.status.Possible? <==> !confirmed && !eliminated && !supported && index.row.status.Investigating?)
  }

  /** A proposition is decided by a fact on one side and none on the other. */
  lemma StatusMeans(index: EvidenceIndex, h: Hypothesis)
    ensures Reads(index, Decide(index, h), Confirmable(index, h), Eliminable(index, h), Supportable(index, h))
  {
    hide GroundsOf, ContextFacts, RelationsOf, Confirming, Eliminating, Supporting;
    SidesMean(index, h);
    GroundsExactly(index, h);
    hide ConfirmingFacts, EliminatingFacts, SupportingFacts, Confirmable, Eliminable, Supportable;
  }

  lemma SidesMean(index: EvidenceIndex, h: Hypothesis)
    ensures ConfirmingFacts(index, h) != {} <==> Confirmable(index, h)
    ensures EliminatingFacts(index, h) != {} <==> Eliminable(index, h)
    ensures SupportingFacts(index, h) != {} <==> Supportable(index, h)
  {
    hide Confirming, Eliminating, Supporting;
    if e :| e in index.evidence && Confirming(index, h, e) { assert e in ConfirmingFacts(index, h); }
    if e :| e in index.evidence && Eliminating(index, h, e) { assert e in EliminatingFacts(index, h); }
    if e :| e in index.evidence && Supporting(index, h, e) { assert e in SupportingFacts(index, h); }
  }

  /** Decisive references are the confirming facts of a confirmed proposition and the eliminating facts of an eliminated one. */
  lemma DecisiveRefsMean(index: EvidenceIndex, h: Hypothesis, i: Id)
    ensures var r := Decide(index, h);
      && (i in r.relations && r.relations[i].DecisiveSupport? <==> r.status.Confirmed? && i in Refs(ConfirmingFacts(index, h)))
      && (i in r.relations && r.relations[i].DecisiveContradiction? <==> r.status.Eliminated? && i in Refs(EliminatingFacts(index, h)))
  {
    GroundsExactly(index, h);
    hide GroundsOf, ContextFacts, ConfirmingFacts, EliminatingFacts, SupportingFacts, Refs;
    var g, context := GroundsOf(index, h), ContextFacts(index, h);
    EmptyRefs(g.confirm, i);
    EmptyRefs(g.eliminate, i);
    RelationMeans(context, g, i);
  }

  lemma EmptyRefs(items: set<Evidence>, i: Id)
    ensures i in Refs(items) ==> items != {}
    ensures Refs({}) == {}
  {
  }

  lemma RelationMeans(context: set<Evidence>, g: Grounds, i: Id)
    ensures var r := RelationsOf(context, Resolved(g)); var both := g.confirm != {} && g.eliminate != {};
      && (i in r && r[i].DecisiveSupport? <==> !both && i in Refs(g.confirm) && i !in Refs(g.eliminate))
      && (i in r && r[i].DecisiveContradiction? <==> !both && i in Refs(g.eliminate))
  {
    EmptyRefs(g.confirm, i);
    hide Refs;
  }

  // ---- the ten propositions ----

  /** H1, the request was not sent: the trace says so, and it never says the request was sent. */
  lemma NotSent(index: EvidenceIndex)
    ensures Reads(index, Decide(index, H1),
                  exists e :: e in index.evidence && Says(index, e, RequestSent, Flag(false), TraceTool),
                  exists e :: e in index.evidence && Says(index, e, RequestSent, Flag(true), TraceTool), false)
  {
    StatusMeans(index, H1);
    hide Decide, Says;
  }

  /** H2, the fund side did not accept the request: refuted by any business record of it, or by a matching payment. */
  lemma NotAccepted(index: EvidenceIndex)
    ensures Reads(index, Decide(index, H2), false, Matches(index) || exists e :: e in index.evidence && FundKnows(index, e), false)
  {
    StatusMeans(index, H2);
    MatchShows(index);
    hide Decide, MatchFact, Matches, FundKnows;
  }

  /** H3, the fund side accepted and finally failed: a FAILED record only supports it, a matching payment refutes it. */
  lemma NoEffect(index: EvidenceIndex)
    ensures Reads(index, Decide(index, H3), false, Matches(index),
                  exists e :: e in index.evidence && Says(index, e, FundBusinessStatus, Word(FAILED), FundTool) && OfRequest(index, e))
  {
    StatusMeans(index, H3);
    MatchShows(index);
    hide Decide, MatchFact, Matches, Says, OfRequest;
  }

  /** H4, the payment settled without a successful answer: a timeout of the request and a matching payment are shown, and no
      OK answer to this request is. */
  lemma TimedOutButPaid(index: EvidenceIndex)
    ensures Reads(index, Decide(index, H4),
                  Matches(index) && exists e :: e in index.evidence && TimedOut(index, e),
                  exists e :: e in index.evidence && Says(index, e, HttpResponseStatus, Word(OK), TraceTool) && OfRequest(index, e),
                  exists e :: e in index.evidence
                    && (TimedOut(index, e) || (Says(index, e, PaymentFinality, Word(SETTLED), PaymentTool) && OfRequest(index, e))))
  {
    StatusMeans(index, H4);
    MatchShows(index);
    hide Decide, MatchFact, Matches, Says, OfRequest, TimedOut;
    if e :| e in index.evidence && TimedOut(index, e) { assert Matches(index) ==> Confirming(index, H4, e); }
  }

  /** H5, no callback arrived: an empty lookup supports it, a received callback refutes it. */
  lemma CallbackAbsent(index: EvidenceIndex)
    ensures Reads(index, Decide(index, H5), false, exists e :: e in index.evidence && Received(index, e),
                  exists e :: e in index.evidence && AbsentCallback(e))
  {
    StatusMeans(index, H5);
    hide Decide, Received;
  }

  /** H6, a received callback was not consumed: some message of it failed for good; refuted when none did and one was consumed. */
  lemma NotConsumed(index: EvidenceIndex)
    ensures var failed := exists g, m :: g in index.evidence && m in index.evidence && FailedFor(index, g, m);
      Reads(index, Decide(index, H6), failed,
            !failed && exists g, m :: g in index.evidence && m in index.evidence && Handled(index, g, m, CONSUMED),
            exists e :: e in index.evidence
              && (Received(index, e) || Says(index, e, MessageConsumeStatus, Word(FAILED), MessagesTool)))
  {
    StatusMeans(index, H6);
    hide Decide, Received, Says, FailedFor, Handled;
    if g, m :| g in index.evidence && m in index.evidence && FailedFor(index, g, m) { assert Confirming(index, H6, g); }
    else if g, m :| g in index.evidence && m in index.evidence && Handled(index, g, m, CONSUMED) { assert Eliminating(index, H6, g); }
  }

  /** H6 by schema: the failed message of a received callback failed on the type of loanNo. */
  lemma SchemaMismatch(index: EvidenceIndex)
    ensures Reads(index, Decide(index, H6Schema),
                  exists g, m :: g in index.evidence && m in index.evidence && FailedFor(index, g, m) && WrongType(index, m), false,
                  exists e :: e in index.evidence && Says(index, e, MessageConsumeStatus, Word(FAILED), MessagesTool))
  {
    StatusMeans(index, H6Schema);
    hide Decide, FailedFor, RecordedAs, OtherType, Says;
    if g, m :| g in index.evidence && m in index.evidence && FailedFor(index, g, m) && WrongType(index, m) {
      assert Confirming(index, H6Schema, g);
    }
    if m :| m in index.evidence && WrongType(index, m) { assert Supporting(index, H6Schema, m); }
  }

  predicate SomeOutdated(index: EvidenceIndex) {
    exists g, m, version, doc, older :: g in index.evidence && m in index.evidence && version in index.evidence
      && doc in index.evidence && older in index.evidence && OutdatedFailure(index, g, m, version, doc, older)
  }

  /** H6 by a stale consumer: never decided; supported when an earlier version documents the type the consumer expected. */
  lemma StaleConsumer(index: EvidenceIndex)
    ensures Reads(index, Decide(index, H6Stale), false, false, SomeOutdated(index))
  {
    StatusMeans(index, H6Stale);
    hide Decide, OutdatedFailure, PartOf;
    if SomeOutdated(index) {
      var g, m, version, doc, older :| g in index.evidence && m in index.evidence && version in index.evidence
        && doc in index.evidence && older in index.evidence && OutdatedFailure(index, g, m, version, doc, older);
      assert Supporting(index, H6Stale, g);
    }
  }

  /** H7, the asset side did not converge: told of success, notification failed and still waiting; refuted by its SUCCESS. */
  lemma AssetNotConverged(index: EvidenceIndex)
    ensures Reads(index, Decide(index, H7), NotConverged(index),
                  exists e :: e in index.evidence && Says(index, e, AssetStatus, Word(SUCCESS), AssetTool),
                  exists e :: e in index.evidence && (Applied(index, e) || Undelivered(index, e)))
  {
    StatusMeans(index, H7);
    hide Decide, Says, Applied, Undelivered, Waits;
    if NotConverged(index) {
      var e :| e in index.evidence && Applied(index, e);
      assert Confirming(index, H7, e);
    }
  }

  /** H8, success does not mean paid: the one protocol document of the bound version keeps payment separate. */
  lemma PaymentSeparate(index: EvidenceIndex)
    ensures Reads(index, Decide(index, H8), exists b :: b in index.evidence && Governs(index, b), false,
                  exists e :: e in index.evidence && Separates(index, e))
  {
    StatusMeans(index, H8);
    hide Decide, Governs, Separates;
    if b :| b in index.evidence && Governs(index, b) { assert Confirming(index, H8, b); }
  }
}
