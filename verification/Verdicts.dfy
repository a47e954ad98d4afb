/** When the independent verdict is FAIL and when it stays open. */
module Verdicts {
  import opened Domain
  import opened Tables
  import opened Index
  import PaymentIdentity
  import Gaps
  import Questions
  import opened CaseTransactions
  import opened EvidenceVerification
  import opened ClosureTransactions
  import opened Evaluator

  // ---- from checks to the verdict ----

  /** A check of some business, sufficiency, policy or recovery dimension came out as `status`. */
  predicate Emitted(s: EvaluationState, contract: Contract, policy: EvaluationPolicy, now: Time, status: CheckStatus) {
    exists d :: d in Domains() && d != OutcomeDim && status in ChecksOf(s, contract, policy, now, d)
  }

  lemma AggregateMeans(checks: set<CheckStatus>)
    ensures Aggregate(checks) == FAIL <==> FAIL in checks
    ensures Aggregate(checks) == INCONCLUSIVE <==> FAIL !in checks && INCONCLUSIVE in checks
    ensures DimensionStatus(checks) == FAIL <==> FAIL in checks
    ensures DimensionStatus(checks) == INCONCLUSIVE <==> FAIL !in checks && INCONCLUSIVE in checks
  {
  }

  /** A dimension fails on any failing check, and is open on any open check when none fails. */
  lemma DimensionExactly(s: EvaluationState, contract: Contract, policy: EvaluationPolicy, now: Time, d: Dimension)
    requires d in Domains()
    ensures var checks, dimensions := ChecksOf(s, contract, policy, now, d), Evaluate(s, contract, policy, now).dimensions;
      && d in dimensions
      && (dimensions[d] == FAIL <==> FAIL in checks)
      && (dimensions[d] == INCONCLUSIVE <==> FAIL !in checks && INCONCLUSIVE in checks)
      && (dimensions[d] == NOT_APPLICABLE <==> checks == {NOT_APPLICABLE})
  {
    hide ChecksOf, MoneyOf;
    AggregateMeans(ChecksOf(s, contract, policy, now, d));
  }

  /** The outcome dimension repeats the worst of money, identity, state and effects. */
  lemma OutcomeMeans(s: EvaluationState, contract: Contract, policy: EvaluationPolicy, now: Time)
    ensures FAIL in ChecksOf(s, contract, policy, now, OutcomeDim) ==> Emitted(s, contract, policy, now, FAIL)
    ensures INCONCLUSIVE in ChecksOf(s, contract, policy, now, OutcomeDim) ==> Emitted(s, contract, policy, now, INCONCLUSIVE)
  {
    var money, path := MoneyOf(s).status, MoneyOf(s).path;
    AggregateMeans({money, IdentityStatus(s, path)} + StateChecks(s, contract, path) + EffectChecks(s));
    hide MoneyOf, IdentityStatus, StateChecks, EffectChecks, Aggregate;
    forall status | status in {money, IdentityStatus(s, path)} + StateChecks(s, contract, path) + EffectChecks(s)
      ensures Emitted(s, contract, policy, now, status)
    {
      assert MoneyDim in Domains() && Dimension.IdentityDim in Domains() && StateDim in Domains() && SideEffectDim in Domains();
      assert status in ChecksOf(s, contract, policy, now, MoneyDim) || status in ChecksOf(s, contract, policy, now, Dimension.IdentityDim)
        || status in ChecksOf(s, contract, policy, now, StateDim) || status in ChecksOf(s, contract, policy, now, SideEffectDim);
    }
  }

  lemma DimensionShows(dimensions: map<Dimension, CheckStatus>, status: CheckStatus)
    ensures status in (set d | d in dimensions :: dimensions[d]) <==> exists d :: d in dimensions && dimensions[d] == status
  {
  }

  /** The verdict is FAIL iff some check failed, and INCONCLUSIVE iff none failed and some is open. */
  lemma VerdictExactly(s: EvaluationState, contract: Contract, policy: EvaluationPolicy, now: Time)
    ensures var verdict := Evaluate(s, contract, policy, now).verdict;
      && (verdict == FAIL <==> Emitted(s, contract, policy, now, FAIL))
      && (verdict == INCONCLUSIVE <==> !Emitted(s, contract, policy, now, FAIL) && Emitted(s, contract, policy, now, INCONCLUSIVE))
  {
    var dimensions := Dimensions(s, contract, policy, now);
    AggregateMeans(set d | d in dimensions :: dimensions[d]);
    DimensionShows(dimensions, FAIL);
    DimensionShows(dimensions, INCONCLUSIVE);
    OutcomeMeans(s, contract, policy, now);
    hide ChecksOf, Domains, Aggregate, DimensionStatus, MoneyOf;
    forall d | d in Domains()
      ensures dimensions[d] == FAIL <==> FAIL in ChecksOf(s, contract, policy, now, d)
      ensures dimensions[d] == INCONCLUSIVE <==> FAIL !in ChecksOf(s, contract, policy, now, d) && INCONCLUSIVE in ChecksOf(s, contract, policy, now, d)
    {
      AggregateMeans(ChecksOf(s, contract, policy, now, d));
    }
  }

  // ---- money, over the finalities ----

  /** A current payment finality. */
  predicate Finality(s: EvaluationState, e: Evidence) { e in CurrentOf(IndexOf(s), PaymentFinality) && e.tool == PaymentTool }

  predicate Conflicting(s: EvaluationState) {
    exists a, b :: a in s.current && b in s.current && Finality(s, a) && Finality(s, b) && a.value != b.value
  }

  predicate AllSay(s: EvaluationState, value: Value) {
    && (exists e :: e in s.current && Finality(s, e))
    && forall e :: e in s.current && Finality(s, e) ==> e.value == value
  }

  /** The payment source denies any transfer for the very request of the case. */
  predicate NoTransfer(s: EvaluationState) {
    && AllSay(s, Word(NOT_EXECUTED)) && RequestId(IndexOf(s)).Some?
    && var request := RequestId(IndexOf(s));
       forall e :: e in s.current && Finality(s, e) ==>
         e.subject.kind == FundRequestSubject && request == Some(e.subject.identifier) && request == e.fundRequestId
  }

  /** A complete and once current settlement of the same request was observed from the payment source itself. */
  predicate SettledOnce(s: EvaluationState) {
    exists e :: e in s.evidence && e.claim == PaymentFinality && e.tool == PaymentTool && e.value == Word(SETTLED)
      && e.sourceKind == Primary && e.freshness == Freshness.Current && e.completeness == Complete
      && e.fundRequestId == RequestId(IndexOf(s))
  }

  lemma MoneyFacts(s: EvaluationState, e: Evidence)
    ensures e in Money(IndexOf(s)) <==> e in s.current && Finality(s, e)
  {
    if Finality(s, e) { CurrentIsUsable(IndexOf(s), PaymentFinality, e); }
    hide CurrentOf;
  }

  lemma FinalitiesMean(s: EvaluationState, v: Value)
    ensures v in ValuesOf(Money(IndexOf(s))) <==> exists e :: e in s.current && Finality(s, e) && e.value == v
  {
    hide Money, Finality;
    if e :| e in s.current && Finality(s, e) && e.value == v { MoneyFacts(s, e); }
    if v in ValuesOf(Money(IndexOf(s))) {
      var e :| e in Money(IndexOf(s)) && e.value == v;
      MoneyFacts(s, e);
    }
  }

  lemma ConflictMeans(s: EvaluationState)
    ensures var values := ValuesOf(Money(IndexOf(s)));
      Conflicting(s) <==> exists a, b :: a in values && b in values && a != b
  {
    hide Finality, Money, ValuesOf;
    var values := ValuesOf(Money(IndexOf(s)));
    forall v ensures v in values <==> exists e :: e in s.current && Finality(s, e) && e.value == v { FinalitiesMean(s, v); }
    if Conflicting(s) {
      var a, b :| a in s.current && b in s.current && Finality(s, a) && Finality(s, b) && a.value != b.value;
      assert a.value in values && b.value in values;
    }
  }

  lemma AllSayMeans(s: EvaluationState, value: Value)
    ensures AllSay(s, value) <==> ValuesOf(Money(IndexOf(s))) == {value}
  {
    hide Finality, Money, ValuesOf;
    var values := ValuesOf(Money(IndexOf(s)));
    forall v ensures v in values <==> exists e :: e in s.current && Finality(s, e) && e.value == v { FinalitiesMean(s, v); }
    if values == {value} {
      assert value in values;
      forall e | e in s.current && Finality(s, e) ensures e.value == value { assert e.value in values; }
    }
  }

  lemma NoTransferMeans(s: EvaluationState)
    ensures NoTransfer(s) <==> AllSay(s, Word(NOT_EXECUTED)) && forall e :: e in Money(IndexOf(s)) ==> AboutRequest(IndexOf(s), e)
  {
    hide Finality, Money, RequestId;
    forall e ensures e in Money(IndexOf(s)) <==> e in s.current && Finality(s, e) { MoneyFacts(s, e); }
  }

  lemma HistoryMeans(s: EvaluationState)
    ensures SettledOnce(s) <==> HasSettledHistory(s)
  {
    hide RequestId;
  }

  /** Money fails on two finalities at once, and on a denial after a settlement; one agreed finality names the path. */
  lemma MoneyExactly(s: EvaluationState)
    ensures MoneyOf(s).status == FAIL <==> Conflicting(s) || (NoTransfer(s) && SettledOnce(s))
    ensures MoneyOf(s).path == Some(SettledPath) <==> AllSay(s, Word(SETTLED))
    ensures MoneyOf(s).path == Some(NoDisbursementPath) <==> NoTransfer(s) && !SettledOnce(s)
    ensures MoneyOf(s).status == PASS <==> MoneyOf(s).path.Some?
    ensures MoneyOf(s).status != NOT_APPLICABLE
  {
    ConflictMeans(s);
    AllSayMeans(s, Word(SETTLED));
    AllSayMeans(s, Word(NOT_EXECUTED));
    NoTransferMeans(s);
    HistoryMeans(s);
    hide Conflicting, AllSay, NoTransfer, SettledOnce, HasSettledHistory, AboutRequest, Money;
  }

  // ---- the business state ----

  const WAITING: set<Value> := {Word(PROCESSING), Word(PENDING), Word(NOT_ATTEMPTED), Flag(false)}

  /** Some current fact of `claim` says something else, and it is not just all still underway within the grace period. */
  predicate Diverges(s: EvaluationState, claim: Claim, value: Value) {
    && (exists e :: e in s.current && e in CurrentOf(IndexOf(s), claim) && e.value != value)
    && !(s.inGrace && forall e :: e in s.current && e in CurrentOf(IndexOf(s), claim) ==> e.value in WAITING)
  }

  lemma CurrentWithin(s: EvaluationState, claim: Claim)
    ensures CurrentOf(IndexOf(s), claim) <= s.current
  {
  }

  lemma ItemsMean(items: set<Evidence>, value: Value)
    ensures ValuesOf(items) == {} <==> items == {}
    ensures ValuesOf(items) == {value} <==> items != {} && forall e :: e in items ==> e.value == value
    ensures ValuesOf(items) <= TRANSITIONAL <==> forall e :: e in items ==> e.value in WAITING
  {
    forall e | e in items ensures e.value in ValuesOf(items) { }
    if items != {} && forall e :: e in items ==> e.value == value {
      var e :| e in items;
      assert ValuesOf(items) == {value};
    }
  }

  /** A business state fails when it diverges, and stays open without any fact or while all of them are underway in grace. */
  lemma ExpectMeans(s: EvaluationState, claim: Claim, value: Value)
    ensures Expect(s, claim, value) == FAIL <==> Diverges(s, claim, value)
    ensures Expect(s, claim, value) == PASS <==> Converged(s, claim, value)
    ensures Expect(s, claim, value) != NOT_APPLICABLE
  {
    CurrentWithin(s, claim);
    hide CurrentOf, ValuesOf, WAITING, TRANSITIONAL;
    ItemsMean(CurrentOf(IndexOf(s), claim), value);
  }

  /** A callback fails when some current message failed and the grace period is over. */
  lemma CallbackMeans(s: EvaluationState)
    ensures CallbackStatus(s) == FAIL <==>
      !s.inGrace && exists m :: m in s.current && m in CurrentOf(IndexOf(s), MessageConsumeStatus) && m.value == Word(FAILED)
    ensures CallbackStatus(s) != NOT_APPLICABLE
  {
    CurrentWithin(s, MessageConsumeStatus);
    hide CurrentOf, ConsumedCallback;
    var items := CurrentOf(IndexOf(s), MessageConsumeStatus);
    forall e | e in items ensures e.value in ValuesOf(items) { }
  }

  /** On its path the business state is not what the contract requires. */
  predicate StateFails(s: EvaluationState, contract: Contract, path: OutcomePath) {
    var final := Word(if path.SettledPath? then contract.settledState else contract.noDisbursementState);
    || Diverges(s, FundBusinessStatus, final) || Diverges(s, GuaranteeStatus, final) || Diverges(s, AssetStatus, final)
    || Diverges(s, AccountingEntryPresent, Flag(path.SettledPath?))
    || (path.SettledPath? && contract.requiresDelivery && Diverges(s, AssetDeliveryStatus, Word(DELIVERED)))
    || (path.SettledPath? && contract.requiresCallback && !s.inGrace
        && exists m :: m in s.current && m in CurrentOf(IndexOf(s), MessageConsumeStatus) && m.value == Word(FAILED))
  }

  lemma StateMeans(s: EvaluationState, contract: Contract, path: OutcomePath)
    ensures FAIL in StateChecks(s, contract, Some(path)) <==> StateFails(s, contract, path)
    ensures FAIL !in StateChecks(s, contract, None)
  {
    var final := Word(FinalState(contract, path));
    ExpectMeans(s, FundBusinessStatus, final);
    ExpectMeans(s, GuaranteeStatus, final);
    ExpectMeans(s, AssetStatus, final);
    ExpectMeans(s, AccountingEntryPresent, Flag(path.SettledPath?));
    ExpectMeans(s, AssetDeliveryStatus, Word(DELIVERED));
    CallbackMeans(s);
    hide Expect, CallbackStatus, Converged, Diverges, CurrentOf;
  }

  // ---- side effects ----

  /** A current fact, read after the effect and about its very target, of what the effect was to change. */
  predicate Aftermath(s: EvaluationState, effect: BoundEffect, e: Evidence) {
    var l, target := effect.ledger, effect.target;
    && e.observedAt > l.updatedAt && e.sourceAsOf.Some? && e.sourceAsOf.value >= l.updatedAt
    && e.eventTime.Some? && e.eventTime.value >= l.createdAt
    && match l.action
       case ReplayCallback =>
         && e in CurrentOf(IndexOf(s), MessageConsumeStatus) && e.tool == MessagesTool
         && target.messageRef == Some(e.subject.identifier) && target.eventRef == e.callbackEventId
       case RedeliverAsset =>
         && e in CurrentOf(IndexOf(s), AssetDeliveryStatus) && e.tool == AssetDeliveryTool && target.deliveryRef.Some?
         && exists r :: r in s.current && r in CurrentOf(IndexOf(s), AssetDeliveryEventRef) && r.tool == AssetDeliveryTool
              && r.observationId == e.observationId && r.value == Word(target.deliveryRef.value)
       case _ => false
  }

  predicate Succeeded(effect: BoundEffect, e: Evidence) {
    e.value == if effect.ledger.action.ReplayCallback? then Word(CONSUMED) else Word(DELIVERED)
  }

  /** An applied replay or redelivery is contradicted by a later fact about its target. */
  predicate EffectRefuted(s: EvaluationState, effect: BoundEffect) {
    && effect.ledger.status.Applied?
    && exists e :: e in s.current && Aftermath(s, effect, e) && !Succeeded(effect, e)
  }

  /** The evidence after an effect shows its outcome and nothing else. */
  predicate EffectProved(s: EvaluationState, effect: BoundEffect) {
    && (exists e :: e in s.current && Aftermath(s, effect, e))
    && forall e :: e in s.current && Aftermath(s, effect, e) ==> Succeeded(effect, e)
  }

  lemma AftermathMeans(s: EvaluationState, effect: BoundEffect, e: Evidence)
    requires BusinessEffect(effect.ledger.action)
    ensures e in OutcomeFacts(IndexOf(s), effect) <==> e in s.current && Aftermath(s, effect, e)
  {
    if effect.ledger.action.ReplayCallback? { ReplayAftermath(s, effect, e); } else { RedeliveryAftermath(s, effect, e); }
  }

  lemma ReplayAftermath(s: EvaluationState, effect: BoundEffect, e: Evidence)
    requires effect.ledger.action.ReplayCallback?
    ensures e in OutcomeFacts(IndexOf(s), effect) <==> e in s.current && Aftermath(s, effect, e)
  {
    CurrentWithin(s, MessageConsumeStatus);
    hide CurrentOf;
    var items := Of(IndexOf(s), MessageConsumeStatus, MessagesTool);
    assert e in OutcomeFacts(IndexOf(s), effect) <==> e in items && AfterEffect(IndexOf(s), effect, e);
    assert e in items ==> (AfterEffect(IndexOf(s), effect, e) <==> Aftermath(s, effect, e));
  }

  lemma RedeliveryAftermath(s: EvaluationState, effect: BoundEffect, e: Evidence)
    requires effect.ledger.action.RedeliverAsset?
    ensures e in OutcomeFacts(IndexOf(s), effect) <==> e in s.current && Aftermath(s, effect, e)
  {
    CurrentWithin(s, AssetDeliveryStatus);
    hide CurrentOf;
    var items := Of(IndexOf(s), AssetDeliveryStatus, AssetDeliveryTool);
    assert e in OutcomeFacts(IndexOf(s), effect) <==> e in items && AfterEffect(IndexOf(s), effect, e) by { hide AfterEffect; }
    if effect.target.deliveryRef.Some? { DeliveredEvent(s, effect.target, e); }
    assert e in items ==> (AfterEffect(IndexOf(s), effect, e) <==> Aftermath(s, effect, e));
  }

  lemma DeliveredEvent(s: EvaluationState, target: Target, e: Evidence)
    requires target.deliveryRef.Some?
    ensures (exists r :: r in Of(IndexOf(s), AssetDeliveryEventRef, AssetDeliveryTool)
               && r.value == Word(target.deliveryRef.value) && r.observationId == e.observationId)
       <==> exists r :: r in s.current && r in CurrentOf(IndexOf(s), AssetDeliveryEventRef) && r.tool == AssetDeliveryTool
              && r.observationId == e.observationId && r.value == Word(target.deliveryRef.value)
  {
    CurrentWithin(s, AssetDeliveryEventRef);
    hide CurrentOf;
  }

  lemma OutcomesMean(s: EvaluationState, effect: BoundEffect)
    requires BusinessEffect(effect.ledger.action)
    ensures OutcomeFacts(IndexOf(s), effect) == {} <==> !exists e :: e in s.current && Aftermath(s, effect, e)
    ensures ValuesOf(OutcomeFacts(IndexOf(s), effect)) == {EffectOutcome(effect.ledger.action)} <==> EffectProved(s, effect)
  {
    var items := OutcomeFacts(IndexOf(s), effect);
    ItemsMean(items, EffectOutcome(effect.ledger.action));
    hide ValuesOf, OutcomeFacts, Aftermath, TRANSITIONAL, WAITING;
    forall e ensures e in items <==> e in s.current && Aftermath(s, effect, e) { AftermathMeans(s, effect, e); }
  }

  /** An effect passes iff later evidence proves it, fails iff later evidence refutes it, and is open while unresolved or unseen. */
  lemma EffectMeans(s: EvaluationState, effect: BoundEffect)
    ensures var l, status := effect.ledger, EffectCheck(IndexOf(s), effect); var business := l.action.ReplayCallback? || l.action.RedeliverAsset?;
      && (status == FAIL <==> EffectRefuted(s, effect))
      && (status == PASS <==> l.status.Applied? && business && EffectProved(s, effect))
      && (status == NOT_APPLICABLE <==> !l.status.Unresolved() && !(l.status.Applied? && business))
  {
    if BusinessEffect(effect.ledger.action) { OutcomesMean(s, effect); }
    hide OutcomeFacts, ValuesOf;
  }

  lemma EffectsMean(s: EvaluationState)
    ensures FAIL in EffectChecks(s) <==> exists k :: k in s.effects && EffectRefuted(s, s.effects[k])
  {
    hide EffectCheck, EffectRefuted;
    forall k | k in s.effects ensures EffectCheck(IndexOf(s), s.effects[k]) == FAIL <==> EffectRefuted(s, s.effects[k]) {
      EffectMeans(s, s.effects[k]);
    }
  }

  // ---- the verdict, over the evidence ----

  /** The path the finalities name. */
  predicate OnPath(s: EvaluationState, path: OutcomePath) {
    if path.SettledPath? then AllSay(s, Word(SETTLED)) else NoTransfer(s) && !SettledOnce(s)
  }

  predicate Refuted(s: EvaluationState, contract: Contract) {
    || Conflicting(s)
    || (NoTransfer(s) && SettledOnce(s))
    || (!OnPath(s, NoDisbursementPath) && PaymentIdentity.Verified(IndexOf(s)).result == PaymentIdentity.MISMATCH)
    || (OnPath(s, SettledPath) && StateFails(s, contract, SettledPath))
    || (OnPath(s, NoDisbursementPath) && StateFails(s, contract, NoDisbursementPath))
    || (exists k :: k in s.effects && EffectRefuted(s, s.effects[k]))
  }

  /** A terminal case with something still under way. */
  predicate ClosedTooEarly(s: EvaluationState) {
    && s.row.status.Terminal()
    && (s.pendingReads || s.recoveryUnresolved || exists k :: k in s.effects && s.effects[k].ledger.status.Unresolved())
  }

  /** FAIL means: the money contradicts itself or an earlier settlement, the payment is someone else's, a business state
      or an effect is refuted, a policy was violated, or the case was closed too early. */
  lemma FailExactly(s: EvaluationState, contract: Contract, policy: EvaluationPolicy, now: Time)
    ensures Evaluate(s, contract, policy, now).verdict == FAIL <==>
      Refuted(s, contract) || s.policyInvalid || ClosedTooEarly(s)
  {
    VerdictExactly(s, contract, policy, now);
    FailingChecks(s, contract, policy, now);
    MoneyExactly(s);
    EffectsMean(s);
    PathStateMeans(s, contract);
    hide Emitted, MoneyOf, StateChecks, EffectChecks, StateFails, EffectRefuted, Conflicting, NoTransfer, SettledOnce, AllSay, Evaluate,
         PaymentIdentity.Verified;
  }

  lemma PathStateMeans(s: EvaluationState, contract: Contract)
    ensures FAIL in StateChecks(s, contract, MoneyOf(s).path) <==>
      || (OnPath(s, SettledPath) && StateFails(s, contract, SettledPath))
      || (OnPath(s, NoDisbursementPath) && StateFails(s, contract, NoDisbursementPath))
  {
    MoneyExactly(s);
    StateMeans(s, contract, SettledPath);
    StateMeans(s, contract, NoDisbursementPath);
    hide MoneyOf, StateChecks, StateFails, AllSay, NoTransfer, SettledOnce;
    match MoneyOf(s).path
    case None =>
    case Some(SettledPath) =>
    case Some(NoDisbursementPath) =>
  }

  /** Where a failing check comes from. */
  lemma FailingChecks(s: EvaluationState, contract: Contract, policy: EvaluationPolicy, now: Time)
    ensures Emitted(s, contract, policy, now, FAIL) <==>
      || MoneyOf(s).status == FAIL || IdentityStatus(s, MoneyOf(s).path) == FAIL
      || FAIL in StateChecks(s, contract, MoneyOf(s).path) || FAIL in EffectChecks(s) || s.policyInvalid || ClosedTooEarly(s)
  {
    hide MoneyOf, IdentityStatus, StateChecks, EffectChecks, Insufficient;
    assert forall d :: d in Domains() <==> d in {MoneyDim, Dimension.IdentityDim, StateDim, SideEffectDim, SufficiencyDim, PolicyDim, RecoveryDim, OutcomeDim};
    assert FAIL in RecoveryChecks(s) <==> ClosedTooEarly(s);
  }

  // ---- sufficiency ----

  /** The fact bears on the path: the business sources always, the callback and delivery sources on the settled path. */
  predicate BearsOn(e: Evidence, path: Option<OutcomePath>) {
    || e.tool in {PaymentTool, TraceTool, FundTool, GuaranteeTool, AssetTool, AccountingTool}
    || (path == Some(SettledPath) && e.tool in {CallbackTool, CallbackRawTool, MessagesTool, AssetDeliveryTool})
  }

  /** A safety question, if it is asked at all, is answered by some current fact. */
  predicate Settles(s: EvaluationState, name: Gaps.GapName) {
    Questions.Asked(IndexOf(s), name) ==> exists e :: e in s.current && Questions.Answers(IndexOf(s), name, e)
  }

  /** The evidence suffices: its provenance holds, no read is pending, the newest facts that bear on the path are complete,
      not stale and within their age, and the safety questions are answered; without a disbursement identity is none. */
  predicate Sufficient(s: EvaluationState, path: Option<OutcomePath>, now: Time, policy: EvaluationPolicy) {
    && s.provenanceValid && !s.pendingReads
    && (forall e :: e in s.latest && BearsOn(e, path) ==>
          && e.completeness == Complete && e.freshness != Freshness.Stale
          && (e.sourceAsOf.Some? ==> now <= e.sourceAsOf.value + policy.maxAge))
    && Settles(s, Gaps.FinalityGap) && Settles(s, Gaps.AssociationGap) && Settles(s, Gaps.FundProtocolGap)
    && (path == Some(NoDisbursementPath) || Settles(s, Gaps.IdentityGap))
  }

  lemma QualityMeans(s: EvaluationState, path: Option<OutcomePath>, now: Time, policy: EvaluationPolicy)
    ensures (exists e :: e in s.latest && RelevantTool(e.tool, path) && (TooOld(e, now, policy) || e.completeness != Complete)) <==>
      !(forall e :: e in s.latest && BearsOn(e, path) ==>
          && e.completeness == Complete && e.freshness != Freshness.Stale
          && (e.sourceAsOf.Some? ==> now <= e.sourceAsOf.value + policy.maxAge))
  {
    forall e: Evidence ensures RelevantTool(e.tool, path) <==> BearsOn(e, path) { }
    hide RelevantTool, BearsOn;
  }

  lemma QuestionSettled(s: EvaluationState, name: Gaps.GapName)
    requires OneFactPerId(s.current)
    ensures (exists g :: g in Gaps.GapsOf(IndexOf(s)) && g.name == name && !g.satisfied) <==> !Settles(s, name)
  {
    Questions.QuestionExactly(IndexOf(s), name);
    GapsByName(IndexOf(s), name);
    hide Gaps.GapOf, Gaps.GapsOf, Questions.Asked, Questions.Answers;
  }

  lemma GapsByName(index: EvidenceIndex, name: Gaps.GapName)
    ensures forall g :: g in Gaps.GapsOf(index) && g.name == name ==> g == Gaps.GapOf(index, name)
    ensures Gaps.GapOf(index, name).name == name
  {
    hide Gaps.Raised, Gaps.Answer, Gaps.Names;
  }

  lemma SafetyMeans(s: EvaluationState, path: Option<OutcomePath>)
    requires OneFactPerId(s.current)
    ensures !OpenSafetyGap(s, path) <==>
      && Settles(s, Gaps.FinalityGap) && Settles(s, Gaps.AssociationGap) && Settles(s, Gaps.FundProtocolGap)
      && (path == Some(NoDisbursementPath) || Settles(s, Gaps.IdentityGap))
  {
    QuestionSettled(s, Gaps.FinalityGap);
    QuestionSettled(s, Gaps.AssociationGap);
    QuestionSettled(s, Gaps.FundProtocolGap);
    QuestionSettled(s, Gaps.IdentityGap);
    hide Gaps.GapsOf, Settles;
  }

  /** The sufficiency check passes exactly on sufficient evidence. */
  lemma SufficientExactly(s: EvaluationState, path: Option<OutcomePath>, now: Time, policy: EvaluationPolicy)
    requires OneFactPerId(s.current)
    ensures Insufficient(s, path, now, policy) <==> !Sufficient(s, path, now, policy)
  {
    QualityMeans(s, path, now, policy);
    SafetyMeans(s, path);
    hide OpenSafetyGap, Settles, RelevantTool, TooOld, BearsOn;
  }

  // ---- what a passing verdict rests on ----

  /** A verified fact of a primary source, complete and current, no older than the policy allows, from the newest lookup
      of its tool and query. */
  predicate Trustworthy(verified: set<Evidence>, e: Evidence, policy: EvaluationPolicy, now: Time) {
    && e in verified && e.sourceKind == Primary && e.completeness == Complete && e.freshness == Freshness.Current
    && e.claim != SourceLookupStatus && e.observedAt <= now
    && e.sourceAsOf.Some? && e.sourceAsOf.value <= now && now <= e.sourceAsOf.value + policy.maxAge
    && forall o :: o in verified && o.tool == e.tool && o.scope == e.scope ==> o.observedAt <= e.observedAt
  }

  /** Current facts say that `claim` is `value`, and none says otherwise. */
  predicate Stated(s: EvaluationState, claim: Claim, value: Value) {
    && (exists e :: e in s.current && e in CurrentOf(IndexOf(s), claim) && e.value == value)
    && forall e :: e in s.current && e in CurrentOf(IndexOf(s), claim) ==> e.value == value
  }

  lemma StatedExactly(s: EvaluationState, claim: Claim, value: Value)
    ensures Converged(s, claim, value) <==> Stated(s, claim, value)
  {
    CurrentWithin(s, claim);
    ItemsMean(CurrentOf(IndexOf(s), claim), value);
    hide CurrentOf, ValuesOf;
  }

  lemma RefIsCurrent(s: EvaluationState, r: Id)
    requires r in PaymentIdentity.Verified(IndexOf(s)).refs
    ensures exists e :: e in s.current && e.id == r
  {
    PaymentIdentity.RefsAreCurrent(IndexOf(s), r);
    hide PaymentIdentity.Verified, CurrentOf;
    var e: Evidence :| e.id == r && PaymentIdentity.CurrentPrimary(IndexOf(s), e);
    CurrentWithin(s, e.claim);
  }

  lemma RefsAreCurrent(s: EvaluationState)
    ensures forall r :: r in PaymentIdentity.Verified(IndexOf(s)).refs ==> exists e :: e in s.current && e.id == r
  {
    hide PaymentIdentity.Verified;
    forall r | r in PaymentIdentity.Verified(IndexOf(s)).refs ensures exists e :: e in s.current && e.id == r { RefIsCurrent(s, r); }
  }

  /** Under the V1 contract a settled PASS over a stored case rests on trustworthy facts only: they state the settlement,
      the final business states, the consumption and the delivery, and the matching identity refers to no others. */
  lemma SettledPassRests(t: Tables, x: Extractor, digest: Content -> Id, policy: EvaluationPolicy, c: Id, now: Time)
    requires c in t.cases
    requires Evaluate(ReadState(t, x, digest, policy, c, now), CONTRACT_V1, policy, now).verdict == PASS
    requires Evaluate(ReadState(t, x, digest, policy, c, now), CONTRACT_V1, policy, now).path == Some(SettledPath)
    ensures var s := ReadState(t, x, digest, policy, c, now);
      && (forall e :: e in s.current ==> Trustworthy(Read(t, x, digest, c).evidence, e, policy, now))
      && AllSay(s, Word(SETTLED)) && Stated(s, FundBusinessStatus, Word(SUCCESS)) && Stated(s, GuaranteeStatus, Word(SUCCESS))
      && Stated(s, AssetStatus, Word(SUCCESS)) && Stated(s, AccountingEntryPresent, Flag(true))
      && Stated(s, MessageConsumeStatus, Word(CONSUMED)) && Stated(s, AssetDeliveryStatus, Word(DELIVERED))
      && PaymentIdentity.Verified(IndexOf(s)).result == PaymentIdentity.MATCH
      && forall r :: r in PaymentIdentity.Verified(IndexOf(s)).refs ==> exists e :: e in s.current && e.id == r
  {
    hide ReadState, Trustworthy, Evaluate, AllSay, Stated, PaymentIdentity.Verified, Read;
    CurrentTrusted(t, x, digest, policy, c, now);
    PassStates(ReadState(t, x, digest, policy, c, now), policy, now);
    RefsAreCurrent(ReadState(t, x, digest, policy, c, now));
  }

  lemma CurrentTrusted(t: Tables, x: Extractor, digest: Content -> Id, policy: EvaluationPolicy, c: Id, now: Time)
    requires c in t.cases
    ensures forall e :: e in ReadState(t, x, digest, policy, c, now).current ==> Trustworthy(Read(t, x, digest, c).evidence, e, policy, now)
  {
    hide Read, InGrace, BoundEffects, PolicyInvalid, RecoveryUnresolved, PendingReads, DigestOf;
  }

  lemma PassStates(s: EvaluationState, policy: EvaluationPolicy, now: Time)
    requires Evaluate(s, CONTRACT_V1, policy, now).verdict == PASS && Evaluate(s, CONTRACT_V1, policy, now).path == Some(SettledPath)
    ensures AllSay(s, Word(SETTLED)) && Stated(s, FundBusinessStatus, Word(SUCCESS)) && Stated(s, GuaranteeStatus, Word(SUCCESS))
    ensures Stated(s, AssetStatus, Word(SUCCESS)) && Stated(s, AccountingEntryPresent, Flag(true))
    ensures Stated(s, MessageConsumeStatus, Word(CONSUMED)) && Stated(s, AssetDeliveryStatus, Word(DELIVERED))
    ensures PaymentIdentity.Verified(IndexOf(s)).result == PaymentIdentity.MATCH
  {
    SettledPassExactly(s, CONTRACT_V1, policy, now);
    AllSayMeans(s, Word(SETTLED));
    hide Evaluate, Converged, Stated, AllSay, Money, ValuesOf, EffectsShown, Clean, ConsumedCallback, PaymentIdentity.Verified, CurrentOf;
    StatedExactly(s, FundBusinessStatus, Word(SUCCESS));
    StatedExactly(s, GuaranteeStatus, Word(SUCCESS));
    StatedExactly(s, AssetStatus, Word(SUCCESS));
    StatedExactly(s, AccountingEntryPresent, Flag(true));
    StatedExactly(s, MessageConsumeStatus, Word(CONSUMED));
    StatedExactly(s, AssetDeliveryStatus, Word(DELIVERED));
  }
}
