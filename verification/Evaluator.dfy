/** The independent verdict: eight dimensions of checks over one verification state. */
module Evaluator {
  import opened Domain
  import opened Tables
  import opened Index
  import PaymentIdentity
  import Rules
  import Gaps
  import opened ClosureTransactions

  // The verification contract; V1 uses SUCCESS, FAILED, true, true.
  datatype Contract = Contract(settledState: Text, noDisbursementState: Text, requiresCallback: bool, requiresDelivery: bool)

  const CONTRACT_V1 := Contract(SUCCESS, FAILED, true, true)

  function Domains(): set<Dimension> {
    {MoneyDim, Dimension.IdentityDim, StateDim, SideEffectDim, SufficiencyDim, PolicyDim, RecoveryDim, OutcomeDim}
  }

  function IndexOf(s: EvaluationState): EvidenceIndex { EvidenceIndex(s.row, s.current) }

  function Of(index: EvidenceIndex, claim: Claim, tool: Tool): set<Evidence> {
    set e | e in CurrentOf(index, claim) && e.tool == tool
  }

  function ValuesOf(items: set<Evidence>): set<Value> { set e | e in items :: e.value }

  /** FAIL dominates INCONCLUSIVE, which dominates everything else. */
  function Aggregate(statuses: set<CheckStatus>): CheckStatus {
    if FAIL in statuses then FAIL else if INCONCLUSIVE in statuses then INCONCLUSIVE else PASS
  }

  // ---- money and identity ----

  function Money(index: EvidenceIndex): set<Evidence> { Of(index, PaymentFinality, PaymentTool) }

  /** The no-effect claim is about the original request itself. */
  predicate AboutRequest(index: EvidenceIndex, e: Evidence) {
    && e.subject.kind == FundRequestSubject && RequestId(index) == Some(e.subject.identifier)
    && e.fundRequestId == RequestId(index)
  }

  /** A verified settlement of the same request, however old. */
  predicate SettledBefore(s: EvaluationState, e: Evidence) {
    && e in s.evidence && e.tool == PaymentTool && e.claim == PaymentFinality && e.value == Word(SETTLED)
    && e.fundRequestId == RequestId(IndexOf(s)) && e.sourceKind == Primary && e.freshness == Freshness.Current
    && e.completeness == Complete
  }

  predicate HasSettledHistory(s: EvaluationState) { exists e :: e in s.evidence && SettledBefore(s, e) }

  datatype MoneyCheck = MoneyCheck(status: CheckStatus, path: Option<OutcomePath>)

  function MoneyOf(s: EvaluationState): MoneyCheck {
    var index := IndexOf(s);
    var finalities := ValuesOf(Money(index));
    if exists a, b :: a in finalities && b in finalities && a != b then MoneyCheck(FAIL, None)
    else if finalities == {Word(SETTLED)} then MoneyCheck(PASS, Some(SettledPath))
    else if finalities == {Word(NOT_EXECUTED)} && forall e :: e in Money(index) ==> AboutRequest(index, e) then
      if HasSettledHistory(s) then MoneyCheck(FAIL, None) else MoneyCheck(PASS, Some(NoDisbursementPath))
    else MoneyCheck(INCONCLUSIVE, None)
  }

  function IdentityStatus(s: EvaluationState, path: Option<OutcomePath>): CheckStatus {
    if path == Some(NoDisbursementPath) then NOT_APPLICABLE
    else match PaymentIdentity.Verified(IndexOf(s)).result
      case MISMATCH => FAIL
      case MATCH => PASS
      case UNKNOWN => INCONCLUSIVE
  }

  // ---- convergence of the business state ----

  const TRANSITIONAL: set<Value> := {Word(PROCESSING), Word(PENDING), Word(NOT_ATTEMPTED), Flag(false)}

  function Expect(s: EvaluationState, claim: Claim, expected: Value): CheckStatus {
    var observed := ValuesOf(CurrentOf(IndexOf(s), claim));
    if observed == {} then INCONCLUSIVE
    else if observed == {expected} then PASS
    else if observed <= TRANSITIONAL && s.inGrace then INCONCLUSIVE else FAIL
  }

  function FinalState(contract: Contract, path: OutcomePath): Text {
    if path.SettledPath? then contract.settledState else contract.noDisbursementState
  }

  function Expectations(s: EvaluationState, contract: Contract, path: OutcomePath): set<CheckStatus> {
    var final := Word(FinalState(contract, path));
    {Expect(s, FundBusinessStatus, final), Expect(s, GuaranteeStatus, final), Expect(s, AssetStatus, final),
     Expect(s, AccountingEntryPresent, Flag(path.SettledPath?))}
  }

  /** A received callback whose signature verified in the same observation, consumed at or after its reception. */
  predicate ConsumedCallback(index: EvidenceIndex, g: Evidence) {
    && g.value == Flag(true)
    && (exists sig :: sig in CurrentOf(index, CallbackSignatureVerified) && SignatureOf(sig, g))
    && (exists m :: m in CurrentOf(index, MessageConsumeStatus) && ConsumptionOf(m, g))
  }

  predicate SignatureOf(sig: Evidence, g: Evidence) {
    sig.subject == g.subject && sig.observationId == g.observationId && sig.value == Flag(true)
  }

  predicate ConsumptionOf(m: Evidence, g: Evidence) {
    && m.callbackEventId == Some(g.subject.identifier) && m.value == Word(CONSUMED)
    && m.eventTime.Some? && g.eventTime.Some? && m.eventTime.value >= g.eventTime.value
  }

  function CallbackStatus(s: EvaluationState): CheckStatus {
    var index := IndexOf(s);
    var values := ValuesOf(CurrentOf(index, MessageConsumeStatus));
    if (exists g :: g in CurrentOf(index, CallbackGatewayReceived) && ConsumedCallback(index, g)) && values <= {Word(CONSUMED)} then PASS
    else if Word(FAILED) in values && !s.inGrace then FAIL else INCONCLUSIVE
  }

  function StateChecks(s: EvaluationState, contract: Contract, path: Option<OutcomePath>): set<CheckStatus> {
    if path.None? then {INCONCLUSIVE}
    else
      Expectations(s, contract, path.value)
      + (if path.value.SettledPath? && contract.requiresCallback then {CallbackStatus(s)} else {})
      + (if path.value.SettledPath? && contract.requiresDelivery then {Expect(s, AssetDeliveryStatus, Word(DELIVERED))} else {})
  }

  // ---- side effects ----

  /** `e` shows the outcome of this very effect, and is strictly later than it. */
  predicate AfterEffect(index: EvidenceIndex, effect: BoundEffect, e: Evidence) {
    var ledger, target := effect.ledger, effect.target;
    && e.observedAt > ledger.updatedAt && e.sourceAsOf.Some? && e.sourceAsOf.value >= ledger.updatedAt
    && e.eventTime.Some? && e.eventTime.value >= ledger.createdAt
    && if ledger.action.ReplayCallback? then
         target.messageRef == Some(e.subject.identifier) && e.callbackEventId == target.eventRef
       else
         exists r :: r in Of(index, AssetDeliveryEventRef, AssetDeliveryTool) && target.deliveryRef.Some?
           && r.value == Word(target.deliveryRef.value) && r.observationId == e.observationId
  }

  function OutcomeFacts(index: EvidenceIndex, effect: BoundEffect): set<Evidence> {
    set e | e in (if effect.ledger.action.ReplayCallback? then Of(index, MessageConsumeStatus, MessagesTool)
                  else Of(index, AssetDeliveryStatus, AssetDeliveryTool))
      && AfterEffect(index, effect, e)
  }

  predicate BusinessEffect(a: Action) { a.ReplayCallback? || a.RedeliverAsset? }

  function EffectOutcome(a: Action): Value { if a.ReplayCallback? then Word(CONSUMED) else Word(DELIVERED) }

  function EffectCheck(index: EvidenceIndex, effect: BoundEffect): CheckStatus {
    if effect.ledger.status.Unresolved() then INCONCLUSIVE
    else if !effect.ledger.status.Applied? || !BusinessEffect(effect.ledger.action) then NOT_APPLICABLE
    else if OutcomeFacts(index, effect) == {} then INCONCLUSIVE
    else if ValuesOf(OutcomeFacts(index, effect)) == {EffectOutcome(effect.ledger.action)} then PASS else FAIL
  }

  function EffectChecks(s: EvaluationState): set<CheckStatus> {
    set k | k in s.effects :: EffectCheck(IndexOf(s), s.effects[k])
  }

  // ---- sufficiency, policy and recovery ----

  predicate RelevantTool(tool: Tool, path: Option<OutcomePath>) {
    || tool == PaymentTool || tool == TraceTool || tool == FundTool || tool == GuaranteeTool || tool == AssetTool || tool == AccountingTool
    || (path == Some(SettledPath) && (tool == CallbackTool || tool == CallbackRawTool || tool == MessagesTool || tool == AssetDeliveryTool))
  }

  predicate TooOld(e: Evidence, now: Time, policy: EvaluationPolicy) {
    e.freshness == Freshness.Stale || (e.sourceAsOf.Some? && now - e.sourceAsOf.value > policy.maxAge)
  }

  predicate ExemptGap(name: Gaps.GapName, path: Option<OutcomePath>) { path == Some(NoDisbursementPath) && name.IdentityGap? }

  predicate OpenSafetyGap(s: EvaluationState, path: Option<OutcomePath>) {
    exists g :: g in Gaps.GapsOf(IndexOf(s)) && !g.satisfied && Gaps.SafetyCritical(g.name) && !ExemptGap(g.name, path)
  }

  predicate Insufficient(s: EvaluationState, path: Option<OutcomePath>, now: Time, policy: EvaluationPolicy) {
    || !s.provenanceValid || s.pendingReads
    || (exists e :: e in s.latest && RelevantTool(e.tool, path) && (TooOld(e, now, policy) || e.completeness != Complete))
    || OpenSafetyGap(s, path)
  }

  predicate AnyUnresolved(s: EvaluationState) { exists k :: k in s.effects && s.effects[k].ledger.status.Unresolved() }

  function When(b: bool, status: CheckStatus): set<CheckStatus> { if b then {status} else {} }

  function RecoveryChecks(s: EvaluationState): set<CheckStatus> {
    When(s.recoveryUnresolved || AnyUnresolved(s), INCONCLUSIVE)
    + When(s.row.status.Terminal() && (s.pendingReads || s.recoveryUnresolved || AnyUnresolved(s)), FAIL)
  }

  // ---- the verdict ----

  /** The statuses of every check emitted for a dimension. */
  function ChecksOf(s: EvaluationState, contract: Contract, policy: EvaluationPolicy, now: Time, d: Dimension): set<CheckStatus> {
    var money := MoneyOf(s);
    match d
    case MoneyDim => {money.status}
    case IdentityDim => {IdentityStatus(s, money.path)}
    case StateDim => StateChecks(s, contract, money.path)
    case SideEffectDim => EffectChecks(s)
    case SufficiencyDim => When(Insufficient(s, money.path, now, policy), INCONCLUSIVE)
    case PolicyDim => When(s.policyInvalid, FAIL)
    case RecoveryDim => RecoveryChecks(s)
    case OutcomeDim => {Aggregate({money.status, IdentityStatus(s, money.path)} + StateChecks(s, contract, money.path) + EffectChecks(s))}
  }

  function DimensionStatus(checks: set<CheckStatus>): CheckStatus {
    if checks == {NOT_APPLICABLE} then NOT_APPLICABLE else Aggregate(checks)
  }

  function Dimensions(s: EvaluationState, contract: Contract, policy: EvaluationPolicy, now: Time): map<Dimension, CheckStatus> {
    map d | d in Domains() :: DimensionStatus(ChecksOf(s, contract, policy, now, d))
  }

  function Evaluate(s: EvaluationState, contract: Contract, policy: EvaluationPolicy, now: Time): ReportBody {
    var dimensions := Dimensions(s, contract, policy, now);
    ReportBody(s.caseId, s.snapshot, s.snapshot, MoneyOf(s).path, Aggregate(set d | d in dimensions :: dimensions[d]), dimensions,
               s.snapshot.policyVersion, s.snapshot.contractVersion)
  }

  /** A policy that leaves out a verification domain judges nothing. */
  function V1(contract: Contract, policy: EvaluationPolicy, required: set<Dimension>): Judge {
    (s: EvaluationState, now: Time) => if required == Domains() then Some(Evaluate(s, contract, policy, now)) else None
  }

  // ---- the loops ----

  method CheckCallback(s: EvaluationState) returns (status: CheckStatus)
    ensures status == CallbackStatus(s)
  {
    hide CurrentOf, ConsumedCallback;
    var index := IndexOf(s);
    var values := ValuesOf(CurrentOf(index, MessageConsumeStatus));
    var gateways, matched := CurrentOf(index, CallbackGatewayReceived), false;
    while gateways != {}
      invariant gateways <= CurrentOf(index, CallbackGatewayReceived)
      invariant matched <==> exists g :: g in CurrentOf(index, CallbackGatewayReceived) - gateways && ConsumedCallback(index, g)
    {
      var g :| g in gateways;
      if ConsumedCallback(index, g) { matched := true; }
      gateways := gateways - {g};
    }
    if matched && values <= {Word(CONSUMED)} { return PASS; }
    status := if Word(FAILED) in values && !s.inGrace then FAIL else INCONCLUSIVE;
  }

  method CheckEffects(s: EvaluationState) returns (checks: set<CheckStatus>)
    ensures checks == EffectChecks(s)
  {
    hide EffectCheck;
    checks := {};
    var keys := s.effects.Keys;
    while keys != {}
      invariant keys <= s.effects.Keys
      invariant checks == set k | k in s.effects.Keys - keys :: EffectCheck(IndexOf(s), s.effects[k])
    {
      var k :| k in keys;
      checks := checks + {EffectCheck(IndexOf(s), s.effects[k])};
      keys := keys - {k};
    }
  }

  method CheckGaps(s: EvaluationState, path: Option<OutcomePath>) returns (isOpen: bool)
    ensures isOpen <==> OpenSafetyGap(s, path)
  {
    var gaps := Gaps.DeriveGaps(IndexOf(s));
    hide Gaps.GapsOf, Gaps.SafetyCritical;
    isOpen := false;
    while gaps != {}
      invariant gaps <= Gaps.GapsOf(IndexOf(s))
      invariant isOpen <==> exists g :: g in Gaps.GapsOf(IndexOf(s)) - gaps && !g.satisfied && Gaps.SafetyCritical(g.name) && !ExemptGap(g.name, path)
    {
      var g :| g in gaps;
      if !g.satisfied && Gaps.SafetyCritical(g.name) && !ExemptGap(g.name, path) { isOpen := true; }
      gaps := gaps - {g};
    }
  }

  method CheckState(s: EvaluationState, contract: Contract, path: Option<OutcomePath>) returns (checks: set<CheckStatus>)
    ensures checks == StateChecks(s, contract, path)
  {
    hide Expect, CallbackStatus;
    if path.None? { return {INCONCLUSIVE}; }
    checks := Expectations(s, contract, path.value);
    if path.value.SettledPath? && contract.requiresCallback {
      var callback := CheckCallback(s);
      checks := checks + {callback};
    }
    if path.value.SettledPath? && contract.requiresDelivery { checks := checks + {Expect(s, AssetDeliveryStatus, Word(DELIVERED))}; }
  }

  method CheckSufficiency(s: EvaluationState, path: Option<OutcomePath>, now: Time, policy: EvaluationPolicy)
    returns (checks: set<CheckStatus>)
    ensures checks == When(Insufficient(s, path, now, policy), INCONCLUSIVE)
  {
    hide OpenSafetyGap, RelevantTool, TooOld;
    checks := {};
    if !s.provenanceValid { checks := checks + {INCONCLUSIVE}; }
    if s.pendingReads { checks := checks + {INCONCLUSIVE}; }
    if exists e :: e in s.latest && RelevantTool(e.tool, path) && (TooOld(e, now, policy) || e.completeness != Complete) {
      checks := checks + {INCONCLUSIVE};
    }
    var gap := CheckGaps(s, path);
    if gap { checks := checks + {INCONCLUSIVE}; }
  }

  method AggregateParts(parts: map<Dimension, set<CheckStatus>>) returns (dimensions: map<Dimension, CheckStatus>)
    requires parts.Keys == Domains()
    ensures dimensions == map d | d in Domains() :: DimensionStatus(parts[d])
  {
    hide Domains, DimensionStatus;
    dimensions := map[];
    var rest := parts.Keys;
    while rest != {}
      invariant rest <= Domains()
      invariant dimensions == map d | d in Domains() - rest :: DimensionStatus(parts[d])
    {
      var d :| d in rest;
      dimensions := dimensions[d := DimensionStatus(parts[d])];
      rest := rest - {d};
    }
  }

  /** Appends the checks of one dimension after another, then aggregates them. */
  method EvaluateState(s: EvaluationState, contract: Contract, policy: EvaluationPolicy, now: Time) returns (body: ReportBody)
    ensures body == Evaluate(s, contract, policy, now)
  {
    hide MoneyOf, IdentityStatus, StateChecks, EffectChecks, RecoveryChecks, Insufficient, DimensionStatus, Aggregate, When;
    var money := MoneyOf(s);
    var identity := IdentityStatus(s, money.path);
    var state := CheckState(s, contract, money.path);
    var effects := CheckEffects(s);
    var sufficiency := CheckSufficiency(s, money.path, now, policy);
    var parts := map[
      MoneyDim := {money.status}, Dimension.IdentityDim := {identity}, StateDim := state, SideEffectDim := effects,
      SufficiencyDim := sufficiency, PolicyDim := When(s.policyInvalid, FAIL), RecoveryDim := RecoveryChecks(s),
      OutcomeDim := {Aggregate({money.status, identity} + state + effects)}];
    PartsAreChecks(s, contract, policy, now, parts);
    var dimensions := AggregateParts(parts);
    assert dimensions == Dimensions(s, contract, policy, now);
    body := ReportBody(s.caseId, s.snapshot, s.snapshot, money.path, Aggregate(set d | d in dimensions :: dimensions[d]), dimensions,
                       s.snapshot.policyVersion, s.snapshot.contractVersion);
  }

  lemma PartsAreChecks(s: EvaluationState, contract: Contract, policy: EvaluationPolicy, now: Time, parts: map<Dimension, set<CheckStatus>>)
    requires var money, identity := MoneyOf(s), IdentityStatus(s, MoneyOf(s).path);
      var state, effects := StateChecks(s, contract, money.path), EffectChecks(s);
      parts == map[
        MoneyDim := {money.status}, Dimension.IdentityDim := {identity}, StateDim := state, SideEffectDim := effects,
        SufficiencyDim := When(Insufficient(s, money.path, now, policy), INCONCLUSIVE), PolicyDim := When(s.policyInvalid, FAIL),
        RecoveryDim := RecoveryChecks(s), OutcomeDim := {Aggregate({money.status, identity} + state + effects)}]
    ensures parts.Keys == Domains() && forall d :: d in Domains() ==> parts[d] == ChecksOf(s, contract, policy, now, d)
  {
    hide MoneyOf, IdentityStatus, StateChecks, EffectChecks, RecoveryChecks, Insufficient, Aggregate, When;
  }

  // ---- what PASS means ----

  predicate Harmless(checks: set<CheckStatus>) { checks <= {PASS, NOT_APPLICABLE} }

  lemma AggregateExactly(checks: set<CheckStatus>)
    ensures DimensionStatus(checks) in {PASS, NOT_APPLICABLE} <==> Harmless(checks)
    ensures Aggregate(checks) == PASS <==> Harmless(checks)
  {
    if FAIL !in checks && INCONCLUSIVE !in checks {
      forall c | c in checks ensures c in {PASS, NOT_APPLICABLE} {
        match c case PASS => case FAIL => case INCONCLUSIVE => case NOT_APPLICABLE =>
      }
    }
  }

  /** PASS exactly when every emitted check of every dimension is PASS or NOT_APPLICABLE. */
  lemma PassExactly(s: EvaluationState, contract: Contract, policy: EvaluationPolicy, now: Time)
    ensures Evaluate(s, contract, policy, now).verdict == PASS <==>
      forall d :: d in Domains() ==> Harmless(ChecksOf(s, contract, policy, now, d))
  {
    hide ChecksOf, Harmless, DimensionStatus, Domains;
    var dimensions := Dimensions(s, contract, policy, now);
    var statuses := set d | d in dimensions :: dimensions[d];
    AggregateExactly(statuses);
    forall d | d in Domains() ensures dimensions[d] in {PASS, NOT_APPLICABLE} <==> Harmless(ChecksOf(s, contract, policy, now, d)) {
      AggregateExactly(ChecksOf(s, contract, policy, now, d));
    }
    assert Harmless(statuses) <==> forall d :: d in dimensions ==> dimensions[d] in {PASS, NOT_APPLICABLE} by { StatusesHarmless(dimensions); }
  }

  lemma StatusesHarmless(dimensions: map<Dimension, CheckStatus>)
    ensures Harmless(set d | d in dimensions :: dimensions[d]) <==> forall d :: d in dimensions ==> dimensions[d] in {PASS, NOT_APPLICABLE}
  {
    var statuses := set d | d in dimensions :: dimensions[d];
    forall d | d in dimensions ensures dimensions[d] in statuses { }
    if forall d :: d in dimensions ==> dimensions[d] in {PASS, NOT_APPLICABLE} {
      forall c | c in statuses ensures c in {PASS, NOT_APPLICABLE} { }
    }
  }

  /** A passing verdict rules out everything closure must not bury: the judge of the closure protocol is sound. */
  lemma V1IsSound(contract: Contract, policy: EvaluationPolicy, required: set<Dimension>)
    ensures Sound(V1(contract, policy, required))
  {
    hide Evaluate;
    var judge := V1(contract, policy, required);
    forall s, now | judge(s, now).Some? && judge(s, now).value.verdict == PASS
      ensures Settled(s) && judge(s, now).value == Evaluate(s, contract, policy, now)
    {
      PassSettles(s, contract, policy, now);
    }
    forall s, now ensures Identifies(Evaluate(s, contract, policy, now), s) { EvaluateIdentifies(s, contract, policy, now); }
  }

  predicate Identifies(body: ReportBody, s: EvaluationState) {
    && body.snapshot == s.snapshot && body.snapshotId == s.snapshot && body.caseId == s.caseId
    && body.policyVersion == s.snapshot.policyVersion && body.contractVersion == s.snapshot.contractVersion
  }

  lemma EvaluateIdentifies(s: EvaluationState, contract: Contract, policy: EvaluationPolicy, now: Time)
    ensures Identifies(Evaluate(s, contract, policy, now), s)
  {
    hide MoneyOf, Dimensions;
  }

  lemma PassSettles(s: EvaluationState, contract: Contract, policy: EvaluationPolicy, now: Time)
    requires Evaluate(s, contract, policy, now).verdict == PASS
    ensures Settled(s)
  {
    PassExactly(s, contract, policy, now);
    hide Evaluate, MoneyOf, IdentityStatus, StateChecks, EffectChecks, OpenSafetyGap, RelevantTool, TooOld;
    assert Harmless(ChecksOf(s, contract, policy, now, SufficiencyDim));
    assert Harmless(ChecksOf(s, contract, policy, now, PolicyDim));
    assert Harmless(ChecksOf(s, contract, policy, now, RecoveryDim));
    assert INCONCLUSIVE !in RecoveryChecks(s);
  }

  // ---- the two outcome paths ----

  /** The current facts of `claim` say exactly `value`. */
  predicate Converged(s: EvaluationState, claim: Claim, value: Value) {
    ValuesOf(CurrentOf(IndexOf(s), claim)) == {value}
  }

  predicate StatesConverged(s: EvaluationState, contract: Contract, path: OutcomePath) {
    var final := Word(FinalState(contract, path));
    && Converged(s, FundBusinessStatus, final) && Converged(s, GuaranteeStatus, final) && Converged(s, AssetStatus, final)
    && Converged(s, AccountingEntryPresent, Flag(path.SettledPath?))
  }

  /** Some callback was received, signed and consumed, and nothing else happened to any message. */
  predicate CallbackConverged(s: EvaluationState) {
    && (exists g :: g in CurrentOf(IndexOf(s), CallbackGatewayReceived) && ConsumedCallback(IndexOf(s), g))
    && Converged(s, MessageConsumeStatus, Word(CONSUMED))
  }

  /** The effect is resolved and, if it is an applied business effect, evidence strictly after it shows its outcome and no other. */
  predicate EffectShown(index: EvidenceIndex, effect: BoundEffect) {
    && !effect.ledger.status.Unresolved()
    && (effect.ledger.status.Applied? && BusinessEffect(effect.ledger.action) ==>
          ValuesOf(OutcomeFacts(index, effect)) == {EffectOutcome(effect.ledger.action)})
  }

  predicate EffectsShown(s: EvaluationState) {
    forall k :: k in s.effects ==> EffectShown(IndexOf(s), s.effects[k])
  }

  /** Nothing outside the business outcome stands in the way. */
  predicate Clean(s: EvaluationState, path: OutcomePath, policy: EvaluationPolicy, now: Time) {
    !Insufficient(s, Some(path), now, policy) && !s.policyInvalid && !s.recoveryUnresolved
  }

  lemma ExpectExactly(s: EvaluationState, claim: Claim, value: Value)
    ensures Expect(s, claim, value) in {PASS, NOT_APPLICABLE} <==> Converged(s, claim, value)
  {
  }

  lemma EffectExactly(index: EvidenceIndex, effect: BoundEffect)
    ensures EffectCheck(index, effect) in {PASS, NOT_APPLICABLE} <==> EffectShown(index, effect)
  {
    hide OutcomeFacts;
    assert OutcomeFacts(index, effect) == {} ==> ValuesOf(OutcomeFacts(index, effect)) == {};
  }

  lemma EffectsExactly(s: EvaluationState)
    ensures Harmless(EffectChecks(s)) <==> EffectsShown(s)
  {
    hide EffectCheck, EffectShown;
    forall k | k in s.effects
      ensures EffectCheck(IndexOf(s), s.effects[k]) in EffectChecks(s)
      ensures EffectCheck(IndexOf(s), s.effects[k]) in {PASS, NOT_APPLICABLE} <==> EffectShown(IndexOf(s), s.effects[k])
    {
      EffectExactly(IndexOf(s), s.effects[k]);
    }
  }

  lemma CallbackExactly(s: EvaluationState)
    ensures CallbackStatus(s) in {PASS, NOT_APPLICABLE} <==> CallbackConverged(s)
  {
    hide CurrentOf;
    var index := IndexOf(s);
    var messages := CurrentOf(index, MessageConsumeStatus);
    if g :| g in CurrentOf(index, CallbackGatewayReceived) && ConsumedCallback(index, g) {
      var m :| m in messages && ConsumptionOf(m, g);
      assert m.value in ValuesOf(messages);
    }
  }

  lemma StatesExactly(s: EvaluationState, contract: Contract, path: OutcomePath)
    ensures Harmless(StateChecks(s, contract, Some(path))) <==>
      && StatesConverged(s, contract, path)
      && (path.SettledPath? && contract.requiresCallback ==> CallbackConverged(s))
      && (path.SettledPath? && contract.requiresDelivery ==> Converged(s, AssetDeliveryStatus, Word(DELIVERED)))
  {
    hide Expect, CallbackStatus, Converged, CallbackConverged;
    var final := Word(FinalState(contract, path));
    ExpectExactly(s, FundBusinessStatus, final);
    ExpectExactly(s, GuaranteeStatus, final);
    ExpectExactly(s, AssetStatus, final);
    ExpectExactly(s, AccountingEntryPresent, Flag(path.SettledPath?));
    ExpectExactly(s, AssetDeliveryStatus, Word(DELIVERED));
    CallbackExactly(s);
  }

  lemma RecoveryExactly(s: EvaluationState)
    requires EffectsShown(s) && !s.pendingReads
    ensures Harmless(RecoveryChecks(s)) <==> !s.recoveryUnresolved
  {
    hide OutcomeFacts;
    assert s.recoveryUnresolved ==> INCONCLUSIVE in RecoveryChecks(s);
  }

  lemma SingleHarmless(status: CheckStatus)
    ensures Harmless({status}) <==> status in {PASS, NOT_APPLICABLE}
  {
  }

  /** Given an outcome path, the verdict is PASS exactly when the business states, the effects, the identity and
      everything around them are as that path requires. */
  lemma PassOnPathExactly(s: EvaluationState, contract: Contract, policy: EvaluationPolicy, now: Time, path: OutcomePath)
    requires MoneyOf(s) == MoneyCheck(PASS, Some(path))
    ensures Evaluate(s, contract, policy, now).verdict == PASS <==>
      && IdentityStatus(s, Some(path)) in {PASS, NOT_APPLICABLE}
      && Harmless(StateChecks(s, contract, Some(path))) && EffectsShown(s) && Clean(s, path, policy, now)
  {
    PassExactly(s, contract, policy, now);
    EffectsExactly(s);
    hide Evaluate, MoneyOf, IdentityStatus, StateChecks, EffectChecks, EffectsShown, RecoveryChecks, OpenSafetyGap, RelevantTool, TooOld;
    SingleHarmless(PASS);
    SingleHarmless(IdentityStatus(s, Some(path)));
    AggregateExactly({PASS, IdentityStatus(s, Some(path))} + StateChecks(s, contract, Some(path)) + EffectChecks(s));
    if Harmless(EffectChecks(s)) && !s.pendingReads { RecoveryExactly(s); }
    EveryDomain(s, contract, policy, now);
  }

  lemma EveryDomain(s: EvaluationState, contract: Contract, policy: EvaluationPolicy, now: Time)
    ensures (forall d :: d in Domains() ==> Harmless(ChecksOf(s, contract, policy, now, d))) <==>
      && Harmless(ChecksOf(s, contract, policy, now, MoneyDim)) && Harmless(ChecksOf(s, contract, policy, now, Dimension.IdentityDim))
      && Harmless(ChecksOf(s, contract, policy, now, StateDim)) && Harmless(ChecksOf(s, contract, policy, now, SideEffectDim))
      && Harmless(ChecksOf(s, contract, policy, now, SufficiencyDim)) && Harmless(ChecksOf(s, contract, policy, now, PolicyDim))
      && Harmless(ChecksOf(s, contract, policy, now, RecoveryDim)) && Harmless(ChecksOf(s, contract, policy, now, OutcomeDim))
  {
    hide ChecksOf;
  }

  /** A passing report always names its path. */
  lemma PassHasPath(s: EvaluationState, contract: Contract, policy: EvaluationPolicy, now: Time)
    requires Evaluate(s, contract, policy, now).verdict == PASS
    ensures MoneyOf(s).path.Some? && MoneyOf(s) == MoneyCheck(PASS, MoneyOf(s).path)
  {
    PassExactly(s, contract, policy, now);
    hide Evaluate, IdentityStatus, EffectChecks, RecoveryChecks, Insufficient, Expectations, CallbackStatus, Money, HasSettledHistory;
    assert Harmless(ChecksOf(s, contract, policy, now, MoneyDim));
    assert Harmless(ChecksOf(s, contract, policy, now, StateDim));
    SingleHarmless(MoneyOf(s).status);
    SingleHarmless(INCONCLUSIVE);
  }

  /** PASS on the settled path: the current finalities are exactly SETTLED, the payment identity matches in every
      dimension, the four states converged, a signed callback of the same event was consumed and nothing else happened
      to a message, delivery succeeded, and every applied effect shows its outcome. */
  lemma SettledPassExactly(s: EvaluationState, contract: Contract, policy: EvaluationPolicy, now: Time)
    ensures Evaluate(s, contract, policy, now).verdict == PASS && Evaluate(s, contract, policy, now).path == Some(SettledPath) <==>
      && ValuesOf(Money(IndexOf(s))) == {Word(SETTLED)}
      && PaymentIdentity.Verified(IndexOf(s)).result == PaymentIdentity.MATCH
      && StatesConverged(s, contract, SettledPath)
      && (contract.requiresCallback ==> CallbackConverged(s))
      && (contract.requiresDelivery ==> Converged(s, AssetDeliveryStatus, Word(DELIVERED)))
      && EffectsShown(s) && Clean(s, SettledPath, policy, now)
  {
    SettledMoney(s);
    EvaluatePath(s, contract, policy, now);
    hide Evaluate, MoneyOf, StateChecks, EffectsShown, Clean, StatesConverged, CallbackConverged, Converged, Money;
    if MoneyOf(s) == MoneyCheck(PASS, Some(SettledPath)) {
      PassOnPathExactly(s, contract, policy, now, SettledPath);
      StatesExactly(s, contract, SettledPath);
    }
    if Evaluate(s, contract, policy, now).verdict == PASS { PassHasPath(s, contract, policy, now); }
  }

  /** PASS without disbursement: every current finality says NOT_EXECUTED about this very request, no verified
      settlement of it was ever observed, and the states failed accordingly. */
  lemma NoDisbursementPassExactly(s: EvaluationState, contract: Contract, policy: EvaluationPolicy, now: Time)
    ensures Evaluate(s, contract, policy, now).verdict == PASS && Evaluate(s, contract, policy, now).path == Some(NoDisbursementPath) <==>
      && ValuesOf(Money(IndexOf(s))) == {Word(NOT_EXECUTED)}
      && (forall e :: e in Money(IndexOf(s)) ==> AboutRequest(IndexOf(s), e))
      && (forall e :: e in s.evidence ==> !SettledBefore(s, e))
      && StatesConverged(s, contract, NoDisbursementPath) && EffectsShown(s) && Clean(s, NoDisbursementPath, policy, now)
  {
    UnexecutedMoney(s);
    EvaluatePath(s, contract, policy, now);
    hide Evaluate, MoneyOf, StateChecks, EffectsShown, Clean, StatesConverged, Money, AboutRequest, SettledBefore;
    if MoneyOf(s) == MoneyCheck(PASS, Some(NoDisbursementPath)) {
      PassOnPathExactly(s, contract, policy, now, NoDisbursementPath);
      StatesExactly(s, contract, NoDisbursementPath);
    }
    if Evaluate(s, contract, policy, now).verdict == PASS { PassHasPath(s, contract, policy, now); }
  }

  lemma SettledMoney(s: EvaluationState)
    ensures MoneyOf(s) == MoneyCheck(PASS, Some(SettledPath)) <==> ValuesOf(Money(IndexOf(s))) == {Word(SETTLED)}
    ensures MoneyOf(s).path == Some(SettledPath) ==> MoneyOf(s).status == PASS
  {
    hide Money, HasSettledHistory, AboutRequest;
  }

  lemma UnexecutedMoney(s: EvaluationState)
    ensures MoneyOf(s) == MoneyCheck(PASS, Some(NoDisbursementPath)) <==>
      && ValuesOf(Money(IndexOf(s))) == {Word(NOT_EXECUTED)}
      && (forall e :: e in Money(IndexOf(s)) ==> AboutRequest(IndexOf(s), e))
      && (forall e :: e in s.evidence ==> !SettledBefore(s, e))
    ensures MoneyOf(s).path == Some(NoDisbursementPath) ==> MoneyOf(s).status == PASS
  {
    hide Money, AboutRequest, SettledBefore;
  }

  lemma EvaluatePath(s: EvaluationState, contract: Contract, policy: EvaluationPolicy, now: Time)
    ensures Evaluate(s, contract, policy, now).path == MoneyOf(s).path
  {
    hide MoneyOf, Dimensions;
  }

  /** Under the V1 contract a settled PASS rests on a confirmed reading of SUCCESS, an answered request association, and
      only fresh and complete relevant facts. */
  lemma SettledPassEntails(s: EvaluationState, policy: EvaluationPolicy, now: Time)
    requires Evaluate(s, CONTRACT_V1, policy, now).verdict == PASS
    requires Evaluate(s, CONTRACT_V1, policy, now).path == Some(SettledPath)
    requires OneFactPerId(s.current)
    ensures Rules.Decide(IndexOf(s), Rules.H8).status.Confirmed?
    ensures Gaps.AssociationWitness(IndexOf(s)) != {}
    ensures forall e :: e in s.latest && RelevantTool(e.tool, Some(SettledPath)) ==> !TooOld(e, now, policy) && e.completeness == Complete
  {
    SettledPassExactly(s, CONTRACT_V1, policy, now);
    hide Evaluate, TooOld, RelevantTool, EffectsShown, CallbackConverged, CurrentOf, Money, OpenSafetyGap, Gaps.Raised,
         Gaps.AssociationWitness, Rules.Decide, Converged, PaymentIdentity.Verified, ExemptGap;
    var index := IndexOf(s);
    SuccessAsked(s);
    MoneyIsEvidence(s);
    NotExempt();
    SafetyGapAnswered(s, Some(SettledPath), Gaps.FundProtocolGap);
    SafetyGapAnswered(s, Some(SettledPath), Gaps.AssociationGap);
    Gaps.FundProtocolAnswered(index);
  }

  lemma SuccessAsked(s: EvaluationState)
    requires Converged(s, FundBusinessStatus, Word(SUCCESS))
    ensures Gaps.Raised(IndexOf(s), Gaps.FundProtocolGap)
  {
    hide CurrentOf;
    var items := CurrentOf(IndexOf(s), FundBusinessStatus);
    forall e | e in items ensures e.value == Word(SUCCESS) { assert e.value in ValuesOf(items); }
    assert Word(SUCCESS) in ValuesOf(items);
    var e :| e in items;
    assert e in Agreed(IndexOf(s), FundBusinessStatus, Word(SUCCESS));
  }

  lemma MoneyIsEvidence(s: EvaluationState)
    requires Word(SETTLED) in ValuesOf(Money(IndexOf(s)))
    ensures Gaps.Raised(IndexOf(s), Gaps.AssociationGap)
  {
    hide CurrentOf;
    var e :| e in Money(IndexOf(s));
    CurrentIsUsable(IndexOf(s), PaymentFinality, e);
    assert e in All(IndexOf(s), PaymentFinality);
  }

  lemma NotExempt()
    ensures forall name :: !ExemptGap(name, Some(SettledPath))
  {
  }

  lemma SafetyGapAnswered(s: EvaluationState, path: Option<OutcomePath>, name: Gaps.GapName)
    requires !OpenSafetyGap(s, path) && Gaps.SafetyCritical(name) && !ExemptGap(name, path) && Gaps.Raised(IndexOf(s), name)
    ensures Gaps.Answer(IndexOf(s), name) != {}
  {
    hide Gaps.Raised, Gaps.Answer;
    assert name in Gaps.Names();
    assert Gaps.GapOf(IndexOf(s), name) in Gaps.GapsOf(IndexOf(s));
  }
}
