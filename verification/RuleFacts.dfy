/** What the facts of a case say, and which of them the rules read. */
module RuleFacts {
  import opened Domain
  import opened Index
  import opened PaymentIdentity
  import opened Rules

  // ---- what a fact says ----

  /** A current fact of `tool`, as a primary source, that `claim` is `value`, which no current rival contradicts. */
  predicate Says(index: EvidenceIndex, e: Evidence, claim: Claim, value: Value, tool: Tool) {
    && e in CurrentOf(index, claim) && e.value == value && e.tool == tool && e.sourceKind == Primary
    && forall o :: o in CurrentOf(index, claim) && RivalryOf(o) == RivalryOf(e) ==> o.value == value
  }

  /** The fact names the request of the case, or, naming none, is about it. */
  predicate OfRequest(index: EvidenceIndex, e: Evidence) {
    RequestId(index) == if e.fundRequestId.Some? then e.fundRequestId else Some(e.subject.identifier)
  }

  predicate Matches(index: EvidenceIndex) { Verified(index).result == MATCH }

  /** A fact the matching payment identity rests on. */
  predicate MatchFact(index: EvidenceIndex, e: Evidence) { Matches(index) && e.id in Verified(index).refs }

  predicate FundKnows(index: EvidenceIndex, e: Evidence) {
    && OfRequest(index, e)
    && (|| Says(index, e, FundBusinessStatus, Word(PROCESSING), FundTool)
        || Says(index, e, FundBusinessStatus, Word(SUCCESS), FundTool)
        || Says(index, e, FundBusinessStatus, Word(FAILED), FundTool))
  }

  /** The trace itself links this timeout to the request. */
  predicate TimedOut(index: EvidenceIndex, e: Evidence) {
    Says(index, e, HttpResponseStatus, Word(TIMEOUT), TraceTool) && e.fundRequestId.Some? && e.fundRequestId == RequestId(index)
  }

  predicate Received(index: EvidenceIndex, e: Evidence) {
    || Says(index, e, CallbackGatewayReceived, Flag(true), CallbackTool)
    || Says(index, e, CallbackGatewayReceived, Flag(true), CallbackRawTool)
  }

  /** Message `m` of callback `g` ended in `outcome`, no earlier than the gateway received `g`. */
  predicate Handled(index: EvidenceIndex, g: Evidence, m: Evidence, outcome: Text) {
    && Received(index, g) && Says(index, m, MessageConsumeStatus, Word(outcome), MessagesTool)
    && m.callbackEventId == Some(g.subject.identifier)
    && g.eventTime.Some? && m.eventTime.Some? && g.eventTime.value <= m.eventTime.value
  }

  /** Message `m` of the received callback `g` failed, and no message of that callback was consumed at or after it. */
  predicate FailedFor(index: EvidenceIndex, g: Evidence, m: Evidence) {
    && Handled(index, g, m, FAILED)
    && forall l :: l in index.evidence && Says(index, l, MessageConsumeStatus, Word(CONSUMED), MessagesTool)
                   && l.callbackEventId == Some(g.subject.identifier) && l.eventTime.Some?
         ==> l.eventTime.value < m.eventTime.value
  }

  /** A current fact of `claim` recorded with message `m`. */
  predicate RecordedWith(index: EvidenceIndex, m: Evidence, e: Evidence, claim: Claim) {
    && e in CurrentOf(index, claim) && e.tool == MessagesTool && e.sourceKind == Primary
    && e.subject == m.subject && e.observationId == m.observationId && e.eventTime == m.eventTime
    && e.callbackEventId == m.callbackEventId && e.contentHash == m.contentHash
  }

  /** What is recorded of `claim` with message `m` is `value`, and nothing else. */
  predicate RecordedAs(index: EvidenceIndex, m: Evidence, claim: Claim, value: Value) {
    && (exists e :: e in index.evidence && RecordedWith(index, m, e, claim))
    && forall e :: e in index.evidence && RecordedWith(index, m, e, claim) ==> e.value == value
  }

  /** One type was expected by message `m` and another one found. */
  predicate OtherType(index: EvidenceIndex, m: Evidence) {
    exists a, b :: a in index.evidence && b in index.evidence && a.value != b.value
      && RecordedAs(index, m, MessageExpectedFieldType, a.value) && RecordedAs(index, m, MessageActualFieldType, b.value)
  }

  /** Message `m` failed on the type of loanNo: one type expected, another one found. */
  predicate WrongType(index: EvidenceIndex, m: Evidence) {
    && Says(index, m, MessageConsumeStatus, Word(FAILED), MessagesTool)
    && RecordedAs(index, m, MessageErrorCode, Word(CALLBACK_SCHEMA_MISMATCH))
    && RecordedAs(index, m, MessageErrorField, Word(LOAN_NO))
    && OtherType(index, m)
  }

  /** A fact of the wrong type in message `m`: the message, or a detail of its error. */
  predicate PartOf(index: EvidenceIndex, m: Evidence, e: Evidence) {
    || e == m
    || RecordedWith(index, m, e, MessageErrorCode) || RecordedWith(index, m, e, MessageErrorField)
    || RecordedWith(index, m, e, MessageExpectedFieldType) || RecordedWith(index, m, e, MessageActualFieldType)
  }

  /** A guarantee fact binds the original request to a protocol version. */
  predicate Binds(index: EvidenceIndex, e: Evidence) {
    && e in CurrentOf(index, GuaranteeStatus) && e.tool == GuaranteeTool && e.sourceKind == Primary
    && e.protocolVersion.Some? && e.fundRequestId.Some? && OfRequest(index, e)
  }

  predicate SuccessDocument(index: EvidenceIndex, e: Evidence, version: Option<Text>) {
    && e in CurrentOf(index, ProtocolBusinessSemantics) && e.tool == ProtocolTool && e.subject.field == Some(SUCCESS)
    && e.protocolVersion == version
  }

  /** A document says that SUCCESS means loan created, payment separate. */
  predicate Separates(index: EvidenceIndex, e: Evidence) {
    Says(index, e, ProtocolBusinessSemantics, Word(LOAN_CREATED_PAYMENT_SEPARATE), ProtocolTool) && e.subject.field == Some(SUCCESS)
  }

  /** The version `b` binds is the only bound one, and all current SUCCESS documents of it are one document, which keeps
      payment separate. */
  predicate Governs(index: EvidenceIndex, b: Evidence) {
    && Binds(index, b)
    && (forall o :: o in index.evidence && Binds(index, o) ==> o.protocolVersion == b.protocolVersion)
    && (exists e :: e in index.evidence && Separates(index, e) && e.protocolVersion == b.protocolVersion)
    && forall d, e :: d in index.evidence && e in index.evidence
                      && SuccessDocument(index, d, b.protocolVersion) && SuccessDocument(index, e, b.protocolVersion)
         ==> d.subject.identifier == e.subject.identifier
  }

  predicate Applied(index: EvidenceIndex, e: Evidence) { Says(index, e, GuaranteeStatus, Word(SUCCESS), GuaranteeTool) }

  predicate Undelivered(index: EvidenceIndex, e: Evidence) { Says(index, e, AssetDeliveryStatus, Word(FAILED), AssetDeliveryTool) }

  predicate Waits(index: EvidenceIndex, e: Evidence) { Says(index, e, AssetStatus, Word(PROCESSING), AssetTool) }

  /** The partner is told of success, its notification failed, and it still waits. */
  predicate NotConverged(index: EvidenceIndex) {
    && (exists e :: e in index.evidence && Applied(index, e))
    && (exists e :: e in index.evidence && Undelivered(index, e))
    && (exists e :: e in index.evidence && Waits(index, e))
  }

  /** `version` names the version of message `m`'s callback, `doc` says what loanNo is there, and `older` what it was in
      an earlier version of the same partner. */
  predicate Revised(m: Evidence, version: Evidence, doc: Evidence, older: Evidence) {
    && m.callbackEventId == Some(version.subject.identifier)
    && doc.subject.field == Some(LOAN_NO) && doc.protocolVersion.Some? && version.value == Word(doc.protocolVersion.value)
    && older.subject.field == Some(LOAN_NO)
    && PartnerOf(older.subject.identifier) == PartnerOf(doc.subject.identifier) && older.protocolVersion != doc.protocolVersion
    && older.eventTime.Some? && doc.eventTime.Some? && older.eventTime.value < doc.eventTime.value
  }

  /** The message carried the type of the revised version, and its consumer expected that of the earlier one. */
  predicate Outdated(index: EvidenceIndex, m: Evidence, version: Evidence, doc: Evidence, older: Evidence) {
    && Revised(m, version, doc, older)
    && version in CurrentOf(index, CallbackProtocolVersion)
    && doc in CurrentOf(index, ProtocolFieldType) && RecordedAs(index, m, MessageActualFieldType, doc.value)
    && older in CurrentOf(index, ProtocolFieldType) && RecordedAs(index, m, MessageExpectedFieldType, older.value)
  }

  predicate OutdatedFailure(index: EvidenceIndex, g: Evidence, m: Evidence, version: Evidence, doc: Evidence, older: Evidence) {
    FailedFor(index, g, m) && WrongType(index, m) && Outdated(index, m, version, doc, older)
  }

  predicate AbsentCallback(e: Evidence) {
    e.claim == SourceLookupStatus && (e.tool == CallbackTool || e.tool == CallbackRawTool) && e.value == Word(NOT_FOUND)
  }

  // ---- decisive facts ----

  /** Fact `e` counts for confirming `h`. */
  predicate Confirming(index: EvidenceIndex, h: Hypothesis, e: Evidence) {
    match h
    case H1 => Says(index, e, RequestSent, Flag(false), TraceTool)
    case H4 =>
      && Matches(index) && (exists o :: o in index.evidence && TimedOut(index, o))
      && (TimedOut(index, e) || MatchFact(index, e))
    case H6 => exists g, m :: g in index.evidence && m in index.evidence && FailedFor(index, g, m) && (e == g || e == m)
    case H6Schema =>
      exists g, m :: g in index.evidence && m in index.evidence && FailedFor(index, g, m) && WrongType(index, m)
        && (e == g || PartOf(index, m, e))
    case H7 => NotConverged(index) && (Applied(index, e) || Undelivered(index, e) || Waits(index, e))
    case H8 =>
      exists b :: b in index.evidence && Governs(index, b)
        && (e == b || (Separates(index, e) && e.protocolVersion == b.protocolVersion))
    case _ => false
  }

  /** Fact `e` counts for eliminating `h`. */
  predicate Eliminating(index: EvidenceIndex, h: Hypothesis, e: Evidence) {
    match h
    case H1 => Says(index, e, RequestSent, Flag(true), TraceTool)
    case H2 => MatchFact(index, e) || FundKnows(index, e)
    case H3 => MatchFact(index, e)
    case H4 => Says(index, e, HttpResponseStatus, Word(OK), TraceTool) && OfRequest(index, e)
    case H5 => Received(index, e)
    case H6 =>
      && !(exists g, m :: g in index.evidence && m in index.evidence && FailedFor(index, g, m))
      && exists g, m :: g in index.evidence && m in index.evidence && Handled(index, g, m, CONSUMED) && (e == g || e == m)
    case H7 => Says(index, e, AssetStatus, Word(SUCCESS), AssetTool)
    case _ => false
  }

  /** Fact `e` supports `h` without deciding it. */
  predicate Supporting(index: EvidenceIndex, h: Hypothesis, e: Evidence) {
    match h
    case H3 => Says(index, e, FundBusinessStatus, Word(FAILED), FundTool) && OfRequest(index, e)
    case H4 => TimedOut(index, e) || (Says(index, e, PaymentFinality, Word(SETTLED), PaymentTool) && OfRequest(index, e))
    case H5 => AbsentCallback(e)
    case H6 => Received(index, e) || Says(index, e, MessageConsumeStatus, Word(FAILED), MessagesTool)
    case H6Schema =>
      if exists m :: m in index.evidence && WrongType(index, m)
      then exists m :: m in index.evidence && WrongType(index, m) && PartOf(index, m, e)
      else Says(index, e, MessageConsumeStatus, Word(FAILED), MessagesTool)
    case H6Stale =>
      exists g, m, version, doc, older :: g in index.evidence && m in index.evidence && version in index.evidence
        && doc in index.evidence && older in index.evidence
        && OutdatedFailure(index, g, m, version, doc, older)
        && (e in {g, version, doc, older} || PartOf(index, m, e))
    case H7 => Applied(index, e) || Undelivered(index, e)
    case H8 => Separates(index, e)
    case _ => false
  }

  // ---- the rules read these facts ----

  lemma FactsMean(index: EvidenceIndex, claim: Claim, value: Value, tool: Tool, e: Evidence)
    ensures e in Facts(index, claim, value, {tool}) <==> Says(index, e, claim, value, tool)
    ensures Says(index, e, claim, value, tool) ==> e in index.evidence
  {
    hide CurrentOf, RivalryOf;
    CurrentIsEvidence(index, claim);
    AgreedMeans(index, claim, value, e);
    hide Agreed;
  }

  lemma AgreedMeans(index: EvidenceIndex, claim: Claim, value: Value, e: Evidence)
    ensures e in Agreed(index, claim, value) <==>
      && e in CurrentOf(index, claim) && e.value == value
      && forall o :: o in CurrentOf(index, claim) && RivalryOf(o) == RivalryOf(e) ==> o.value == value
  {
    hide CurrentOf, RivalryOf;
  }

  lemma RequestMeans(index: EvidenceIndex, claim: Claim, value: Text, tool: Tool, e: Evidence)
    ensures e in RequestFacts(index, claim, value, tool) <==> Says(index, e, claim, Word(value), tool) && OfRequest(index, e)
    ensures Says(index, e, claim, Word(value), tool) ==> e in index.evidence
  {
    FactsMean(index, claim, Word(value), tool, e);
    hide Facts, Says;
  }

  lemma TimeoutsMean(index: EvidenceIndex, e: Evidence)
    ensures e in Timeouts(index) <==> TimedOut(index, e)
    ensures TimedOut(index, e) ==> e in index.evidence
  {
    RequestMeans(index, HttpResponseStatus, TIMEOUT, TraceTool, e);
    hide RequestFacts, Says, RequestId;
  }

  lemma SettledMeans(index: EvidenceIndex, e: Evidence)
    ensures e in SettledWitness(index) <==> e in index.evidence && MatchFact(index, e)
  {
    hide Verified;
  }

  lemma FundMeans(index: EvidenceIndex, e: Evidence)
    ensures e in FundRecords(index) <==> FundKnows(index, e)
    ensures FundKnows(index, e) ==> e in index.evidence
  {
    RequestMeans(index, FundBusinessStatus, PROCESSING, FundTool, e);
    RequestMeans(index, FundBusinessStatus, SUCCESS, FundTool, e);
    RequestMeans(index, FundBusinessStatus, FAILED, FundTool, e);
    hide RequestFacts, Says, OfRequest;
  }

  lemma GatewayMeans(index: EvidenceIndex, e: Evidence)
    ensures e in Gateway(index) <==> Received(index, e)
    ensures Received(index, e) ==> e in index.evidence
  {
    FactsMean(index, CallbackGatewayReceived, Flag(true), CallbackTool, e);
    FactsMean(index, CallbackGatewayReceived, Flag(true), CallbackRawTool, e);
    hide Agreed, Says;
  }

  lemma SupersededMeans(index: EvidenceIndex, g: Evidence, m: Evidence)
    requires Handled(index, g, m, FAILED)
    ensures Superseded(index, Pair(g, m)) <==> !FailedFor(index, g, m)
  {
    forall l ensures (l in Messages(index, CONSUMED) <==> Says(index, l, MessageConsumeStatus, Word(CONSUMED), MessagesTool))
                     && (l in Messages(index, CONSUMED) ==> l in index.evidence) {
      FactsMean(index, MessageConsumeStatus, Word(CONSUMED), MessagesTool, l);
    }
    hide Says, Messages, Received;
  }

  lemma PairMeans(index: EvidenceIndex, value: Text, g: Evidence, m: Evidence)
    ensures Pair(g, m) in CallbackPairs(index, value) <==>
      Handled(index, g, m, value) && (value == FAILED ==> FailedFor(index, g, m))
    ensures Handled(index, g, m, value) ==> g in index.evidence && m in index.evidence
  {
    GatewayMeans(index, g);
    FactsMean(index, MessageConsumeStatus, Word(value), MessagesTool, m);
    hide Says, Facts, Gateway, Received, Superseded, FailedFor;
    if value == FAILED && Handled(index, g, m, FAILED) { SupersededMeans(index, g, m); }
  }

  /** Callback `g` and message `m` are paired for `value`. */
  predicate Ended(index: EvidenceIndex, g: Evidence, m: Evidence, value: Text) {
    Handled(index, g, m, value) && (value == FAILED ==> FailedFor(index, g, m))
  }

  lemma PairFactsMean(index: EvidenceIndex, value: Text, e: Evidence)
    ensures e in PairFacts(CallbackPairs(index, value)) <==>
      exists g, m :: g in index.evidence && m in index.evidence && Ended(index, g, m, value) && (e == g || e == m)
  {
    hide CallbackPairs, Handled, FailedFor;
    if e in PairFacts(CallbackPairs(index, value)) {
      var p :| p in CallbackPairs(index, value) && (e == p.gateway || e == p.message);
      assert p == Pair(p.gateway, p.message);
      PairMeans(index, value, p.gateway, p.message);
    }
    if g, m :| g in index.evidence && m in index.evidence && Ended(index, g, m, value) && (e == g || e == m) {
      PairMeans(index, value, g, m);
      assert Pair(g, m) in CallbackPairs(index, value);
    }
  }

  lemma DetailMeans(index: EvidenceIndex, m: Evidence, e: Evidence, claim: Claim)
    ensures e in Detail(index, m, claim) <==> RecordedWith(index, m, e, claim)
    ensures RecordedWith(index, m, e, claim) ==> e in index.evidence
  {
    if e in CurrentOf(index, claim) { CurrentIsUsable(index, claim, e); }
    hide CurrentOf;
  }

  lemma AnyRecorded(index: EvidenceIndex, m: Evidence, claim: Claim)
    ensures DetailValues(index, m, claim) != {} <==> exists e :: e in index.evidence && RecordedWith(index, m, e, claim)
  {
    hide RecordedWith, Detail;
    if e :| e in index.evidence && RecordedWith(index, m, e, claim) {
      DetailMeans(index, m, e, claim);
      assert e.value in DetailValues(index, m, claim);
    }
    if v :| v in DetailValues(index, m, claim) {
      var e :| e in Detail(index, m, claim);
      DetailMeans(index, m, e, claim);
    }
  }

  lemma AllRecorded(index: EvidenceIndex, m: Evidence, claim: Claim, value: Value)
    ensures DetailValues(index, m, claim) <= {value} <==>
      forall e :: e in index.evidence && RecordedWith(index, m, e, claim) ==> e.value == value
  {
    hide RecordedWith, Detail;
    forall e | e in index.evidence && RecordedWith(index, m, e, claim) ensures e.value in DetailValues(index, m, claim) {
      DetailMeans(index, m, e, claim);
    }
    forall v | v in DetailValues(index, m, claim)
      ensures exists e :: e in index.evidence && RecordedWith(index, m, e, claim) && e.value == v
    {
      var e :| e in Detail(index, m, claim) && e.value == v;
      DetailMeans(index, m, e, claim);
    }
  }

  lemma ValuesMean(index: EvidenceIndex, m: Evidence, claim: Claim, value: Value)
    ensures DetailValues(index, m, claim) == {value} <==> RecordedAs(index, m, claim, value)
  {
    AnyRecorded(index, m, claim);
    AllRecorded(index, m, claim, value);
    hide DetailValues, RecordedWith;
    Singleton(DetailValues(index, m, claim), value);
  }

  lemma Singleton(values: set<Value>, v: Value)
    ensures values == {v} <==> values != {} && values <= {v}
  {
    if values != {} && values <= {v} {
      var w :| w in values;
    }
  }

  predicate TypesDiffer(index: EvidenceIndex, m: Evidence) {
    && One(DetailValues(index, m, MessageExpectedFieldType)) && One(DetailValues(index, m, MessageActualFieldType))
    && DetailValues(index, m, MessageExpectedFieldType) != DetailValues(index, m, MessageActualFieldType)
  }

  lemma TypesMean(index: EvidenceIndex, m: Evidence)
    ensures TypesDiffer(index, m) <==> OtherType(index, m)
  {
    hide Detail, RecordedAs;
    if TypesDiffer(index, m) {
      var a := OneRecorded(index, m, MessageExpectedFieldType);
      var b := OneRecorded(index, m, MessageActualFieldType);
    }
    if OtherType(index, m) {
      var a, b :| a in index.evidence && b in index.evidence && a.value != b.value
        && RecordedAs(index, m, MessageExpectedFieldType, a.value) && RecordedAs(index, m, MessageActualFieldType, b.value);
      ValuesMean(index, m, MessageExpectedFieldType, a.value);
      ValuesMean(index, m, MessageActualFieldType, b.value);
      assert a.value in DetailValues(index, m, MessageExpectedFieldType) && b.value in DetailValues(index, m, MessageActualFieldType);
    }
  }

  lemma OneRecorded(index: EvidenceIndex, m: Evidence, claim: Claim) returns (e: Evidence)
    requires One(DetailValues(index, m, claim))
    ensures e in index.evidence && RecordedAs(index, m, claim, e.value) && DetailValues(index, m, claim) == {e.value}
  {
    var v :| v in DetailValues(index, m, claim) && DetailValues(index, m, claim) == {v};
    e :| e in Detail(index, m, claim) && e.value == v;
    DetailMeans(index, m, e, claim);
    ValuesMean(index, m, claim, v);
    hide Detail, RecordedAs;
  }

  lemma SchemaMeans(index: EvidenceIndex, m: Evidence)
    ensures SchemaFailure(index, m) <==> WrongType(index, m)
  {
    FactsMean(index, MessageConsumeStatus, Word(FAILED), MessagesTool, m);
    ValuesMean(index, m, MessageErrorCode, Word(CALLBACK_SCHEMA_MISMATCH));
    ValuesMean(index, m, MessageErrorField, Word(LOAN_NO));
    TypesMean(index, m);
    hide Facts, Says, DetailValues, RecordedAs, OtherType, One;
  }

  lemma GroupMeans(index: EvidenceIndex, m: Evidence, e: Evidence)
    ensures e in MismatchGroup(index, m) <==> PartOf(index, m, e)
  {
    DetailMeans(index, m, e, MessageErrorCode);
    DetailMeans(index, m, e, MessageErrorField);
    DetailMeans(index, m, e, MessageExpectedFieldType);
    DetailMeans(index, m, e, MessageActualFieldType);
    hide Detail, RecordedWith;
  }

  lemma WitnessMeans(index: EvidenceIndex, e: Evidence)
    ensures e in SchemaWitness(index) <==> Confirming(index, H6Schema, e)
  {
    hide CallbackPairs, SchemaFailure, MismatchGroup, FailedFor, WrongType, PartOf, Handled;
    if e in SchemaWitness(index) {
      var p :| p in CallbackPairs(index, FAILED) && SchemaFailure(index, p.message) && e in {p.gateway} + MismatchGroup(index, p.message);
      assert p == Pair(p.gateway, p.message);
      PairMeans(index, FAILED, p.gateway, p.message);
      SchemaMeans(index, p.message);
      GroupMeans(index, p.message, e);
    }
    if Confirming(index, H6Schema, e) {
      var g, m :| g in index.evidence && m in index.evidence && FailedFor(index, g, m) && WrongType(index, m) && (e == g || PartOf(index, m, e));
      FailedIsHandled(index, g, m);
      PairMeans(index, FAILED, g, m);
      SchemaMeans(index, m);
      GroupMeans(index, m, e);
      var p := Pair(g, m);
      assert p in CallbackPairs(index, FAILED) && SchemaFailure(index, p.message) && e in {p.gateway} + MismatchGroup(index, p.message);
    }
  }

  lemma FailedIsHandled(index: EvidenceIndex, g: Evidence, m: Evidence)
    requires FailedFor(index, g, m)
    ensures Handled(index, g, m, FAILED)
  {
  }

  lemma BindsMeans(index: EvidenceIndex, e: Evidence)
    ensures e in Bindings(index) <==> Binds(index, e)
    ensures Binds(index, e) ==> e in index.evidence
  {
    if e in CurrentOf(index, GuaranteeStatus) { CurrentIsUsable(index, GuaranteeStatus, e); }
    hide CurrentOf, RequestId;
  }

  lemma DocumentMeans(index: EvidenceIndex, version: Option<Text>, e: Evidence)
    ensures e in SuccessDocs(index, version) <==> SuccessDocument(index, e, version)
    ensures SuccessDocument(index, e, version) ==> e in index.evidence
    ensures e in VersionDocs(index, version) <==> Separates(index, e) && e.protocolVersion == version
    ensures e in Semantics(index) <==> Separates(index, e)
    ensures Separates(index, e) ==> e in index.evidence
  {
    FactsMean(index, ProtocolBusinessSemantics, Word(LOAN_CREATED_PAYMENT_SEPARATE), ProtocolTool, e);
    if e in CurrentOf(index, ProtocolBusinessSemantics) { CurrentIsUsable(index, ProtocolBusinessSemantics, e); }
    hide CurrentOf, Facts, Says;
  }

  lemma GovernsMeans(index: EvidenceIndex, b: Evidence)
    ensures b in Bindings(index) && Applicable(index, b) <==> Governs(index, b)
  {
    forall e ensures (e in Bindings(index) <==> Binds(index, e)) && (Binds(index, e) ==> e in index.evidence) { BindsMeans(index, e); }
    forall e
      ensures e in SuccessDocs(index, b.protocolVersion) <==> SuccessDocument(index, e, b.protocolVersion)
      ensures SuccessDocument(index, e, b.protocolVersion) ==> e in index.evidence
      ensures e in VersionDocs(index, b.protocolVersion) <==> Separates(index, e) && e.protocolVersion == b.protocolVersion
      ensures Separates(index, e) ==> e in index.evidence
    {
      DocumentMeans(index, b.protocolVersion, e);
    }
    hide Bindings, Binds, SuccessDocs, SuccessDocument, VersionDocs, Separates;
  }

  lemma ApplicableConfirms(index: EvidenceIndex, e: Evidence)
    requires e in ApplicableFacts(index)
    ensures Confirming(index, H8, e)
  {
    hide Bindings, Applicable, Governs, VersionDocs, Separates;
    var b :| b in Bindings(index) && Applicable(index, b) && e in {b} + VersionDocs(index, b.protocolVersion);
    GovernsMeans(index, b);
    BindingIsEvidence(index, b);
    DocumentMeans(index, b.protocolVersion, e);
  }

  lemma BindingIsEvidence(index: EvidenceIndex, b: Evidence)
    requires b in Bindings(index)
    ensures b in index.evidence
  {
    BindsMeans(index, b);
    hide Bindings, Binds;
  }

  lemma ConfirmsApplicable(index: EvidenceIndex, e: Evidence)
    requires Confirming(index, H8, e)
    ensures e in ApplicableFacts(index)
  {
    hide Bindings, Applicable, Governs, VersionDocs, Separates;
    var b :| b in index.evidence && Governs(index, b) && (e == b || (Separates(index, e) && e.protocolVersion == b.protocolVersion));
    GovernsMeans(index, b);
    DocumentMeans(index, b.protocolVersion, e);
    assert e in {b} + VersionDocs(index, b.protocolVersion);
  }

  lemma StaleMeans(index: EvidenceIndex, m: Evidence, version: Evidence, doc: Evidence, older: Evidence)
    requires SchemaFailure(index, m)
    ensures version in CurrentOf(index, CallbackProtocolVersion) && doc in CurrentOf(index, ProtocolFieldType)
            && older in CurrentOf(index, ProtocolFieldType) && Rules.Stale(index, m, version, doc, older)
            <==> Outdated(index, m, version, doc, older)
  {
    FailureHasTypes(index, m);
    RevisedMeans(m, version, doc, older);
    hide CurrentOf, DetailValues, RecordedAs, SchemaFailure, One, PartnerOf, Versions, Revised;
    OneValue(index, m, MessageActualFieldType, doc.value);
    OneValue(index, m, MessageExpectedFieldType, older.value);
  }

  lemma RevisedMeans(m: Evidence, version: Evidence, doc: Evidence, older: Evidence)
    ensures Versions(m, version, doc, older) <==> Revised(m, version, doc, older)
  {
  }

  lemma FailureHasTypes(index: EvidenceIndex, m: Evidence)
    requires SchemaFailure(index, m)
    ensures One(DetailValues(index, m, MessageActualFieldType)) && One(DetailValues(index, m, MessageExpectedFieldType))
  {
  }

  lemma OneValue(index: EvidenceIndex, m: Evidence, claim: Claim, v: Value)
    requires One(DetailValues(index, m, claim))
    ensures v in DetailValues(index, m, claim) <==> RecordedAs(index, m, claim, v)
  {
    ValuesMean(index, m, claim, v);
    hide DetailValues, RecordedAs;
  }

  lemma FailingPair(index: EvidenceIndex, g: Evidence, m: Evidence)
    ensures Pair(g, m) in CallbackPairs(index, FAILED) && SchemaFailure(index, m) <==> FailedFor(index, g, m) && WrongType(index, m)
    ensures FailedFor(index, g, m) ==> g in index.evidence && m in index.evidence
  {
    PairMeans(index, FAILED, g, m);
    SchemaMeans(index, m);
    if FailedFor(index, g, m) { FailedIsHandled(index, g, m); }
    hide CallbackPairs, SchemaFailure, WrongType, FailedFor, Handled;
  }

  lemma StaleSupports(index: EvidenceIndex, e: Evidence)
    requires e in StaleSupport(index)
    ensures Supporting(index, H6Stale, e)
  {
    hide CallbackPairs, SchemaFailure, MismatchGroup, FailedFor, WrongType, PartOf, Rules.Stale, Outdated, CurrentOf;
    var p, version, doc, older :| p in CallbackPairs(index, FAILED) && SchemaFailure(index, p.message)
      && version in CurrentOf(index, CallbackProtocolVersion)
      && doc in CurrentOf(index, ProtocolFieldType) && older in CurrentOf(index, ProtocolFieldType)
      && Rules.Stale(index, p.message, version, doc, older)
      && e in {p.gateway, version, doc, older} + MismatchGroup(index, p.message);
    StaleIsSupporting(index, p, version, doc, older, e);
  }

  lemma StaleIsSupporting(index: EvidenceIndex, p: Pair, version: Evidence, doc: Evidence, older: Evidence, e: Evidence)
    requires p in CallbackPairs(index, FAILED) && SchemaFailure(index, p.message)
    requires version in CurrentOf(index, CallbackProtocolVersion)
    requires doc in CurrentOf(index, ProtocolFieldType) && older in CurrentOf(index, ProtocolFieldType)
    requires Rules.Stale(index, p.message, version, doc, older)
    requires e in {p.gateway, version, doc, older} + MismatchGroup(index, p.message)
    ensures Supporting(index, H6Stale, e)
  {
    hide CallbackPairs, SchemaFailure, MismatchGroup, FailedFor, WrongType, PartOf, Rules.Stale, Outdated, CurrentOf;
    FailingPair(index, p.gateway, p.message);
    StaleMeans(index, p.message, version, doc, older);
    assert OutdatedFailure(index, p.gateway, p.message, version, doc, older);
    GroupMeans(index, p.message, e);
    CurrentIsEvidence(index, CallbackProtocolVersion);
    CurrentIsEvidence(index, ProtocolFieldType);
    hide OutdatedFailure;
  }

  lemma SupportsStale(index: EvidenceIndex, e: Evidence)
    requires Supporting(index, H6Stale, e)
    ensures e in StaleSupport(index)
  {
    hide CallbackPairs, SchemaFailure, MismatchGroup, FailedFor, WrongType, PartOf, Rules.Stale, Outdated, CurrentOf;
    var g, m, version, doc, older :| g in index.evidence && m in index.evidence && version in index.evidence
      && doc in index.evidence && older in index.evidence
      && OutdatedFailure(index, g, m, version, doc, older) && (e in {g, version, doc, older} || PartOf(index, m, e));
    FailingPair(index, g, m);
    StaleMeans(index, m, version, doc, older);
    GroupMeans(index, m, e);
    StaleFact(index, Pair(g, m), version, doc, older, e);
  }

  lemma StaleFact(index: EvidenceIndex, p: Pair, version: Evidence, doc: Evidence, older: Evidence, e: Evidence)
    requires p in CallbackPairs(index, FAILED) && SchemaFailure(index, p.message)
    requires version in CurrentOf(index, CallbackProtocolVersion)
    requires doc in CurrentOf(index, ProtocolFieldType) && older in CurrentOf(index, ProtocolFieldType)
    requires Rules.Stale(index, p.message, version, doc, older)
    requires e in {p.gateway, version, doc, older} || e in MismatchGroup(index, p.message)
    ensures e in StaleSupport(index)
  {
    hide CallbackPairs, SchemaFailure, MismatchGroup, Rules.Stale, CurrentOf;
    assert e in {p.gateway, version, doc, older} + MismatchGroup(index, p.message);
  }

  lemma MismatchFactsMean(index: EvidenceIndex, e: Evidence)
    ensures e in MismatchFacts(index) <==> exists m :: m in index.evidence && WrongType(index, m) && PartOf(index, m, e)
  {
    hide Messages, SchemaFailure, MismatchGroup, WrongType, PartOf;
    if m :| m in Mismatches(index) && e in MismatchGroup(index, m) {
      MessageIsEvidence(index, m);
      SchemaMeans(index, m);
      GroupMeans(index, m, e);
    }
    if m :| m in index.evidence && WrongType(index, m) && PartOf(index, m, e) {
      SchemaMeans(index, m);
      GroupMeans(index, m, e);
      FailureIsMessage(index, m);
      assert m in Mismatches(index) && e in MismatchGroup(index, m);
    }
  }

  lemma FailureIsMessage(index: EvidenceIndex, m: Evidence)
    requires SchemaFailure(index, m)
    ensures m in Messages(index, FAILED)
  {
  }

  lemma MessageIsEvidence(index: EvidenceIndex, m: Evidence)
    requires m in Messages(index, FAILED)
    ensures m in index.evidence
  {
    FactsMean(index, MessageConsumeStatus, Word(FAILED), MessagesTool, m);
  }
}
