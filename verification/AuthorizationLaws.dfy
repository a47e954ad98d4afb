/** Exactly when an approval is asked for, a capability issued, an effect prepared and dispatched, over the rows alone. */
module AuthorizationLaws {
  import opened Domain
  import opened Tables
  import opened CaseTransactions
  import opened AuthorizationTransactions
  import opened Protocol
  import opened History

  predicate OpenCase(t: Tables, tenant: Id, c: Id) {
    c in t.cases && t.cases[c].tenant == tenant && t.cases[c].status !in {Closed, ClosedVerified}
  }

  /** A named approval grants exactly this intent and has not expired; only an intent that needs none may name none. */
  predicate Approves(t: Tables, intent: Intent, approvalId: Option<Id>, now: Time) {
    match approvalId
    case None => !intent.body.requiresApproval
    case Some(id) =>
      id in t.approvals && t.approvals[id].intent == intent && t.approvals[id].status.Approved? && now < t.approvals[id].expiresAt
  }

  lemma ApprovesExactly(t: Tables, intent: Intent, approvalId: Option<Id>, now: Time)
    ensures CheckApproval(t, intent, approvalId, now).None? <==> Approves(t, intent, approvalId, now)
  {
  }

  /** The capability is the stored one, of this tenant and the running versions, within its window, and still approved. */
  predicate InForce(t: Tables, tenant: Id, cap: Capability, now: Time) {
    && cap.tenant == tenant && cap.issuedAt <= now < cap.expiresAt
    && cap.policyVersion == POLICY_VERSION && cap.catalogVersion == CATALOG_VERSION && cap.authorizationVersion == AUTHORIZATION_VERSION
    && cap.capabilityId in t.capabilities && t.capabilities[cap.capabilityId].payload == cap
    && cap.intentId in t.intents && Owns(t, tenant, t.intents[cap.intentId].body.caseId)
    && Approves(t, t.intents[cap.intentId], cap.approvalId, now)
  }

  lemma InForceExactly(t: Tables, tenant: Id, cap: Capability, now: Time)
    ensures CheckCapability(t, tenant, cap, now).None? <==> InForce(t, tenant, cap, now)
  {
    if cap.intentId in t.intents { ApprovesExactly(t, t.intents[cap.intentId], cap.approvalId, now); }
    hide CheckApproval, Approves;
  }

  // ---- asking ----

  /** An approval is asked for an open case at the named revision, for an intent that is new or stored as it is. */
  predicate MayAsk(t: Tables, tenant: Id, approvalId: Id, intent: Intent, revision: Time) {
    && OpenCase(t, tenant, intent.body.caseId) && t.cases[intent.body.caseId].revision == revision
    && (intent.intentId in t.intents ==> t.intents[intent.intentId] == intent) && approvalId !in t.approvals
  }

  /** A request is stored as PENDING, for the very intent asked about, beside everything that was there; or not at all. */
  lemma RequestExactly(t: Tables, tenant: Id, approvalId: Id, request: Approval, revision: Time)
    ensures var tx := RequestApproval(t, tenant, approvalId, request, revision);
      && (tx.Committed? <==> MayAsk(t, tenant, approvalId, request.intent, revision))
      && (tx.Committed? ==>
            && tx.tables == t.(intents := tx.tables.intents, approvals := tx.tables.approvals)
            && tx.tables.approvals.Keys == t.approvals.Keys + {approvalId} && tx.tables.approvals[approvalId].status.Pending?
            && tx.tables.approvals[approvalId].intent == request.intent
            && tx.tables.approvals[approvalId].expiresAt == request.expiresAt
            && (forall id :: id in t.approvals ==> tx.tables.approvals[id] == t.approvals[id])
            && tx.tables.intents == t.intents[request.intent.intentId := request.intent])
  {
  }

  // ---- issuing ----

  /** An unresolved dispatch of the same action on the same target stands in the way of `cap`. */
  predicate WriteFencedBy(t: Tables, cap: Capability, key: EffectKey) {
    && key in t.effects && t.effects[key].caseId == cap.caseId
    && t.effects[key].status in {Dispatched, EffectStatus.Unknown, Accepted}
    && key.tenant == cap.tenant && key.caseId == cap.caseId && key.order == cap.order && key.action == cap.action
    && key.targetHash == cap.targetHash
  }

  predicate MayIssue(t: Tables, tenant: Id, intent: Intent, cap: Capability, now: Time) {
    && OpenCase(t, tenant, intent.body.caseId) && t.cases[intent.body.caseId].revision == cap.expectedRevision && now < cap.expiresAt
    && Approves(t, intent, cap.approvalId, now)
    && (forall key :: key in t.effects ==> !WriteFencedBy(t, cap, key))
    && (intent.intentId in t.intents ==> t.intents[intent.intentId] == intent) && cap.capabilityId !in t.capabilities
  }

  lemma IssueExactly(t: Tables, tenant: Id, intent: Intent, cap: Capability, now: Time)
    ensures var tx := Issue(t, tenant, intent, cap, now);
      && (tx.Committed? <==> MayIssue(t, tenant, intent, cap, now))
      && (tx.Committed? ==>
            tx.tables == t.(intents := t.intents[intent.intentId := intent],
                            capabilities := t.capabilities[cap.capabilityId := CapabilityRow(cap, None)]))
  {
    ApprovesExactly(t, intent, cap.approvalId, now);
    FencedExactly(t, cap);
    hide CheckApproval, Approves, Fenced, WriteFencedBy, KeyOf;
  }

  lemma FencedExactly(t: Tables, cap: Capability)
    ensures Fenced(t, KeyOf(cap), cap.caseId) <==> exists key :: key in t.effects && WriteFencedBy(t, cap, key)
  {
    if Fenced(t, KeyOf(cap), cap.caseId) { assert WriteFencedBy(t, cap, KeyOf(cap)); }
  }

  /** The capability carries the intent it was minted for, field by field, and its window. */
  predicate MintedFor(intent: Intent, cap: Capability, approvalId: Option<Id>, mintedAt: Time, ttl: Time) {
    var b := intent.body;
    && cap.intentId == intent.intentId && cap.tenant == b.tenant && cap.caseId == b.caseId && cap.order == b.order
    && cap.action == b.action && cap.targetHash == b.target && cap.snapshotId == b.snapshotId && cap.evidenceHash == b.evidenceHash
    && cap.preflight == b.preflight && cap.policyVersion == b.policyVersion && cap.catalogVersion == b.catalogVersion
    && cap.authorizationVersion == AUTHORIZATION_VERSION && cap.approvalId == approvalId
    && cap.issuedAt == mintedAt && cap.expiresAt == mintedAt + ttl
    && (cap.action.NoRemediation? ==> cap.payloadHash == NoopPayload(b.target))
    && (!cap.action.NoRemediation? ==>
          cap.payloadHash.CommandPayload? && Addresses(EffectKey(b.tenant, b.caseId, b.order, b.action, b.target), Built.Command(cap.payloadHash.command)))
  }

  /** Transaction `txn` issued capability `id`, minted from its intent, when nothing stood in the way. */
  predicate Issues(t: Tables, t': Tables, tenant: Id, txn: Txn, id: Id) {
    && txn.OnGrant? && txn.ofGrant.IssueCap? && txn.ofGrant.capabilityId == id && id in t'.capabilities
    && var x, cap := txn.ofGrant, t'.capabilities[id].payload;
    && cap.capabilityId == id && MintedFor(x.intent, cap, x.approval, x.mintedAt, x.ttl) && MayIssue(t, tenant, x.intent, cap, x.now)
    && cap.intentId in t'.intents && t'.intents[cap.intentId] == x.intent && Build(x.intent, cap).Some?
  }

  lemma MintIsFor(intent: Intent, capabilityId: Id, approvalId: Option<Id>, payload: Payload, seen: Time, mintedAt: Time, ttl: Time)
    requires PayloadOf(intent) == Some(payload)
    ensures var cap := Mint(intent, capabilityId, approvalId, payload, seen, mintedAt, ttl);
      MintedFor(intent, cap, approvalId, mintedAt, ttl) && Build(intent, cap).Some?
  {
  }

  lemma IssueTxnIssues(t: Tables, tenant: Id, x: GrantTxn, id: Id)
    requires x.IssueCap?
    ensures var t' := IssueCapability(t, tenant, x.intent, x.capabilityId, x.approval, x.seen, x.mintedAt, x.ttl, x.now).After(t);
      id !in t.capabilities && id in t'.capabilities ==> Issues(t, t', tenant, OnGrant(x), id)
  {
    var payload := PayloadOf(x.intent);
    if payload.Some? {
      var cap := Mint(x.intent, x.capabilityId, x.approval, payload.value, x.seen, x.mintedAt, x.ttl);
      MintIsFor(x.intent, x.capabilityId, x.approval, payload.value, x.seen, x.mintedAt, x.ttl);
      IssueExactly(t, tenant, x.intent, cap, x.now);
    }
    hide PayloadOf, MintedFor, MayIssue, Issue, Build;
  }

  /** A capability appears only by being issued. */
  lemma CommitIssues(env: Env, t: Tables, tenant: Id, txn: Txn, id: Id)
    ensures var t' := Commit(env, t, tenant, txn);
      id !in t.capabilities && id in t'.capabilities ==> Issues(t, t', tenant, txn, id)
  {
    hide CommitCase, CommitEvidence, CommitEffect, CommitRecovery, CommitClosure, RequestApproval, DecideApproval, IssueCapability,
         ExistingEffect, Issues;
    match txn
    case OnGrant(x) =>
      if x.IssueCap? { IssueTxnIssues(t, tenant, x, id); }
      if x.FindEffect? { FindIssuesNothing(t, tenant, x.cap, x.now, id); }
    case OnEffect(x) => EffectIssuesNothing(t, tenant, x, id);
    case _ =>
  }

  lemma FindIssuesNothing(t: Tables, tenant: Id, cap: Capability, now: Time, id: Id)
    ensures id in ExistingEffect(t, tenant, cap, now).After(t).capabilities ==> id in t.capabilities
  {
    hide CheckApproval, KeyOf;
  }

  lemma EffectIssuesNothing(t: Tables, tenant: Id, txn: EffectTxn, id: Id)
    ensures id in CommitEffect(t, tenant, txn).capabilities ==> id in t.capabilities
  {
    hide CheckApproval, KeyOf, DispatchPrepared, Transition, Synchronize, NewLedger;
  }

  /** No capability is ever issued while an effect on the same target is dispatched and unresolved, nor without its approval. */
  lemma {:induction false} IssuedInOrder(env: Env, ts: seq<Tables>, log: seq<Entry>, j: nat, id: Id) returns (i: nat)
    requires IsHistory(env, ts, log) && j < |ts| && id in ts[j].capabilities
    ensures i < j && id !in ts[i].capabilities && Issues(ts[i], ts[i + 1], log[i].tenant, log[i].txn, id)
  {
    hide Commit, Issues;
    if id in ts[j - 1].capabilities {
      i := IssuedInOrder(env, ts, log, j - 1, id);
    } else {
      i := j - 1;
      CommitIssues(env, ts[i], log[i].tenant, log[i].txn, id);
    }
  }

  // ---- preparing and dispatching ----

  /** The first row of an effect is its capability's, field by field, waiting to be sent (or never to be). */
  predicate Opened(cap: Capability, l: Ledger, correlation: Id, now: Time) {
    && l.effectId == EffectKey(cap.tenant, cap.caseId, cap.order, cap.action, cap.targetHash)
    && l.intentId == cap.intentId && l.capabilityId == cap.capabilityId && l.approvalId == cap.approvalId
    && l.tenant == cap.tenant && l.caseId == cap.caseId && l.order == cap.order && l.action == cap.action
    && l.targetHash == cap.targetHash && l.payloadHash == cap.payloadHash
    && l.snapshotId == cap.snapshotId && l.evidenceHash == cap.evidenceHash
    && l.status == (if cap.action.NoRemediation? then Noop else Prepared) && l.attemptCount == 0
    && l.createdAt == now && l.updatedAt == now && l.correlation == correlation && l.externalRef.None? && l.failure.None?
  }

  /** The capability in force may open a new effect: its case is open, at the revision it was issued at, and neither the
      effect nor the capability was used. */
  predicate MayOpen(t: Tables, tenant: Id, cap: Capability, now: Time) {
    && OpenCase(t, tenant, cap.caseId) && InForce(t, tenant, cap, now)
    && EffectKey(cap.tenant, cap.caseId, cap.order, cap.action, cap.targetHash) !in t.effects
    && t.capabilities[cap.capabilityId].usedEffect.None? && t.cases[cap.caseId].revision == cap.expectedRevision
  }

  /** The dispatch of an effect belongs to the one preparation that opened it. */
  lemma PrepareExactly(t: Tables, tenant: Id, cap: Capability, correlation: Id, clock: Time, now: Time)
    ensures var tx := Prepare(t, tenant, cap, correlation, clock, now);
      && (tx.Committed? && tx.value.ownsDispatch <==> MayOpen(t, tenant, cap, now) && !cap.action.NoRemediation?)
      && (MayOpen(t, tenant, cap, now) ==> tx.Committed? && Opened(cap, tx.value.ledger, correlation, now))
  {
    InForceExactly(t, tenant, cap, now);
    hide CheckCapability, CheckApproval, InForce, Synchronize;
  }

  /** Everything is checked again before the effect leaves PREPARED: the capability in force, its own unsent row, the
      revision it was prepared at, and the lease of a worker that resumes it. */
  predicate MayDispatch(t: Tables, tenant: Id, cap: Capability, claim: Option<RecoveryClaim>, now: Time) {
    && OpenCase(t, tenant, cap.caseId) && InForce(t, tenant, cap, now)
    && var used := t.capabilities[cap.capabilityId].usedEffect;
    && used.Some? && used.value in t.effects
    && var l := t.effects[used.value];
    && l.capabilityId == cap.capabilityId && l.status.Prepared? && l.preparedRevision == t.cases[cap.caseId].revision
    && (claim.Some? ==>
          && claim.value.key == l.effectId && l.effectId in t.recoveries
          && var row := t.recoveries[l.effectId];
          && row.leaseToken == Some(claim.value.recoveryId) && row.leaseOwner == Some(claim.value.worker)
          && row.leaseUntil.Some? && now < row.leaseUntil.value)
  }

  lemma DispatchExactly(t: Tables, tenant: Id, cap: Capability, claim: Option<RecoveryClaim>, now: Time)
    ensures var tx := DispatchPrepared(t, tenant, cap, claim, now);
      && (tx.Committed? <==> MayDispatch(t, tenant, cap, claim, now))
      && (tx.Committed? ==>
            var key := t.capabilities[cap.capabilityId].usedEffect.value;
            && tx.tables.effects == t.effects[key := tx.value]
            && tx.value == t.effects[key].(status := Dispatched, attemptCount := 1, updatedAt := now))
  {
    InForceExactly(t, tenant, cap, now);
    hide CheckCapability, CheckApproval, InForce, Synchronize;
  }
}
