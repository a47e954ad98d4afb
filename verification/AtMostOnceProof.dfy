/** The adapter is called at most once per effect, by its preparing capability, after DISPATCHED. */
module AtMostOnceProof {
  import opened Domain
  import opened Tables
  import opened AuthorizationTransactions
  import opened Protocol
  import opened EffectSteps
  import opened DispatchProof

  /** The command a worker holds is the one the capability's payload stands for. */
  predicate Carries(payload: Payload, command: Built) {
    match command
    case NoCommand => payload.NoopPayload?
    case Command(built) => payload == CommandPayload(built)
    case Unbuildable => false
  }

  /** The command a worker holds for `cap`: the one its payload stands for, addressed to its own effect. */
  predicate Holds(cap: Capability, command: Built) { Carries(cap.payloadHash, command) && Addresses(KeyOf(cap), command) }

  /** The call made (or about to be made) for effect `m.key` is the one its ledger row records as attempted. */
  predicate Recorded(t: Tables, m: Sent) {
    && m.key in t.effects
    && var l := t.effects[m.key];
    && l.attemptCount == 1 && !l.status.Prepared? && !l.status.Noop?
    && l.capabilityId == m.capabilityId && l.correlation == m.correlation
    && m.command.Command? && l.payloadHash == CommandPayload(m.command.command) && Addresses(m.key, m.command)
  }

  function CallOf(w: Worker): Sent
    requires w.Sending?
  {
    Sent(w.ledger.effectId, w.cap.capabilityId, w.ledger.correlation, w.command)
  }

  /** A worker between DISPATCHED and its adapter call holds a recorded attempt nobody has sent. */
  predicate WorkerOk(t: Tables, sent: seq<Sent>, w: Worker) {
    && (w.Verified? || w.Owning? || w.Sending? ==> Holds(w.cap, w.command))
    && (w.Sending? ==> Recorded(t, CallOf(w)) && forall i :: 0 <= i < |sent| ==> sent[i].key != w.ledger.effectId)
  }

  predicate Distinct(workers: map<Id, Worker>) {
    forall v, w :: v in workers && w in workers && v != w && workers[v].Sending? && workers[w].Sending?
      ==> workers[v].ledger.effectId != workers[w].ledger.effectId
  }

  predicate SentOnce(t: Tables, sent: seq<Sent>) {
    && (forall i :: 0 <= i < |sent| ==> Recorded(t, sent[i]))
    && (forall i, j :: 0 <= i < j < |sent| ==> sent[i].key != sent[j].key)
  }

  ghost predicate Once(s: System) {
    && (forall k :: k in s.t.effects ==> LedgerOk(s.t, k))
    && (forall w :: w in s.workers ==> WorkerOk(s.t, s.sent, s.workers[w]))
    && Distinct(s.workers)
    && SentOnce(s.t, s.sent)
  }

  /** No transaction takes back a recorded attempt. */
  lemma RecordedKept(env: Env, t: Tables, tenant: Id, txn: Txn, m: Sent)
    requires m.key in t.effects ==> LedgerOk(t, m.key)
    requires Recorded(t, m)
    ensures Recorded(Commit(env, t, tenant, txn), m)
  {
    hide Commit, Born, Fires, Backs, Holds, Addresses;
    CommitEffectStep(env, t, tenant, txn, m.key);
  }

  /** The tables advance while nobody starts or finishes sending. */
  lemma TablesAdvance(env: Env, s: System, tenant: Id, txn: Txn)
    requires Once(s)
    ensures Once(System(Commit(env, s.t, tenant, txn), s.workers, s.sent))
  {
    hide Commit, LedgerOk, Recorded, Holds, Addresses;
    var t' := Commit(env, s.t, tenant, txn);
    forall k | k in t'.effects ensures LedgerOk(t', k) { LedgerOkKept(env, s.t, tenant, txn, k); }
    forall i | 0 <= i < |s.sent| ensures Recorded(t', s.sent[i]) {
      RecordedKept(env, s.t, tenant, txn, s.sent[i]);
    }
    forall w | w in s.workers ensures WorkerOk(t', s.sent, s.workers[w]) {
      if s.workers[w].Sending? { RecordedKept(env, s.t, tenant, txn, CallOf(s.workers[w])); }
    }
  }

  /** One worker moves on without holding a call to make. */
  lemma WorkerMoves(s: System, w: Id, to: Worker)
    requires Once(s) && !to.Sending? && (to.Verified? || to.Owning? ==> Holds(to.cap, to.command))
    ensures Once(s.(workers := s.workers[w := to]))
  {
    hide LedgerOk, Recorded, Holds, Addresses, SentOnce;
  }

  lemma WorkerCrashes(s: System, w: Id)
    requires Once(s)
    ensures Once(s.(workers := s.workers - {w}))
  {
    hide LedgerOk, WorkerOk, SentOnce;
  }

  /** The command rebuilt for a capability is the one its payload hash stands for. */
  lemma BuiltCarries(intent: Intent, cap: Capability)
    requires Build(intent, cap).Some?
    ensures Holds(cap, Build(intent, cap).value)
  {
    BuildAddresses(intent, cap);
  }

  /** Only an action that needs no remediation has no command to send. */
  lemma HeldCommand(cap: Capability, command: Built)
    requires Holds(cap, command)
    ensures Addresses(KeyOf(cap), command)
    ensures cap.action.NoRemediation? || (command.Command? && cap.payloadHash == CommandPayload(command.command))
  {
  }

  /** A committed dispatch moved a never-attempted effect of this very capability out of PREPARED. */
  lemma DispatchRecords(t: Tables, tenant: Id, cap: Capability, claim: Option<RecoveryClaim>, now: Time, command: Built)
    requires DispatchPrepared(t, tenant, cap, claim, now).Committed?
    requires Holds(cap, command)
    requires forall k :: k in t.effects ==> LedgerOk(t, k)
    ensures var tx := DispatchPrepared(t, tenant, cap, claim, now); var key := tx.value.effectId;
      && key in t.effects && t.effects[key].attemptCount == 0
      && Recorded(tx.tables, Sent(key, cap.capabilityId, tx.value.correlation, command))
  {
    hide CheckApproval, Synchronize, Holds, Addresses;
    HeldCommand(cap, command);
  }

  lemma WorkerDispatches(env: Env, s: System, step: Step)
    requires Once(s) && step.WorkerDispatch? && Enabled(s, step)
    ensures Once(Next(env, s, step))
  {
    hide DispatchPrepared, LedgerOk, Commit, Holds, Addresses, Recorded;
    var w := s.workers[step.w];
    var tx := DispatchPrepared(s.t, step.tenant, w.cap, w.claim, step.now);
    var txn := OnEffect(DispatchEffect(w.cap, w.claim, step.now));
    TablesAdvance(env, s, step.tenant, txn);
    var mid := System(Commit(env, s.t, step.tenant, txn), s.workers, s.sent);
    if tx.Committed? {
      DispatchCommits(env, s.t, step.tenant, w.cap, w.claim, step.now);
      DispatchRecords(s.t, step.tenant, w.cap, w.claim, step.now, w.command);
      WorkerSends(s, mid, step.w, w.cap, w.command, tx.value);
    } else {
      WorkerMoves(mid, step.w, Finished);
    }
  }

  lemma DispatchCommits(env: Env, t: Tables, tenant: Id, cap: Capability, claim: Option<RecoveryClaim>, now: Time)
    ensures Commit(env, t, tenant, OnEffect(DispatchEffect(cap, claim, now))) == DispatchPrepared(t, tenant, cap, claim, now).After(t)
  {
    hide DispatchPrepared;
  }

  /** A worker that dispatched an unattempted effect is the only one about to call the adapter for it. */
  lemma WorkerSends(s: System, mid: System, w: Id, cap: Capability, command: Built, ledger: Ledger)
    requires Once(s) && Once(mid) && mid.workers == s.workers && mid.sent == s.sent
    requires ledger.effectId in s.t.effects && s.t.effects[ledger.effectId].attemptCount == 0
    requires Holds(cap, command)
    requires Recorded(mid.t, Sent(ledger.effectId, cap.capabilityId, ledger.correlation, command))
    ensures Once(mid.(workers := mid.workers[w := Sending(cap, command, ledger)]))
  {
    hide LedgerOk, Holds, Addresses;
  }

  /** The adapter call itself: one more sent message, for a key never sent before. */
  lemma AdapterCalled(s: System, w: Id, to: Worker)
    requires Once(s) && w in s.workers && s.workers[w].Sending? && to.Reporting?
    ensures Once(System(s.t, s.workers[w := to], s.sent + [CallOf(s.workers[w])]))
  {
    hide LedgerOk, Recorded, Holds, Addresses;
    var sent := s.sent + [CallOf(s.workers[w])];
    forall v | v in s.workers && v != w ensures WorkerOk(s.t, sent, s.workers[v]) {
      assert WorkerOk(s.t, s.sent, s.workers[v]);
    }
  }

  lemma {:induction false} WorkerSteps(s: System, step: Step)
    requires Once(s) && Enabled(s, step) && !step.WorkerDispatch? && !step.CallAdapter?
    ensures Once(System(s.t, WorkerAfter(s, step), s.sent))
  {
    hide Once, ExistingEffect, Prepare, DispatchPrepared, Build, Holds, Addresses, LedgerOk;
    match step
    case Transact(_, _) =>
    case Begin(tenant, w, cap, now) =>
      WorkerMoves(s, w, if ExistingEffect(s.t, tenant, cap, now).Committed? && ExistingEffect(s.t, tenant, cap, now).value.None?
                        then Checked(cap) else Finished);
    case Verify(w, intent, _) =>
      BuiltCarries(intent, s.workers[w].cap);
      WorkerMoves(s, w, Verified(s.workers[w].cap, Build(intent, s.workers[w].cap).value));
    case WorkerPrepare(tenant, w, correlation, clock, now) =>
      assert WorkerOk(s.t, s.sent, s.workers[w]) by { CarriedBy(s, w); }
      WorkerMoves(s, w, WorkerAfter(s, step)[w]);
    case Resume(w, key, _) =>
      BuiltCarries(s.t.intents[s.t.effects[key].intentId], s.t.capabilities[s.t.effects[key].capabilityId].payload);
      WorkerMoves(s, w, WorkerAfter(s, step)[w]);
    case Report(_, w, _) => WorkerMoves(s, w, Finished);
    case Crash(w) => WorkerCrashes(s, w);
  }

  lemma CarriedBy(s: System, w: Id)
    requires Once(s) && w in s.workers
    ensures WorkerOk(s.t, s.sent, s.workers[w])
  {
  }

  /** Every step of every worker keeps the invariant. */
  lemma StepKeepsOnce(env: Env, s: System, step: Step)
    requires Once(s) && Enabled(s, step)
    ensures Once(Next(env, s, step))
  {
    hide Once, Commit, WorkerAfter, Enabled, CommitEffect;
    if step.WorkerDispatch? {
      WorkerDispatches(env, s, step);
    } else if step.CallAdapter? {
      AdapterStep(env, s, step);
    } else {
      WorkerSteps(s, step);
      TablesAdvance(env, System(s.t, WorkerAfter(s, step), s.sent), TenantOf(step), TxnOf(s, step));
    }
  }

  lemma AdapterStep(env: Env, s: System, step: Step)
    requires Once(s) && step.CallAdapter? && Enabled(s, step)
    ensures Once(Next(env, s, step))
  {
    hide Once, Classify, WorkerOk;
    var ledger := s.workers[step.w].ledger;
    AdapterCalled(s, step.w, Reporting(ledger.effectId, Classify(step.reply, ledger.correlation)));
  }

  lemma {:induction false} OnceAlways(env: Env, states: seq<System>, steps: seq<Step>, n: nat)
    requires IsRun(env, states, steps) && n < |states|
    ensures Once(states[n])
  {
    hide Once, Next, Enabled;
    if n == 0 {
      InitiallyOnce();
    } else {
      OnceAlways(env, states, steps, n - 1);
      StepKeepsOnce(env, states[n - 1], steps[n - 1]);
    }
  }

  lemma InitiallyOnce()
    ensures Once(INITIAL)
  {
  }

  /** Over every interleaving of workers, crashes and capabilities: no two adapter calls share an effect
      key, and each carries the payload, correlation and
      capability its attempted ledger row records and addresses, field by field, the case, order and target of its key. */
  lemma AdapterCalledAtMostOnce(env: Env, states: seq<System>, steps: seq<Step>, n: nat)
    requires IsRun(env, states, steps) && n < |states|
    ensures SentOnce(states[n].t, states[n].sent)
  {
    hide Next, Enabled;
    OnceAlways(env, states, steps, n);
  }

  /** When the adapter is called, DISPATCHED has committed for its effect, by the capability that
      prepared it, and nothing was sent for that effect before. */
  lemma AdapterCalledAfterDispatch(env: Env, states: seq<System>, steps: seq<Step>, n: nat)
    requires IsRun(env, states, steps) && n < |steps| && steps[n].CallAdapter?
    ensures steps[n].w in states[n].workers && states[n].workers[steps[n].w].Sending?
    ensures var m := CallOf(states[n].workers[steps[n].w]);
      && Recorded(states[n].t, m) && LedgerOk(states[n].t, m.key)
      && (forall i :: 0 <= i < |states[n].sent| ==> states[n].sent[i].key != m.key)
      && states[n + 1].sent == states[n].sent + [m]
  {
    hide Commit, LedgerOk, Classify, Holds, Addresses;
    OnceAlways(env, states, steps, n);
    CarriedBy(states[n], steps[n].w);
  }

  /** A second capability for a recorded effect can neither own its dispatch nor perform it. */
  lemma OtherCapabilityRefused(t: Tables, tenant: Id, cap: Capability, claim: Option<RecoveryClaim>, correlation: Id, clock: Time, now: Time)
    requires forall k :: k in t.effects ==> LedgerOk(t, k)
    requires KeyOf(cap) in t.effects && t.effects[KeyOf(cap)].capabilityId != cap.capabilityId
    ensures DispatchPrepared(t, tenant, cap, claim, now).RolledBack?
    ensures var tx := Prepare(t, tenant, cap, correlation, clock, now); tx.Committed? ==> !tx.value.ownsDispatch
  {
    hide CheckApproval, Insert;
  }
}
