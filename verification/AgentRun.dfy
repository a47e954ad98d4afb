/** The bounded agent loop against any planner, any environment and any other workers on the same database. */
module AgentRun {
  import opened Domain
  import opened Tables
  import opened CaseTransactions
  import ReadExecutor

  datatype Stop =
    | StopWaiting | StopEscalated | SafeNoAction | PlannerUnavailable | ToolExecutionError | MaxTurnsReached
    | StaleReplanExhausted | NoKnowledgeProgress | RuntimeSafetyStop

  datatype Revalidation =
    | Valid | StaleSnapshot | StalePolicy | CandidateRejected | CasePreconditionFailed | QueryRebuildFailed | NoSelectedAction

  // A fresh reading of the case, and the context assembled from it and its evidence.
  datatype Context = Context(row: CaseRow, snapshot: Id)

  // What the planner does with a snapshot: it proposes, is unavailable, or breaks its protocol, which ends the run.
  datatype Planned = Decision(action: Action) | Unavailable | ProtocolError

  datatype Action = CallTool(tool: Tool) | PauseCase(waiting: bool)

  /** What acting under the precondition led to. A reserved tool call has a call identifier, whether it was observed or
      failed; a precondition that no longer held, or a refusal, reserved nothing; any other error ends the run. */
  datatype Acted =
    | Observed(callId: Id) | ExecutionFailed(callId: Id) | PreconditionLost | Refused | Paused(waiting: bool) | Aborted

  // What surrounds one action: the rebuilt query (if it can be), the guards, the new identifier, what the tool answers,
  // whether the resume cycles are used up, and the clock.
  datatype Surroundings = Surroundings(
    query: Option<Query>, guards: Guards, callId: Id, seen: Option<Observation>, atLimit: bool, now: Time, later: Time)

  // The n-th answers of everything outside the loop. Between any two of its steps other workers may leave any database.
  datatype Environment = Environment(
    others: (nat, Tables) -> Tables, snapshot: nat -> Id, plan: nat -> Planned, check: nat -> Revalidation,
    act: nat -> Surroundings, progress: (Id, Id) -> bool)

  datatype Config = Config(maxTurns: nat, maxStaleReplans: nat, maxNoProgress: nat)

  // One planning attempt: its revalidation, whether an execution precondition was formed, and whether it held.
  datatype Trial = Trial(result: Revalidation, preconditioned: bool, passed: Option<bool>)

  // One completed turn: the snapshots put to the planner, the attempts, what the last one led to if it was carried out, the
  // call it made, why it ended the run (if it did) and whether the context moved.
  datatype Turn = Turn(asked: seq<Id>, attempts: seq<Trial>, acted: Option<Acted>, callId: Option<Id>, stop: Option<Stop>, progress: bool)

  datatype RunResult = RunResult(status: Stop, turns: seq<Turn>, dispatched: nat)

  // ---- what a run is measured by ----

  predicate Distinct(ids: seq<Id>) { forall i, j :: 0 <= i < j < |ids| ==> ids[i] != ids[j] }

  /** Turns that hold a call identifier. */
  function Calls(turns: seq<Turn>): nat {
    if turns == [] then 0 else Calls(turns[..|turns| - 1]) + if turns[|turns| - 1].callId.Some? then 1 else 0
  }

  /** Length of the trailing streak of turns without progress. */
  function Streak(turns: seq<Turn>): nat {
    if turns == [] || turns[|turns| - 1].progress then 0 else 1 + Streak(turns[..|turns| - 1])
  }

  /** The proposal was about a superseded snapshot, policy or case; the turn may replan. */
  predicate Outdated(a: Trial) {
    || (!a.preconditioned && a.passed.None? && (a.result.StaleSnapshot? || a.result.StalePolicy?))
    || a == Trial(CasePreconditionFailed, true, Some(false))
  }

  /** The proposal was rejected before any precondition was formed. */
  predicate TurnedDown(a: Trial) {
    !a.preconditioned && (a.result.CandidateRejected? || a.result.CasePreconditionFailed? || a.result.QueryRebuildFailed?)
  }

  /** The proposal was refused when it was to be carried out. */
  predicate RefusedToAct(a: Trial) { a.preconditioned && a.passed.None? }

  function Last(turn: Turn): Trial
    requires turn.attempts != []
  {
    turn.attempts[|turn.attempts| - 1]
  }

  /** The planner answered every snapshot it was asked about. */
  predicate Answered(turn: Turn) { turn.attempts != [] && |turn.attempts| == |turn.asked| }

  /** The identifier of a reserved call. */
  function CallOf(acted: Acted): Option<Id> {
    if acted.Observed? || acted.ExecutionFailed? then Some(acted.callId) else None
  }

  /** Why a turn ends the run: replanning is exhausted when the last attempt was stale, or was rejected after a stale one;
      a rejection or refusal otherwise is a safety stop; a failed tool, a wait or an escalation ends it as it was carried out,
      and only an observed call lets the run continue. */
  predicate StopsExactly(turn: Turn) {
    && (turn.stop == Some(PlannerUnavailable) <==> !Answered(turn))
    && (turn.stop == Some(StaleReplanExhausted) <==>
          Answered(turn) && (Outdated(Last(turn)) || (TurnedDown(Last(turn)) && |turn.attempts| > 1)))
    && (turn.stop == Some(RuntimeSafetyStop) <==>
          Answered(turn) && (RefusedToAct(Last(turn)) || (TurnedDown(Last(turn)) && |turn.attempts| == 1)))
    && (turn.stop == Some(SafeNoAction) <==> Answered(turn) && Last(turn).result.NoSelectedAction?)
    && (turn.acted.Some? <==> Answered(turn) && Last(turn).passed == Some(true))
    && turn.callId == (if turn.acted.Some? then CallOf(turn.acted.value) else None)
    && (turn.stop == Some(ToolExecutionError) <==> turn.acted.Some? && turn.acted.value.ExecutionFailed?)
    && (turn.stop == Some(StopWaiting) <==> turn.acted == Some(Paused(true)))
    && (turn.stop == Some(StopEscalated) <==> turn.acted == Some(Paused(false)))
    && (turn.stop.None? <==> turn.acted.Some? && turn.acted.value.Observed?)
  }

  predicate TurnOk(config: Config, turn: Turn) {
    && |turn.asked| <= config.maxStaleReplans + 1 && Distinct(turn.asked)
    && |turn.attempts| <= |turn.asked| <= |turn.attempts| + 1
    && (forall i :: 0 <= i < |turn.attempts| - 1 ==> Outdated(turn.attempts[i]))
    && StopsExactly(turn)
    && (turn.stop.None? ==> turn.callId.Some?)
    && (turn.stop.Some? ==> !turn.stop.value.NoKnowledgeProgress? && !turn.stop.value.MaxTurnsReached?)
  }

  /** The last turn would have continued, but completed the streak of turns without progress. */
  predicate StreakEnded(config: Config, turns: seq<Turn>) {
    |turns| > 0 && turns[|turns| - 1].stop.None? && Streak(turns) == config.maxNoProgress
  }

  /** After these turns the loop goes on: none of them ended the run, and no streak reached the limit. */
  predicate Unfinished(config: Config, turns: seq<Turn>) {
    && (forall i :: 0 <= i < |turns| ==> TurnOk(config, turns[i]) && turns[i].stop.None?)
    && forall i :: 0 <= i <= |turns| ==> Streak(turns[..i]) < config.maxNoProgress
  }

  /** Every turn is bounded, only the last may have ended the run, and no earlier streak had reached the limit. */
  predicate Reported(config: Config, turns: seq<Turn>) {
    && (forall i :: 0 <= i < |turns| ==> TurnOk(config, turns[i]))
    && (forall i :: 0 <= i < |turns| - 1 ==> turns[i].stop.None?)
    && forall i :: 0 <= i < |turns| ==> Streak(turns[..i]) < config.maxNoProgress
  }

  lemma NothingYet(config: Config)
    requires config.maxNoProgress >= 1
    ensures Streak([]) == 0 && Calls([]) == 0 && Unfinished(config, [])
  {
  }

  lemma UnfinishedIsReported(config: Config, turns: seq<Turn>)
    requires Unfinished(config, turns)
    ensures Reported(config, turns) && !StreakEnded(config, turns)
  {
    hide Streak, TurnOk;
    assert turns[..|turns|] == turns;
  }

  lemma OneMoreTurn(config: Config, turns: seq<Turn>, turn: Turn)
    requires Unfinished(config, turns) && TurnOk(config, turn)
    ensures Streak(turns + [turn]) == if turn.progress then 0 else 1 + Streak(turns)
    ensures Calls(turns + [turn]) == Calls(turns) + if turn.callId.Some? then 1 else 0
    ensures Reported(config, turns + [turn])
    ensures turn.stop.None? && Streak(turns + [turn]) < config.maxNoProgress ==> Unfinished(config, turns + [turn])
    ensures StreakEnded(config, turns + [turn]) <==> turn.stop.None? && Streak(turns + [turn]) == config.maxNoProgress
    ensures turn.stop.Some? ==> !turn.stop.value.NoKnowledgeProgress?
    ensures |turn.asked| <= config.maxStaleReplans + 1
  {
    var more := turns + [turn];
    assert more[..|turns|] == turns && more[..|more|] == more;
    assert forall i :: 0 <= i <= |turns| ==> more[..i] == turns[..i];
  }

  /** At most `n` turns of at most this many planner calls each. */
  function PlanLimit(config: Config, n: nat): nat { n * (config.maxStaleReplans + 1) }

  lemma PlanLimitGrows(config: Config, n: nat, m: nat)
    requires n <= m
    ensures PlanLimit(config, n + 1) == PlanLimit(config, n) + config.maxStaleReplans + 1
    ensures PlanLimit(config, n) <= PlanLimit(config, m)
  {
  }

  lemma {:induction false} CallsBounded(turns: seq<Turn>)
    ensures Calls(turns) <= |turns|
  {
    if turns != [] { CallsBounded(turns[..|turns| - 1]); }
  }

  class AgentRuntime {
    const env: Environment
    const config: Config
    const executor: ReadExecutor.Executor
    const c: Id
    var moments: nat
    var plans: nat
    var checks: nat
    var acts: nat
    // Budget units of the case spent by this run's own commits, and by everybody else's.
    ghost var spent: int
    ghost var foreign: int

    constructor (env: Environment, config: Config, executor: ReadExecutor.Executor, c: Id)
      ensures this.env == env && this.config == config && this.executor == executor && this.c == c
      ensures plans == 0 && spent == 0 && foreign == 0
    {
      this.env, this.config, this.executor, this.c := env, config, executor, c;
      moments, plans, checks, acts, spent, foreign := 0, 0, 0, 0, 0, 0;
    }

    /** Case and evidence repositories share one database and tenant. */
    predicate Wired() {
      executor.cases.db == executor.evidence.db && executor.cases.tenant == executor.evidence.tenant
    }

    /** The spent budget of the case. */
    function Used(): nat
      reads executor.cases.db
    {
      if c in executor.cases.db.cases then executor.cases.db.cases[c].usedCalls else 0
    }

    /** Other workers may leave any database behind. */
    method Interleave()
      modifies `moments, `foreign, executor.cases.db
      ensures Used() - foreign == old(Used() - foreign)
    {
      ghost var before := Used();
      executor.cases.db.Become(env.others(moments, executor.cases.db.State()));
      foreign := foreign + Used() - before;
      moments := moments + 1;
    }

    /** A fresh context; a case that is gone or foreign ends the run. */
    method Load() returns (context: Option<Context>)
      modifies `moments, `foreign, executor.cases.db
      ensures Used() - foreign == old(Used() - foreign)
    {
      Interleave();
      var db := executor.cases.db;
      if c !in db.cases || db.cases[c].tenant != executor.cases.tenant { return None; }
      context := Some(Context(db.cases[c], env.snapshot(moments)));
    }

    method Plan() returns (planned: Planned)
      modifies `plans
      ensures plans == old(plans) + 1
    {
      planned := env.plan(plans);
      plans := plans + 1;
    }

    method Revalidate() returns (result: Revalidation)
      modifies `checks
    {
      result := env.check(checks);
      checks := checks + 1;
    }

    /** The only dispatch: a read that was reserved spends exactly one unit of the case and has a call identifier. */
    method CallTheTool(tool: Tool, pre: Precondition, at: Surroundings) returns (acted: Acted)
      requires Wired()
      modifies `spent, executor.cases.db
      ensures !acted.Paused?
      ensures spent == old(spent) + if acted.Observed? || acted.ExecutionFailed? then 1 else 0
      ensures Used() - spent == old(Used() - spent)
    {
      if at.query.None? { return Refused; }
      ghost var before := Used();
      var done := executor.Execute(c, tool, at.query.value, Some(pre), at.guards, at.callId, at.seen, at.now, at.later);
      spent := spent + Used() - before;
      match done
      case Observed(callId, _) => acted := Observed(callId);
      case Failed(callId) => acted := ExecutionFailed(callId);
      case NotReserved(fault) => acted := Unreserved(fault);
    }

    static function Unreserved(fault: Fault): Acted {
      if fault.PreconditionFailed? then PreconditionLost else if fault.PolicyRefused? then Refused else Aborted
    }

    static lemma PauseSpendsNothing(t: Tables, tenant: Id, c: Id, status: CaseStatus, pre: Precondition, leased: bool, atLimit: bool, now: Time)
      ensures var tx := PauseIfCurrent(t, tenant, c, status, pre, leased, atLimit, now);
        tx.Committed? ==> c in t.cases && c in tx.tables.cases && tx.tables.cases[c].usedCalls == t.cases[c].usedCalls
    {
    }

    method PauseTheCase(waiting: bool, pre: Precondition, at: Surroundings) returns (acted: Acted)
      requires Wired()
      modifies executor.cases.db
      ensures !acted.Observed? && !acted.ExecutionFailed? && Used() == old(Used())
    {
      var db := executor.cases.db;
      var status := if waiting then Waiting else Escalated;
      PauseSpendsNothing(db.State(), executor.cases.tenant, c, status, pre, at.guards.leased, at.atLimit, at.now);
      var paused := executor.cases.PauseIfCurrent(c, status, pre, at.guards.leased, at.atLimit, at.now);
      acted := if paused.Raised? then Unreserved(paused.fault) else Paused(waiting && !at.atLimit);
    }

    method Act(action: Action, row: CaseRow) returns (acted: Acted)
      requires Wired()
      modifies `moments, `foreign, `acts, `spent, executor.cases.db
      ensures spent == old(spent) + if acted.Observed? || acted.ExecutionFailed? then 1 else 0
      ensures Used() - spent - foreign == old(Used() - spent - foreign)
      ensures action.PauseCase? ==> !acted.Observed? && !acted.ExecutionFailed?
    {
      var pre := Precondition(c, executor.cases.tenant, row.status, row.usedCalls, row.revision);
      Interleave();
      var at := env.act(acts);
      acts := acts + 1;
      match action
      case CallTool(tool) => acted := CallTheTool(tool, pre, at);
      case PauseCase(waiting) => acted := PauseTheCase(waiting, pre, at);
    }

    /** One turn: replans on staleness, never on a snapshot it already asked about, and acts at most once. */
    method RunTurn(before: Context) returns (turn: Turn, current: Context, broken: bool)
      requires Wired()
      modifies `moments, `foreign, `plans, `checks, `acts, `spent, executor.cases.db
      ensures Used() - spent - foreign == old(Used() - spent - foreign)
      ensures !broken ==> TurnOk(config, turn) && plans == old(plans) + |turn.asked|
      ensures !broken ==> spent == old(spent) + if turn.callId.Some? then 1 else 0
    {
      hide Outdated, TurnOk, Distinct;
      current, broken, turn := before, true, Turn([], [], None, None, None, false);
      var asked: seq<Id>, attempts: seq<Trial>, done: Option<Acted>, callId: Option<Id> := [], [], None, None;
      var stop := Some(RuntimeSafetyStop);
      var left, settled := config.maxStaleReplans + 1, false;
      NoneAsked();
      while left > 0 && !settled
        invariant 0 <= left && |asked| + left <= config.maxStaleReplans + 1 && Distinct(asked)
        invariant plans == old(plans) + |asked|
        invariant Used() - spent - foreign == old(Used() - spent - foreign)
        invariant spent == old(spent) + if callId.Some? then 1 else 0
        invariant !settled ==> Replanning(asked, attempts, callId, stop) && done.None?
        invariant settled || left == 0 ==> forall p :: TurnOk(config, Turn(asked, attempts, done, callId, stop, p))
        decreases left, !settled
      {
        left := left - 1;
        if current.snapshot in asked {
          Exhausted(config, asked, attempts, callId, stop);
          stop, settled := Some(StaleReplanExhausted), true;
        } else {
          AskedOnce(asked, current.snapshot);
          asked := asked + [current.snapshot];
          var planned := Plan();
          if planned.ProtocolError? { return; }
          var loaded := Load();
          if loaded.None? { return; }
          current := loaded.value;
          if planned.Unavailable? {
            stop, settled := Some(PlannerUnavailable), true;
            Silent(config, asked, attempts, callId);
          } else {
            var result := Revalidate();
            if result.StaleSnapshot? || result.StalePolicy? {
              Unmet(result);
              ReplansAgain(config, asked, attempts, Trial(result, false, None));
              attempts, stop := attempts + [Trial(result, false, None)], Some(StaleReplanExhausted);
            } else if !result.Valid? {
              NotCarriedOut(config, asked, attempts, Trial(result, false, None), if result.NoSelectedAction? then Some(SafeNoAction) else stop);
              attempts, settled := attempts + [Trial(result, false, None)], true;
              // A rejected candidate ends the turn with whatever the last attempt left, be it staleness.
              if result.NoSelectedAction? { stop := Some(SafeNoAction); }
            } else {
              var acted := Act(planned.action, current.row);
              if acted.Aborted? { return; }
              var after := Load();
              if after.None? { return; }
              current := after.value;
              if acted.PreconditionLost? {
                Unmet(StaleSnapshot);
                ReplansAgain(config, asked, attempts, Trial(CasePreconditionFailed, true, Some(false)));
                attempts := attempts + [Trial(CasePreconditionFailed, true, Some(false))];
                stop := Some(StaleReplanExhausted);
              } else {
                CarriedOut(config, asked, attempts, acted);
                attempts, done, callId, stop, settled := attempts + [Carried(acted)], DoneBy(acted), CallOf(acted), StopOf(acted), true;
              }
            }
          }
        }
      }
      turn, broken := Turn(asked, attempts, done, callId, stop, env.progress(before.snapshot, current.snapshot)), false;
    }

    /** The trace, the call and the ending of an attempt that was carried out or refused. */
    static function Carried(acted: Acted): Trial
      requires !acted.Aborted? && !acted.PreconditionLost?
    {
      if acted.Refused? then Trial(QueryRebuildFailed, true, None) else Trial(Valid, true, Some(true))
    }

    static function DoneBy(acted: Acted): Option<Acted> { if acted.Refused? then None else Some(acted) }

    static function StopOf(acted: Acted): Option<Stop>
      requires !acted.Aborted? && !acted.PreconditionLost?
    {
      match acted
      case Observed(_) => None
      case ExecutionFailed(_) => Some(ToolExecutionError)
      case Refused => Some(RuntimeSafetyStop)
      case Paused(waiting) => Some(if waiting then StopWaiting else StopEscalated)
    }

    /** Every attempt so far was stale, and nothing was called. */
    static predicate Replanning(asked: seq<Id>, attempts: seq<Trial>, callId: Option<Id>, stop: Option<Stop>) {
      && |attempts| == |asked| && callId.None? && (forall i :: 0 <= i < |attempts| ==> Outdated(attempts[i]))
      && stop == Some(if attempts == [] then RuntimeSafetyStop else StaleReplanExhausted)
    }

    static lemma NoneAsked()
      ensures Distinct([]) && Replanning([], [], None, Some(RuntimeSafetyStop))
    {
    }

    static lemma AskedOnce(asked: seq<Id>, next: Id)
      requires Distinct(asked) && next !in asked
      ensures Distinct(asked + [next])
    {
    }

    /** Outdated attempts only: the turn is exhausted. */
    static lemma Exhausted(config: Config, asked: seq<Id>, attempts: seq<Trial>, callId: Option<Id>, stop: Option<Stop>)
      requires Replanning(asked, attempts, callId, stop) && asked != []
      requires |asked| <= config.maxStaleReplans + 1 && Distinct(asked)
      ensures forall p :: TurnOk(config, Turn(asked, attempts, None, callId, stop, p))
    {
      hide Distinct;
    }

    /** The planner did not answer the last snapshot. */
    static lemma Silent(config: Config, asked: seq<Id>, attempts: seq<Trial>, callId: Option<Id>)
      requires callId.None? && |asked| == |attempts| + 1 && |asked| <= config.maxStaleReplans + 1 && Distinct(asked)
      requires forall i :: 0 <= i < |attempts| ==> Outdated(attempts[i])
      ensures forall p :: TurnOk(config, Turn(asked, attempts, None, callId, Some(PlannerUnavailable), p))
    {
    }

    static lemma Unmet(result: Revalidation)
      ensures result.StaleSnapshot? || result.StalePolicy? ==> Outdated(Trial(result, false, None))
      ensures Outdated(Trial(CasePreconditionFailed, true, Some(false)))
    {
    }

    static lemma ReplansAgain(config: Config, asked: seq<Id>, attempts: seq<Trial>, a: Trial)
      requires |asked| == |attempts| + 1 && |asked| <= config.maxStaleReplans + 1 && Distinct(asked)
      requires forall i :: 0 <= i < |attempts| ==> Outdated(attempts[i])
      requires Outdated(a)
      ensures Replanning(asked, attempts + [a], None, Some(StaleReplanExhausted))
      ensures forall p :: TurnOk(config, Turn(asked, attempts + [a], None, None, Some(StaleReplanExhausted), p))
    {
    }

    /** A proposal that selects nothing or is rejected settles the turn. */
    static lemma NotCarriedOut(config: Config, asked: seq<Id>, attempts: seq<Trial>, a: Trial, stop: Option<Stop>)
      requires |asked| == |attempts| + 1 && |asked| <= config.maxStaleReplans + 1 && Distinct(asked)
      requires forall i :: 0 <= i < |attempts| ==> Outdated(attempts[i])
      requires !a.preconditioned && a.passed.None? && !a.result.StaleSnapshot? && !a.result.StalePolicy? && !a.result.Valid?
      requires stop == Some(if a.result.NoSelectedAction? then SafeNoAction
                            else if attempts == [] then RuntimeSafetyStop else StaleReplanExhausted)
      ensures forall p :: TurnOk(config, Turn(asked, attempts + [a], None, None, stop, p))
    {
    }

    /** An action that was carried out or refused settles the turn. */
    static lemma CarriedOut(config: Config, asked: seq<Id>, attempts: seq<Trial>, acted: Acted)
      requires |asked| == |attempts| + 1 && |asked| <= config.maxStaleReplans + 1 && Distinct(asked)
      requires forall i :: 0 <= i < |attempts| ==> Outdated(attempts[i])
      requires !acted.Aborted? && !acted.PreconditionLost?
      ensures forall p :: TurnOk(config, Turn(asked, attempts + [Carried(acted)], DoneBy(acted), CallOf(acted), StopOf(acted), p))
    {
    }

    /** Every run against every environment: bounded turns, bounded distinct planner calls per turn, one call at most per
        turn, NO_KNOWLEDGE_PROGRESS exactly at the streak limit, and exact accounting: the calls are the units of the case
        that this run spent, and the whole change of its spent budget is theirs and what other workers changed. */
    method Run() returns (result: Option<RunResult>)
      requires Wired() && spent == 0 && foreign == 0 && plans == 0 && config.maxNoProgress >= 1
      modifies this, executor.cases.db
      ensures result.Some? ==>
        var r := result.value;
        && |r.turns| <= config.maxTurns && Reported(config, r.turns)
        && r.dispatched == Calls(r.turns) == spent && r.dispatched <= config.maxTurns
        && Used() == old(Used()) + r.dispatched + foreign
        && plans <= PlanLimit(config, config.maxTurns)
        && (r.status.NoKnowledgeProgress? <==> StreakEnded(config, r.turns))
    {
      hide Streak, Calls, TurnOk, Unfinished, Reported, StreakEnded, PlanLimit;
      var initial := Load();
      if initial.None? { return None; }
      var current := initial.value;
      var turns: seq<Turn>, dispatched, noProgress, status := [], 0, 0, MaxTurnsReached;
      var going := true;
      NothingYet(config);
      UnfinishedIsReported(config, turns);
      while |turns| < config.maxTurns && going
        invariant |turns| <= config.maxTurns && Reported(config, turns)
        invariant dispatched == Calls(turns) == spent && plans <= PlanLimit(config, |turns|)
        invariant Used() - spent - foreign == old(Used())
        invariant going ==> Unfinished(config, turns) && noProgress == Streak(turns) < config.maxNoProgress
        invariant status.NoKnowledgeProgress? <==> StreakEnded(config, turns)
        invariant going ==> status == MaxTurnsReached
        decreases config.maxTurns - |turns|, going
      {
        var before := Load();
        if before.None? { return None; }
        current := before.value;
        if !Investigable(current.row.status) {
          status, going := RuntimeSafetyStop, false;
        } else {
          var turn, after, broken := RunTurn(current);
          if broken { return None; }
          current := after;
          OneMoreTurn(config, turns, turn);
          PlanLimitGrows(config, |turns|, |turns|);
          turns := turns + [turn];
          if turn.callId.Some? { dispatched := dispatched + 1; }
          if turn.stop.Some? {
            status, going := turn.stop.value, false;
          } else {
            noProgress := if turn.progress then 0 else noProgress + 1;
            if noProgress >= config.maxNoProgress { status, going := NoKnowledgeProgress, false; }
          }
        }
      }
      CallsBounded(turns);
      PlanLimitGrows(config, |turns|, config.maxTurns);
      result := Some(RunResult(status, turns, dispatched));
    }
  }
}
