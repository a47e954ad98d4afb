/** The synthetic remote side: effects applied once each, and a status answer that agrees with them. */
module ExternalEffects {
  import opened Domain
  import opened Tables

  datatype WorldMessage = WorldMessage(id: Text, eventId: Text, status: Text, error: Option<Text>, dlq: Option<Text>, at: Time)

  datatype Delivery = Delivery(eventId: Text, status: Text, error: Option<Text>, at: Time)

  datatype World = World(at: Time, messages: seq<WorldMessage>, delivery: Delivery)

  // The snapshots of a simulated world in revision order, and its clock.
  datatype Simulation = Simulation(clock: Time, history: seq<World>)

  datatype CaseRef = CaseRef(tenant: Id, order: Id, simulation: Id)

  datatype EffectTarget = AtMessage(message: Text) | AtDelivery(delivery: Text) | AtCase(caseId: Id)

  datatype RemoteKey = RemoteKey(world: Id, action: Action, target: EffectTarget)

  // `AppliedAs` is the APPLIED receipt, `NoEffect` the FAILED_CONFIRMED one, `Crashed` no receipt at all.
  // `external` is the reference answered for the effect; it is derived from the key.
  datatype Record = Record(payload: Command, correlation: Id, external: RemoteKey)

  datatype Remote = Remote(
    cases: map<Id, CaseRef>, simulations: map<Id, Simulation>, effects: map<RemoteKey, Record>, tasks: map<RemoteKey, Command>)

  datatype RemoteReceipt = AppliedAs(external: RemoteKey) | NoEffect | Crashed

  function ActionOf(c: Command): Action {
    match c
    case ReplayCommand(_, _, _, _, _) => ReplayCallback
    case RedeliverCommand(_, _, _, _) => RedeliverAsset
    case ReconcileCommand(_, _, _) => CreateReconciliation
    case ReviewCommand(_, _, _) => RequestReview
  }

  function TargetOf(c: Command): EffectTarget {
    match c
    case ReplayCommand(_, _, _, message, _) => AtMessage(message)
    case RedeliverCommand(_, _, _, delivery) => AtDelivery(delivery)
    case ReconcileCommand(_, c, _) => AtCase(c)
    case ReviewCommand(_, c, _) => AtCase(c)
  }

  /** The command is for a case of this tenant and for the order of that case. */
  predicate Owned(s: Remote, tenant: Id, c: Command) {
    && c.caseId in s.cases && s.cases[c.caseId].tenant == tenant && c.tenant == tenant
    && s.cases[c.caseId].order == c.order
  }

  function RemoteKeyOf(s: Remote, c: Command): RemoteKey
    requires c.caseId in s.cases
  {
    RemoteKey(s.cases[c.caseId].simulation, ActionOf(c), TargetOf(c))
  }

  /** The last snapshot that has already happened. */
  function CurrentWorld(history: seq<World>, now: Time): Option<World> {
    if history == [] then None
    else if history[|history| - 1].at <= now then Some(history[|history| - 1])
    else CurrentWorld(history[..|history| - 1], now)
  }

  function WorldOf(s: Remote, world: Id): (w: Option<World>)
    ensures w.Some? ==> world in s.simulations
  {
    if world in s.simulations then CurrentWorld(s.simulations[world].history, s.simulations[world].clock) else None
  }

  predicate IsTarget(m: WorldMessage, message: Text, event: Text) { m.id == message && m.eventId == event }

  /** The single failed message a replay may touch. */
  predicate Replayable(w: World, i: nat, message: Text, event: Text) {
    && i < |w.messages| && IsTarget(w.messages[i], message, event) && w.messages[i].status == FAILED
    && forall j :: 0 <= j < |w.messages| && IsTarget(w.messages[j], message, event) ==> j == i
  }

  predicate CanReplay(w: World, message: Text, event: Text) { exists i: nat :: i < |w.messages| && Replayable(w, i, message, event) }

  function Replayed(w: World, message: Text, event: Text, at: Time): World {
    World(at, seq(|w.messages|, i requires 0 <= i < |w.messages| =>
      if IsTarget(w.messages[i], message, event) then w.messages[i].(status := CONSUMED, error := None, dlq := None, at := at) else w.messages[i]),
      w.delivery)
  }

  /** The world a command leaves behind: None when it has nothing to act on, unchanged for an administrative task. */
  function WorldAfter(w: World, c: Command, at: Time): (after: Option<Option<World>>)
    ensures after.Some? && after.value.Some? ==> after.value.value.at == at
  {
    match c
    case ReplayCommand(_, _, _, message, event) => if CanReplay(w, message, event) then Some(Some(Replayed(w, message, event, at))) else None
    case RedeliverCommand(_, _, _, delivery) =>
      if w.delivery.eventId == delivery && w.delivery.status == FAILED
      then Some(Some(w.(at := at, delivery := w.delivery.(status := DELIVERED, error := None, at := at)))) else None
    case _ => Some(None)
  }

  function Moved(sim: Simulation, changed: Option<World>, at: Time): Simulation {
    if changed.Some? then Simulation(at, sim.history + [changed.value]) else sim
  }

  datatype Answered = Answered(remote: Remote, receipt: RemoteReceipt)

  /** One dispatch, atomically. */
  function Dispatch(s: Remote, tenant: Id, c: Command, correlation: Id): Answered {
    if !Owned(s, tenant, c) then Answered(s, NoEffect)
    else
      var key := RemoteKeyOf(s, c);
      var world := WorldOf(s, key.world);
      if world.None? then Answered(s, Crashed)
      else if key in s.effects then
        Answered(s, if s.effects[key].payload == c then AppliedAs(s.effects[key].external) else NoEffect)
      else
        var sim := s.simulations[key.world];
        match WorldAfter(world.value, c, sim.clock + 1)
        case None => Answered(s, NoEffect)
        case Some(changed) =>
          Answered(s.(simulations := s.simulations[key.world := Moved(sim, changed, sim.clock + 1)],
                      effects := s.effects[key := Record(c, correlation, key)],
                      tasks := if changed.None? then s.tasks[key := c] else s.tasks),
                   AppliedAs(key))
  }

  // ---- the status answer ----

  datatype LookupAnswer = FoundApplied(external: RemoteKey) | NotFound | Indeterminate

  function Records(s: Remote, correlation: Id): set<RemoteKey> {
    set k | k in s.effects && s.effects[k].correlation == correlation
  }

  function Lookup(s: Remote, tenant: Id, c: Command, correlation: Id): LookupAnswer {
    if !Owned(s, tenant, c) then Indeterminate
    else if Records(s, correlation) == {} then NotFound
    else
      var key := RemoteKeyOf(s, c);
      if Records(s, correlation) != {key} || s.effects[key].payload != c then Indeterminate
      else FoundApplied(s.effects[key].external)
  }

  // ---- agreement ----

  /** Whatever is dispatched, recorded effects stay exactly as they were recorded. */
  lemma RecordsKept(s: Remote, tenant: Id, c: Command, correlation: Id, k: RemoteKey)
    requires k in s.effects
    ensures k in Dispatch(s, tenant, c, correlation).remote.effects
    ensures Dispatch(s, tenant, c, correlation).remote.effects[k] == s.effects[k]
    ensures Dispatch(s, tenant, c, correlation).remote.cases == s.cases
  {
    hide WorldAfter, WorldOf, Moved;
  }

  /** FAILED_CONFIRMED means that this dispatch changed nothing at all. */
  lemma FailedChangesNothing(s: Remote, tenant: Id, c: Command, correlation: Id)
    ensures Dispatch(s, tenant, c, correlation).receipt.NoEffect? ==> Dispatch(s, tenant, c, correlation).remote == s
  {
    hide WorldAfter, WorldOf, Moved;
  }

  // ---- what a first dispatch does to the world ----

  /** The current world is the last snapshot whose time has come. */
  lemma {:induction false} CurrentIsLast(history: seq<World>, now: Time)
    ensures var w := CurrentWorld(history, now);
      if w.None? then forall i :: 0 <= i < |history| ==> now < history[i].at
      else exists i :: 0 <= i < |history| && history[i] == w.value && history[i].at <= now && forall j :: i < j < |history| ==> now < history[j].at
  {
    if history != [] && history[|history| - 1].at > now { CurrentIsLast(history[..|history| - 1], now); }
  }

  /** Message `i` is the one message the command names, and it failed. */
  predicate OnlyTarget(w: World, i: nat, message: Text, event: Text) {
    && i < |w.messages| && w.messages[i].id == message && w.messages[i].eventId == event && w.messages[i].status == FAILED
    && forall j :: 0 <= j < |w.messages| && j != i ==> w.messages[j].id != message || w.messages[j].eventId != event
  }

  /** The command finds what it acts on: its single failed message, its failed delivery; a task needs nothing. */
  predicate CanAct(w: World, c: Command) {
    match c
    case ReplayCommand(_, _, _, message, event) => exists i: nat :: i < |w.messages| && OnlyTarget(w, i, message, event)
    case RedeliverCommand(_, _, _, delivery) => w.delivery.eventId == delivery && w.delivery.status == FAILED
    case _ => true
  }

  /** From `w` to `w'` message `i` alone was consumed, at `w'.at`. */
  predicate ConsumedOnly(w: World, w': World, i: nat) {
    && i < |w.messages| == |w'.messages| && w'.delivery == w.delivery
    && w'.messages[i] == w.messages[i].(status := CONSUMED, error := None, dlq := None, at := w'.at)
    && forall j :: 0 <= j < |w.messages| && j != i ==> w'.messages[j] == w.messages[j]
  }

  /** From `w` to `w'` the delivery alone was made, at `w'.at`. */
  predicate DeliveredOnly(w: World, w': World) {
    w'.messages == w.messages && w'.delivery == w.delivery.(status := DELIVERED, error := None, at := w'.at)
  }

  /** The command turned exactly its own target of the world `w`, in one further snapshot, or only filed its task. */
  predicate Acted(w: World, sim: Simulation, sim': Simulation, c: Command) {
    if c.ReconcileCommand? || c.ReviewCommand? then sim' == sim
    else
      && |sim'.history| == |sim.history| + 1 && sim'.history[..|sim.history|] == sim.history
      && sim'.clock == sim.clock + 1 && sim'.history[|sim.history|].at == sim'.clock
      && var w' := sim'.history[|sim.history|];
      if c.ReplayCommand? then exists i: nat :: i < |w.messages| && OnlyTarget(w, i, c.messageRef, c.eventRef) && ConsumedOnly(w, w', i)
      else c.deliveryRef == w.delivery.eventId && w.delivery.status == FAILED && DeliveredOnly(w, w')
  }

  lemma WorldActs(w: World, sim: Simulation, c: Command)
    ensures var after := WorldAfter(w, c, sim.clock + 1);
      && (after.Some? <==> CanAct(w, c))
      && (after.Some? ==> Acted(w, sim, Moved(sim, after.value, sim.clock + 1), c))
      && (after.Some? ==> (after.value.None? <==> c.ReconcileCommand? || c.ReviewCommand?))
  {
    match c
    case ReplayCommand(_, _, _, message, event) =>
      TargetFound(w, message, event);
      if i: nat :| i < |w.messages| && OnlyTarget(w, i, message, event) {
        assert ConsumedOnly(w, Replayed(w, message, event, sim.clock + 1), i);
      }
    case _ =>
  }

  lemma TargetFound(w: World, message: Text, event: Text)
    ensures CanReplay(w, message, event) <==> exists i: nat :: i < |w.messages| && OnlyTarget(w, i, message, event)
  {
    forall i: nat ensures Replayable(w, i, message, event) <==> OnlyTarget(w, i, message, event) { OneTarget(w, i, message, event); }
    hide Replayable, OnlyTarget;
  }

  lemma OneTarget(w: World, i: nat, message: Text, event: Text)
    ensures Replayable(w, i, message, event) <==> OnlyTarget(w, i, message, event)
  {
  }

  /** A first dispatch in an existing world is APPLIED exactly when it finds its target, and then it turns that target and
      nothing else of any world; an administrative command only files its task. */
  lemma FirstDispatchActs(s: Remote, tenant: Id, c: Command, correlation: Id)
    requires Owned(s, tenant, c) && RemoteKeyOf(s, c) !in s.effects && WorldOf(s, RemoteKeyOf(s, c).world).Some?
    ensures var key := RemoteKeyOf(s, c); var w := WorldOf(s, key.world).value;
      var t, receipt := Dispatch(s, tenant, c, correlation).remote, Dispatch(s, tenant, c, correlation).receipt;
      && (receipt == AppliedAs(key) <==> CanAct(w, c)) && (receipt == NoEffect <==> !CanAct(w, c))
      && (CanAct(w, c) ==>
            && key.world in t.simulations && Acted(w, s.simulations[key.world], t.simulations[key.world], c)
            && t.simulations == s.simulations[key.world := t.simulations[key.world]]
            && t.effects == s.effects[key := Record(c, correlation, key)] && t.cases == s.cases
            && t.tasks == if c.ReconcileCommand? || c.ReviewCommand? then s.tasks[key := c] else s.tasks)
  {
    hide WorldAfter, Moved, Acted, CanAct, WorldOf;
    var key := RemoteKeyOf(s, c);
    WorldActs(WorldOf(s, key.world).value, s.simulations[key.world], c);
  }

  // ---- runs of dispatches by any tenants ----

  datatype Asked = Asked(tenant: Id, command: Command, correlation: Id)

  function Step(s: Remote, a: Asked): Remote { Dispatch(s, a.tenant, a.command, a.correlation).remote }

  function After(s: Remote, calls: seq<Asked>): Remote {
    if calls == [] then s else Step(After(s, calls[..|calls| - 1]), calls[|calls| - 1])
  }

  /** Along any number of dispatches, whoever asks, a recorded effect keeps its record. */
  lemma {:induction false} RecordsKeptAlways(s: Remote, calls: seq<Asked>, k: RemoteKey)
    ensures k in s.effects ==> k in After(s, calls).effects && After(s, calls).effects[k] == s.effects[k]
    ensures After(s, calls).cases == s.cases && s.simulations.Keys <= After(s, calls).simulations.Keys
  {
    if calls != [] {
      hide Dispatch;
      var rest, last := calls[..|calls| - 1], calls[|calls| - 1];
      RecordsKeptAlways(s, rest, k);
      CasesKept(After(s, rest), last);
      if k in s.effects { RecordsKept(After(s, rest), last.tenant, last.command, last.correlation, k); }
      WorldsKept(After(s, rest), last.tenant, last.command, last.correlation);
    }
  }

  lemma CasesKept(s: Remote, a: Asked)
    ensures Step(s, a).cases == s.cases
  {
    hide WorldAfter, WorldOf, Moved;
  }

  /** The `i`-th dispatch of a run changed the remote side. */
  predicate ChangesAt(s: Remote, calls: seq<Asked>, i: nat)
    requires i < |calls|
  {
    Step(After(s, calls[..i]), calls[i]) != After(s, calls[..i])
  }

  /** Only a first dispatch for its key changes anything, and it leaves its record. */
  lemma ChangeRecords(s: Remote, a: Asked)
    requires Step(s, a) != s
    ensures a.command.caseId in s.cases
    ensures var key := RemoteKeyOf(s, a.command);
      key !in s.effects && key in Step(s, a).effects && Step(s, a).effects[key] == Record(a.command, a.correlation, key)
  {
    hide WorldAfter, WorldOf, Moved;
  }

  lemma {:induction false} StaysRecorded(s: Remote, calls: seq<Asked>, i: nat, j: nat, k: RemoteKey)
    requires i <= j <= |calls| && k in After(s, calls[..i]).effects
    ensures k in After(s, calls[..j]).effects && After(s, calls[..j]).effects[k] == After(s, calls[..i]).effects[k]
  {
    if i < j {
      hide Dispatch;
      StaysRecorded(s, calls, i, j - 1, k);
      assert calls[..j][..j - 1] == calls[..j - 1];
      RecordsKept(After(s, calls[..j - 1]), calls[j - 1].tenant, calls[j - 1].command, calls[j - 1].correlation, k);
    }
  }

  /** What a changing dispatch recorded is still there, unchanged, after every later one. */
  lemma ChangeStaysRecorded(s: Remote, calls: seq<Asked>, i: nat, j: nat)
    requires i < j <= |calls| && ChangesAt(s, calls, i)
    ensures calls[i].command.caseId in s.cases && RemoteKeyOf(s, calls[i].command) !in After(s, calls[..i]).effects
    ensures var key := RemoteKeyOf(s, calls[i].command);
      && key in After(s, calls[..j]).effects
      && After(s, calls[..j]).effects[key] == Record(calls[i].command, calls[i].correlation, key)
  {
    hide Dispatch;
    RecordsKeptAlways(s, calls[..i], RemoteKey(0, NoRemediation, AtCase(0)));
    ChangeRecords(After(s, calls[..i]), calls[i]);
    assert calls[..i + 1][..i] == calls[..i];
    StaysRecorded(s, calls, i + 1, j, RemoteKeyOf(s, calls[i].command));
  }

  /** Along every run of dispatches, whoever asks, no two of them apply the same (world, action, target). */
  lemma AppliedAtMostOnce(s: Remote, calls: seq<Asked>, i: nat, j: nat)
    requires i < j < |calls| && ChangesAt(s, calls, i) && ChangesAt(s, calls, j)
    ensures calls[i].command.caseId in s.cases && calls[j].command.caseId in s.cases
    ensures RemoteKeyOf(s, calls[i].command) != RemoteKeyOf(s, calls[j].command)
  {
    hide Dispatch, ChangesAt;
    ChangeStaysRecorded(s, calls, i, j);
    ChangeStaysRecorded(s, calls, j, j + 1);
  }

  lemma WorldsKept(s: Remote, tenant: Id, c: Command, correlation: Id)
    ensures s.simulations.Keys <= Dispatch(s, tenant, c, correlation).remote.simulations.Keys
  {
    hide WorldAfter, WorldOf, Moved;
  }

  /** Repeating a dispatch with the same payload changes nothing and answers the same reference. */
  lemma RepeatIsIdempotent(s: Remote, tenant: Id, c: Command, correlation: Id, again: Id)
    requires Dispatch(s, tenant, c, correlation).receipt.AppliedAs?
    ensures var first := Dispatch(s, tenant, c, correlation);
      Dispatch(first.remote, tenant, c, again) == Answered(first.remote, first.receipt)
  {
    var first := Dispatch(s, tenant, c, correlation);
    var key := RemoteKeyOf(s, c);
    assert RemoteKeyOf(first.remote, c) == key;
    CurrentAfter(s, tenant, c, correlation);
    hide WorldAfter, WorldOf;
  }

  lemma CurrentAfter(s: Remote, tenant: Id, c: Command, correlation: Id)
    requires Dispatch(s, tenant, c, correlation).receipt.AppliedAs?
    ensures WorldOf(Dispatch(s, tenant, c, correlation).remote, RemoteKeyOf(s, c).world).Some?
  {
    hide WorldAfter;
    var sim := s.simulations[RemoteKeyOf(s, c).world];
    forall w: World | w.at == sim.clock + 1 ensures CurrentWorld(sim.history + [w], sim.clock + 1).Some? {
      assert (sim.history + [w])[|sim.history|] == w;
    }
  }

  /** The status answer says FOUND_APPLIED exactly for the one recorded effect with this correlation, this key and this payload. */
  lemma LookupExactly(s: Remote, tenant: Id, c: Command, correlation: Id)
    requires Owned(s, tenant, c)
    ensures Lookup(s, tenant, c, correlation).FoundApplied? <==>
      && RemoteKeyOf(s, c) in s.effects
      && s.effects[RemoteKeyOf(s, c)].correlation == correlation && s.effects[RemoteKeyOf(s, c)].payload == c
      && forall k :: k in s.effects && s.effects[k].correlation == correlation ==> k == RemoteKeyOf(s, c)
  {
    var key := RemoteKeyOf(s, c);
    if key in s.effects && s.effects[key].correlation == correlation {
      assert key in Records(s, correlation);
      if forall k :: k in s.effects && s.effects[k].correlation == correlation ==> k == key {
        assert Records(s, correlation) == {key};
      }
    }
    if Records(s, correlation) == {key} {
      forall k | k in s.effects && s.effects[k].correlation == correlation ensures k == key { assert k in Records(s, correlation); }
    }
  }

  /** A dispatch answered APPLIED is found by its own correlation exactly when nobody else's record carries it: a first
      dispatch needs an unused correlation, a repeat the correlation that applied the effect. What is found is the
      reference the receipt named. */
  lemma AppliedIsFoundExactly(s: Remote, tenant: Id, c: Command, correlation: Id)
    requires Dispatch(s, tenant, c, correlation).receipt.AppliedAs?
    ensures Owned(s, tenant, c)
    ensures var first := Dispatch(s, tenant, c, correlation);
      var found := Lookup(first.remote, tenant, c, correlation);
      && (found.FoundApplied? <==>
            if RemoteKeyOf(s, c) in s.effects then Records(s, correlation) == {RemoteKeyOf(s, c)} else Records(s, correlation) == {})
      && (found.FoundApplied? ==> found.external == first.receipt.external)
  {
    hide WorldAfter, WorldOf, Moved;
    var t, key := Dispatch(s, tenant, c, correlation).remote, RemoteKeyOf(s, c);
    if key !in s.effects {
      forall k ensures k in Records(t, correlation) <==> k in Records(s, correlation) + {key} { }
      assert Records(t, correlation) == Records(s, correlation) + {key};
      if k :| k in Records(s, correlation) { assert k in Records(t, correlation) && k != key; }
    }
  }

  /** A repeat under a new correlation is answered APPLIED, yet a lookup by that correlation finds nothing:
      the record keeps the correlation that applied the effect. */
  lemma RepeatIsNotFound(s: Remote, tenant: Id, c: Command, correlation: Id, again: Id)
    requires Dispatch(s, tenant, c, correlation).receipt.AppliedAs?
    requires Records(Dispatch(s, tenant, c, correlation).remote, again) == {}
    ensures var first := Dispatch(s, tenant, c, correlation);
      && Dispatch(first.remote, tenant, c, again).receipt == first.receipt
      && Lookup(Dispatch(first.remote, tenant, c, again).remote, tenant, c, again) == NotFound
  {
    RepeatIsIdempotent(s, tenant, c, correlation, again);
    hide WorldAfter, WorldOf, Moved, Records;
  }

  // ---- the service, in place ----

  class RemoteEffects {
    const tenant: Id
    const cases: map<Id, CaseRef>
    var simulations: map<Id, Simulation>
    var effects: map<RemoteKey, Record>
    var tasks: map<RemoteKey, Command>

    constructor (tenant: Id, cases: map<Id, CaseRef>, simulations: map<Id, Simulation>)
      ensures this.tenant == tenant && State() == Remote(cases, simulations, map[], map[])
    {
      this.tenant, this.cases, this.simulations := tenant, cases, simulations;
      effects, tasks := map[], map[];
    }

    function State(): Remote
      reads this
    {
      Remote(cases, simulations, effects, tasks)
    }

    /** Appends the changed world and moves the clock with it, or files a task; then records the effect. */
    method DispatchCommand(c: Command, correlation: Id) returns (receipt: RemoteReceipt)
      modifies this
      ensures Answered(State(), receipt) == Dispatch(old(State()), tenant, c, correlation)
    {
      hide WorldAfter, WorldOf, Moved;
      if !Owned(State(), tenant, c) { return NoEffect; }
      var key := RemoteKeyOf(State(), c);
      var world := WorldOf(State(), key.world);
      if world.None? { return Crashed; }
      if key in effects { return if effects[key].payload == c then AppliedAs(effects[key].external) else NoEffect; }
      var sim := simulations[key.world];
      var at := sim.clock + 1;
      var after := WorldAfter(world.value, c, at);
      if after.None? { return NoEffect; }
      simulations := simulations[key.world := Moved(sim, after.value, at)];
      if after.value.None? { tasks := tasks[key := c]; }
      effects := effects[key := Record(c, correlation, key)];
      receipt := AppliedAs(key);
    }

    method LookupStatus(c: Command, correlation: Id) returns (answer: LookupAnswer)
      ensures answer == Lookup(State(), tenant, c, correlation)
    {
      if !Owned(State(), tenant, c) { return Indeterminate; }
      var records := set k | k in effects && effects[k].correlation == correlation;
      if records == {} { return NotFound; }
      var key := RemoteKeyOf(State(), c);
      answer := if records != {key} || effects[key].payload != c then Indeterminate else FoundApplied(effects[key].external);
    }
  }
}
