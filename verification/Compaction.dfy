/** Repeated lookups: how long the trailing run of one answer is, for one tool and one exact query. */
module Compaction {
  import opened Domain

  // One repeated-lookup group: a tool, its exact query and the answer it kept giving.
  datatype GroupKey = GroupKey(tool: Tool, scope: Query, answer: Value)

  /** The facts of one tool and query. */
  function LookupsOf(evidence: set<Evidence>, tool: Tool, scope: Query): set<Evidence> {
    set e | e in evidence && e.tool == tool && e.scope == scope
  }

  function Observations(items: set<Evidence>): set<Id> { set e | e in items :: e.observationId }

  function FactsOf(items: set<Evidence>, o: Id): set<Evidence> { set e | e in items && e.observationId == o }

  /** The failed-lookup answers an observation recorded; none for a successful lookup. */
  function Answers(items: set<Evidence>, o: Id): set<Value> {
    set e | e in FactsOf(items, o) && e.claim == SourceLookupStatus :: e.value
  }

  /** `at` is the latest instant of observation `o`. */
  predicate AtInstant(items: set<Evidence>, o: Id, at: Time) {
    && (exists e :: e in FactsOf(items, o) && e.observedAt == at)
    && (forall e :: e in FactsOf(items, o) ==> e.observedAt <= at)
  }

  // ---- the simple specification ----

  /** Observation `o` belongs to the trailing run of `answer`: it is not before `retryAfter`, and every observation at its
      instant or later gave exactly this answer. */
  ghost predicate InRun(items: set<Evidence>, answer: Value, retryAfter: Option<Time>, o: Id) {
    && o in Observations(items)
    && exists at :: AtInstant(items, o, at) && (retryAfter.Some? ==> at >= retryAfter.value)
         && (forall p, later :: p in Observations(items) && AtInstant(items, p, later) && later >= at ==> Answers(items, p) == {answer})
  }

  ghost function Run(items: set<Evidence>, answer: Value, retryAfter: Option<Time>): set<Id> {
    set o | o in Observations(items) && InRun(items, answer, retryAfter, o)
  }

  // ---- the accumulated calls ----

  datatype Call = Call(at: Time, answers: set<Value>)

  /** Every observation with its latest instant and its answers. */
  ghost predicate Tabulates(items: set<Evidence>, calls: map<Id, Call>) {
    && calls.Keys == Observations(items)
    && forall o :: o in calls ==> AtInstant(items, o, calls[o].at) && calls[o].answers == Answers(items, o)
  }

  function Extend(calls: map<Id, Call>, e: Evidence): map<Id, Call> {
    var known := if e.observationId in calls then calls[e.observationId] else Call(e.observedAt, {});
    calls[e.observationId := Call(Max(known.at, e.observedAt),
                                  known.answers + if e.claim == SourceLookupStatus then {e.value} else {})]
  }

  lemma OtherObservation(items: set<Evidence>, e: Evidence, o: Id)
    requires o != e.observationId
    ensures FactsOf(items + {e}, o) == FactsOf(items, o) && Answers(items + {e}, o) == Answers(items, o)
  {
    assert FactsOf(items + {e}, o) == FactsOf(items, o);
  }

  lemma SameObservation(items: set<Evidence>, e: Evidence)
    ensures FactsOf(items + {e}, e.observationId) == FactsOf(items, e.observationId) + {e}
    ensures Answers(items + {e}, e.observationId)
              == Answers(items, e.observationId) + if e.claim == SourceLookupStatus then {e.value} else {}
  {
    assert FactsOf(items + {e}, e.observationId) == FactsOf(items, e.observationId) + {e};
  }

  lemma LaterInstant(items: set<Evidence>, e: Evidence, known: Option<Time>)
    requires if known.Some? then AtInstant(items, e.observationId, known.value) else e.observationId !in Observations(items)
    ensures AtInstant(items + {e}, e.observationId, if known.Some? then Max(known.value, e.observedAt) else e.observedAt)
    ensures known.None? ==> Answers(items, e.observationId) == {}
  {
    SameObservation(items, e);
    if known.None? { assert FactsOf(items, e.observationId) == {}; }
    hide FactsOf, Observations, Answers;
    if known.Some? && known.value > e.observedAt {
      var o :| o in FactsOf(items, e.observationId) && o.observedAt == known.value;
      assert o in FactsOf(items + {e}, e.observationId);
    } else {
      assert e in FactsOf(items + {e}, e.observationId);
    }
  }

  lemma ObservationAdded(items: set<Evidence>, e: Evidence)
    ensures Observations(items + {e}) == Observations(items) + {e.observationId}
  {
  }

  lemma RowTabulated(items: set<Evidence>, calls: map<Id, Call>, e: Evidence, o: Id)
    requires Tabulates(items, calls) && o in Extend(calls, e)
    ensures AtInstant(items + {e}, o, Extend(calls, e)[o].at) && Extend(calls, e)[o].answers == Answers(items + {e}, o)
  {
    if o == e.observationId {
      SameObservation(items, e);
      LaterInstant(items, e, if o in calls then Some(calls[o].at) else None);
    } else {
      OtherObservation(items, e, o);
    }
    hide FactsOf, Answers, Observations;
  }

  lemma TabulatesMore(items: set<Evidence>, calls: map<Id, Call>, e: Evidence)
    requires Tabulates(items, calls)
    ensures Tabulates(items + {e}, Extend(calls, e))
  {
    ObservationAdded(items, e);
    hide FactsOf, Answers, Observations, AtInstant;
    forall o | o in Extend(calls, e)
      ensures AtInstant(items + {e}, o, Extend(calls, e)[o].at) && Extend(calls, e)[o].answers == Answers(items + {e}, o)
    {
      RowTabulated(items, calls, e, o);
    }
  }

  method Tabulate(items: set<Evidence>) returns (calls: map<Id, Call>)
    ensures Tabulates(items, calls)
  {
    hide Tabulates, Extend;
    calls := map[];
    var rest := items;
    NothingTabulated();
    assert items - rest == {};
    while rest != {}
      invariant rest <= items && Tabulates(items - rest, calls)
    {
      var e :| e in rest;
      TabulatesMore(items - rest, calls, e);
      assert items - (rest - {e}) == (items - rest) + {e};
      calls := Extend(calls, e);
      rest := rest - {e};
    }
    assert items - rest == items;
  }

  lemma NothingTabulated()
    ensures Tabulates({}, map[])
  {
  }

  // ---- the counting loop ----

  /** The calls of an instant in `instants`. */
  function CallsAt(calls: map<Id, Call>, instants: set<Time>): set<Id> { set o | o in calls && calls[o].at in instants }

  function Instants(calls: map<Id, Call>): set<Time> { set o | o in calls :: calls[o].at }

  predicate Unmixed(calls: map<Id, Call>, at: Time, answer: Value) {
    forall o :: o in calls && calls[o].at == at ==> calls[o].answers == {answer}
  }

  function RunOf(calls: map<Id, Call>, answer: Value, retryAfter: Option<Time>): set<Id> {
    set o | o in calls && (retryAfter.Some? ==> calls[o].at >= retryAfter.value)
      && forall p :: p in calls && calls[p].at >= calls[o].at ==> calls[p].answers == {answer}
  }

  method Latest(instants: set<Time>) returns (at: Time)
    requires instants != {}
    ensures at in instants && forall t :: t in instants ==> t <= at
  {
    SomeInstant(instants);
    at :| at in instants;
    var rest := instants - {at};
    while rest != {}
      invariant rest <= instants && at in instants && forall t :: t in instants ==> t in rest || t <= at
    {
      SomeInstant(rest);
      var t :| t in rest;
      if t > at { at := t; }
      rest := rest - {t};
    }
  }

  lemma SomeInstant(s: set<Time>)
    ensures s == {} || exists t :: t in s
  {
    if forall t :: t !in s { assert s == {}; }
  }

  /** Latest instant first: stops before `retryAfter` and at the first instant with any other outcome. */
  method CountRun(calls: map<Id, Call>, answer: Value, retryAfter: Option<Time>) returns (consecutive: nat)
    ensures consecutive == |RunOf(calls, answer, retryAfter)|
  {
    consecutive := 0;
    var instants := Instants(calls);
    var rest := instants;
    CountStarts(calls);
    while rest != {}
      invariant rest <= instants
      invariant forall t, u :: t in rest && u in instants - rest ==> t < u
      invariant forall u :: u in instants - rest ==> Unmixed(calls, u, answer) && (retryAfter.Some? ==> u >= retryAfter.value)
      invariant consecutive == |CallsAt(calls, instants - rest)|
    {
      var at := Latest(rest);
      if (retryAfter.Some? && at < retryAfter.value) || !Unmixed(calls, at, answer) {
        RunStops(calls, answer, retryAfter, instants - rest, at);
        return;
      }
      CallsAtMore(calls, instants - rest, at);
      assert instants - (rest - {at}) == (instants - rest) + {at};
      consecutive := consecutive + |CallsAt(calls, {at})|;
      rest := rest - {at};
    }
    assert instants - rest == instants;
    RunIsAll(calls, answer, retryAfter);
  }

  lemma CountStarts(calls: map<Id, Call>)
    ensures CallsAt(calls, Instants(calls) - Instants(calls)) == {}
  {
  }

  lemma CallsAtMore(calls: map<Id, Call>, instants: set<Time>, at: Time)
    requires at !in instants
    ensures |CallsAt(calls, instants + {at})| == |CallsAt(calls, instants)| + |CallsAt(calls, {at})|
  {
    var a, b := CallsAt(calls, instants), CallsAt(calls, {at});
    assert CallsAt(calls, instants + {at}) == a + b;
    assert a !! b;
  }

  /** Everything at or before the stopping instant is outside the run, everything after it inside. */
  lemma RunStops(calls: map<Id, Call>, answer: Value, retryAfter: Option<Time>, done: set<Time>, at: Time)
    requires done <= Instants(calls) && at in Instants(calls) && at !in done
    requires forall t :: t in Instants(calls) && t !in done ==> t <= at
    requires forall u :: u in done ==> at < u && Unmixed(calls, u, answer) && (retryAfter.Some? ==> u >= retryAfter.value)
    requires (retryAfter.Some? && at < retryAfter.value) || !Unmixed(calls, at, answer)
    ensures RunOf(calls, answer, retryAfter) == CallsAt(calls, done)
  {
    forall o ensures o in RunOf(calls, answer, retryAfter) <==> o in CallsAt(calls, done) {
      if o in calls {
        assert calls[o].at in Instants(calls);
        if calls[o].at in done {
          forall p | p in calls && calls[p].at >= calls[o].at ensures calls[p].answers == {answer} {
            assert calls[p].at in Instants(calls);
          }
        }
      }
    }
  }

  lemma RunIsAll(calls: map<Id, Call>, answer: Value, retryAfter: Option<Time>)
    requires forall u :: u in Instants(calls) ==> Unmixed(calls, u, answer) && (retryAfter.Some? ==> u >= retryAfter.value)
    ensures RunOf(calls, answer, retryAfter) == CallsAt(calls, Instants(calls))
  {
    forall o | o in calls ensures calls[o].at in Instants(calls) { }
  }

  lemma RunsAgree(items: set<Evidence>, calls: map<Id, Call>, answer: Value, retryAfter: Option<Time>)
    requires Tabulates(items, calls)
    ensures RunOf(calls, answer, retryAfter) == Run(items, answer, retryAfter)
  {
    hide Answers, FactsOf;
    forall o ensures o in RunOf(calls, answer, retryAfter) <==> o in Run(items, answer, retryAfter) {
      if o in calls { RunAgrees(items, calls, answer, retryAfter, o); }
    }
  }

  lemma OneInstant(items: set<Evidence>, o: Id, a: Time, b: Time)
    requires AtInstant(items, o, a) && AtInstant(items, o, b)
    ensures a == b
  {
  }

  lemma RunAgrees(items: set<Evidence>, calls: map<Id, Call>, answer: Value, retryAfter: Option<Time>, o: Id)
    requires Tabulates(items, calls) && o in calls
    ensures o in RunOf(calls, answer, retryAfter) <==> InRun(items, answer, retryAfter, o)
  {
    hide Answers, AtInstant;
    if InRun(items, answer, retryAfter, o) {
      var at :| AtInstant(items, o, at) && (retryAfter.Some? ==> at >= retryAfter.value)
        && (forall p, later :: p in Observations(items) && AtInstant(items, p, later) && later >= at ==> Answers(items, p) == {answer});
      OneInstant(items, o, at, calls[o].at);
    }
    if o in RunOf(calls, answer, retryAfter) {
      forall p, later | p in Observations(items) && AtInstant(items, p, later) && later >= calls[o].at
        ensures Answers(items, p) == {answer}
      {
        assert p in calls;
        OneInstant(items, p, later, calls[p].at);
      }
    }
  }

  // ---- the groups ----

  function Groups(evidence: set<Evidence>): set<GroupKey> {
    set e | e in evidence && e.claim == SourceLookupStatus :: GroupKey(e.tool, e.scope, e.value)
  }

  /** One count per group; each is the length of its trailing run, whatever order the evidence came in. */
  method LookupGroups(evidence: set<Evidence>, retryAfter: Option<Time>) returns (counts: map<GroupKey, nat>)
    ensures counts.Keys == Groups(evidence)
    ensures forall k :: k in counts ==> counts[k] == |Run(LookupsOf(evidence, k.tool, k.scope), k.answer, retryAfter)|
  {
    hide Run, LookupsOf, Tabulates, RunOf;
    counts := map[];
    var rest := Groups(evidence);
    while rest != {}
      invariant rest <= Groups(evidence) && counts.Keys == Groups(evidence) - rest
      invariant forall k :: k in counts ==> counts[k] == |Run(LookupsOf(evidence, k.tool, k.scope), k.answer, retryAfter)|
    {
      var k :| k in rest;
      var items := LookupsOf(evidence, k.tool, k.scope);
      var calls := Tabulate(items);
      RunsAgree(items, calls, k.answer, retryAfter);
      var consecutive := CountRun(calls, k.answer, retryAfter);
      counts := counts[k := consecutive];
      rest := rest - {k};
    }
  }

  /** A run of `answer` starts at an instant after which every observation answered so. */
  lemma RunAnswers(items: set<Evidence>, answer: Value, retryAfter: Option<Time>) returns (o: Id, at: Time)
    requires Run(items, answer, retryAfter) != {}
    ensures o in Observations(items) && AtInstant(items, o, at)
    ensures forall p, later :: p in Observations(items) && AtInstant(items, p, later) && later >= at ==> Answers(items, p) == {answer}
  {
    hide AtInstant, Answers, Observations;
    SomeInstant(Run(items, answer, retryAfter));
    o :| o in Run(items, answer, retryAfter);
    at :| AtInstant(items, o, at) && (retryAfter.Some? ==> at >= retryAfter.value)
      && (forall p, later :: p in Observations(items) && AtInstant(items, p, later) && later >= at ==> Answers(items, p) == {answer});
  }

  /** Of one tool and query at most one answer has a trailing run. */
  lemma OneTrailingAnswer(items: set<Evidence>, a: Value, b: Value, retryAfter: Option<Time>)
    requires Run(items, a, retryAfter) != {} && Run(items, b, retryAfter) != {}
    ensures a == b
  {
    hide AtInstant, Answers, Observations, Run;
    var o, s := RunAnswers(items, a, retryAfter);
    var p, t := RunAnswers(items, b, retryAfter);
    var shared := if s >= t then o else p;
    assert Answers(items, shared) == {a} && Answers(items, shared) == {b};
    assert a in {b};
  }
}
