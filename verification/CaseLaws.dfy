/** Exactly when a case is opened, a read reserved, a case paused, reopened or closed, over the rows alone. */
module CaseLaws {
  import opened Domain
  import opened Tables
  import opened CaseTransactions
  import opened EvidenceVerification
  import opened ClosureTransactions

  /** Only the row of case `c` changed, to `row`, at a revision later than it had and not before `now`. */
  predicate OnlyCase(t: Tables, t': Tables, c: Id, row: CaseRow, now: Time) {
    && c in t.cases && c in t'.cases && t'.cases == t.cases[c := t'.cases[c]]
    && t'.cases[c] == row.(revision := t'.cases[c].revision) && t'.cases[c].revision == Max(now, t.cases[c].revision + 1)
  }

  // ---- opening ----

  /** A new case spends nothing yet, and its scope lies within a live grant for its own simulation and order. */
  predicate MayOpen(tenant: Id, row: CaseRow, grant: Option<Grant>, clock: Option<Time>) {
    && row.tenant == tenant && row.status == New && row.usedCalls == 0 && row.lookupRetryAfter.None?
    && row.order in row.allowedOrders && row.createdAt <= row.revision
    && grant.Some? && clock.Some? && grant.value.simulation == row.simulation && clock.value < grant.value.expiresAt
    && (forall o :: o in row.allowedOrders ==> o == grant.value.order)
    && (forall tool :: tool in row.allowedTools ==> tool in grant.value.allowedTools)
  }

  lemma CreateExactly(t: Tables, tenant: Id, c: Id, row: CaseRow, grant: Option<Grant>, clock: Option<Time>)
    ensures var tx := Create(t, tenant, c, row, grant, clock);
      && (tx.Committed? <==> MayOpen(tenant, row, grant, clock) && c !in t.cases)
      && (tx.Committed? ==> tx.tables == t.(cases := t.cases[c := row.(grantHash := grant.value.hash)]))
  {
    if grant.Some? { WithinGrant(row.allowedOrders, grant.value.order, row.allowedTools, grant.value.allowedTools); }
  }

  lemma WithinGrant(orders: set<Id>, order: Id, tools: set<Tool>, allowed: set<Tool>)
    ensures orders <= {order} <==> forall o :: o in orders ==> o == order
    ensures tools <= allowed <==> forall tool :: tool in tools ==> tool in allowed
  {
    if orders <= {order} {
      forall o | o in orders ensures o == order { assert o in {order}; }
    }
    if forall o :: o in orders ==> o == order {
      forall o | o in orders ensures o in {order} { }
    }
  }

  // ---- reserving ----

  /** What the caller last saw of the case is still so. */
  predicate Unchanged(pre: Precondition, tenant: Id, c: Id, row: CaseRow) {
    && pre.tenant == tenant && pre.caseId == c && row.status == pre.status && row.usedCalls == pre.usedCalls && row.revision == pre.revision
  }

  /** A running case of this tenant with budget left lets this tool be asked about an order within its scope, under the
      lease and the registry route of this caller. */
  predicate MayReserve(t: Tables, tenant: Id, c: Id, tool: Tool, query: Query, pre: Option<Precondition>, guards: Guards) {
    && c in t.cases && t.cases[c].tenant == tenant && t.cases[c].status in {New, Investigating}
    && t.cases[c].usedCalls < t.cases[c].maxCalls
    && query.order in t.cases[c].allowedOrders && tool in t.cases[c].allowedTools && tool !in t.cases[c].forbiddenTools
    && (tool == ProtocolTool || (query.protocolVersion.None? && query.effectiveAt.None?))
    && guards.leased && guards.route.None? && (pre.Some? ==> Unchanged(pre.value, tenant, c, t.cases[c]))
  }

  /** A reservation spends one unit of a running case and adds the pending call it paid for; any other changes nothing. */
  lemma ReserveExactly(t: Tables, tenant: Id, c: Id, tool: Tool, query: Query, pre: Option<Precondition>, guards: Guards, callId: Id, now: Time)
    ensures var tx := ReserveCall(t, tenant, c, tool, query, pre, guards, callId, now);
      && (tx.Committed? <==> MayReserve(t, tenant, c, tool, query, pre, guards) && callId !in t.calls)
      && (tx.Committed? ==>
            && OnlyCase(t, tx.tables, c, t.cases[c].(usedCalls := t.cases[c].usedCalls + 1, status := Investigating), now)
            && tx.tables.calls.Keys == t.calls.Keys + {callId} && (forall k :: k in t.calls ==> tx.tables.calls[k] == t.calls[k])
            && var call := tx.tables.calls[callId];
            && call.caseId == c && call.correlation == Some(callId) && call.sequence == t.cases[c].usedCalls + 1
            && call.tool == tool && call.request == query && call.state == CallDispatched && call.observationId.None?)
  {
  }

  /** Only a dispatched call of this case is marked failed, and nothing else changes. */
  lemma MarkExactly(t: Tables, tenant: Id, c: Id, callId: Id)
    ensures var tx := MarkError(t, tenant, c, callId);
      var marks := callId in t.calls && t.calls[callId].caseId == c && t.calls[callId].state == CallDispatched;
      && (tx.Committed? <==> Owns(t, tenant, c))
      && (tx.Committed? ==>
            tx.tables == t.(calls := if marks then t.calls[callId := t.calls[callId].(state := CallError)] else t.calls))
  {
  }

  // ---- pausing and reopening ----

  /** The agent pauses a running case that is as it saw it, under its lease: into waiting, or escalation once no resume
      is left. */
  lemma PauseCurrentExactly(t: Tables, tenant: Id, c: Id, status: CaseStatus, pre: Precondition, leased: bool, atLimit: bool, now: Time)
    ensures var tx := PauseIfCurrent(t, tenant, c, status, pre, leased, atLimit, now);
      && (tx.Committed? <==>
            && status in {Waiting, Escalated} && leased && c in t.cases && t.cases[c].tenant == tenant
            && t.cases[c].status in {New, Investigating} && Unchanged(pre, tenant, c, t.cases[c]))
      && (tx.Committed? ==>
            OnlyCase(t, tx.tables, c, t.cases[c].(status := if status == Waiting && !atLimit then Waiting else Escalated), now))
  {
  }

  /** An operator pauses any case that is not terminal, into the status asked for, at a revision after the one read. */
  lemma PauseStored(t: Tables, tenant: Id, c: Id, status: CaseStatus, seen: Time, now: Time)
    ensures var tx := Pause(t, tenant, c, status, seen, now);
      && (tx.Committed? <==>
            status in {Waiting, Escalated} && c in t.cases && t.cases[c].tenant == tenant && t.cases[c].status !in {Closed, ClosedVerified})
      && (tx.Committed? ==>
            tx.tables.cases == t.cases[c := t.cases[c].(status := status, revision := Max(now, seen + 1))])
  {
  }

  /** A case that is not terminal is taken up again, with its lookups due anew, or escalated. */
  lemma ReopenExactly(t: Tables, tenant: Id, c: Id, escalate: bool, now: Time)
    ensures var tx := Reopen(t, tenant, c, escalate, now);
      && (tx.Committed? <==> c in t.cases && t.cases[c].tenant == tenant && t.cases[c].status !in {Closed, ClosedVerified})
      && (tx.Committed? ==>
            OnlyCase(t, tx.tables, c, if escalate then t.cases[c].(status := Escalated)
                                      else t.cases[c].(status := Investigating, lookupRetryAfter := Some(now)), now))
  {
  }

  // ---- reading a case for its verdict ----

  predicate PendingCall(call: CallRow, c: Id) { call.caseId == c && call.state in {CallDispatched, CallError} }

  /** Recovery of the case is unfinished: a row someone else owns, up for escalation or leased, or an open attempt. */
  predicate Recovering(t: Tables, c: Id, now: Time)
    requires c in t.cases
  {
    || (exists k :: k in t.recoveries && t.recoveries[k].caseId == c
          && var row := t.recoveries[k];
             (row.tenant != t.cases[c].tenant || row.requiresEscalation
              || (row.leaseToken.Some? && row.leaseUntil.Some? && now < row.leaseUntil.value)))
    || (exists a :: a in t.attempts && t.attempts[a].completedAt.None?
          && t.attempts[a].effect in t.effects && t.effects[t.attempts[a].effect].caseId == c)
  }

  /** The state a verdict reads: unanswered calls, unfinished recovery, bound effects, and whether the last applied effect,
      or else the last event, is still within the grace period. */
  lemma StateReads(t: Tables, x: Extractor, digest: Content -> Id, policy: EvaluationPolicy, c: Id, now: Time)
    requires c in t.cases
    ensures var s := ReadState(t, x, digest, policy, c, now);
      && s.caseId == c && s.row == t.cases[c]
      && (s.pendingReads <==> exists k :: k in t.calls && PendingCall(t.calls[k], c))
      && (s.recoveryUnresolved <==> Recovering(t, c, now))
      && (forall k :: k in s.effects <==> k in t.effects && t.effects[k].caseId == c && Bound(t, c, k))
      && (forall k :: k in s.effects ==> s.effects[k] == BoundEffect(t.effects[k], t.intents[t.effects[k].intentId].body.target))
      && (s.inGrace <==>
            if exists k :: k in s.effects && s.effects[k].ledger.status.Applied?
            then exists k :: k in s.effects && s.effects[k].ledger.status.Applied? && now < s.effects[k].ledger.updatedAt + policy.grace
            else exists e :: e in s.current && e.eventTime.Some? && now < e.eventTime.value + policy.grace)
  {
    hide Bound, PolicyInvalid, CurrentAt, Read, LatestObservations, DigestOf, EffectsOf, RecoveriesOf, CallsOf, BindingOf;
    RecoveringExactly(t, c, now);
    PendingExactly(t, c);
    hide Recovering, RecoveryUnresolved, PendingReads;
  }

  lemma RecoveringExactly(t: Tables, c: Id, now: Time)
    requires c in t.cases
    ensures RecoveryUnresolved(t, c, now) <==> Recovering(t, c, now)
  {
  }

  lemma PendingExactly(t: Tables, c: Id)
    ensures PendingReads(t, c) <==> exists k :: k in t.calls && PendingCall(t.calls[k], c)
  {
    forall k | k in t.calls ensures PendingCall(t.calls[k], c) <==> t.calls[k].caseId == c && t.calls[k].state != CallObserved {
      match t.calls[k].state case CallDispatched => case CallError => case CallObserved =>
    }
  }

  // ---- closing ----

  /** A report is stored once, under its own digest and case, and never about a terminal case; storing it again changes nothing. */
  lemma ReportExactly(t: Tables, tenant: Id, r: Report)
    ensures var tx := Record(t, tenant, r);
      var sound := r.reportId == r.body && r.body.snapshotId == r.body.snapshot && r.body.caseId == r.body.snapshot.caseId
                   && r.body.snapshot.tenant == tenant && Owns(t, tenant, r.body.caseId);
      && (tx.Committed? <==>
            sound && if r.runId in t.reports then t.reports[r.runId] == r else t.cases[r.body.caseId].status !in {Closed, ClosedVerified})
      && (tx.Committed? ==> tx.tables == t.(reports := t.reports[r.runId := r]) && tx.value == r)
  {
    if r.runId in t.reports && t.reports[r.runId] == r { assert t.reports[r.runId := r] == t.reports; }
  }

  /** The stored report is a PASS under its own digest, and judging the case afresh, as its rows are now, gives that very
      body at the revision it names. */
  predicate MayClose(t: Tables, reader: Reader, judge: Judge, tenant: Id, r: Report, now: Time) {
    var c := r.body.caseId;
    && c in t.cases && t.cases[c].tenant == tenant && t.cases[c].status !in {Closed, ClosedVerified} && c !in t.closures
    && r.body.verdict == PASS && r.reportId == r.body && r.runId in t.reports && t.reports[r.runId] == r
    && !reader(t, c, now).refused && judge(reader(t, c, now), now) == Some(r.body)
    && t.cases[c].revision == r.body.snapshot.caseRevision
  }

  lemma CloseWhen(t: Tables, reader: Reader, judge: Judge, tenant: Id, r: Report, now: Time)
    ensures var tx := Close(t, reader, judge, tenant, r, now);
      && (tx.Committed? && tx.value.ClosedNow? <==> MayClose(t, reader, judge, tenant, r, now))
      && (tx.Committed? && !tx.value.ClosedNow? ==> tx.tables == t)
  {
    hide StillStands, ClosureRecordOf, NextRevision;
    var s := reader(t, r.body.caseId, now);
    var judged := judge(s, now);
  }

  lemma CloseLeaves(t: Tables, reader: Reader, judge: Judge, tenant: Id, r: Report, now: Time)
    requires MayClose(t, reader, judge, tenant, r, now)
    ensures var c := r.body.caseId;
      Close(t, reader, judge, tenant, r, now)
        == Committed(t.(cases := t.cases[c := t.cases[c].(status := ClosedVerified, revision := Max(now, t.cases[c].revision + 1))],
                        closures := t.closures[c := ClosureRecordOf(r, now)]), ClosedNow(ClosureRecordOf(r, now)))
  {
    hide StillStands, ClosureRecordOf;
  }

  /** A case is closed exactly by a report that may close it, and the closure record names that report and its snapshot. */
  lemma CloseExactly(t: Tables, reader: Reader, judge: Judge, tenant: Id, r: Report, now: Time)
    ensures var tx := Close(t, reader, judge, tenant, r, now);
      && (tx.Committed? && tx.value.ClosedNow? <==> MayClose(t, reader, judge, tenant, r, now))
      && (MayClose(t, reader, judge, tenant, r, now) ==>
            && OnlyCase(t, tx.tables, r.body.caseId, t.cases[r.body.caseId].(status := ClosedVerified), now)
            && tx.tables.closures == t.closures[r.body.caseId := tx.value.record]
            && tx.value.record.caseId == r.body.caseId && tx.value.record.runId == r.runId && tx.value.record.reportId == r.body
            && tx.value.record.snapshotId == r.body.snapshotId && tx.value.record.closedAt == now)
      && (tx.Committed? && !tx.value.ClosedNow? ==> tx.tables == t)
  {
    CloseWhen(t, reader, judge, tenant, r, now);
    if MayClose(t, reader, judge, tenant, r, now) { CloseLeaves(t, reader, judge, tenant, r, now); }
    hide Close;
  }
}
