/** The sequence of databases one run of the system produces. */
module History {
  import opened Domain
  import opened Tables
  import opened Protocol

  datatype Entry = Entry(tenant: Id, txn: Txn)

  /** Every database is the previous one after one committed (or rolled back) transaction. */
  ghost predicate IsHistory(env: Env, ts: seq<Tables>, log: seq<Entry>) {
    && |ts| == |log| + 1
    && ts[0] == EMPTY
    && forall i :: 0 <= i < |log| ==> ts[i + 1] == Commit(env, ts[i], log[i].tenant, log[i].txn)
  }

  lemma Successor(env: Env, ts: seq<Tables>, log: seq<Entry>, i: nat)
    requires IsHistory(env, ts, log) && i < |log|
    ensures ts[i + 1] == Commit(env, ts[i], log[i].tenant, log[i].txn)
  {
  }

  ghost function TablesOf(states: seq<System>): (ts: seq<Tables>)
    ensures |ts| == |states| && forall i :: 0 <= i < |ts| ==> ts[i] == states[i].t
  {
    seq(|states|, i requires 0 <= i < |states| => states[i].t)
  }

  ghost function LogOf(env: Env, states: seq<System>, steps: seq<Step>): (log: seq<Entry>)
    requires IsRun(env, states, steps)
    ensures |log| == |steps|
    ensures forall i :: 0 <= i < |log| ==> log[i] == Entry(TenantOf(steps[i]), TxnOf(states[i], steps[i]))
  {
    seq(|steps|, i requires 0 <= i < |steps| => Entry(TenantOf(steps[i]), TxnOf(states[i], steps[i])))
  }

  /** What holds of every history holds of the database along every run. */
  lemma RunHistory(env: Env, states: seq<System>, steps: seq<Step>)
    requires IsRun(env, states, steps)
    ensures IsHistory(env, TablesOf(states), LogOf(env, states, steps))
  {
    hide Commit, WorkerAfter, SentAfter, TxnOf, TenantOf, Enabled;
  }
}
