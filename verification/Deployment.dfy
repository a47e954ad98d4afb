/** The real collaborators together: extraction, snapshot reader and V1 evaluator under one protocol. */
module Deployment {
  import opened Domain
  import opened Tables
  import opened CaseTransactions
  import opened AuthorizationTransactions
  import opened EvidenceVerification
  import opened ClosureTransactions
  import opened Protocol
  import opened History
  import opened ClosedProof
  import opened ClosureProof
  import opened StoreProof
  import Evaluator
  import Extraction

  const NO_CASE := CaseRow(0, 0, 0, 0, {}, {}, {}, None, 0, None, New, 0, 0, 0)

  /** The reader of the evaluator; it is only ever asked about an existing case. */
  function ReaderOf(x: Extractor, digest: Content -> Id, policy: EvaluationPolicy): Reader {
    (t: Tables, c: Id, now: Time) =>
      ReadState(if c in t.cases then t else t.(cases := t.cases[c := NO_CASE]), x, digest, policy, c, now)
  }

  lemma ReaderIsFaithful(x: Extractor, digest: Content -> Id, policy: EvaluationPolicy)
    ensures Faithful(ReaderOf(x, digest, policy), x, digest, policy)
  {
    hide ReadState;
  }

  function Deployed(digest: Content -> Id, hash: Observation -> Id, policy: EvaluationPolicy, recovery: RecoveryPolicy): Env {
    var x := Extraction.ExtractorOf(digest, hash);
    Env(x, ReaderOf(x, digest, policy), Evaluator.V1(Evaluator.CONTRACT_V1, policy, Evaluator.Domains()), recovery)
  }

  /** With the repository's own extractor, reader and evaluator, every verified closure stands in every later database;
      nothing is assumed of them. */
  lemma DeployedClosureStands(env: Env, digest: Content -> Id, hash: Observation -> Id, policy: EvaluationPolicy,
                              recovery: RecoveryPolicy, ts: seq<Tables>, log: seq<Entry>, i: nat, j: nat, r: Report, now: Time)
    requires env == Deployed(digest, hash, policy, recovery)
    requires IsHistory(env, ts, log) && ClosedAt(env, ts, log, i, r, now) && i < j < |ts|
    ensures CheckedClosure(ts[j], r.body.caseId) && Frozen(ts[i + 1], ts[j], r.body.caseId)
  {
    hide IsHistory, ClosedAt, Frozen, Faithful, Sound, Evaluator.V1, Extraction.ExtractorOf, ReaderOf;
    ReaderIsFaithful(env.extract, digest, policy);
    Evaluator.V1IsSound(Evaluator.CONTRACT_V1, policy, Evaluator.Domains());
    ClosedForever(env, digest, policy, ts, log, i, j, r, now);
  }

  /** With the repository's own extractor, reader and evaluator and collision-free digests, closing a closed case again
      answers ALREADY_CLOSED_VERIFIED for the report it was closed with, and refuses any other as stale. */
  lemma DeployedReclosing(env: Env, digest: Content -> Id, hash: Observation -> Id, policy: EvaluationPolicy,
                          recovery: RecoveryPolicy, ts: seq<Tables>, log: seq<Entry>, i: nat, j: nat, r: Report, now: Time,
                          again: Report, later: Time)
    requires env == Deployed(digest, hash, policy, recovery) && Injective(digest)
    requires IsHistory(env, ts, log) && ClosedAt(env, ts, log, i, r, now) && i < j < |ts|
    requires again.body.caseId == r.body.caseId && again.body.verdict == PASS && again.reportId == again.body
    requires again.runId in ts[j].reports && ts[j].reports[again.runId] == again
    ensures Close(ts[j], env.reader, env.judge, log[i].tenant, again, later)
              == if again.body == r.body then Committed(ts[j], AlreadyClosed(ClosureRecordOf(r, now)))
                 else RolledBack(StaleEvaluation)
  {
    hide IsHistory, ClosedAt, Faithful, Sound, Lawful, Injective, Close, ClosureRecordOf, Evaluator.V1, Extraction.ExtractorOf, ReaderOf;
    ReaderIsFaithful(env.extract, digest, policy);
    Evaluator.V1IsSound(Evaluator.CONTRACT_V1, policy, Evaluator.Domains());
    Extraction.ExtractionIsLawful(digest, hash);
    ReclosingExactly(env, digest, policy, ts, log, i, j, r, now, again, later);
  }

  /** With the repository's own extractor and collision-free digests, every reachable evidence store verifies. */
  lemma DeployedStoreVerifies(env: Env, digest: Content -> Id, hash: Observation -> Id, ts: seq<Tables>, log: seq<Entry>, j: nat, c: Id)
    requires Injective(digest) && env.extract == Extraction.ExtractorOf(digest, hash)
    requires IsHistory(env, ts, log) && j < |ts| && c in ts[j].cases
    ensures ReadsLatest(ts[j], env.extract, c, Read(ts[j], env.extract, digest, c))
  {
    hide IsHistory, Read, ReadsLatest, Lawful, Injective, Extraction.ExtractorOf;
    Extraction.ExtractionIsLawful(digest, hash);
    EveryReachableStoreVerifies(env, digest, ts, log, j, c);
  }
}
