# Credit investigation harness: protocol, evidence reasoning, context assembly and agent loop

This project models the deterministic core of the harness in Dafny and proves what its documentation and tests promise
of it. Four connected parts are covered.

1. **The case, effect, evidence and closure protocol.** `Tables` holds the durable rows. `CaseTransactions`,
   `AuthorizationTransactions` and `ClosureTransactions` say what each `session.begin()` block commits or rolls back.
   `CaseRepository`, `EvidenceRepository`, `ApprovalStore`, `ClosureService`, `ReadExecutor` and `ExecutionService` are
   the repositories and workers as classes that update a `Database.Store` in place; every method is proved to perform
   exactly its transaction. `Protocol` is the whole system: any number of workers, interleaved transactions of every
   repository (recovery and orchestration moves included), a non-transactional adapter call, and a crash between any two
   steps. The `*Proof` modules establish invariants over all of its histories and runs: exactly when no revision returns with other
   contents, at most one adapter call per effect, revocation and expiry fence every dispatch, the budget is conserved,
   every reachable evidence store verifies, and a verified closure stands forever. `Deployment` puts the repository's
   own extractor, snapshot reader and evaluator in, so that nothing about them remains assumed. `ScopeProof` and `LeaseProof`
   add that a case is only ever about its own order, and that a settled case holds no recovery lease; `BindingProof` that
   no repository ever unbinds an effect from its authorization, `RecoveryProof` and `RecoveryDiscovery` that an effect is
   recovered only to what its own attempt looked up and that discovery never lags the ledger. `CaseLaws` and
   `AuthorizationLaws` say of each transaction, over the rows alone, exactly when it commits and what it leaves.
2. **The evidence reasoning pipeline.** `Extraction`, `Index`, `PaymentIdentity`, `IdentityProjection`, `Rules`,
   `Engine`, `Gaps` and `Evaluator` carry the loops of the source, each proved against a declarative definition.
   `ExtractionFields`, `CurrentFacts`, `PaymentRecords`, `RuleFacts`, `Propositions`, `Questions`, `GraphMeaning` and `Verdicts` then say
   what the answers mean over the facts themselves, without the definitions that compute them: which field each claim
   carries, MATCH and MISMATCH, the status of each of the ten propositions, what is asked and answered, PASS and FAIL,
   all by if-and-only-if statements over unbounded evidence.
3. **The budgeted context.** `Seal` proves that the self-referential length always converges; `Assembler` that apply and
   undo are exact inverses through fill and trim, and that whatever is returned satisfies the separate validator;
   `ContextPreview` and `ContextSource` construct capsules, mandatory tier, reasons and candidates from an evidence index
   and prove that every such input is well formed; `ContextBuilder` puts both together, from a case and its evidence to an
   accepted context. `Compaction` shows that the trailing-run counter computes a simple specification.
4. **The agent run loop and the remote side.** `AgentRun` bounds and accounts for every run against any planner, any
   environment and any other workers on the same database; its only dispatch goes through `ReadExecutor`.
   `ExternalEffects` proves the synthetic effect store idempotent, at most once along every run, and its status answers
   exact.

## Assumptions

- Every `session.begin()` block is atomic under the case lock. The one exception is kept: `pause` reads its row before its
  UPDATE takes the lock, so the modelled pause takes the revision it read earlier as a parameter.
- Digests are injective: a digest is represented by the value it digests, or by a function assumed injective where the
  identifier itself matters (evidence identifiers). Signatures are unforgeable; a worker starts with a verified capability.
- Identifiers and instants are integers (microseconds); only equality and order are used. Clocks are arbitrary: they may
  stand still or run backwards between transactions, except where a statement names an order.
- Nothing is assumed about how many observations carry one correlation: read recovery refuses an ambiguous one itself
  (`StoreProof.UnguardedRecoveryBreaksStore` shows what that refusal prevents).
- What the work-lease fence and the registry guard find in a reservation or pause, and the grant a credential names, are
  parameters of the transaction.
- The remote side of a dispatch may answer anything, or nothing. The fresh verification of an intent is an arbitrary input.
- A transaction of the source that also hands work to orchestration may escalate the case in the same commit
  (`src/credit_harness/orchestration/effect_work.py:28-32`). The model commits the two one after the other, so its
  histories contain every database of the source's.

## Where the code and its promises differ

- **Pause and ABA.** `src/credit_harness/cases/repository.py:141-152` derives the new revision from a row read before the
  UPDATE. Two overlapping pauses under a frozen clock give one revision to two different cases
  (`RevisionProof.StalePauseRepeatsRevision`). `RevisionProof.NoReturnExactly` gives the exact condition over whole
  histories: no revision ever returns if and only if every committed pause wrote a later revision than it overwrote, or
  rewrote the row it found. `RevisionNeverReturns` and `DispatchSeesIssuedCase` hold under that condition.
- **Status of a repeated dispatch.** A repeat under a new correlation is answered APPLIED, but a lookup by that correlation
  answers NOT_FOUND (`ExternalEffects.RepeatIsNotFound`). `ExternalEffects.AppliedIsFoundExactly` says, from the state
  before the dispatch, exactly when an applied dispatch is found by its own correlation.

## Model

| member | source | states |
|---|---|---|
| CaseTransactions.NextRevision | src/credit_harness/cases/repository.py:26-28 | A new revision is strictly later than the one seen and not before the clock, even when the clock is frozen or runs backwards; it is the clock or one microsecond past the old value, nothing else |
| CaseRepository.Cases.Create | src/credit_harness/cases/repository.py:69-88 | A consistent case is stored once, NEW, unspent, owned by the repository's tenant and covered by a live grant whose hash it keeps; anything else changes nothing |
| CaseTransactions.OneOrderPerGrant | src/credit_harness/cases/repository.py:76-81 | A created case is scoped to exactly its own order: the grant names one order and the scope holds the case's own |
| CaseRepository.Cases.ReserveCall | src/credit_harness/cases/repository.py:90-131 | One guarded update spends exactly one unit, moves the case to INVESTIGATING at a later revision and inserts the call under the next sequence number; every refusal (precondition, work lease, scope, registry route, status, exhausted budget) leaves all rows as they were, with the error the source raises |
| CaseRepository.Cases.MarkError | src/credit_harness/cases/repository.py:133-139 | Only a DISPATCHED call of the case becomes ERROR; an observed call is never unmarked |
| CaseRepository.Cases.Pause | src/credit_harness/cases/repository.py:141-152 | Pauses any non-terminal case; the revision written comes from the row read before the update took its lock |
| CaseRepository.Cases.PauseIfCurrent | src/credit_harness/cases/repository.py:154-173 | Pauses only an investigable case whose lease is held and whose status, spent budget and revision are those of the precondition; a wait at the resume limit becomes an escalation in the same commit |
| EvidenceRepository.Evidences.InsertFacts | src/credit_harness/evidence/repository.py:70-89 | The insertion loop succeeds exactly when no identifier repeats and no origin exists yet; known identifiers keep their first row, every fact gets its origin |
| EvidenceRepository.Evidences.PublishRows | src/credit_harness/evidence/repository.py:70-89 | Revision, call state, facts and origins move together or not at all |
| EvidenceRepository.Evidences.RecordCall | src/credit_harness/evidence/repository.py:42-89 | The whole publication: its answer and the rows it leaves are those of the transaction, including the idempotent republication of a recovered read |
| ReadExecutor.Executor.Execute | src/credit_harness/cases/executor.py:39-59 | Whatever the tool answers, a reserved attempt spends exactly one unit and ends OBSERVED or ERROR under its own sequence number; an unreserved attempt changes nothing |
| CaseLaws.CreateExactly | src/credit_harness/cases/repository.py:69-88 | A case is opened iff it starts NEW, unspent and without a pending lookup, its order lies in its scope, and its scope lies within a live grant for its own simulation; it is then stored with the grant of that credential |
| CaseLaws.ReserveExactly | src/credit_harness/cases/repository.py:90-131 | A read is reserved iff the case runs, has budget, lets this tool ask about this order, and is as the caller last saw it under its lease and route; then one unit is spent and one pending call inserted, and nothing else changes |
| CaseLaws.MarkExactly | src/credit_harness/cases/repository.py:133-139 | Only a dispatched call of this case is marked failed, and no other row changes |
| CaseLaws.PauseCurrentExactly | src/credit_harness/cases/repository.py:154-173 | The agent pauses a case iff it runs, is as it saw it and its lease holds; it waits, or is escalated when no resume is left |
| CaseLaws.PauseStored | src/credit_harness/cases/repository.py:141-152 | An operator pauses exactly the cases of the tenant that are not terminal, into the status asked for |
| CaseLaws.ReopenExactly | src/credit_harness/orchestration/resume.py:223-244 | A case that is not terminal is taken up again with its lookups due anew, or escalated, at a later revision |
| Publication.RecordExactly | src/credit_harness/evidence/repository.py:42-89 | A receipt is recorded iff it is the stored, intact, correlated and unassigned answer to a pending call of an open case of this tenant and extracts to new facts; recovery also accepts a failed call and the receipt a call already holds |
| Publication.RecordStep | src/credit_harness/evidence/repository.py:42-89 | Recording a call either changes nothing or publishes one intact, unassigned, correlated observation of an open case |
| Publication.RecoverStep | src/credit_harness/recovery/read.py:71-116 | Restart recovery publishes only the single observation that carries the correlation of the call |
| ApprovalStore.Approvals.RequestApproval | src/credit_harness/authorization/store.py:78-89 | Stores a PENDING approval at exactly the revision it was requested at; refuses a closed case, a stale revision or a different intent under one identifier |
| ApprovalStore.Approvals.DecideApproval | src/credit_harness/authorization/store.py:99-117 | An operator of the tenant decides only a PENDING approval, or revokes an APPROVED one, of an open case before its deadline; then exactly that decision, its actor and instant are stored on that one approval, and otherwise nothing changes |
| FenceProof.DecisionStored | src/credit_harness/authorization/store.py:99-117 | Over the whole database: a permitted decision leaves the approval in exactly the decided status, with its actor and instant and the same intent and deadline, and every other row as it was; any other decision changes nothing |
| FenceProof.ApprovalOf | src/credit_harness/authorization/store.py:99-117 | In every history an approval that stands APPROVED was granted by an earlier operator decision APPROVED, made while it was pending and unexpired, for the intent it still carries |
| AuthorizationLaws.RequestExactly | src/credit_harness/authorization/store.py:78-89 | An approval is asked for iff the case is open at the named revision and the intent is new or stored as it is; it is stored PENDING for that very intent beside everything that was there |
| ApprovalStore.Approvals.Issue | src/credit_harness/authorization/store.py:134-154 | A capability is stored only at the current revision of an open case, before its expiry, with its approval in force and no unresolved effect under its key |
| AuthorizationLaws.IssueExactly | src/credit_harness/authorization/store.py:134-154 | A capability is stored iff the case is open at its revision, it has not expired, the approval rule is met, its intent is not replaced, and no effect with the same action and target is DISPATCHED, UNKNOWN or ACCEPTED |
| AuthorizationLaws.IssuedInOrder | src/credit_harness/authorization/service.py:74-94 | In every history each stored capability was issued by one commit, minted field by field from its intent with the payload of the command that addresses its target, while none of these fences stood |
| AuthorizationTransactions.CheckCapability | src/credit_harness/authorization/store.py:119-132 | A capability that passes is stored unchanged, inside its validity window, of this tenant, with its stored intent approved if that intent needs it |
| AuthorizationTransactions.FindExisting | src/credit_harness/authorization/store.py:172-186 | Fresh exactly when neither the effect key nor the capability was ever used; an existing effect is attached only to an unused capability or its own |
| AuthorizationTransactions.BuildAddresses | src/credit_harness/authorization/commands.py:53-87 | The command rebuilt for a capability has the action, tenant, case and order of the intent and the message, event or delivery reference of its target, each in its own place |
| ApprovalStore.Approvals.ExistingEffect | src/credit_harness/authorization/store.py:188-192 | Looks a duplicate request up in the ledger and marks the capability used, writing nothing else |
| ApprovalStore.Approvals.Prepare | src/credit_harness/authorization/store.py:194-226 | Inserts the first PREPARED (or NOOP) row, the use of its capability, the recovery row and the new case revision in one step; ownership of the dispatch goes only to the inserter of a non-NOOP row |
| AuthorizationLaws.PrepareExactly | src/credit_harness/authorization/store.py:194-226 | A preparation owns its dispatch iff the capability is in force on an open case at its revision, and neither it nor its effect was used; the first row carries every field of the capability |
| ApprovalStore.Approvals.DispatchPrepared | src/credit_harness/authorization/store.py:228-258 | Leaves PREPARED only after every authorization check is repeated, by the capability that inserted the row, at the revision it was prepared at, and for a resuming worker under its live recovery lease |
| AuthorizationLaws.DispatchExactly | src/credit_harness/authorization/store.py:228-258 | An effect leaves PREPARED iff the capability is again in force, the row is its own and unsent, the case is at the prepared revision and a resuming worker still leases it; only status, attempt and instant change |
| EffectSteps.TransitionExactly | src/credit_harness/authorization/store.py:270-301 | A sent effect is settled iff its row is owned, has the expected status, the move is in the transition table and the receipt shows it: its correlation, its outcome and no other remote reference; UNKNOWN alone needs no receipt |
| ApprovalStore.Approvals.Transition | src/credit_harness/authorization/store.py:270-301 | An accepted move writes status, failure, reference and recovery row together |
| AuthorizationTransactions.Locked | src/credit_harness/recovery/repository.py:31-43 | Recovery touches only existing, owned effects and never an unresolved one of a terminal case |
| RecoveryProof.RecoveryTakes | src/credit_harness/recovery/repository.py:119-142 | A recovery settles its effect iff its worker still leases it by an open attempt, the effect stands as claimed, and the attempt persisted a conclusive lookup; the row then has exactly the status and reference of that lookup, the attempt is over, the lease is released until the backoff is past, and an unresolved effect is up for escalation after the last attempt |
| RecoveryProof.FailureMarks | src/credit_harness/recovery/repository.py:162-173 | A failed recovery marks a still standing effect UNKNOWN, leaves a settled one alone, ends the attempt and releases the lease |
| RecoveryProof.ResumeEnds | src/credit_harness/recovery/repository.py:175-181 | The end of a resumed dispatch leaves its effect as it is, ends the attempt and releases the lease |
| RecoveryProof.PersistsExactly | src/credit_harness/recovery/repository.py:102-117 | A lookup is persisted iff the attempt leases a standing effect and has none yet, and nothing else changes |
| RecoveryProof.LookupOf | src/credit_harness/recovery/repository.py:102-117 | In every history the lookup an attempt shows was persisted once, by a commit under the live lease of that very attempt, for its own effect, and never replaced |
| RecoveryProof.RecoveredAsLookedUp | src/credit_harness/recovery/repository.py:102-142 | In every history an effect is recovered to exactly the outcome that an earlier commit of its own attempt looked up |
| RecoveryDiscovery.ClaimExactly | src/credit_harness/recovery/repository.py:58-82 | An effect is claimed iff it is unresolved, on an open case, not up for escalation, past its grace and backoff, unleased and with attempts left; the worker then leases it under a new attempt and an abandoned one is over |
| RecoveryDiscovery.AlwaysMirrored | src/credit_harness/recovery/tables.py:72-88 | In every reachable database recovery knows an effect iff the ledger does, with the same owner and instant (discovery never lags its source), within the bound on attempts, and never up for escalation once resolved |
| Protocol.Classify | src/credit_harness/authorization/service.py:137-157 | A well-formed receipt of this very dispatch gives its own outcome and external reference, REMOTE_REJECTED iff it is FAILED_CONFIRMED; any other reply is UNKNOWN without a reference, INVALID_RECEIPT when it was a reply and TRANSPORT_UNCERTAIN when there was none |
| ExecutionService.Service.CompleteDispatch | src/credit_harness/authorization/service.py:137-157 | Exactly one adapter call; the row then holds the status, reference and failure its reply shows (its own outcome for a matching receipt, UNKNOWN with the reason otherwise), and the ledger always accepts it |
| ExecutionService.Service.Execute | src/credit_harness/authorization/service.py:107-132 | The adapter is called only if this execution itself inserted and dispatched a so far unknown effect; the command it sends has the action, tenant, case, order and target references of the verified intent; the ledger then holds attempt 1, this capability, this correlation and the status, reference and failure the reply shows; without a call, an answer is the row recorded under the capability's own key |
| ExecutionService.Service.Replay | src/credit_harness/authorization/service.py:107-132 | A stale request is answered from the ledger or refused, without moving any effect |
| ClosureService.Reports.Record | src/credit_harness/evaluation/repository.py:25-47 | A report is stored once, bound to its tenant, case and snapshot, and never on a terminal case |
| CaseLaws.ReportExactly | src/credit_harness/evaluation/repository.py:25-47 | A report is stored iff it is bound to its own digest, snapshot, case and tenant and its case is open, or it is the one already stored |
| CaseLaws.StateReads | src/credit_harness/evaluation/snapshot.py:78-146 | What the verdict reads of the rows: unanswered calls, unfinished recovery, exactly the bound effects with the targets of their intents, and whether the last applied effect (or else the last event) is within the grace period |
| CaseLaws.CloseExactly | src/credit_harness/evaluation/closure.py:25-81 | A case is closed iff the stored report is a PASS under its own digest and judging the case afresh gives that very body at the same revision; the record names that report and snapshot; a second close changes nothing |
| ClosureService.Closures.Close | src/credit_harness/evaluation/closure.py:25-81 | Closes only if re-evaluation under the lock yields this very PASS over this very snapshot at this very revision |
| RevisionProof.PublishedPinned | src/credit_harness/evidence/repository.py:77-79 | Publication moves the revision of its own case forward and leaves every other case as it was |
| RevisionProof.PreparePinned | src/credit_harness/authorization/store.py:205-211 | A non-NOOP preparation moves the revision of its case forward; NOOP and duplicates leave the case unchanged |
| RevisionProof.CommitPinned | src/credit_harness/cases/repository.py:110-152 | Any transaction of any repository either advances the revision of a case or leaves its row, its evidence and its set of calls exactly as they were; terminal rows are never rewritten |
| RevisionProof.RevisionNeverReturns | src/credit_harness/cases/repository.py:26-28 | No ABA: along every history whose committed pauses are in order, a case seen again at a revision is the very same case |
| RevisionProof.NoReturnExactly | src/credit_harness/cases/repository.py:110-173 | Along every history: no case, between any two instants, ever comes back to a revision with other contents iff every committed pause wrote a later revision than it overwrote or rewrote the row it found |
| RevisionProof.PauseExactly | src/credit_harness/cases/repository.py:141-152 | One committed pause keeps the revision order iff the revision it writes is later than the stored one, or equal to it with the same status |
| RevisionProof.FreshPauseAdvances | src/credit_harness/cases/repository.py:144-149 | A pause whose early read is still current always advances |
| RevisionProof.StalePauseRepeatsRevision | src/credit_harness/cases/repository.py:144-149 | Counterexample: two overlapping pauses under a frozen clock give one revision to two different cases |
| EffectSteps.CommitCapability | src/credit_harness/authorization/store.py:134-226 | No transaction changes an issued capability or undoes its use; a new one appears only at the revision it names of an open case |
| EffectSteps.CommitEffectStep | src/credit_harness/authorization/store.py:194-301 | What any transaction of the system can do to one ledger row: insert it, dispatch it once from PREPARED, or settle it without touching its identity or attempt count |
| DispatchProof.LedgerAlwaysOk | src/credit_harness/authorization/store.py:194-301 | In every reachable database: each row is under its own key, bound to the capability that inserted it, and attempted exactly once iff it has left PREPARED and is not NOOP |
| DispatchProof.DispatchSeesIssuedCase | src/credit_harness/authorization/store.py:246-247 | At every PREPARED-to-DISPATCHED commit the case has the evidence, call identifiers, status and spent budget it had when the capability was issued |
| AtMostOnceProof.StepKeepsOnce | src/credit_harness/authorization/service.py:107-157 | Every worker step, crash and transaction keeps: one recorded attempt per message sent, no two workers about to send one effect |
| AtMostOnceProof.AdapterCalledAtMostOnce | src/credit_harness/authorization/service.py:107-157 | Over every interleaving of workers, crashes and capabilities, no effect key is sent twice; each message matches the capability, correlation and payload of its attempted row, and its command has the action, tenant, case, order, message, event and delivery of the key, field by field |
| AtMostOnceProof.AdapterCalledAfterDispatch | src/credit_harness/authorization/service.py:119-157 | When the adapter is called, DISPATCHED has committed for this effect by the capability that prepared it, and nothing was sent for it before |
| AtMostOnceProof.OtherCapabilityRefused | src/credit_harness/authorization/store.py:172-186 | A second capability for a recorded effect can neither own nor perform its dispatch |
| History.RunHistory | src/credit_harness/authorization/service.py:107-157 | What is proved of every history of transactions holds of the database along every run of the workers |
| FenceProof.RevokedForever | src/credit_harness/authorization/store.py:99-117 | REJECTED and REVOKED are final along every history |
| FenceProof.DispatchIsAuthorized | src/credit_harness/authorization/store.py:119-170 | Every dispatch commits inside the window of its capability and, where its intent needs an approval, while that exact intent is APPROVED and unexpired; an earlier commit of the same history is an operator's approval of that intent, given while the request was pending and unexpired |
| FenceProof.NoDispatchAfterRevocation | src/credit_harness/authorization/store.py:228-258 | No effect is dispatched under an approval refused or revoked earlier |
| BindingProof.BoundExactly | src/credit_harness/evaluation/snapshot.py:90-123 | In every reachable database a ledger row is bound to its intent, capability, approval, tenant and case exactly when its stored intent is genuine: no transaction of the repositories unbinds it |
| BindingProof.PolicyInvalidExactly | src/credit_harness/evaluation/snapshot.py:90-127 | In every reachable database the policy of a case is invalid iff some effect of it rests on an intent that is forged, about another order, or classed under the wrong risk |
| StoreProof.StoreAlwaysOk | src/credit_harness/evidence/repository.py:42-89 | In every reachable database observed calls and their observations correspond one to one, each receipt re-extracts to its origins, and every fact is stored for its case |
| StoreProof.SoundStoreVerifies | src/credit_harness/evidence/verification.py:26-79 | Verification of such a store is valid and returns for every identifier its latest occurrence |
| StoreProof.EveryReachableStoreVerifies | src/credit_harness/evidence/verification.py:26-79 | After any run the store verifies and reads back exactly the latest occurrence of every extracted fact, the read recovery transactions included |
| StoreProof.UnguardedRecoveryBreaksStore | src/credit_harness/recovery/read.py:85-102 | Counterexample: publishing a second observation for an answered call makes the store fail its verification; the ambiguity refusal of recovery is what prevents it |
| Extraction.ExtractObservation | src/credit_harness/evidence/extractor.py:22-166 | The appending extractor computes the emissions of the observation, or raises outside its scope, for mismatching data and for deployments from the future |
| Extraction.PlacesDistinct | src/credit_harness/evidence/extractor.py:41-166 | No observation emits two claims of one type at one path, however many messages or document fields it has |
| Extraction.ExtractionIsLawful | src/credit_harness/evidence/extractor.py:41-65 | Identifiers are digests of contents, facts stay within their case and scope, and one observation never yields two facts under one identifier |
| ExtractionFields.ToldExactly | src/credit_harness/evidence/extractor.py:66-166 | Extraction emits exactly the statements the observation makes: per data type, each claim with the value, subject and instant of its own field, present iff the field is |
| ExtractionFields.ExtractedExactly | src/credit_harness/evidence/extractor.py:22-166 | The extracted facts are exactly those statements, with the provenance, scope and request of the observation and the digests of their contents |
| VerificationReader.CollectCalls | src/credit_harness/evidence/verification.py:26-57 | The first loop flags every receipt that fails and keeps, per identifier, the latest occurrence |
| VerificationReader.CheckRows | src/credit_harness/evidence/verification.py:58-79 | The second loop accepts exactly the stored rows that equal their own extraction |
| VerificationReader.ReadVerified | src/credit_harness/evidence/verification.py:26-79 | Both loops together compute the declarative verification of the store |
| VerificationReader.SelectLatestObservations | src/credit_harness/evaluation/snapshot.py:37-42 | The watermark pass keeps exactly the facts of the newest observation of each tool and query |
| VerificationReader.ReadEffects | src/credit_harness/evaluation/snapshot.py:88-126 | Every ledger row is either bound to its stored intent, capability and approval, or marks the policy invalid |
| BudgetProof.CommitBudget | src/credit_harness/cases/repository.py:90-139 | Every transaction keeps call rows, sequence numbers and spent budget in agreement |
| BudgetProof.BudgetConserved | src/credit_harness/cases/repository.py:90-139 | In every reachable database the calls of a case are numbered 1..used without gap or repetition, are exactly `used` many, and within the budget |
| ClosedProof.QuietStep | src/credit_harness/evaluation/closure.py:58-81 | No transaction of any repository, recovery included, changes a settled terminal case |
| ClosedProof.QuietForever | src/credit_harness/evaluation/closure.py:58-81 | Along every history from a settled terminal case its row, calls, evidence, origins, effects, recoveries, reports and closure stay what they were |
| ClosureProof.ClosingCommit | src/credit_harness/evaluation/closure.py:58-81 | The closing commit leaves no pending read, effect or recovery attempt, and a record that passes the read-side check |
| ClosureProof.ClosedForever | src/credit_harness/investigation/closure.py:9-31 | After a verified closure the read-side check holds in every later database and the record never changes |
| ClosureProof.ReclosingSucceeds | src/credit_harness/evaluation/closure.py:38-50 | Under any clock and in any later database, closing again with the report the case was closed with answers ALREADY_CLOSED_VERIFIED with the first record |
| ClosureProof.ReclosingExactly | src/credit_harness/evaluation/closure.py:38-50 | Closing a closed case again under a stored PASS report of it: ALREADY_CLOSED_VERIFIED iff it is the same report, STALE_EVALUATION for any other, never a violated invariant |
| ClosureProof.NeverRefused | src/credit_harness/hypotheses/index.py:26-50 | Over reachable databases the evidence index never refuses the current evidence of a case |
| ScopeProof.OneOrderAlways | src/credit_harness/cases/repository.py:76-81 | In every reachable database the scope of a case is exactly its own order |
| LeaseProof.LeasesAlwaysOpen | src/credit_harness/recovery/repository.py:58-82 | In every reachable database a recovery lease names an open attempt at its own effect, whatever claims, abandonments and endings interleave |
| LeaseProof.QuietHoldsNoLease | src/credit_harness/evaluation/snapshot.py:127-150 | A settled case holds no recovery lease, so no clock reading can make it unresolved again |
| Deployment.DeployedClosureStands | src/credit_harness/evaluation/closure.py:25-81 | With the repository's own extractor, reader and evaluator, closed-forever holds without any assumption on them |
| Deployment.DeployedReclosing | src/credit_harness/evaluation/closure.py:25-81 | With the repository's own extractor, reader and evaluator and collision-free digests, the answer to a second close is decided by the report alone |
| Deployment.DeployedStoreVerifies | src/credit_harness/evidence/verification.py:26-79 | With the repository's own extractor and collision-free digests, every reachable store verifies |
| Index.BuildIndex | src/credit_harness/hypotheses/index.py:26-50 | The index exists exactly when all evidence is admissible and no identifier names two facts |
| Index.SelectLatest | src/credit_harness/hypotheses/index.py:55-61 | The grouping loop keeps exactly the rivals of maximal business time, ties included |
| Index.LatestDominates | src/credit_harness/hypotheses/index.py:55-61 | Every candidate has a surviving rival at least as late |
| Index.UsableHasCurrent | src/credit_harness/hypotheses/index.py:63-70 | A claim with a complete, fresh, unshadowed fact always has a current value |
| Index.AgreedIsUnique | src/credit_harness/hypotheses/index.py:72-77 | Two values of one subject are never both agreed |
| CurrentFacts.CurrentExactly | src/credit_harness/hypotheses/index.py:10-70 | A fact is current iff it is fresh, complete and sourced, observed after every failed lookup of its tool and query, and no such fact about the same subject (and version, for protocol documents) is as of a later event, source or lookup instant |
| CurrentFacts.RequestExactly | src/credit_harness/hypotheses/index.py:91-100 | The request of a case is the one its current primary trace and guarantee facts all name; only without any of them, the one its fund records are all about |
| PaymentIdentity.GroupPayments | src/credit_harness/identity/payment.py:17-40 | The accumulated groups are the records: same subject, observation and instant |
| PaymentIdentity.VerifyPaymentIdentity | src/credit_harness/identity/payment.py:17-79 | The nested loops compute the verdict that PaymentRecords.MatchMeans and MismatchMeans characterise over the facts, independent of iteration order |
| PaymentIdentity.MatchExactly | src/credit_harness/identity/payment.py:17-79 | MATCH iff there is a record, all records name one transaction, and each of the eight dimensions of every record is exact, in the record and at every simultaneous current source (PaymentRecords.MatchMeans writes the eight values out) |
| PaymentIdentity.MismatchExactly | src/credit_harness/identity/payment.py:17-79 | MISMATCH iff some record carries a mismatched mark in some dimension, and finality never does (PaymentRecords.MismatchMeans says what a mark means) |
| PaymentRecords.MatchMeans | src/credit_harness/identity/payment.py:17-79 | MATCH iff there is a payment record, all name one transaction, and each states, in its record and at every current source of the transaction, SETTLED, its own transaction identifier, the anchored request of the case, and the expected amount, currency, customer, beneficiary and account, each under its own claim |
| PaymentRecords.MismatchMeans | src/credit_harness/identity/payment.py:17-79 | A dimension is mismatched iff some record from one snapshot states one definite value in it other than the case's own; the verdict is MISMATCH iff some dimension is |
| PaymentIdentity.NeverMatch | src/credit_harness/identity/payment.py:17-79 | A finality other than exactly SETTLED, or two transactions, never match; without a contradiction they leave UNKNOWN |
| PaymentIdentity.RefsAreCurrent | src/credit_harness/identity/payment.py:17-79 | Every reference of the verdict is a current fact of a primary source |
| IdentityProjection.Project | src/credit_harness/context/identity_projection.py:14-69 | The projection keeps verdict and dimensions, all candidate transactions and all evidence of the verdict (as the values digested), refers only to the verdict's evidence, keeps a whole eight-claim witness of a MATCH, and otherwise a fact for every mismatching dimension of every witness, a witness and rival values for each unknown one, and two transactions where there are several |
| IdentityProjection.KeepMismatches | src/credit_harness/context/identity_projection.py:36-40 | The claims each mismatching witness needs survive the projection |
| IdentityProjection.KeepUnknown | src/credit_harness/context/identity_projection.py:41-62 | An unknown dimension keeps one witness whole and, if its values conflict, two of them |
| Rules.DecideHypothesis | src/credit_harness/hypotheses/rules.py:98-125 | The overwriting relation dictionary ends with the strongest relation of each fact; conflicting decisive grounds decide nothing; Propositions says which facts those are |
| Rules.CollectPairs | src/credit_harness/hypotheses/rules.py:47-61 | The paired loops find exactly the callback events followed by their message, failures without a later consumption |
| Rules.GroundsAreCurrent | src/credit_harness/hypotheses/rules.py:126-224 | No stale, incomplete, shadowed or secondary fact ever confirms or eliminates any of the ten hypotheses |
| Rules.DecidedExactly | src/credit_harness/hypotheses/rules.py:98-125 | CONFIRMED iff some reference supports decisively, ELIMINATED iff some contradicts decisively |
| Rules.DecisiveRefsAreCurrent | src/credit_harness/hypotheses/rules.py:26-85 | Every decisive reference is a current, complete, unshadowed fact of a primary source |
| Rules.ConfirmedChildren | src/credit_harness/hypotheses/rules.py:156-224 | A confirmed schema mismatch has a confirmed consumption failure; a stale consumer schema is never decided |
| Rules.RelationsAreEvidence | src/credit_harness/hypotheses/rules.py:98-125 | Every reference of every decision is evidence of the case |
| Propositions.StatusMeans | src/credit_harness/hypotheses/rules.py:98-106 | A proposition is CONFIRMED iff some fact confirms and none eliminates it, ELIMINATED iff the reverse, SUPPORTED iff both or only a supporting fact, POSSIBLE iff none and the case is under investigation |
| Propositions.DecisiveRefsMean | src/credit_harness/hypotheses/rules.py:107-125 | The decisive references are exactly the facts that confirm a confirmed proposition or eliminate an eliminated one; per proposition their claim, value and tool are written out |
| Propositions.NotSent | src/credit_harness/hypotheses/rules.py:129-132 | H1 is CONFIRMED iff an agreed primary trace fact says not sent and none says sent; ELIMINATED iff the reverse |
| Propositions.NotAccepted | src/credit_harness/hypotheses/rules.py:134-138 | H2 is never confirmed and is ELIMINATED iff the payment identity matches or an agreed fund record of the request says PROCESSING, SUCCESS or FAILED |
| Propositions.NoEffect | src/credit_harness/hypotheses/rules.py:139-141 | H3 is never confirmed, ELIMINATED iff the payment identity matches, and otherwise SUPPORTED iff a FAILED fund record of the request is agreed |
| Propositions.TimedOutButPaid | src/credit_harness/hypotheses/rules.py:143-149 | H4 is CONFIRMED iff the trace shows a timeout of this request, the payment identity matches and no agreed OK answer to the request exists; ELIMINATED iff such an answer exists and not both of the others |
| Propositions.CallbackAbsent | src/credit_harness/hypotheses/rules.py:151-154 | H5 is never confirmed and is ELIMINATED iff the gateway received a callback; an empty callback lookup supports it |
| Propositions.NotConsumed | src/credit_harness/hypotheses/rules.py:156-160 | H6 is CONFIRMED iff some message of a received callback failed at or after its reception and none of it was consumed at or after the failure; ELIMINATED iff none so failed and one was consumed |
| Propositions.SchemaMismatch | src/credit_harness/hypotheses/rules.py:162-168 | The schema mismatch is CONFIRMED iff such a failed message was recorded with exactly the schema error on loanNo and two different types; never eliminated |
| Propositions.StaleConsumer | src/credit_harness/hypotheses/rules.py:170-195 | The stale consumer is never decided; SUPPORTED iff an earlier document of the same partner gives loanNo the type the consumer expected and the callback's own version the type it got |
| Propositions.AssetNotConverged | src/credit_harness/hypotheses/rules.py:197-203 | H7 is CONFIRMED iff guarantee SUCCESS, delivery FAILED and asset PROCESSING are all agreed and no asset SUCCESS is; ELIMINATED iff asset SUCCESS is agreed and not all three are |
| Propositions.PaymentSeparate | src/credit_harness/hypotheses/rules.py:205-224 | H8 is CONFIRMED iff exactly one protocol version is bound to the request, all its current SUCCESS documents are one document, and an agreed one keeps payment separate; never eliminated |
| Engine.Validate | src/credit_harness/hypotheses/invariants.py:8-30 | The parent-chain walk accepts exactly the graphs whose nodes are all defined, whose confirmed children have confirmed parents, and which climb without meeting themselves |
| Engine.NoCycle | src/credit_harness/hypotheses/invariants.py:18-30 | In an accepted graph no proposition is its own ancestor at any distance |
| Engine.EvaluateRules | src/credit_harness/hypotheses/engine.py:18-41 | The state list holds for every proposition its status, its supporting, contradicting and decisive references and the open questions it waits for |
| Engine.DecisiveExactly | src/credit_harness/hypotheses/engine.py:24-36 | A state shows decisive references iff it is confirmed or eliminated, and they are among those on that side |
| Engine.GraphAlwaysValid | src/credit_harness/hypotheses/invariants.py:8-30 | Whatever the evidence, the rules never produce a graph the validator rejects |
| GraphMeaning.StateMeans | src/credit_harness/hypotheses/engine.py:18-40 | A state shows as supporting the facts that support or confirm and do not eliminate, as contradicting those that eliminate, as decisive those that decided, and as missing exactly the asked and unanswered questions of an undecided proposition |
| Gaps.DeriveGaps | src/credit_harness/hypotheses/gaps.py:11-99 | Each question is asked exactly when its condition holds and is satisfied exactly when its witness exists |
| Gaps.FundProtocolAnswered | src/credit_harness/hypotheses/gaps.py:86-94 | The protocol question is answered exactly when the SUCCESS-semantics hypothesis is confirmed |
| Gaps.IdentityAnswered | src/credit_harness/hypotheses/gaps.py:24-28 | The identity question is answered exactly when the payment identity matches |
| Questions.AskedExactly | src/credit_harness/hypotheses/gaps.py:9-99 | Each of the thirteen questions is asked exactly when its circumstances are in evidence, written out per question |
| Questions.AnsweredExactly | src/credit_harness/hypotheses/gaps.py:9-99 | Each question is answered by exactly the facts written out for it: claim, value, tool and link to the request or callback |
| Questions.QuestionExactly | src/credit_harness/hypotheses/gaps.py:14-99 | A question is listed iff asked, satisfied iff some fact answers it, and refers to exactly those facts |
| Evaluator.EvaluateState | src/credit_harness/evaluation/evaluator.py:54-254 | The appending evaluation computes the eight dimensions and the two-level verdict whose PASS and FAIL are characterised below |
| Evaluator.CheckCallback | src/credit_harness/evaluation/evaluator.py:141-161 | The search over received callbacks decides the callback check |
| Evaluator.CheckEffects | src/credit_harness/evaluation/evaluator.py:165-202 | One check per bound effect |
| Evaluator.PassExactly | src/credit_harness/evaluation/evaluator.py:20-22 | PASS iff every emitted check of every dimension is PASS or NOT_APPLICABLE, through both aggregation levels |
| Evaluator.V1IsSound | src/credit_harness/evaluation/evaluator.py:54-254 | A PASS rules out pending reads, unresolved or unbound effects, unresolved recovery and invalid provenance, and names the snapshot it judged |
| Evaluator.PassHasPath | src/credit_harness/evaluation/evaluator.py:75-112 | A passing report always names its outcome path |
| Evaluator.SettledPassExactly | src/credit_harness/evaluation/evaluator.py:75-254 | PASS on the settled path iff: one finality SETTLED, identity MATCH, all four states converged, a signed callback consumed and nothing else, delivery, every applied effect shown by strictly later evidence, and nothing else in the way |
| Evaluator.NoDisbursementPassExactly | src/credit_harness/evaluation/evaluator.py:75-254 | PASS without disbursement iff every finality is NOT_EXECUTED about this very request, no verified settlement of it was ever observed, and the states failed accordingly |
| Evaluator.SettledPassEntails | src/credit_harness/evaluation/evaluator.py:204-221 | A settled PASS rests on the confirmed reading of SUCCESS, the answered request association, and only fresh and complete facts |
| Verdicts.DimensionExactly | src/credit_harness/evaluation/evaluator.py:228-240 | A dimension is FAIL iff one of its checks is, INCONCLUSIVE iff none fails and one is open, NOT_APPLICABLE iff nothing else was emitted |
| Verdicts.VerdictExactly | src/credit_harness/evaluation/evaluator.py:20-22 | The verdict is FAIL iff some emitted check is FAIL, and INCONCLUSIVE iff none is and some is INCONCLUSIVE |
| Verdicts.MoneyExactly | src/credit_harness/evaluation/evaluator.py:75-100 | Money fails iff two current finalities differ, or every one denies a transfer for this request of which a verified settlement was once observed; the path is named by the one agreed finality |
| Verdicts.ExpectMeans | src/credit_harness/evaluation/evaluator.py:114-129 | A business state fails iff some current fact says otherwise and not all of them are underway within the grace period; it passes iff all say the expected value |
| Verdicts.CallbackMeans | src/credit_harness/evaluation/evaluator.py:142-161 | The callback fails iff some current message FAILED after the grace period |
| Verdicts.EffectMeans | src/credit_harness/evaluation/evaluator.py:165-205 | An applied replay or redelivery passes iff later evidence about its very target shows its outcome and no other, and fails iff some of it shows another; what is resolved otherwise is not applicable |
| Verdicts.SufficientExactly | src/credit_harness/evaluation/evaluator.py:207-221 | The evidence suffices iff its provenance holds, no read is pending, the newest facts that bear on the path are complete, not stale and within their age, and the finality, association, protocol and (with a disbursement) identity questions are unasked or answered |
| Verdicts.FailExactly | src/credit_harness/evaluation/evaluator.py:54-254 | Over the evidence: FAIL iff the finalities conflict, a settlement stands behind a denial, the identity mismatches off the no-disbursement path, a business state or an effect is refuted, the policy is invalid, or a terminal case has something under way |
| Verdicts.SettledPassRests | src/credit_harness/evaluation/snapshot.py:37-88 | A settled PASS over a stored case rests on primary, complete, current facts within their age from the newest lookups only: they state the settlement, the final states, the consumption and the delivery, and the identity refers to no others |
| Seal.Converges | src/credit_harness/context/budget.py:29-45 | For every base length the fixed point of the two embedded sizes is reached by the fourth round |
| Seal.Seal | src/credit_harness/context/budget.py:29-45 | The twelve-round loop never raises, and the sealed size is the length of the text that states it |
| Assembler.PositionOf | src/credit_harness/context/assembler.py:186-193 | The replaced capsule is the first of its hypothesis |
| Assembler.UndoApply | src/credit_harness/context/assembler.py:186-200 | Undo is the exact inverse of apply, preview replacement included |
| Assembler.RemovalUndoesExactly | src/credit_harness/context/assembler.py:195-200 | Removing an appended capsule by equality restores the slot iff it held no equal one, or nothing else from the first equal one on |
| Assembler.ContextAssembler.Put | src/credit_harness/context/assembler.py:186-193 | Appends, or replaces the preview in place and remembers what it replaced |
| Assembler.ContextAssembler.Try | src/credit_harness/context/assembler.py:202-214 | A candidate is applied and kept iff the context with it fits; otherwise selection and accepted list are what they were |
| Assembler.ContextAssembler.Fill | src/credit_harness/context/assembler.py:202-214 | After the greedy pass the selection is the mandatory tier with the accepted candidates applied in order |
| Assembler.ContextAssembler.Trim | src/credit_harness/context/assembler.py:215-225 | Last-in-first-out undoing restores earlier selections exactly and stops at a fit or at the bare tier |
| Assembler.ContextAssembler.SelectMandatory | src/credit_harness/context/assembler.py:85-95 | The mandatory tier holds every mandatory current fact, every confirmed hypothesis and every safety gap |
| Assembler.OmissionAccounts | src/credit_harness/context/assembler.py:139-146 | Selected and omitted evidence partition the input and their counts add up |
| Assembler.RenderValid | src/credit_harness/context/invariants.py:15-102 | Every fitting snapshot of a good selection satisfies what the validator recomputes: references, safety gaps, confirmed witnesses, unchanged projections, bounded previews, critical facts, omission counts, capsule counts, sealed length and history completeness |
| Assembler.ContextAssembler.Assemble | src/credit_harness/context/assembler.py:85-228 | All or nothing for every well-formed input and budget: a snapshot within all five limits, complete in its mandatory references, accepted by the validator and extending a mandatory tier that fits under its own omission reasons by the accepted candidates; or ineligibility, iff a mandatory reference is ineligible; or overflow, only when the bare tier does not fit under those reasons or with some of them relabelled SIZE_BUDGET |
| ContextPreview.RelationRefsBounded | src/credit_harness/context/compaction.py:76-82 | A relation preview shows only references it was given, lookup answers only by the first and last of like ones, never more than its limit, and omits a kept reference only when it is full of smaller ones |
| ContextSource.SourceWellFormed | src/credit_harness/context/assembler.py:41-184 | For every case, evidence and policy the constructed capsules, mandatory tier, omission reasons and candidates are well formed: faithful and bounded projections, decisive references of confirmed hypotheses never empty, critical facts current, no candidate repeated or already mandatory |
| ContextSource.StatesAreEvidence | src/credit_harness/context/assembler.py:65-77 | Every reference a hypothesis capsule previews can be looked up: it is evidence of the case |
| ContextBuilder.ReadSource | src/credit_harness/context/assembler.py:41-60 | The projected identity stays within the verdict and every counted lookup run is the maximal trailing one since the retry instant |
| ContextBuilder.BuildContext | src/credit_harness/context/assembler.py:31-228 | From a case and its evidence, for every policy and budget: a context the validator accepts against everything recomputed from this very evidence and that extends a fitting mandatory tier, or foreign evidence (iff), or ineligible mandatory references (iff), or a mandatory tier that does not fit under its own or relabelled omission reasons |
| ContextBuilder.ContextShows | src/credit_harness/context/invariants.py:33-72 | An accepted context shows every mandatory current fact unchanged, every confirmed proposition with all its decisive references, every open safety question, and nothing the policy does not allow |
| Compaction.Tabulate | src/credit_harness/context/compaction.py:28-42 | The accumulation yields each observation's latest instant and answers, in any order of the evidence |
| Compaction.CountRun | src/credit_harness/context/compaction.py:43-55 | The latest-first counter with its breaks counts the run |
| Compaction.RunsAgree | src/credit_harness/context/compaction.py:28-57 | The counted run is the declarative one: observations not before the retry instant such that everything as late answered exactly so |
| Compaction.LookupGroups | src/credit_harness/context/compaction.py:28-57 | Every repeated-lookup group carries the length of its maximal trailing run |
| Compaction.OneTrailingAnswer | src/credit_harness/context/compaction.py:43-57 | At most one answer per tool and query has a non-empty trailing run |
| AgentRun.AgentRuntime.RunTurn | src/credit_harness/agent/runtime.py:64-171 | One turn asks the planner about pairwise distinct snapshots, at most one more than the replan bound, each attempt but the last stale; every ending is characterised: STALE_REPLAN_EXHAUSTED iff the last attempt was stale, or was rejected after a stale one, a safety stop iff it was refused or rejected at once, PLANNER_UNAVAILABLE, SAFE_NO_ACTION, TOOL_EXECUTION_ERROR, WAITING and ESCALATED iff that is what happened, and the run continues iff a call was observed; it spends one unit of the case iff it holds a call identifier |
| AgentRun.AgentRuntime.Run | src/credit_harness/agent/runtime.py:50-193 | Against every planner, environment and other workers on the same database: bounded turns and planner calls, dispatched count = turns with a call = units of the case this run's own commits spent, the whole change of the spent budget is these and what others changed, and NO_KNOWLEDGE_PROGRESS iff the trailing streak of continuing turns reaches its limit |
| AgentRun.AgentRuntime.CallTheTool | src/credit_harness/cases/executor.py:33-59 | The only dispatch path goes through the read executor: the spent budget of the case rises by one iff the call was reserved |
| AgentRun.OneMoreTurn | src/credit_harness/agent/runtime.py:172-188 | A further turn extends or resets the streak, and the run may continue exactly below the limit |
| ExternalEffects.RemoteEffects.DispatchCommand | src/credit_harness/adapters/synthetic_remediation.py:44-104 | One dispatch in place: the changed world and clock or a filed task, and the effect record, together or not at all |
| ExternalEffects.RepeatIsIdempotent | src/credit_harness/adapters/synthetic_remediation.py:62-68 | Repeating an applied dispatch with the same payload changes nothing and answers the same reference |
| ExternalEffects.FailedChangesNothing | src/credit_harness/adapters/synthetic_remediation.py:44-104 | FAILED_CONFIRMED means this dispatch changed nothing at all |
| ExternalEffects.FirstDispatchActs | src/credit_harness/adapters/synthetic_remediation.py:71-104 | A first dispatch is APPLIED iff it finds its target (the one failed message of that event, the failed delivery); it then turns exactly that message CONSUMED or that delivery DELIVERED in one further snapshot and nothing else of any world; an administrative command only files its task |
| ExternalEffects.CurrentIsLast | src/credit_harness/adapters/synthetic_remediation.py:58-60 | The world acted on is the last snapshot whose time has come |
| ExternalEffects.AppliedAtMostOnce | src/credit_harness/adapters/synthetic_remediation.py:44-104 | Along every run of dispatches by any tenants, two dispatches that both change the remote side are for different (world, action, target) |
| ExternalEffects.ChangeStaysRecorded | src/credit_harness/adapters/synthetic_remediation.py:67-104 | A dispatch that changes anything is the first for its key, and its record (command, correlation, reference) stands unchanged after every later dispatch |
| ExternalEffects.RecordsKeptAlways | src/credit_harness/adapters/synthetic_remediation.py:44-104 | Along any sequence of dispatches by any tenants every record stays as it was written |
| ExternalEffects.LookupExactly | src/credit_harness/adapters/synthetic_effect_resolver.py:18-39 | FOUND_APPLIED iff exactly one record has this correlation and it has this key and this payload |
| ExternalEffects.AppliedIsFoundExactly | src/credit_harness/adapters/synthetic_effect_resolver.py:18-39 | A dispatch answered APPLIED is found by its own correlation iff, before it, that correlation was unused (a first dispatch) or carried exactly this effect's record (a repeat); what is found is the reference of its receipt |
| ExternalEffects.RepeatIsNotFound | src/credit_harness/adapters/synthetic_effect_resolver.py:18-39 | Counterexample: a repeat under a new correlation is answered APPLIED, yet a lookup by that correlation finds nothing |

## Left out

- Assembler.RenderValid: the agent-task, safety and registry fields, which the assembler copies unchanged from the case, are not modelled, nor is the separate envelope validator; case, evidence and graph fingerprints are the index they digest.
- Assembler.ContextAssembler.Assemble: the serialized text is a parameter giving its length for a selection and its omissions.
- ContextBuilder.BuildContext: candidates may come in any order, so the source's sort by rank is one instance; first and last values and instants inside lookup and history capsules are left out, their references are kept; the eligibility policy is an arbitrary predicate on evidence.
- Seal.Seal: JSON text and SHA-256 are reduced to the length equation; a digest has a fixed width.
- Evaluator.EvaluateState: reason codes, supporting references and the list of unresolved requirements of a report are not kept; statuses, path, verdict and snapshot are. The outcome contract's expectations are the V1 ones.
- Compaction.LookupGroups: the consecutive count of a group is modelled here and its first and last references in ContextPreview; its instants and digests are left out.
- IdentityProjection.Project: the bounded preview of transaction names is left out.
- Engine.EvaluateRules: the reason texts and the rule identifiers of a state are left out.
- Gaps.DeriveGaps: the texts of a gap are left out; whether it is raised and answered, and by which references, is kept.
- AgentRun.AgentRuntime.Run: context assembly, revalidation and the knowledge-progress measure are arbitrary inputs; checkpoints and traces are left out. An error outside the handled ones (a planner protocol error, a vanished case) ends the run without a result. Other workers interleave between the steps of a turn, not inside one executor call.
- ExternalEffects.RemoteEffects.DispatchCommand: the version counter of a world's clock is left out.
- CaseRepository.Cases.ReserveCall: the rows behind the work lease and the registry route are left out; what the two guards find is a parameter.
- CaseRepository.Cases.PauseIfCurrent: the work item the pause hands over is left out; whether the resume cycles are used up is a parameter.
- Audit rows, work items, orchestration state, read-recovery bookkeeping and trace rows: written beside the modelled rows and read by them only through the guards that are parameters.
- Pydantic validation, regular expressions and column/payload duplication of rows: a row is its validated value.
- Evidence strength, provenance links and creation time: no modelled rule reads them.
- HTTP, OIDC, migrations, the console, the CLI, benchmarks, embeddings and model adapters: no decision logic of their own.
