# Seeding control plane: a verified model

This project models the fail-closed control plane of the seeding application (`app/seeding`) in Dafny and
proves what it is built to guarantee: that nothing is written to the advertising platform without one
consumed authorisation, that indeterminate writes are never replayed, that a stored success means what it
says, and that planning decisions depend only on their inputs and never on the order they arrive in.

`dafny verify dfyconfig.toml` checks everything.

## What is modelled

**The store.** `Database` describes the SQLite rows and gives every transaction of `SeedingStore` as a step
from rows to rows; a refused transaction raises, is rolled back, and is a step that changes nothing.
`Store.SeedingStore` is the class itself: its fields are the tables, each method is one transaction that
updates them in place, and a ghost history records the run. Between any two transactions other connections
may commit anything a proper caller can ask for (`Interleave`). A `Run` is any sequence of legal steps from
the empty database, with any number of workers and clocks that need not agree. `JobLeases` and
`TransitionLog` prove whole-run properties of every `Run`; `SystemRuns` adds what the service's callers
guarantee and proves the authorisation properties of every `SystemRun`. `WriteProgress` and `ArtifactRows`
give exact conditions over runs. `CodeRuns` narrows system runs to those whose every transaction passes the
checks the code makes before asking for it, and `Witnesses` builds such runs to show what cannot be claimed.
`PlanRevisions` is the plan-revision table with its batch replacement.

**The engines.** `Platform.World` is an adversary: every call may answer anything, refuse with an error code,
or break, and a ghost trace records each call with its reply. `Execution` (create, pause, read back, relock),
`Reconciliation` (discover, pause, read back, relock) and `Release` (arm, enable, fall back) follow the
Python methods call by call. Each method proves the complete trace of its run as a function of a small piece
of evidence, and the safety theorems are then proved about every such trace. `Readback` is the comparison
between a compiled plan and what the platform says exists.

**The service.** `Service` is the worker: claim, handle, report, and the exception path. `Requests` issues
release grants and enqueues external jobs. Both show that every transaction they ask for meets the caller
obligations of `SystemRuns`, so the whole-run theorems apply to the history of the real object. `Dispatch`
holds the status and target tables and composes engines with store: any create that reaches the platform
traces back to a consumed grant that lists exactly those plans, and any enable to one that names exactly
those campaigns, a stored readback of them, and exactly the granted cap armed just before.

**The decisions.** `UnionFind` (path compression), `Keywords` with `KeywordEvaluation` (staged dedupe, ranked
selection, bids), `Audiences` (greedy overlap filter), `Quantiles` (Type 7 quantiles and bid evidence over
the reals) and `Capacity` (nested-floor budget arithmetic and pair selection). The outcome is defined on sets
or by characteristic properties, shown to be unique, and the imperative code is proved to compute it.

**The outcomes.** For each part there is a module that says what comes out of it in terms of what went in alone:
columns and operations (`StoreOutcomes`), calls, replies and listed rows (`ReadbackOutcomes`, `ExecuteOutcomes`,
`ReconcileOutcomes`, `ReleaseOutcomes`), heats, scores, populations, receipts and amounts (`KeywordOutcomes`,
`AudienceOutcomes`, `CapacityOutcomes`, `RequestOutcomes`). None of their statements uses a function that the
code or its specification shares with it; the proofs show that those functions are the right ones.
`JobOutcomes` composes engine outcomes with the worker's status and target tables, and `TurnOutcomes` one turn of
the worker with the rows of the store, end to end.

## Conventions

Identifiers are natural numbers standing for their rank in string order, so `<` is the program's string
comparison. Timestamps are integers. A SHA-256 digest is an injective wrapper around its content. `now` is an
arbitrary parameter of each operation, because the program reads the clock before it takes the write lock.

## Findings

- The `EXPIRED` grant status is never stored: the write is undone by the rollback of the refusal that
  follows it (`SystemRuns.GrantsMatchJobs` includes that no reachable grant is EXPIRED).
- A production reconcile that verifies asks for WAITING_RELEASE_AUTHORIZATION, which RECONCILE_REQUIRED does
  not allow. `Dispatch.ReconcileTargetsFitExactly` says for which state and environment every outcome can be
  recorded, `Dispatch.ReconcileTargetRefusedExactlyForProduction` that this outcome is the only one refused
  there, `Witnesses.VerifiedReconcileIsRefused` is a run in which it happens, and
  `Service.VerifiedReconcileCameFrom` says what a recorded one means.
- A RUNNING create job does not imply WRITE_IN_PROGRESS, because consuming the grant and entering the state
  are two transactions: `Witnesses.RunningBeforeWriteInProgress` is a run, and
  `WriteProgress.RunningImpliesInProgressExactly` says in which executions it does.
- A production create that failed can be resumed and then succeed, but its readback is inserted with OR IGNORE
  and the first one, of the failed run, stays (`Witnesses.SecondReadbackIsDropped`). What is offered is stored
  exactly under the condition of `Service.OfferedIsStoredExactly`.
- `execute` checks each payload hash inside its loop, so a damaged plan raises past the relock.
  `Execution.RelockSkippedExactlyOnMismatch` says when a run did, `Execution.RelockCanBeSkippedExactly` for
  which batches some platform makes it happen after something was created; the enqueue checks make it
  unreachable (`Requests.MatchingPlansAreIntact`, `Dispatch.CreatesAreAuthorised`).
- A create that ended in a transport error, or whose response does not say what was created, may have happened.
  Its job is sent to reconciliation, for good, exactly if the relock after it was verified
  (`TurnOutcomes.UnclearCreateIsFinalExactly`). A failed relock overrides that status: the job is then stored
  FAILED, `resume_job` accepts it, and the same create is sent again; `Witnesses.UnclearCreateIsSentAgain` is a
  run.
- A reconcile takes creative ids in the order the platform lists them and compares them place by place, so that
  order can decide its verdict; `Reconciliation.CreativeOrderIsIrrelevantExactly` says when it cannot. The
  readback after a create looks creatives up by id and does not depend on it
  (`Readback.CreativeRowOrderIsIrrelevant`).

## Model

| member | source | states |
|---|---|---|
| Database.RowEffect | app/seeding/store.py:963-1287 | whatever the other rows hold, each transaction changes an existing job row by its own row effect only, and never deletes it |
| Database.NewRow | app/seeding/store.py:706-730 | a job row appears only through an enqueue or an accepted grant consumption, pending, unclaimed, with attempt 0 |
| Database.RowPersists | app/seeding/migrations/001_initial.sql:120-140 | project, kind, input and attempt limit of a job never change over any stretch of any run |
| Store.SeedingStore.NewProject | app/seeding/store.py:77-145 | creates the row in DRAFT, NONE, NOT_RELEASED with one event, or refuses a taken id and changes nothing |
| Store.SeedingStore.TransitionProject | app/seeding/store.py:215-268 | moves exactly when the table allows it, together with one log entry and one event; otherwise nothing changes |
| Store.SeedingStore.TransitionExecution | app/seeding/store.py:270-368 | the same for the execution surface |
| Store.SeedingStore.TransitionDelivery | app/seeding/store.py:287-368 | the same for the delivery surface |
| Store.SeedingStore.StoreArtifact | app/seeding/store.py:370-406 | inserts at most one artifact per project, kind and input |
| Store.SeedingStore.Emit | app/seeding/store.py:878-887 | appends one event and touches nothing else |
| Store.SeedingStore.InsertGrant | app/seeding/store.py:525-571 | inserts an ISSUED grant exactly when id and nonce are new |
| Store.SeedingStore.Revoke | app/seeding/store.py:597-630 | revokes exactly an ISSUED grant |
| Store.SeedingStore.ConsumeGrantAndEnqueue | app/seeding/store.py:632-725 | consumes and enqueues in one step exactly when the grant is usable now, returns an existing identical job untouched, and leaves the rows as they were on every refusal, the expired one included |
| Store.SeedingStore.ConsumeRow | app/seeding/store.py:655-725 | consumes exactly a usable grant; every refusal, with its mark undone, leaves the rows as they were |
| Store.SeedingStore.FindWork | app/seeding/store.py:1002-1010 | answers with a row of exactly this project, kind and input whenever one exists |
| Store.SeedingStore.Enqueue | app/seeding/store.py:963-1000 | idempotent per project, kind and input; the returned row is that work |
| Store.SeedingStore.Sweep | app/seeding/store.py:1018-1084 | every expired external write becomes RECONCILE_REQUIRED and its WRITE_IN_PROGRESS project is flagged, row by row, each once |
| Store.SeedingStore.LeaseNext | app/seeding/store.py:1085-1113 | leases the first claimable row in queue order, or finds that there is none |
| Store.SeedingStore.Claim | app/seeding/store.py:1012-1113 | sweep and lease are one transaction, equal to the claim step |
| Store.SeedingStore.Heartbeat | app/seeding/store.py:1115-1136 | extends the lease exactly for the current owner of a RUNNING job |
| Store.SeedingStore.HeartbeatAll | app/seeding/store.py:1138-1155 | extends all and only the leases this worker holds, and counts them |
| Store.SeedingStore.Finish | app/seeding/store.py:1198-1232 | accepted exactly for the current owner of a RUNNING job; otherwise no row changes |
| Store.SeedingStore.Fail | app/seeding/store.py:1186-1232 | with anything committed between its read and its write, has the effect of the atomic version |
| Store.SeedingStore.Cancel | app/seeding/store.py:1251-1268 | accepted exactly for PENDING and RETRY jobs |
| Store.SeedingStore.Resume | app/seeding/store.py:1270-1287 | accepted exactly for FAILED and CANCELLED jobs, and resets the attempt count |
| Store.FirstInQueue | app/seeding/store.py:1085-1100 | any nonempty set of candidates has a first row in (created_at, job_id) order |
| JobLeases.LeasesAreConserved | app/seeding/store.py:1012-1232 | in every run: owner and expiry exist exactly while RUNNING; claims equal finishes plus leases lost plus one if RUNNING; attempt counts claims since the last resume and stays within the limit |
| JobLeases.ClaimsAreBounded | app/seeding/store.py:1049-1113 | claims never exceed max_attempts times one plus the number of resumes |
| JobLeases.ExternalNeverReclaimed | app/seeding/store.py:1018-1113 | an external job is only ever claimed out of the queue, never out of RUNNING |
| JobLeases.FinalRowsAreFrozen | app/seeding/store.py:1198-1287 | SUCCEEDED and RECONCILE_REQUIRED rows never change again, in any run |
| JobLeases.OnlyTheOwnerActs | app/seeding/store.py:1115-1136 | a finish or heartbeat by a non-owner changes nothing at all |
| JobLeases.HeartbeatKeepsLease | app/seeding/store.py:1115-1155 | with steps that commit in order and clocks read before they commit: an owner each of whose heartbeats commits before the expiry then in force, and who has not finished the job, still holds it at the same attempt, with the expiry its heartbeats asked for, whatever everyone else does |
| JobLeases.LeaseCoversSteps | app/seeding/store.py:1115-1155 | if the heartbeats land, no step of anybody commits after the lease ran out |
| JobLeases.ExpiredLeaseIsLost | app/seeding/store.py:1018-1113 | the bound is tight: a claim that reads a clock at or past the expiry takes the lease away, by the sweep or by a takeover |
| JobLeases.OwnershipReachesBack | app/seeding/store.py:1186-1232 | a worker that owns the job and has not claimed since the read already owned it then, at the same attempt |
| JobLeases.FailureReportRefinesAtomic | app/seeding/store.py:1186-1232 | the two-step failure report equals the atomic one under every interleaving in which the worker does not claim |
| StoreOutcomes.ClaimDecides | app/seeding/store.py:1012-1113 | a claim takes the first due row by creation time and id, if there is one, leases it, sends every external operation whose lease its clock has passed to RECONCILE_REQUIRED with no owner, and leaves every other row alone; which kinds, statuses and clocks is written out |
| StoreOutcomes.InterruptedIsNeverReplayed | app/seeding/store.py:1018-1046 | an external operation found running on an expired lease is stored RECONCILE_REQUIRED with no owner by that very claim, and from then on its row never changes and no claim takes it, whatever anybody resumes |
| StoreOutcomes.InterruptedFlagsProject | app/seeding/store.py:1047-1084 | that claim moves the project of the operation from WRITE_IN_PROGRESS to RECONCILE_REQUIRED and changes nothing else about it |
| StoreOutcomes.RetryWaits | app/seeding/store.py:1198-1232 | a job sent back to the queue is not claimed again, unless resumed, before a clock reads thirty seconds on |
| StoreOutcomes.FailureIsRetriedExactly | app/seeding/store.py:1186-1232 | a failure reported in two steps sends the job back to the queue exactly if it was claimed fewer times since its last resume than its limit, and fails it otherwise |
| StoreOutcomes.WorkIsUnique | app/seeding/migrations/001_initial.sql:120-140 | in every reachable state no two jobs share project, kind and input |
| StoreOutcomes.NoncesAreUnique | app/seeding/migrations/002_grant_execution.sql:3-3 | nor do two grants of one project and type share a nonce |
| StoreOutcomes.GrantDecides | app/seeding/store.py:525-725 | when a grant is issued, consumed or revoked and a job enqueued, and what the rows then hold, column by column |
| TransitionLog.LogIsFaithful | app/seeding/store.py:215-368 | in every reachable state the log replays, move by allowed move, to every project's current row, and the outbox announces exactly its entries in order |
| TransitionLog.ClaimFaithful | app/seeding/store.py:1047-1084 | the claim's direct SQL sweep keeps that history too |
| TransitionLog.MovesWithinRank | app/seeding/state.py:157-170 | any replayable log has at most as many delivery moves as the rank it has reached |
| TransitionLog.AtMostFiveDeliveryMoves | app/seeding/state.py:157-170 | at most five delivery moves per project in any run |
| TransitionLog.ClosedIsFinal | app/seeding/state.py:80-83 | CLOSED is never left, on the project and delivery surfaces |
| StoreOutcomes.ProjectMoves | app/seeding/state.py:48-170 | in every step of every run each surface of a project moves exactly along an edge of its table, listed by the states that lead to each state, or is flagged by a claim that finds one of its operations interrupted |
| SystemRuns.GrantsAndJobsBiject | app/seeding/store.py:632-725 | in every reachable state gated jobs and CONSUMED grants are in bijection, of matching type, project and scope (the grant covers exactly the job's plans or release terms), consumed strictly before expiry, and no grant is EXPIRED |
| StoreOutcomes.GatedJobsAreGranted | app/seeding/store.py:632-725 | in every reachable state an EXECUTE_TEST job names a consumed execution grant of its project listing exactly its plans and payloads, a PRODUCTION_CREATE job a production-create grant that does, a RELEASE job a release grant of exactly its terms |
| SystemRuns.GrantRowEffect | app/seeding/store.py:597-704 | a grant row changes only out of ISSUED, by revocation or by an accepted consumption |
| SystemRuns.SpentGrantsAreFrozen | app/seeding/store.py:597-704 | a CONSUMED or REVOKED grant never changes again |
| SystemRuns.GrantYieldsOneJob | app/seeding/store.py:632-725 | once a grant has authorised a job, it authorises no other, ever |
| SystemRuns.RevokedGrantYieldsNothing | app/seeding/store.py:597-630 | a revoked grant authorises nothing afterwards |
| SystemRuns.SuccessfulWritesAreVerified | app/seeding/service.py:191-273 | a SUCCEEDED create or reconcile job stores one receipt per plan in plan order, each pause- and readback-verified, with the lock verified, and its row never changes again |
| SystemRuns.ExternalRunsOncePerResume | app/seeding/service.py:765-778 | external jobs are claimed at most once plus once per resume, and only out of PENDING |
| SystemRuns.ReleasesAreReadBack | app/seeding/service.py:1269-1373 | in every reachable state the campaigns of each RELEASE job all appear in one stored production readback of its project |
| WriteProgress.InProgressExactly | app/seeding/service.py:771-784 | over any stretch of steps a project is in WRITE_IN_PROGRESS exactly when a step in between entered it and none left it since, or it was there and never left; entering and leaving are guards on the rows before the step |
| WriteProgress.RunningImpliesInProgressExactly | app/seeding/service.py:771-784 | a RUNNING create job implies WRITE_IN_PROGRESS throughout an execution exactly when each claim of it found the project there and no step moved the project out while it ran |
| WriteProgress.ProgressStep | app/seeding/store.py:1018-1084 | which transactions put a project into WRITE_IN_PROGRESS and which take it out, the claim's sweep included |
| WriteProgress.RunningStep | app/seeding/store.py:1018-1232 | which transactions put an external job into RUNNING and which take it out |
| CodeRuns.ConfirmedIsReachable | app/seeding/service.py:2141-2189 | a prepared and confirmed project, with its finished PREPARE job and planning records, is reachable by transactions that each pass the code's own checks in the code's own order |
| Witnesses.RunningBeforeWriteInProgress | app/seeding/service.py:771-784 | for test and for production: a run the code can produce in which a create job is RUNNING while its project is still in its authorised state |
| ArtifactRows.PutStoresExactly | app/seeding/store.py:370-406 | for the rest of any run, a put's content is what is stored under its key exactly if nothing was stored there before, or the same content was; otherwise the earlier artifact stays |
| ArtifactRows.StoredStays | app/seeding/store.py:370-406 | the first artifact of a project, kind and input is never replaced |
| ArtifactRows.KeysAreUnique | app/seeding/migrations/001_initial.sql:31-40 | no two artifacts share project, kind and input, in any reachable state |
| Witnesses.SecondReadbackIsDropped | app/seeding/store.py:370-406 | a run the code can produce in which a resumed production create succeeds with a fully verified batch while the readback stored for it is still the failed run's, so that no campaign of the project can be granted for release |
| Witnesses.UnclearCreateIsSentAgain | app/seeding/store.py:1270-1287 | a run the code can produce in which a create that may have happened, its relock broken, is stored FAILED, resumed and claimed again with the same order |
| PlanRevisions.ActiveIsHead | app/seeding/store.py:453-505 | the ACTIVE row of a plan and stage is exactly the end of its supersedes-chain |
| PlanRevisions.ReplaceAppends | app/seeding/store.py:453-505 | retiring the ACTIVE row and inserting the new one keeps every chain a chain, with one ACTIVE head |
| PlanRevisions.BatchExtendsChains | app/seeding/store.py:453-505 | a batch extends each chain by its own plans in order and leaves all others alone |
| PlanRevisions.ActiveAfterBatch | app/seeding/store.py:453-505 | after a batch, a mentioned plan's active revision is the last one listed for it; the others are unchanged |
| PlanRevisions.PlanStore.ReplaceOne | app/seeding/store.py:459-503 | appends one revision to its chain, unless its id is taken |
| PlanRevisions.PlanStore.ReplaceActive | app/seeding/store.py:442-505 | the whole batch, with the logical plans it mentions, or, when an id collides, nothing |
| PlanRevisions.ListedAreHeads | app/seeding/store.py:507-523 | list_active_plans returns exactly the ends of the histories of the project's plans, with their own logical plan and payload |
| PlanRevisions.PlanStore.ListActive | app/seeding/store.py:507-523 | the ids listed, each once |
| Readback.ExtractionIsExact | app/seeding/execution.py:470-504 | a response yields these ids exactly when it is the one campaign, one unit and creatives naming them, all positive; every such response is accepted |
| Readback.VerdictIsExact | app/seeding/execution.py:506-654 | the diff is empty exactly when every compared field, count and pause flag agrees, keywords as a multiset of comparable rows and crowds as a set |
| Readback.RowOrderIsIrrelevant | app/seeding/execution.py:661-703 | permuting keyword rows, absent fields included, or permuting or repeating crowd packages, changes no part of the diff, nor whether the comparison raises |
| Readback.CreativeRowOrderIsIrrelevant | app/seeding/execution.py:604-625 | permuting the creative rows of a readback changes no part of the diff as long as their ids differ |
| ReadbackOutcomes.DiffIsExact | app/seeding/execution.py:530-654 | each difference is in the diff exactly when the rows it is about differ, field by field; creatives are looked up by their last row |
| ReadbackOutcomes.RaisesExactly | app/seeding/execution.py:506-703 | the comparison raises exactly when two keyword rows cannot be compared, a creative id is no number, or a creative beyond the expected ones is listed |
| Readback.Compare | app/seeding/execution.py:506-654 | builds that diff check by check, raises exactly when keyword rows cannot be sorted, an id is not a number or a created id has no expected creative, and reports the pause flag |
| Readback.CompareTarget | app/seeding/execution.py:661-685 | appends exactly the targeting differences, in order |
| Readback.CompareCreatives | app/seeding/execution.py:604-625 | appends the creative differences in created order, or raises |
| Execution.TestExecutionEngine.Execute | app/seeding/execution.py:89-228 | the complete trace and outcome of a run, against any platform, have the execute shape; an empty batch or a refused preflight calls nothing further |
| Execution.TestExecutionEngine.RunLoop | app/seeding/execution.py:102-210 | the loop stops at the first damaged plan, the first attempt that is not verified, or the end |
| Execution.TestExecutionEngine.AttemptPlan | app/seeding/execution.py:110-210 | one turn makes exactly its calls, and says verified exactly when created, paused and read back clean |
| Execution.TestExecutionEngine.ReadBack | app/seeding/execution.py:506-654 | three queries, then a clean verdict exactly when all three answered and agree |
| Execution.TestExecutionEngine.CloseLock | app/seeding/execution.py:212-228 | one relock attempt; locked exactly when it and its verification both answered well |
| Execution.CreatesArePrefixThenRelock | app/seeding/execution.py:97-228 | creates are a prefix of the plans in order; a returning run relocks exactly once, after everything else |
| Execution.EarlierPlansVerifiedFirst | app/seeding/execution.py:102-210 | every call of an earlier plan, ending in a clean readback after an acknowledged pause, lies before any later create |
| Execution.NeverEnables | app/seeding/execution.py:89-228 | no run ever switches a campaign on |
| Execution.RelockSkippedExactlyOnMismatch | app/seeding/execution.py:102-109 | a run raises, without relocking, exactly when it reaches a plan whose hash no longer matches; with intact plans it always returns |
| Execution.RelockCanBeSkippedExactly | app/seeding/execution.py:102-109 | some platform makes execute create something and raise with no relock exactly when, before the call, a damaged plan stands behind at least one intact plan and all plans before it are intact and can be confirmed |
| Execution.EchoIsVerified | app/seeding/execution.py:110-210 | every plan with a creative and comparable keyword rows is verified by the platform that creates what it is asked to and reads it back faithfully |
| Execution.VerifiedPausedIsExact | app/seeding/execution.py:89-228 | VERIFIED_PAUSED holds exactly when every plan is verified and the lock is verified, and exactly then the receipt is what a success must store |
| ExecuteOutcomes.ExecuteStatusIsExact | app/seeding/execution.py:97-228 | every status of a returning run is exact in its calls: RELOCK_FAILED says the lock was not confirmed, and any other how the turn of the last create went: RECONCILE_REQUIRED a transport error or an unclear answer, FAILED_TERMINAL any other refusal, PAUSE_FAILED an unacknowledged pause, READBACK_MISMATCH a refused query or a difference, RECOVERY_REQUIRED something broken |
| ExecuteOutcomes.CreatesAreSettled | app/seeding/execution.py:102-210 | in every run each create sends the hashed payload of a plan, is followed at once by the pause of exactly the created campaign and then by the queries for exactly the created objects, and is verified before the next create |
| ExecuteOutcomes.ReceiptsAreTold | app/seeding/execution.py:110-210 | the receipt of the k-th create names the k-th plan and the created objects, with exactly the differences read or the one error that ended the turn |
| ExecuteOutcomes.RepliesAreExact | app/seeding/execution.py:470-504 | a create response is usable, unreadable or unclear exactly by its ids |
| Reconciliation.Reconciler.Reconcile | app/seeding/execution.py:230-468 | the complete trace and outcome of a reconcile have the reconcile shape |
| Reconciliation.Reconciler.ReconcilePlan | app/seeding/execution.py:245-446 | one turn is settled exactly when the campaign is absent, or uniquely found, paused and clean |
| Reconciliation.Reconciler.ReconcileFound | app/seeding/execution.py:315-348 | the turn once exactly one campaign is known |
| Reconciliation.Reconciler.ReconcileUnit | app/seeding/execution.py:345-391 | the turn once exactly one unit of that campaign is known: its creatives must be found completely |
| Reconciliation.Reconciler.CloseFound | app/seeding/execution.py:392-446 | pause exactly the found campaign, then read back exactly the found objects |
| Reconciliation.NeverCreates | app/seeding/execution.py:230-468 | no reconcile creates or enables anything; one that returns relocks exactly once |
| Reconciliation.ReconcileStatusIsExact | app/seeding/execution.py:230-468 | both success statuses hold exactly under their conditions, and exactly then the receipt is what a success must store |
| Reconciliation.ReconcileAlwaysRelocks | app/seeding/execution.py:245-251 | only a hash mismatch escapes the relock |
| Reconciliation.CreativeOrderIsIrrelevantExactly | app/seeding/execution.py:375-391 | given one order of the discovered creatives that is found clean, every order is exactly if the plan's creatives all carry the same note and conversion |
| ReconcileOutcomes.FindingIsUnique | app/seeding/execution.py:289-391 | absent means that no listed row carries the name, unclear that two do or the one that does has no positive id, found that exactly one campaign row and one unit row do, and that the noted creative rows, in row order, have exactly the ids taken |
| ReconcileOutcomes.ReconcileStatusSays | app/seeding/execution.py:240-468 | every status of a returning reconcile is exact in its calls and the listed rows: the success statuses by whether any discovery listed its campaign, the others by how the last turn ended |
| ReconcileOutcomes.DiscoveriesAreSettled | app/seeding/execution.py:245-446 | in every run the k-th discovery is for the k-th plan, whose payload is the hashed one; each call of its turn leads to the next, by exactly the ids found, and the turn is settled before the next discovery |
| ReconcileOutcomes.FindingsAreTold | app/seeding/execution.py:257-446 | the receipt of each discovery says what was found and read, or the one error that ended its turn |
| Release.ProductionReleaseEngine.Activate | app/seeding/release.py:103-182 | the complete trace and outcome of an activation under its terms, guards included: the cap, its period and the monitor appear in the calls |
| Release.ProductionReleaseEngine.TryEnable | app/seeding/release.py:136-176 | active exactly when the enable was acknowledged for exactly the ids and every one reads enabled |
| Release.ProductionReleaseEngine.ConfirmEnabled | app/seeding/release.py:148-157 | the last listed row of every campaign must read enabled; a non-numeric id raises |
| Release.ProductionReleaseEngine.PauseAndRelock | app/seeding/release.py:218-239 | pause and relock of exactly the ids are both attempted; safe exactly when the pause named exactly the ids and the receipt of that relock verified |
| Release.ProductionReleaseEngine.EvaluateSpend | app/seeding/release.py:184-216 | the complete trace and outcome of an evaluation |
| Release.LookupIsLastRow | app/seeding/release.py:151-157 | the dict of listed rows answers with the last row of each id |
| Release.EnableOnlyBehindArmedCap | app/seeding/release.py:116-141 | an enable is sent at most once, for exactly the ids, directly after a preflight passed for exactly this cap and monitor, exactly this cap armed for them, and its verification |
| Release.EnabledRunsEndActiveOrPaused | app/seeding/release.py:135-182 | after an enable the run returns; ACTIVE, FAILED_SAFE and EMERGENCY are exact in terms of the calls and replies: exactly the ids paused and relocked, and the receipt of that very relock verified |
| Release.ActiveMeansReadEnabled | app/seeding/release.py:148-176 | an ACTIVE receipt means the last listed row of every campaign is enabled |
| Release.SpendVerdictIsExact | app/seeding/release.py:184-216 | evaluation never enables, pauses exactly above the cap, and reports PAUSED exactly when pause and lock were confirmed |
| ReleaseOutcomes.ActivationIsTold | app/seeding/release.py:103-182 | every outcome of an activation is exact in its calls: which guard stopped it, or that exactly the campaigns were enabled behind exactly the armed cap and then all read enabled, or were paused and relocked, with the code that says why |
| ReleaseOutcomes.EvaluationIsTold | app/seeding/release.py:184-216 | every outcome of an evaluation is exact: the spend of these campaigns over the cap period, paused and relocked exactly above the cap |
| ReleaseOutcomes.RecoveryIsTold | app/seeding/release.py:218-239 | a recovery pauses and relocks exactly the campaigns, and is safe exactly if both were confirmed |
| ReleaseOutcomes.CleanIsNotEnabled | app/seeding/execution.py:626-652 | a campaign that a release would read as enabled is never part of a clean readback, nor is a unit or creative that is not off |
| Dispatch.SuccessIsEarnedExactly | app/seeding/service.py:215-273 | the dispatch completes a batch or release job exactly when its result is the success the kind promises |
| Dispatch.ExternalIsNotRetried | app/seeding/service.py:215-297 | no handler outcome asks for a retry |
| Dispatch.CreateTargetsFitOnlyInProgress | app/seeding/service.py:804-819 | the outcomes of a create job can all be recorded exactly when the project is still in WRITE_IN_PROGRESS |
| Dispatch.ReconcileTargetRefusedExactlyForProduction | app/seeding/service.py:979-998 | from RECONCILE_REQUIRED every reconcile outcome can be recorded except a verified production batch |
| Dispatch.ReconcileTargetsFitExactly | app/seeding/service.py:979-998 | every reconcile outcome can be recorded exactly when the project is in WRITE_IN_PROGRESS, or in RECONCILE_REQUIRED with a test batch |
| Witnesses.VerifiedReconcileIsRefused | app/seeding/service.py:979-998 | a run the code can produce in which a production reconcile is fully verified, the move it asks for is refused, and the job ends needing reconciliation again |
| Dispatch.WaitingReleaseEnteredFrom | app/seeding/state.py:85-155 | WAITING_RELEASE_AUTHORIZATION can be entered from exactly WRITE_IN_PROGRESS and READBACK_VERIFIED |
| Dispatch.CreatesAreAuthorised | app/seeding/service.py:674-820 | in any run of the system, creates reach the platform only for a job whose own consumed grant lists exactly its plans, revision by revision and hash by hash; they go out in order with the payloads hashed, followed by exactly one relock |
| Dispatch.EnablesAreReadBackAndCapped | app/seeding/service.py:1269-1444 | in any run of the system, campaigns are enabled only for a RELEASE job whose own consumed grant has exactly its terms; they are exactly the granted campaigns, all in one stored production readback, directly after exactly the granted cap was armed for them and verified |
| JobOutcomes.CreateEndsExactly | app/seeding/service.py:804-820 | how a create job ends and which state its project enters, by the calls: the success state exactly if every plan and the lock are verified, RELOCK_FAILED exactly if the lock is not, RECONCILE_REQUIRED, for job and project alike, exactly if the last create may have happened, the emergency and mismatch states exactly by its pause and readback |
| JobOutcomes.ReconcileEndsExactly | app/seeding/service.py:979-998 | how a reconcile job ends and which state its project enters, if any, by the calls and the listed rows |
| JobOutcomes.OthersEndExactly | app/seeding/service.py:215-273 | a release is completed exactly if every campaign reads enabled, an evaluation fails exactly if the cap is exceeded and the pause or lock unconfirmed, a recovery is completed exactly if both were confirmed |
| Service.SeedingService.ProcessNextJob | app/seeding/service.py:191-335 | one turn claims, makes only the calls of that job's engine run, finishes the job in the status its result demands, or reports an external job for reconciliation; every transaction keeps the system run |
| Service.SeedingService.Handle | app/seeding/service.py:195-214 | every kind reaches its own handler |
| Service.SeedingService.ProcessCreate | app/seeding/service.py:787-820 | a result means the engine returned it, production offered it as a readback, and the project entered its target state, which JobOutcomes.CreateEndsExactly reads off the calls |
| Service.SeedingService.ProcessReconcile | app/seeding/service.py:942-998 | the same for a reconcile, with its own targets |
| Service.SeedingService.ProcessRelease | app/seeding/service.py:1428-1458 | a result means the activation receipt was offered as an artifact, and an ACTIVE one that delivery entered FEED_LEARNING |
| Service.SeedingService.ProcessReleaseEvaluation | app/seeding/service.py:1513-1549 | the evaluation was offered as an artifact, and an exceeded cap closes delivery as far as the pause was confirmed |
| Service.SeedingService.ProcessReleaseRecovery | app/seeding/service.py:1551-1613 | the recovery was offered as an artifact, and winds delivery down from the state that was read |
| Service.OfferedIsStoredExactly | app/seeding/store.py:370-406 | what a handler offered is what any later reader finds exactly if nothing, or the same content, was stored for the job and kind before; otherwise the earlier artifact stays |
| Service.SeedingService.WindDown | app/seeding/service.py:1577-1612 | open surfaces close or start closing, an unopened one closes only when safe |
| Service.SeedingService.Report | app/seeding/service.py:215-273 | finishes in the demanded status, after an alert when a release or recovery failed |
| Service.SeedingService.FinishAs | app/seeding/store.py:1157-1184 | a success is only written when it was earned by that very job |
| Service.SeedingService.Unwind | app/seeding/service.py:274-335 | an exception on an external job asks for reconciliation, never for a retry |
| Service.TurnCreatesAreAuthorised | app/seeding/service.py:191-214 | end to end for one worker turn: whatever it created, its claimed job's own consumed grant listed exactly those plans, and the account was relocked once |
| Service.TurnEnablesAreReadBack | app/seeding/service.py:191-214 | end to end for one worker turn: whatever it enabled is exactly the campaigns its claimed RELEASE job's own consumed grant named, a stored readback names them, and exactly the granted cap was armed just before |
| Service.VerifiedReconcileCameFrom | app/seeding/service.py:977-998 | a recorded verified production reconcile came from WRITE_IN_PROGRESS or READBACK_VERIFIED |
| TurnOutcomes.TurnEndsExactly | app/seeding/service.py:191-273 | end to end for one worker turn that hands back a batch: its job is stored in the status, and its project entered the state, that the calls of its run demand |
| TurnOutcomes.UnclearCreateIsFinalExactly | app/seeding/execution.py:212-222 | a create that may have happened ends its job in RECONCILE_REQUIRED, never to be claimed again, exactly if the lock was verified; otherwise in FAILED, which can be resumed and claimed at once |
| Service.ArtifactsPersist | app/seeding/store.py:370-406 | stored artifacts stay, in order, for the rest of any run |
| Requests.RequestHandler.EnqueueCreate | app/seeding/service.py:674-785 | an enqueued create lists the granted revisions in order, each active in the plan table as it was read, with the granted payload, under its own consumed grant; a new one needed the authorised state and ends in WRITE_IN_PROGRESS |
| Requests.RequestHandler.Begin | app/seeding/service.py:1166-1196 | find, check state, consume, then move, as separate transactions |
| Requests.RequestHandler.Consume | app/seeding/store.py:632-725 | the consumed grant is still the one that was read, in project, type, scope and expiry, and the job, new or found, is the one it was consumed for and covers |
| Requests.RequestHandler.IssueReleaseGrant | app/seeding/service.py:1236-1373 | an issued release grant has exactly the requested row: account, campaigns, cap, monitor, window and nonce; it names exactly the plans active in the plan table as it was read, ascending, with their objects in a readback that was the latest at a moment during the call |
| Requests.RequestHandler.CheckObjects | app/seeding/service.py:1280-1345 | accepts exactly the request that names the active plans ascending, their objects in the readback, and those objects' campaigns |
| Requests.RequestHandler.EnqueueRelease | app/seeding/service.py:1375-1426 | a release is enqueued inside its window, under exactly the granted terms and its own consumed grant |
| Requests.RequestHandler.EnqueueReleaseEvaluation | app/seeding/service.py:1460-1511 | an evaluation is enqueued only for an active delivery, for exactly the granted campaigns and cap |
| Requests.RequestHandler.EnqueueReconcile | app/seeding/service.py:822-940 | only an indeterminate external job is taken up: a batch with its original order, a release as a recovery of exactly the account and campaigns its grant names |
| Requests.ResolvePlans | app/seeding/service.py:1659-1686 | resolves exactly when every granted revision is still active with the granted hash |
| Requests.MatchingPlansAreIntact | app/seeding/service.py:1671-1678 | resolved plans carry the payload their hash was taken from |
| Requests.MatchingPlansAreCovered | app/seeding/service.py:1659-1686 | resolved plans are exactly what the grant's scope covers |
| Requests.MatchingPlansAreCurrent | app/seeding/service.py:1659-1686 | each resolved plan belongs to the project and is the current end of one history of its logical plan |
| Requests.LatestReadback | app/seeding/store.py:421-440 | the last artifact by creation time and then artifact id, or none exists |
| Requests.ExpectedAreReadBack | app/seeding/service.py:1289-1324 | the campaigns a release grant is compared with all come out of the stored receipt |
| Requests.GrantPersists | app/seeding/store.py:597-704 | scope, type, project and expiry of a grant never change |
| RequestOutcomes.MatchIsExact | app/seeding/service.py:1280-1345 | a release request matches a readback exactly if it lists the active plans ascending, each with the objects its last receipt names, and those objects' campaigns |
| RequestOutcomes.PlansAreGranted | app/seeding/service.py:1659-1686 | the plans of an enqueued create are, one by one, the granted revisions, active with exactly the payload whose digest was granted |
| UnionFind.UnionFind.Find | app/seeding/decision.py:240-244 | returns the class's root; compression changes parents and no root, and terminates because parents are smaller |
| UnionFind.UnionFind.Union | app/seeding/decision.py:246-250 | afterwards roots are equal exactly for nodes the pairs so far connect |
| UnionFind.RootIsLeast | app/seeding/decision.py:236-250 | the root is connected to its node and is the smallest id of the component |
| UnionFind.RootsUnique | app/seeding/decision.py:240-244 | a parent table determines its roots |
| UnionFind.RootsAgree | app/seeding/decision.py:301-323 | order, repetition and orientation of the pairs do not change any root |
| Keywords.OutcomeIsUnique | app/seeding/decision.py:253-396 | for one set of keywords and one set of evidence there is exactly one correct outcome |
| Keywords.QueuedKeywordsDiffer | app/seeding/decision.py:285-366 | no two queued keywords share a normalized text or a semantic component |
| Keywords.ComponentsStayInLane | app/seeding/decision.py:318-322 | a semantic component never crosses lanes |
| Keywords.OfferedWithinLimit | app/seeding/decision.py:339-379 | a lane offers at most the limit, exactly the queued places whose bid is not missing |
| Keywords.IneligibleHasReason | app/seeding/decision.py:381-396 | every ineligible keyword carries a reason |
| Keywords.QueueUnique | app/seeding/decision.py:340-349 | a lane's heat-ordered queue is determined by its candidates |
| Keywords.NoLaneRefuses | app/seeding/decision.py:352-379 | whether a bid is refused does not depend on how the queues were found |
| Keywords.ProperBidsAreNotRefused | app/seeding/algorithms.py:214-273 | with a verified mode, valid bounds and non-negative bids nothing is refused |
| KeywordOutcomes.DecisionsAreExact | app/seeding/decision.py:269-396 | each decision says exactly why a keyword is not queued (too cold, its text or its meaning taken by a better one), or that it is beyond the limit of its lane, or what the bids of its lane give; lanes, heats, ids and similarities are compared directly |
| KeywordOutcomes.KeptAreHotter | app/seeding/decision.py:340-379 | nothing left out for the limit is as hot as anything kept in its lane |
| KeywordOutcomes.OfferedAreHottest | app/seeding/decision.py:340-379 | a lane offers at most its limit, hottest first |
| KeywordOutcomes.RisksAreExact | app/seeding/decision.py:297-327 | the risks say exactly whether evidence crosses lanes and whether evidence is missing |
| KeywordOutcomes.RefusalIsExact | app/seeding/decision.py:365-374 | a refused bid is one of a place within its lane's limit, with the error that its bid and the lane's bids give |
| KeywordEvaluation.EvaluateKeywords | app/seeding/decision.py:253-396 | refuses exactly on an unnormalized keyword, else a foreign evidence model, else a place whose bid computation refuses, and reports the first such keyword, the first such model, or that place's error; otherwise computes the correct outcome |
| KeywordEvaluation.OrderIsIrrelevant | app/seeding/decision.py:253-396 | permuting keywords, and permuting or repeating evidence, does not change the outcome |
| KeywordEvaluation.RefusalIgnoresOrder | app/seeding/decision.py:253-396 | nor whether the evaluation refuses, or for which cause |
| KeywordEvaluation.CheckAndHeat | app/seeding/decision.py:269-278 | finds the first unnormalized keyword if there is one, and notes those below the heat threshold |
| KeywordEvaluation.DedupeTexts | app/seeding/decision.py:285-295 | one representative per text, the preferred one, and everyone else marked |
| KeywordEvaluation.JoinEvidence | app/seeding/decision.py:297-327 | unions exactly the evidence that joins two representatives of one lane, or finds the first row of another model |
| KeywordEvaluation.DedupeMeanings | app/seeding/decision.py:329-340 | one survivor per component, the preferred one, and everyone else marked |
| KeywordEvaluation.PickWinners | app/seeding/decision.py:285-295 | the winners are the best of their groups and exactly the others get the reason |
| KeywordEvaluation.Winner | app/seeding/decision.py:290-290 | min by lane priority, heat and id |
| KeywordEvaluation.JudgeLane | app/seeding/decision.py:352-379 | judges each place of a lane, stopping exactly at a place whose bid is refused, and touches nobody else's reasons |
| KeywordEvaluation.PlanLanes | app/seeding/decision.py:341-379 | unless some lane refuses, every keyword ends with exactly its final reasons and bid |
| KeywordEvaluation.Decide | app/seeding/decision.py:381-391 | the decisions, in id order |
| Audiences.EvaluateAudiences | app/seeding/decision.py:82-233 | refuses exactly when a pair has two receipts or, under a hard policy, some candidate gets stuck before it is decided, naming the first such pair; otherwise each mode's selection is the characteristic one |
| Audiences.FilterMode | app/seeding/decision.py:173-211 | chosen audiences are pairwise below the threshold and each rejected one overlaps a better-ranked chosen one; refuses exactly when some candidate meets an unusable receipt before a proven clash, naming the first |
| Audiences.SelectionIsUnique | app/seeding/decision.py:173-211 | those two properties determine the selection |
| Audiences.SelectionIsDetermined | app/seeding/decision.py:145-211 | the selection depends only on the set of audiences and the receipts up to order and orientation |
| Audiences.RefusalIsUnique | app/seeding/decision.py:173-211 | the ranking and the receipts determine the refused pair and its error |
| Audiences.RefusalIsDetermined | app/seeding/decision.py:145-211 | whether the filter refuses, and with which error, depends only on the set of audiences and the receipts up to order and orientation |
| Audiences.ProvenIsNeverRefused | app/seeding/decision.py:173-211 | with a usable receipt for every pair nothing is refused |
| Audiences.JudgementIsSymmetric | app/seeding/algorithms.py:156-168 | the overlap verdict does not depend on which audience comes first |
| Audiences.JudgePair | app/seeding/decision.py:182-206 | three-way verdict: apart, clashing, or unproven with its error |
| Audiences.IndexEvidence | app/seeding/decision.py:155-164 | refuses exactly two receipts for one pair, naming one that has two, and otherwise holds exactly what they say |
| Audiences.EvidenceOrderIsIrrelevant | app/seeding/decision.py:155-164 | order and orientation of receipts do not change the dict |
| Audiences.RankingUnique | app/seeding/decision.py:145-152 | a mode's ranking is determined by its eligible audiences and scores |
| AudienceOutcomes.SelectionIsExact | app/seeding/decision.py:94-211 | only ready audiences within bounds are selected; under a hard policy any two selected have a usable receipt below the threshold, and each one left out has one at or above it with somebody selected ahead of it |
| AudienceOutcomes.RefusalIsExact | app/seeding/decision.py:173-211 | a refusal names two audiences that may be selected, the chosen one ahead, whose receipt is missing or makes no sense |
| AudienceOutcomes.DuplicatesAreExact | app/seeding/decision.py:155-164 | receipts are refused exactly when two concern the same two audiences |
| Quantiles.QuantileMonotone | app/seeding/algorithms.py:18-33 | the quantile never falls as the probability rises |
| Quantiles.QuantileOfMultiset | app/seeding/algorithms.py:18-33 | the quantile depends on the values only as a multiset |
| Quantiles.QuantileWithinExtremes | app/seeding/algorithms.py:18-33 | every quantile lies between the least and the greatest value, which are the quantiles at 0 and 1 |
| Quantiles.MedianIsQuantile | app/seeding/algorithms.py:229-235 | the statistical median is the quantile at one half |
| Quantiles.QuantileAtKnot | app/seeding/algorithms.py:18-33 | the quantile at k / (n - 1) is the k-th smallest value |
| Quantiles.QuantileInterpolates | app/seeding/algorithms.py:18-33 | between two neighbouring knots it runs along a straight line from one value to the next |
| Quantiles.QuantileIsAffine | app/seeding/algorithms.py:18-33 | on each segment between neighbouring knots it is affine in the probability |
| Quantiles.WinsorizeClamps | app/seeding/algorithms.py:36-41 | winsorizing clamps into the quantile range, changes only what is outside it, and keeps order |
| Quantiles.BaselineNeverRaisesBid | app/seeding/algorithms.py:229-248 | the baseline never exceeds the input bid |
| Quantiles.StepDownIsLargest | app/seeding/algorithms.py:249-251 | the stepped candidate is the largest multiple of the step not above 70% of the baseline |
| Quantiles.CandidateIsBounded | app/seeding/algorithms.py:246-251 | the candidate is within the platform bounds and at most 70% of the baseline unless the lower bound is higher |
| Quantiles.BidIsExact | app/seeding/algorithms.py:214-273 | the evidence, number by number: the fence by the quartiles or the median deviation, the nearest-integer baseline, 70% of it, the last step not above that within the bounds, what is sent in each mode, and the reasons; and each error exactly under its condition |
| Quantiles.ComputeBid | app/seeding/algorithms.py:214-273 | the imperative bid equals the specified one, errors and reasons included, and says what BidIsExact says |
| Capacity.NestedFloorIsExact | app/seeding/algorithms.py:305-308 | k audiences per note are affordable exactly when k is at most the nested floor |
| Capacity.SelectionIsMaximal | app/seeding/algorithms.py:286-318 | the selected number is the largest within budget, eligibility and business cap |
| Capacity.BudgetIsConserved | app/seeding/algorithms.py:305-318 | commitment plus unallocated is the budget, both non-negative; waiting exactly when one audience per note is unaffordable |
| Capacity.CapacityIsLargest | app/seeding/algorithms.py:286-318 | a number of audiences per note is at most the selected one exactly when budget, eligibility and cap all admit it |
| CapacityOutcomes.CapacityIsExact | app/seeding/algorithms.py:286-318 | each field of the capacity without a division, which exists exactly for positive inputs |
| Capacity.EligiblePairs | app/seeding/service.py:2059-2074 | keeps exactly the acceptable pairs |
| Capacity.EligiblePairsInOrder | app/seeding/service.py:2059-2074 | the kept rows are the acceptable pairs place by place, in their original order and multiplicity |
| Capacity.PoorestCoverage | app/seeding/service.py:1811-1814 | the least number of distinct audiences over the notes, attained |
| Capacity.PickForNote | app/seeding/service.py:2105-2116 | a note's picks are its top-scoring distinct audiences |
| CapacityOutcomes.NothingBetterLeftOut | app/seeding/service.py:2105-2116 | a pair is left out only for as many audiences as are wanted, each scored higher or equal with a smaller id; the picks come in that order, no audience twice |
| CapacityOutcomes.PlansMayPlan | app/seeding/service.py:2059-2074 | every plan is one of the candidate pairs, of a wanted note and audience, scored high enough and not under review |
| CapacityOutcomes.PlansAreOrdered | app/seeding/service.py:2099-2116 | the plans come note by note in id order, and within a note by score and then id |
| Capacity.SelectPairs | app/seeding/service.py:2099-2116 | the matrix is, note by note in id order, each note's top picks |
| Capacity.MatrixFitsBudget | app/seeding/service.py:1811-1852 | exactly notes times selected plans, whose cost plus what is unallocated is the phase budget |
| Capacity.Prepare | app/seeding/service.py:1798-1852 | end to end, each outcome exactly under its condition: insufficient coverage, invalid inputs, waiting budget, or a matrix whose capacity is the one computed from the least coverage, as large as budget, coverage and cap admit, and whose plans cost the phase budget less what is left over |

## Left out

- Role checks, project membership, the HTTP API, header authentication, console and webhook sink: plumbing and one-branch lookups.
- Outbox delivery leases, metrics, audit queries and listing queries: they read, or lease rows no other part uses.
- The platform client's transport and response validation: replaced by an adversary that returns typed values, refuses or breaks.
- SHA-256, HMAC signatures, canonical JSON and uuid generation: hashes are injective, ids fresh, and signature and staleness checks are boolean parameters.
- Row fields that no decision reads (heartbeat and update timestamps, last_error, config revisions), and the execution_attempts and platform_objects rows.
- Issuing execution and paused-create grants: their checks constrain the issuer, and consumption re-checks everything the theorems need.
- Calls that other workers make to the platform while one engine run is under way: each trace is the calls of one run.
- The plan table, notes and hashes behind the grants of `CodeRuns`: they live in other tables than the runs show.
- PlanRevisions.PlanStore.ListActive: not the order by channel, note and asset, because every caller sorts or indexes by id.
- Batches loaded into the plan table after a request has read it: the job or grant then carries what was read.
- The advertiser id that every platform call carries: the calls of one job all go to the one account of its order or terms, so traces omit it.
- Keyword heat thresholds, keyword normalization, z-scores and audience scoring: a threshold, a normalizer and scores are parameters; the five-snapshot minimum is kept.
- Audience reason codes and scores in the decisions, and SEARCH keyword-lane pairs: they report, or are not part of the Feed budget.
- IEEE rounding: quantiles, bids and overlap ratios are over the reals.
- Service.SeedingService.ProcessPlanning: PREPARE and SYNC_JUGUANG jobs are any transactions followed by success or failure, because their planning content is modelled in the decision modules.
- Service.SeedingService.FlagProject: promises nothing beyond a proper history, because its failures are swallowed.
- JSON values of mixed types in one compared field: a field is absent or a number, so only an absent field makes the sort of keyword rows raise.
- KeywordEvaluation.EvaluateKeywords: requires distinct keyword ids, as the request contract validates them (contracts.py:851).
- Audiences.EvaluateAudiences: requires distinct audience ids, for the same reason.
- The check on the number of candidate pairs: a constant guard before the matrix.
