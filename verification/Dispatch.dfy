/** What the worker's dispatch does with a claimed job: which engine runs, which status the job is
    finished with, and which state the project is asked to enter. The theorems compose the engines with
    the store: what a claimed job may do to the platform, in any run of the whole system. */
module Dispatch {
  import opened Common
  import opened Payloads
  import opened State
  import opened Platform
  import opened Traces
  import opened Database
  import opened SystemRuns
  import E = Execution
  import R = Reconciliation
  import L = Release

  // ----- statuses -----

  /** The status the worker finishes the job with, given its handler's result. */
  function FinalStatus(kind: JobKind, result: JobResult): JobStatus {
    match result
    case BatchResult(b) =>
      if !Batch(kind) then Succeeded
      else if b.status == BatchReconcileRequired then NeedsReconcile
      else if b.status in {VerifiedPaused, ReconciledVerifiedPaused, ReconciledNotCreated} then Succeeded
      else Failed
    case ReleaseResult(r) => if r.status == ReleaseActive then Succeeded else Failed
    case SpendResult(s) => if s.status == CapExceededRelockFailed then Failed else Succeeded
    case RecoveryResult(safe, _) => if safe then Succeeded else Failed
    case ArtifactResult => Succeeded
    case WorkerException => NeedsReconcile
  }

  /** The project state after EXECUTE_TEST and PRODUCTION_CREATE: the two tables differ in one entry. */
  function CreateTarget(production: bool, status: BatchStatus): ExecutionState {
    match status
    case VerifiedPaused => if production then WaitingReleaseAuthorization else ReadbackVerified
    case BatchReconcileRequired => ExecutionState.ReconcileRequired
    case BatchPauseFailed => PauseFailedEmergency
    case BatchReadbackMismatch => ReadbackMismatch
    case BatchRelockFailed => RelockFailed
    case BatchFailedTerminal => RecoveryRequired
    case _ => RecoveryRequired
  }

  /** The project state after RECONCILE; some statuses move nothing. */
  function ReconcileTarget(production: bool, status: BatchStatus): Option<ExecutionState> {
    match status
    case ReconciledVerifiedPaused => Some(if production then WaitingReleaseAuthorization else ReadbackVerified)
    case ReconciledNotCreated => Some(RecoveryRequired)
    case BatchPauseFailed => Some(RecoveryRequired)
    case BatchReadbackMismatch => Some(RecoveryRequired)
    case BatchRelockFailed => Some(RelockFailed)
    case BatchRecoveryRequired => Some(RecoveryRequired)
    case _ => None
  }

  /** A create job whose project is still where its enqueue left it can always record its outcome; from
      any other state, what the outcomes need in common is refused. */
  lemma CreateTargetsFitOnlyInProgress(state: ExecutionState)
    ensures (forall production, status :: CreateTarget(production, status) in ExecutionTransitions(state))
            <==> state == WriteInProgress
  {
    assert CreateTarget(true, VerifiedPaused) == WaitingReleaseAuthorization;
    assert CreateTarget(false, BatchPauseFailed) == PauseFailedEmergency;
    assert state == WriteInProgress
      <==> WaitingReleaseAuthorization in ExecutionTransitions(state)
           && PauseFailedEmergency in ExecutionTransitions(state);
  }

  /** In which project states every outcome of a reconcile can be recorded. Reconciles are only enqueued in
      RECONCILE_REQUIRED, so for a production batch, before the call, the answer there is no. */
  lemma ReconcileTargetsFitExactly(state: ExecutionState, production: bool)
    ensures (forall status :: ReconcileTarget(production, status).Some? ==>
               ReconcileTarget(production, status).value in ExecutionTransitions(state))
            <==> state == WriteInProgress || (!production && state == ExecutionState.ReconcileRequired)
  {
    assert ReconcileTarget(production, ReconciledVerifiedPaused)
        == Some(if production then WaitingReleaseAuthorization else ReadbackVerified);
    assert ReconcileTarget(production, ReconciledNotCreated) == Some(RecoveryRequired);
    assert ReconcileTarget(production, BatchRelockFailed) == Some(RelockFailed);
    assert state == WriteInProgress || (!production && state == ExecutionState.ReconcileRequired)
      <==> (if production then WaitingReleaseAuthorization else ReadbackVerified) in ExecutionTransitions(state)
           && RecoveryRequired in ExecutionTransitions(state) && RelockFailed in ExecutionTransitions(state);
  }

  /** From RECONCILE_REQUIRED, where reconcile jobs are enqueued, every reconcile outcome can be recorded
      except one: a production batch found paused. */
  lemma ReconcileTargetRefusedExactlyForProduction(production: bool, status: BatchStatus)
    ensures ReconcileTarget(production, status).Some?
            && ReconcileTarget(production, status).value !in ExecutionTransitions(ExecutionState.ReconcileRequired)
            <==> production && status == ReconciledVerifiedPaused
  {
    match status
    case ReconciledVerifiedPaused =>
    case _ =>
  }

  /** A verified production batch can be recorded in exactly these two states, and
      RECONCILE_REQUIRED is not one of them. */
  lemma WaitingReleaseEnteredFrom(state: ExecutionState)
    ensures ReconcileTarget(true, ReconciledVerifiedPaused) == Some(CreateTarget(true, VerifiedPaused))
    ensures CreateTarget(true, VerifiedPaused) in ExecutionTransitions(state)
            <==> state == WriteInProgress || state == ReadbackVerified
  {
    match state
    case WriteInProgress =>
    case ReadbackVerified =>
    case _ =>
  }

  // ----- what the engines did for one job -----

  datatype JobRun =
    | Silent
    | PreflightStopped
    | ExecuteRun(attempts: seq<E.Attempt>, lock: Option<E.LockRun>, batch: BatchReceipt)
    | ReconcileRun(findings: seq<R.Finding>, lock: Option<E.LockRun>, batch: BatchReceipt)
    | ActivateRun(release: L.ReleaseRun)
    | EvaluateRun(spend: L.SpendRun)
    | RecoverRun(pause: L.PauseRun)

  ghost predicate RunFits(job: Job, run: JobRun) {
    match run
    case Silent => true
    case PreflightStopped => Batch(job.kind)
    case ExecuteRun(attempts, lock, r) =>
      && job.kind in {ExecuteTest, ProductionCreate} && job.input.WriteInput?
      && |attempts| <= |job.input.order.plans|
      && E.ExecuteShape(job.input.order.plans, attempts, lock, E.Returned(r))
    case ReconcileRun(fs, lock, r) =>
      && job.kind == Reconcile && job.input.ReconcileInput?
      && |fs| <= |job.input.order.plans|
      && R.ReconcileShape(job.input.order.plans, fs, lock, E.Returned(r))
    case ActivateRun(release) =>
      job.kind == Release && job.input.ReleaseInput? && L.ReleaseWellFormed(job.input.terms, release)
    case EvaluateRun(spend) =>
      && job.kind == ReleaseEvaluate && job.input.EvaluateInput?
      && L.SpendWellFormed(job.input.campaigns, job.input.cap, spend)
    case RecoverRun(pause) =>
      job.kind == ReleaseRecovery && job.input.RecoverInput? && L.PauseWellFormed(job.input.campaigns, pause)
  }

  /** Every platform call made for the job. */
  ghost function JobTrace(job: Job, run: JobRun): seq<Call>
    requires RunFits(job, run)
  {
    match run
    case Silent => []
    case PreflightStopped => [Preflight(false)]
    case ExecuteRun(attempts, lock, _) => E.ExecuteTrace(job.input.order.plans, attempts, lock)
    case ReconcileRun(fs, lock, _) => R.ReconcileTrace(job.input.order.plans, fs, lock)
    case ActivateRun(release) => L.ReleaseTrace(job.input.terms, release)
    case EvaluateRun(spend) => L.SpendTrace(job.input.campaigns, job.input.cap, spend)
    case RecoverRun(pause) => L.PauseCalls(job.input.campaigns, pause)
  }

  /** The result the engine handed back; None when it raised. */
  ghost function ResultOf(job: Job, run: JobRun): Option<JobResult>
    requires RunFits(job, run)
  {
    match run
    case Silent => if External(job.kind) then None else Some(ArtifactResult)
    case PreflightStopped => None
    case ExecuteRun(_, _, r) => Some(BatchResult(r))
    case ReconcileRun(_, _, r) => Some(BatchResult(r))
    case ActivateRun(release) =>
      var outcome := L.ReleaseOutcomeOf(job.input.terms, release);
      if outcome.Released? then Some(ReleaseResult(outcome.receipt)) else None
    case EvaluateRun(spend) =>
      var outcome := L.SpendOutcomeOf(job.input.campaigns, job.input.cap, spend);
      if outcome.Some? then Some(SpendResult(outcome.value)) else None
    case RecoverRun(pause) => Some(RecoveryResult(L.Safe(job.input.campaigns, pause), L.PauseReceipt(pause)))
  }

  /** What the dispatch stores as a success of a gated or reconcile job is exactly what earns one. */
  lemma SuccessIsEarnedExactly(job: Job, run: JobRun, result: JobResult)
    requires RunFits(job, run) && ResultOf(job, run) == Some(result)
    requires Batch(job.kind) || job.kind == Release
    ensures FinalStatus(job.kind, result) == Succeeded <==> EarnsSuccess(job, Some(result))
  {
    match run
    case ExecuteRun(attempts, lock, r) => E.VerifiedPausedIsExact(job.input.order.plans, attempts, lock, r);
    case ReconcileRun(fs, lock, r) => R.ReconcileStatusIsExact(job.input.order.plans, fs, lock, r);
    case _ =>
  }

  lemma SuccessIsEarned(job: Job, run: JobRun, result: JobResult)
    requires RunFits(job, run) && ResultOf(job, run) == Some(result)
    requires FinalStatus(job.kind, result) == Succeeded
    ensures EarnsSuccess(job, Some(result))
  {
    if Batch(job.kind) || job.kind == Release {
      SuccessIsEarnedExactly(job, run, result);
    }
  }

  /** A worker never asks for an external job to be retried. */
  lemma ExternalIsNotRetried(kind: JobKind, result: JobResult)
    ensures FinalStatus(kind, result) in {Succeeded, Failed, NeedsReconcile}
  {
  }

  // ----- the platform, seen from the store -----

  /** A gated job in any reachable state has its own consumed grant, the one its input names, whose scope is
      exactly the job's work. */
  lemma GatedIsAuthorised(run: SystemRun, n: nat, j: Id)
    requires n <= |run.ops| && j in run.dbs[n].jobs && Gated(run.dbs[n].jobs[j].kind)
    ensures Licensed(run.dbs[n], j)
  {
    GrantsAndJobsBiject(run, n);
    assert HasGrant(run.dbs[n], j);
  }

  /** The grant that job j names was consumed for it and covers exactly its work. */
  ghost predicate Licensed(db: Db, j: Id) {
    && j in db.jobs && (db.jobs[j].input.WriteInput? || db.jobs[j].input.ReleaseInput?)
    && var g := GrantOf(db.jobs[j].input);
       Authorised(db, j, g) && Covers(db.grants[g].scope, db.jobs[j].input)
  }

  /** Creates go out for authorised plans, in order, and the account is then relocked once. */
  ghost predicate CreatesInOrderThenRelocks(job: Job, t: seq<Call>) {
    && job.input.WriteInput? && AllIntact(job.input.order.plans)
    && Creates(t) <= E.PayloadsOf(job.input.order.plans)
    && Relocks(t) == 1 && !Enables(t)
  }

  lemma ExecuteRunTrace(job: Job, run: JobRun)
    requires RunFits(job, run) && run.ExecuteRun? && AllIntact(job.input.order.plans)
    ensures CreatesInOrderThenRelocks(job, JobTrace(job, run))
  {
    E.CreatesArePrefixThenRelock(job.input.order.plans, run.attempts, run.lock, E.Returned(run.batch));
    E.NeverEnables(job.input.order.plans, run.attempts, run.lock);
  }

  /** Every object the system creates is created for a job whose own grant was consumed for it and lists
      exactly its plans, revision by revision and hash by hash; creates go out in plan order, with the
      payloads those hashes were taken from; and the account is then relocked exactly once. */
  lemma CreatesAreAuthorised(run: SystemRun, n: nat, j: Id, jobRun: JobRun)
    requires n <= |run.ops| && j in run.dbs[n].jobs && RunFits(run.dbs[n].jobs[j], jobRun)
    requires Creates(JobTrace(run.dbs[n].jobs[j], jobRun)) != []
    ensures run.dbs[n].jobs[j].kind in {ExecuteTest, ProductionCreate}
    ensures Licensed(run.dbs[n], j)
    ensures CreatesInOrderThenRelocks(run.dbs[n].jobs[j], JobTrace(run.dbs[n].jobs[j], jobRun))
  {
    var job := run.dbs[n].jobs[j];
    if !jobRun.ExecuteRun? {
      OnlyExecuteCreates(job, jobRun);
    }
    RowsAreSound(run, n, j);
    GatedIsAuthorised(run, n, j);
    ExecuteRunTrace(job, jobRun);
  }

  predicate CreateFree(t: seq<Call>) {
    forall i :: 0 <= i < |t| ==> !t[i].Create?
  }

  lemma ReleaseCreatesNothing(terms: ReleaseTerms, run: L.ReleaseRun)
    ensures CreateFree(L.ReleaseTrace(terms, run))
  {
  }

  lemma {:induction false} CreateFreeCounts(t: seq<Call>)
    requires CreateFree(t)
    ensures Creates(t) == []
  {
    if t != [] {
      CreateFreeCounts(t[..|t| - 1]);
    }
  }

  lemma OnlyExecuteCreates(job: Job, run: JobRun)
    requires RunFits(job, run) && !run.ExecuteRun?
    ensures Creates(JobTrace(job, run)) == []
  {
    match run
    case ReconcileRun(fs, lock, _) => R.NeverCreates(job.input.order.plans, fs, lock);
    case ActivateRun(release) =>
      ReleaseCreatesNothing(job.input.terms, release);
      CreateFreeCounts(L.ReleaseTrace(job.input.terms, release));
    case EvaluateRun(spend) => CreateFreeCounts(L.SpendTrace(job.input.campaigns, job.input.cap, spend));
    case RecoverRun(pause) => CreateFreeCounts(L.PauseCalls(job.input.campaigns, pause));
    case Silent => CreateFreeCounts([]);
    case PreflightStopped => CreateFreeCounts([Preflight(false)]);
  }

  /** Whenever the system switches campaigns on, it is for a RELEASE job whose own grant was consumed for it
      with exactly its terms; they are exactly the campaigns of those terms; all of them appear in one stored
      production readback of the project; and just before, exactly the granted cap was cleared with its
      monitor, armed for them and verified. */
  lemma EnablesAreReadBackAndCapped(run: SystemRun, n: nat, j: Id, jobRun: JobRun, i: nat)
    requires n <= |run.ops| && j in run.dbs[n].jobs && RunFits(run.dbs[n].jobs[j], jobRun)
    requires i < |JobTrace(run.dbs[n].jobs[j], jobRun)| && L.IsEnable(JobTrace(run.dbs[n].jobs[j], jobRun)[i])
    ensures var job, t := run.dbs[n].jobs[j], JobTrace(run.dbs[n].jobs[j], jobRun);
            && job.kind == Release && job.input.ReleaseInput?
            && Licensed(run.dbs[n], j)
            && t[i].ids == job.input.terms.campaigns
            && ReadBack(run.dbs[n], job.project, t[i].ids)
            && exists receipt :: t[..i] == L.Armed(job.input.terms, receipt)
  {
    var job := run.dbs[n].jobs[j];
    EnableMeansActivate(job, jobRun, i);
    GatedIsAuthorised(run, n, j);
    ReleasesAreReadBack(run, n);
    L.EnableOnlyBehindArmedCap(job.input.terms, jobRun.release, i);
  }

  lemma EnableMeansActivate(job: Job, run: JobRun, i: nat)
    requires RunFits(job, run) && i < |JobTrace(job, run)| && L.IsEnable(JobTrace(job, run)[i])
    ensures run.ActivateRun?
  {
    assert Enables(JobTrace(job, run));
    match run
    case ExecuteRun(attempts, lock, _) => E.NeverEnables(job.input.order.plans, attempts, lock);
    case ReconcileRun(fs, lock, _) => R.NeverCreates(job.input.order.plans, fs, lock);
    case EvaluateRun(spend) => L.SpendVerdictIsExact(job.input.campaigns, job.input.cap, spend);
    case _ =>
  }
}
