/** How a job ends and where it takes its project, read off the calls its engine made: the engines' outcomes
    composed with the worker's status and target tables. */
module JobOutcomes {
  import opened Common
  import opened Payloads
  import opened State
  import opened Platform
  import opened Database
  import opened SystemRuns
  import opened Dispatch
  import E = Execution
  import R = Reconciliation
  import L = Release
  import X = ExecuteOutcomes
  import Y = ReconcileOutcomes
  import Z = ReleaseOutcomes

  // ----- create jobs -----

  /** How a create job ends and which state its project enters, given the calls t of its run, the last create at c
      and the receipt: the success state exactly if every plan is verified and the lock is; RELOCK_FAILED exactly
      if the lock is not; RECONCILE_REQUIRED, for job and project alike, exactly if the last create may have
      happened; and the emergency and mismatch states exactly if its pause or its readback failed that way. */
  ghost predicate CreateEnds(production: bool, plans: seq<Plan>, t: seq<Call>, c: nat, batch: BatchReceipt,
                             status: JobStatus, target: ExecutionState)
    requires c < |t| && t[c].Create?
  {
    && (status == Succeeded <==> FullyVerified(plans, batch))
    && (status == NeedsReconcile <==> batch.lockVerified && X.CreateUnclear(t, c))
    && status in {Succeeded, NeedsReconcile, Failed}
    && (target == ReadbackVerified <==> !production && FullyVerified(plans, batch))
    && (target == WaitingReleaseAuthorization <==> production && FullyVerified(plans, batch))
    && (target == RelockFailed <==> !batch.lockVerified)
    && (target == ExecutionState.ReconcileRequired <==> status == NeedsReconcile)
    && (target == PauseFailedEmergency
        <==> batch.lockVerified && X.CreateNamed(t, c) && !X.PauseAcknowledged(t, c))
    && (target == ReadbackMismatch
        <==> batch.lockVerified && X.PauseAcknowledged(t, c)
             && X.ReadMismatch(t, c + 2, t[c].payload, X.IdsAt(t, c)))
    && target in {ReadbackVerified, WaitingReleaseAuthorization, RelockFailed, ExecutionState.ReconcileRequired,
                  PauseFailedEmergency, ReadbackMismatch, RecoveryRequired}
  }

  ghost predicate CreateEndsSo(job: Job, run: JobRun, status: JobStatus, target: ExecutionState)
    requires RunFits(job, run) && run.ExecuteRun?
  {
    forall c: nat :: X.LastCreate(JobTrace(job, run), c) ==>
      CreateEnds(job.kind == ProductionCreate, job.input.order.plans, JobTrace(job, run), c, run.batch, status, target)
  }

  lemma StatusSaysEnd(production: bool, plans: seq<Plan>, t: seq<Call>, c: nat, batch: BatchReceipt, kind: JobKind)
    requires kind in {ExecuteTest, ProductionCreate}
    requires c < |t| && t[c].Create? && (batch.status == BatchRelockFailed <==> !batch.lockVerified)
    requires batch.lockVerified ==> X.Says(batch.status, t, c)
    requires batch.status == VerifiedPaused <==> FullyVerified(plans, batch)
    ensures CreateEnds(production, plans, t, c, batch, FinalStatus(kind, BatchResult(batch)),
                       CreateTarget(production, batch.status))
  {
  }

  lemma CreateEndsExactly(job: Job, run: JobRun)
    requires RunFits(job, run) && run.ExecuteRun?
    ensures CreateEndsSo(job, run, FinalStatus(job.kind, BatchResult(run.batch)),
                         CreateTarget(job.kind == ProductionCreate, run.batch.status))
  {
    var plans, t := job.input.order.plans, JobTrace(job, run);
    E.VerifiedPausedIsExact(plans, run.attempts, run.lock, run.batch);
    forall c: nat | X.LastCreate(t, c)
      ensures CreateEnds(job.kind == ProductionCreate, plans, t, c, run.batch,
                         FinalStatus(job.kind, BatchResult(run.batch)),
                         CreateTarget(job.kind == ProductionCreate, run.batch.status))
    {
      X.ExecuteStatusIsExact(plans, run.attempts, run.lock, run.batch, c);
      StatusSaysEnd(job.kind == ProductionCreate, plans, t, c, run.batch, job.kind);
    }
  }

  // ----- reconcile jobs -----

  /** How a reconcile ends and which state its project enters, if any: none exactly if a discovery of the last
      turn was refused, which leaves the job indeterminate; the success state exactly if every plan is settled,
      one was found, and the lock is verified; RELOCK_FAILED exactly if the lock is not. */
  ghost predicate ReconcileEnds(production: bool, plans: seq<Plan>, t: seq<Call>, c: nat, batch: BatchReceipt,
                                status: JobStatus, target: Option<ExecutionState>)
    requires 0 < |batch.receipts| <= |plans|
  {
    var p := plans[|batch.receipts| - 1].payload;
    var refused := batch.lockVerified && !Y.SettledAt(t, c, p) && Y.DiscoveryRefused(t, c, p);
    && (status == Succeeded <==> FullyVerified(plans, batch))
    && (status == NeedsReconcile <==> refused) && (target == None <==> refused)
    && status in {Succeeded, NeedsReconcile, Failed}
    && (target == Some(ReadbackVerified) <==> !production && FullyVerified(plans, batch) && Y.AnyListed(t))
    && (target == Some(WaitingReleaseAuthorization) <==> production && FullyVerified(plans, batch) && Y.AnyListed(t))
    && (target == Some(RelockFailed) <==> !batch.lockVerified)
    && target in {None, Some(ReadbackVerified), Some(WaitingReleaseAuthorization), Some(RelockFailed),
                  Some(RecoveryRequired)}
  }

  ghost predicate ReconcileEndsSo(job: Job, run: JobRun, status: JobStatus, target: Option<ExecutionState>)
    requires RunFits(job, run) && run.ReconcileRun?
  {
    forall c: nat :: Y.LastDiscovery(JobTrace(job, run), c) ==>
      0 < |run.batch.receipts| <= |job.input.order.plans|
      && ReconcileEnds(job.input.order.production, job.input.order.plans, JobTrace(job, run), c, run.batch, status,
                       target)
  }

  lemma StatusSaysReconcileEnd(production: bool, plans: seq<Plan>, t: seq<Call>, c: nat, batch: BatchReceipt)
    requires Y.StatusSays(plans, t, c, batch)
    requires batch.status in {ReconciledNotCreated, ReconciledVerifiedPaused} <==> FullyVerified(plans, batch)
    requires batch.status != VerifiedPaused
    ensures ReconcileEnds(production, plans, t, c, batch, FinalStatus(Reconcile, BatchResult(batch)),
                          ReconcileTarget(production, batch.status))
  {
  }

  lemma ReconcileEndsAt(job: Job, run: JobRun, c: nat)
    requires RunFits(job, run) && run.ReconcileRun? && Y.LastDiscovery(JobTrace(job, run), c)
    ensures 0 < |run.batch.receipts| <= |job.input.order.plans|
    ensures ReconcileEnds(job.input.order.production, job.input.order.plans, JobTrace(job, run), c, run.batch,
                          FinalStatus(job.kind, BatchResult(run.batch)),
                          ReconcileTarget(job.input.order.production, run.batch.status))
  {
    var plans := job.input.order.plans;
    R.ReconcileStatusIsExact(plans, run.findings, run.lock, run.batch);
    Y.ReconcileStatusSays(plans, run.findings, run.lock, run.batch, c);
    StatusSaysReconcileEnd(job.input.order.production, plans, JobTrace(job, run), c, run.batch);
  }

  lemma ReconcileEndsExactly(job: Job, run: JobRun)
    requires RunFits(job, run) && run.ReconcileRun?
    ensures ReconcileEndsSo(job, run, FinalStatus(job.kind, BatchResult(run.batch)),
                            ReconcileTarget(job.input.order.production, run.batch.status))
  {
    forall c: nat | Y.LastDiscovery(JobTrace(job, run), c)
      ensures 0 < |run.batch.receipts| <= |job.input.order.plans|
      ensures ReconcileEnds(job.input.order.production, job.input.order.plans, JobTrace(job, run), c, run.batch,
                            FinalStatus(job.kind, BatchResult(run.batch)),
                            ReconcileTarget(job.input.order.production, run.batch.status))
    {
      ReconcileEndsAt(job, run, c);
    }
  }

  // ----- release jobs and the rest -----

  /** A release is completed exactly if every campaign reads enabled; an evaluation fails exactly if the spend read
      exceeds the cap and the pause or its lock was not confirmed; a recovery is completed exactly if both were;
      planning work is completed. */
  lemma OthersEndExactly(job: Job, run: JobRun, result: JobResult)
    requires RunFits(job, run) && ResultOf(job, run) == Some(result) && !run.ExecuteRun? && !run.ReconcileRun?
    ensures var t, status := JobTrace(job, run), FinalStatus(job.kind, result);
            match run
            case ActivateRun(_) => status == if Z.AllEnabled(t, job.input.terms) then Succeeded else Failed
            case EvaluateRun(_) =>
              status in {Succeeded, Failed} && t != [] && t[0].CurrentSpend? && t[0].spent.Answer?
              && (status == Failed <==> t[0].spent.value > job.input.cap.fen && !ConfirmedAt(t, 1, job.input.campaigns))
            case RecoverRun(_) => status == if ConfirmedAt(t, 0, job.input.campaigns) then Succeeded else Failed
            case _ => status == Succeeded && !External(job.kind)
  {
    match run
    case ActivateRun(release) => Z.ActivationIsTold(job.input.terms, release);
    case EvaluateRun(spend) =>
      Z.EvaluationIsTold(job.input.campaigns, job.input.cap, spend);
    case RecoverRun(pause) => Z.RecoveryIsTold(job.input.campaigns, pause);
    case _ =>
  }

  /** From k on, the pause named exactly the campaigns and the lock was confirmed. */
  ghost predicate ConfirmedAt(t: seq<Call>, k: nat, ids: seq<int>) {
    && k + 2 < |t| && t[k].SetStatus? && Z.NamesExactly(t[k].acknowledged, ids)
    && t[k + 2].VerifyRelocked? && t[k + 2].confirmed == Answer(true)
  }
}
