/** One turn of the worker from end to end: what the calls it made on the platform mean for the claimed job's row
    and for its project, now and for the rest of the run. */
module TurnOutcomes {
  import opened Common
  import opened Payloads
  import opened State
  import opened Platform
  import opened Database
  import opened JobLeases
  import opened SystemRuns
  import opened Store
  import opened StoreOutcomes
  import opened Dispatch
  import opened JobOutcomes
  import opened Service
  import X = ExecuteOutcomes
  import Y = ReconcileOutcomes

  /** The last transaction finished j with this result, and its row says so. */
  predicate EndedAs(h: History, j: Id, status: JobStatus, result: JobResult) {
    && h.ops != [] && |h.dbs| == |h.ops| + 1
    && h.ops[|h.ops| - 1].FinishJob? && h.ops[|h.ops| - 1].j == j
    && j in h.dbs[|h.ops|].jobs
    && h.dbs[|h.ops|].jobs[j].status == status && h.dbs[|h.ops|].jobs[j].result == Some(result)
    && h.dbs[|h.ops|].jobs[j].owner == None
  }

  lemma FinishIsStored(h: History, j: Id, worker: Id, status: JobStatus, result: JobResult)
    requires Requested(h) && JustFinished(h, j, worker, status, result)
    ensures EndedAs(h, j, status, result)
  {
    OtherRowStep(h, |h.ops| - 1, j);
  }

  /** The project entered the state, and the job is stored in the status, that the calls of its run demand. */
  ghost predicate CreateTurnEnds(h: History, from: nat, j: Id, job: Job, run: JobRun, result: JobResult)
    requires RunFits(job, run) && run.ExecuteRun?
  {
    exists status, target ::
      CreateEndsSo(job, run, status, target) && EnteredSince(h, from, job.project, target)
      && EndedAs(h, j, status, result)
  }

  ghost predicate ReconcileTurnEnds(h: History, from: nat, j: Id, job: Job, run: JobRun, result: JobResult)
    requires RunFits(job, run) && run.ReconcileRun?
  {
    exists status, target: Option<ExecutionState> ::
      ReconcileEndsSo(job, run, status, target)
      && (target.Some? ==> EnteredSince(h, from, job.project, target.value))
      && EndedAs(h, j, status, result)
  }

  /** Every turn that hands back a batch ended its job, and moved its project, as the calls it made demand. */
  lemma TurnEndsExactly(h: History, from: nat, worker: Id, j: Id, job: Job, result: JobResult, broken: bool,
                        run: JobRun)
    requires Requested(h) && RunFits(job, run) && WorkFits(h, from, worker, j, job, Some(result), broken, run)
    ensures run.ExecuteRun? ==> CreateTurnEnds(h, from, j, job, run, result)
    ensures run.ReconcileRun? ==> ReconcileTurnEnds(h, from, j, job, run, result)
  {
    FinishIsStored(h, j, worker, FinalStatus(job.kind, result), result);
    if run.ExecuteRun? {
      CreateEndsExactly(job, run);
    }
    if run.ReconcileRun? {
      ReconcileEndsExactly(job, run);
    }
  }

  /** Whatever anybody does from step n on, no claim takes j. */
  ghost predicate NeverClaimed(h: History, n: nat, j: Id) {
    forall k :: n <= k < |h.ops| ==> !Claims(h.ops[k], j)
  }

  lemma FinalIsNeverClaimed(run: Run, n: nat, j: Id)
    requires n <= |run.ops| && j in run.dbs[n].jobs && run.dbs[n].jobs[j].status in {Succeeded, NeedsReconcile}
    ensures NeverClaimed(run, n, j)
  {
    forall k | n <= k < |run.ops| ensures !Claims(run.ops[k], j) {
      FinalRowsAreFrozen(run, n, k, j);
      if run.ops[k].ClaimJob? {
        ClaimDecides(run, k, j);
      }
    }
  }

  /** An operator may resume j, after which a claim may take it at once. */
  predicate Resumable(db: Db, j: Id, now: Time) {
    j in db.jobs && j in Step(db, ResumeJob(j, now)).jobs && Due(Step(db, ResumeJob(j, now)).jobs[j], now)
  }

  /** What follows from how an external job ended. */
  ghost predicate Decided(h: History, j: Id, status: JobStatus, later: History, now: Time)
    requires Behaves(h)
  {
    && j in h.dbs[|h.ops|].jobs && h.dbs[|h.ops|].jobs[j].status == status
    && (status == NeedsReconcile ==> NeverClaimed(later, |h.ops|, j))
    && (Resumable(h.dbs[|h.ops|], j, now) <==> status == JobStatus.Failed)
  }

  lemma StatusDecides(h: History, j: Id, status: JobStatus, later: History, now: Time)
    requires Requested(h) && j in h.dbs[|h.ops|].jobs && h.dbs[|h.ops|].jobs[j].status == status
    requires status in {NeedsReconcile, JobStatus.Failed} && External(h.dbs[|h.ops|].jobs[j].kind)
    requires Requested(later) && Continues(h, later)
    ensures Decided(h, j, status, later, now)
  {
    RowsAreSound(h, |h.ops|, j);
    if status == NeedsReconcile {
      assert later.dbs[|h.ops|] == h.dbs[|h.ops|];
      FinalIsNeverClaimed(later, |h.ops|, j);
    }
  }

  /** A create that may have happened ends its job in RECONCILE_REQUIRED, for good, exactly if the lock was
      verified at the end of the run. If it was not, the job ends FAILED, which an operator can resume: the same
      create is then sent again. */
  lemma UnclearCreateIsFinalExactly(h: History, from: nat, worker: Id, j: Id, job: Job, result: JobResult, broken: bool,
                                    run: JobRun, c: nat, later: History, now: Time)
    requires Requested(h) && JobWas(h, from, j, job)
    requires RunFits(job, run) && WorkFits(h, from, worker, j, job, Some(result), broken, run)
    requires run.ExecuteRun? && X.LastCreate(JobTrace(job, run), c) && X.CreateUnclear(JobTrace(job, run), c)
    requires Requested(later) && Continues(h, later)
    ensures Decided(h, j, if run.batch.lockVerified then NeedsReconcile else JobStatus.Failed, later, now)
  {
    UnclearStatus(job, run, c);
    FinishIsStored(h, j, worker, FinalStatus(job.kind, result), result);
    JobStays(h, from, j, job);
    StatusDecides(h, j, FinalStatus(job.kind, result), later, now);
  }

  lemma UnclearStatus(job: Job, run: JobRun, c: nat)
    requires RunFits(job, run) && run.ExecuteRun?
    requires X.LastCreate(JobTrace(job, run), c) && X.CreateUnclear(JobTrace(job, run), c)
    ensures FinalStatus(job.kind, BatchResult(run.batch))
         == if run.batch.lockVerified then NeedsReconcile else JobStatus.Failed
  {
    CreateEndsExactly(job, run);
  }
}
