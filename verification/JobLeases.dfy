/** Whole-run properties of job rows: bounded claims, lease conservation, final statuses,
    heartbeats, and the two-step failure report. */
module JobLeases {
  import opened Common
  import opened Payloads
  import opened Database

  // ----- what happened to one job in one step, read off the operation and the rows -----

  /** claim_job returned j. */
  predicate IsClaim(op: Op, j: Id) {
    op.ClaimJob? && op.picked == Some(j)
  }

  /** A worker's finish of j was accepted. */
  predicate IsFinish(db: Db, op: Op, j: Id) {
    op.FinishJob? && op.j == j && j in db.jobs && OwnedBy(db.jobs[j], op.worker)
  }

  /** Somebody held a lease on j and a claim took it away: by the sweep or by a takeover. */
  predicate IsLoss(db: Db, op: Op, next: Db, j: Id) {
    && op.ClaimJob? && j in db.jobs && db.jobs[j].status == Running
    && (op.picked == Some(j) || (j in next.jobs && next.jobs[j].status != Running))
  }

  /** An operator's resume of j was accepted. */
  predicate IsResume(db: Db, op: Op, j: Id) {
    op.ResumeJob? && op.j == j && j in db.jobs && (db.jobs[j].status == Failed || db.jobs[j].status == Cancelled)
  }

  datatype Tally = Tally(claims: nat, finishes: nat, losses: nat, resumes: nat, sinceResume: nat)

  function One(b: bool): nat {
    if b then 1 else 0
  }

  function TallyAfter(t: Tally, db: Db, op: Op, next: Db, j: Id): Tally {
    Tally(t.claims + One(IsClaim(op, j)),
          t.finishes + One(IsFinish(db, op, j)),
          t.losses + One(IsLoss(db, op, next, j)),
          t.resumes + One(IsResume(db, op, j)),
          if IsResume(db, op, j) then 0 else t.sinceResume + One(IsClaim(op, j)))
  }

  /** The history of job j over the first n steps of a run. */
  function TallyOf(run: Run, j: Id, n: nat): Tally
    requires n <= |run.ops|
  {
    if n == 0 then Tally(0, 0, 0, 0, 0)
    else TallyAfter(TallyOf(run, j, n - 1), run.dbs[n - 1], run.ops[n - 1], run.dbs[n], j)
  }

  ghost predicate Accounts(job: Job, t: Tally) {
    && (job.status == Running <==> job.owner.Some?)
    && (job.status == Running <==> job.expires.Some?)
    && t.claims == t.finishes + t.losses + One(job.status == Running)
    && job.attempt == t.sinceResume
    && job.attempt <= job.maxAttempts
    && t.claims <= job.maxAttempts * t.resumes + job.attempt
  }

  /** The attempt limit bounds all claims of a job, once per resume. */
  lemma ClaimsAreBounded(job: Job, t: Tally)
    requires Accounts(job, t)
    ensures t.claims <= job.maxAttempts * (1 + t.resumes)
  {
    Distribute(job.maxAttempts, t.resumes);
  }

  lemma AccountsStep(t: Tally, db: Db, op: Op, next: Db, j: Id)
    requires j in db.jobs && j in next.jobs && next.jobs[j] == JobAfter(db.jobs[j], j, op)
    requires IsClaim(op, j) ==> Claimable(Swept(db.jobs[j], op.now), op.now)
    requires op.FinishJob? ==> op.status != Running
    requires Accounts(db.jobs[j], t)
    ensures Accounts(next.jobs[j], TallyAfter(t, db, op, next, j))
  {
    Distribute(db.jobs[j].maxAttempts, t.resumes);
  }

  lemma Unclaimed(run: Run, i: nat, j: Id)
    requires i < |run.ops| && j !in run.dbs[i].jobs
    ensures !IsClaim(run.ops[i], j)
    ensures j in run.dbs[i + 1].jobs ==> Accounts(run.dbs[i + 1].jobs[j], Tally(0, 0, 0, 0, 0))
  {
    TakeStep(run, i);
    if j in run.dbs[i + 1].jobs {
      NewRow(run.dbs[i], run.ops[i], j);
    }
  }

  /** A job has an owner and an expiry exactly while RUNNING; every claim is paid back by a finish
      or a lost lease, except the one still running; `attempt` counts the claims since the last
      resume and never exceeds the limit. Holds for every job after every prefix of every run. */
  lemma {:induction false} LeasesAreConserved(run: Run, j: Id, n: nat)
    requires n <= |run.ops|
    ensures j in run.dbs[n].jobs ==> Accounts(run.dbs[n].jobs[j], TallyOf(run, j, n))
    ensures j !in run.dbs[n].jobs ==> TallyOf(run, j, n) == Tally(0, 0, 0, 0, 0)
  {
    if n > 0 {
      LeasesAreConserved(run, j, n - 1);
      if j in run.dbs[n - 1].jobs {
        RowStep(run, n - 1, j);
        ClaimStep(run, n - 1, j);
        AccountsStep(TallyOf(run, j, n - 1), run.dbs[n - 1], run.ops[n - 1], run.dbs[n], j);
      } else {
        Unclaimed(run, n - 1, j);
      }
    }
  }

  lemma Distribute(m: nat, r: nat)
    ensures m * (1 + r) == m * r + m
  {
  }

  lemma PickedIsClaimable(db: Db, op: Op, j: Id)
    requires Legal(db, op)
    ensures IsClaim(op, j) ==> j in db.jobs && Claimable(Swept(db.jobs[j], op.now), op.now)
  {
    if IsClaim(op, j) {
      assert j in SweptJobs(db.jobs, op.now);
      assert SweptJobs(db.jobs, op.now)[j] == Swept(db.jobs[j], op.now);
    }
  }

  lemma ClaimStep(run: Run, i: nat, j: Id)
    requires i < |run.ops|
    ensures IsClaim(run.ops[i], j) ==>
              j in run.dbs[i].jobs && Claimable(Swept(run.dbs[i].jobs[j], run.ops[i].now), run.ops[i].now)
    ensures run.ops[i].FinishJob? ==> run.ops[i].status != Running
  {
    TakeStep(run, i);
    PickedIsClaimable(run.dbs[i], run.ops[i], j);
  }

  /** An external write is only ever claimed from the queue: an expired one is swept to
      RECONCILE_REQUIRED by the same transaction that could have handed it out again. */
  lemma ExternalNeverReclaimed(db: Db, op: Op, j: Id)
    requires Legal(db, op) && IsClaim(op, j)
    ensures j in db.jobs
    ensures External(db.jobs[j].kind) ==> db.jobs[j].status in {Pending, Retry}
    ensures db.jobs[j].status == Running ==> LeaseExpired(db.jobs[j], op.now) && !External(db.jobs[j].kind)
  {
    PickedIsClaimable(db, op, j);
  }

  /** SUCCEEDED and RECONCILE_REQUIRED are final, and the whole row with them: status, result,
      input, attempt and timestamps never change again. */
  lemma {:induction false} FinalRowsAreFrozen(run: Run, i: nat, k: nat, j: Id)
    requires i <= k <= |run.ops|
    requires j in run.dbs[i].jobs && run.dbs[i].jobs[j].status in {Succeeded, NeedsReconcile}
    ensures j in run.dbs[k].jobs && run.dbs[k].jobs[j] == run.dbs[i].jobs[j]
    decreases k
  {
    if i < k {
      FinalRowsAreFrozen(run, i, k - 1, j);
      RowStep(run, k - 1, j);
      ClaimStep(run, k - 1, j);
    }
  }

  /** A finish or heartbeat by anyone but the current owner is refused and changes no row at all. */
  lemma OnlyTheOwnerActs(db: Db, op: Op)
    requires op.FinishJob? || op.HeartbeatJob?
    requires !(op.j in db.jobs && OwnedBy(db.jobs[op.j], op.worker))
    ensures Step(db, op) == db
  {
  }

  // ----- heartbeats -----

  /** The moments at which the steps of a run commit, and the length of a lease. */
  datatype Timing = Timing(times: seq<Time>, lease: nat)

  /** Every operation reads its clock before it commits, and asks for one lease from that reading. */
  predicate ClockFits(op: Op, at: Time, lease: nat) {
    match op
    case ClaimJob(_, now, until, _, _) => now <= at && until == now + lease
    case HeartbeatJob(_, _, until) => until <= at + lease
    case HeartbeatWorker(_, until) => until <= at + lease
    case _ => true
  }

  /** Commits hold the database's write lock, so they happen in the order of the steps. */
  ghost predicate Clocked(run: Run, t: Timing) {
    && |t.times| == |run.ops|
    && (forall m :: 0 <= m < |run.ops| ==> ClockFits(run.ops[m], t.times[m], t.lease))
    && forall m, n :: 0 <= m <= n < |run.ops| ==> t.times[m] <= t.times[n]
  }

  /** A heartbeat of j's owner. */
  predicate IsHeartbeat(op: Op, j: Id, worker: Id) {
    (op.HeartbeatJob? && op.j == j && op.worker == worker) || (op.HeartbeatWorker? && op.worker == worker)
  }

  /** When the lease runs out as of step m, by the worker's own account: the expiry it started with at step
      i, or the one its last heartbeat since asked for. */
  function LeaseEnd(run: Run, i: nat, m: nat, j: Id, worker: Id, start: Time): Time
    requires i <= m <= |run.ops|
    decreases m
  {
    if m == i then start
    else if IsHeartbeat(run.ops[m - 1], j, worker) then run.ops[m - 1].until
    else LeaseEnd(run, i, m - 1, j, worker, start)
  }

  /** Every heartbeat of the worker during steps [i, k), and the last step, commits before the lease that
      heartbeats had secured until then runs out. Nothing is said about anybody else's steps. */
  ghost predicate HeartbeatsLand(run: Run, t: Timing, i: nat, k: nat, j: Id, worker: Id, start: Time)
    requires i <= k <= |run.ops| && |t.times| == |run.ops|
  {
    forall m :: i <= m < k && (m == k - 1 || IsHeartbeat(run.ops[m], j, worker)) ==>
      t.times[m] < LeaseEnd(run, i, m, j, worker, start)
  }

  /** Then no step at all commits after the lease ran out. */
  lemma {:induction false} LeaseCoversSteps(run: Run, t: Timing, i: nat, k: nat, j: Id, worker: Id, start: Time, m: nat)
    requires i <= m < k <= |run.ops| && Clocked(run, t) && HeartbeatsLand(run, t, i, k, j, worker, start)
    ensures t.times[m] < LeaseEnd(run, i, m, j, worker, start)
    decreases k - m
  {
    if m < k - 1 && !IsHeartbeat(run.ops[m], j, worker) {
      LeaseCoversSteps(run, t, i, k, j, worker, start, m + 1);
    }
  }

  /** Over one step that commits within the lease, the owner keeps the job unless it finishes it itself, and
      the row's expiry is the one the owner's heartbeats asked for. */
  lemma LeaseStep(run: Run, t: Timing, m: nat, j: Id, worker: Id, end: Time)
    requires m < |run.ops| && Clocked(run, t) && j in run.dbs[m].jobs
    requires OwnedBy(run.dbs[m].jobs[j], worker) && run.dbs[m].jobs[j].expires == Some(end) && t.times[m] < end
    requires !(run.ops[m].FinishJob? && run.ops[m].j == j && run.ops[m].worker == worker)
    ensures j in run.dbs[m + 1].jobs && OwnedBy(run.dbs[m + 1].jobs[j], worker)
    ensures run.dbs[m + 1].jobs[j].attempt == run.dbs[m].jobs[j].attempt
    ensures run.dbs[m + 1].jobs[j].expires == Some(if IsHeartbeat(run.ops[m], j, worker) then run.ops[m].until else end)
  {
    assert ClockFits(run.ops[m], t.times[m], t.lease);
    RowStep(run, m, j);
    ClaimStep(run, m, j);
  }

  /** As of step n the worker owns j, at the attempt it had at step i, until its own LeaseEnd. */
  ghost predicate Held(run: Run, i: nat, n: nat, j: Id, worker: Id, start: Time)
    requires i <= n <= |run.ops| && j in run.dbs[i].jobs
  {
    && j in run.dbs[n].jobs && OwnedBy(run.dbs[n].jobs[j], worker)
    && run.dbs[n].jobs[j].attempt == run.dbs[i].jobs[j].attempt
    && run.dbs[n].jobs[j].expires == Some(LeaseEnd(run, i, n, j, worker, start))
  }

  ghost predicate Unfinished(run: Run, i: nat, k: nat, j: Id, worker: Id)
    requires k <= |run.ops|
  {
    forall m :: i <= m < k ==> !(run.ops[m].FinishJob? && run.ops[m].j == j && run.ops[m].worker == worker)
  }

  lemma HeldNext(run: Run, t: Timing, i: nat, n: nat, j: Id, worker: Id, start: Time)
    requires i <= n < |run.ops| && Clocked(run, t) && j in run.dbs[i].jobs && Held(run, i, n, j, worker, start)
    requires t.times[n] < LeaseEnd(run, i, n, j, worker, start)
    requires Unfinished(run, n, n + 1, j, worker)
    ensures Held(run, i, n + 1, j, worker, start)
  {
    LeaseStep(run, t, n, j, worker, LeaseEnd(run, i, n, j, worker, start));
  }

  /** One step of the stretch. */
  lemma HeldThrough(run: Run, t: Timing, i: nat, k: nat, n: nat, j: Id, worker: Id, start: Time)
    requires i <= n < k <= |run.ops| && Clocked(run, t) && j in run.dbs[i].jobs
    requires HeartbeatsLand(run, t, i, k, j, worker, start) && Unfinished(run, i, k, j, worker)
    requires Held(run, i, n, j, worker, start)
    ensures Held(run, i, n + 1, j, worker, start)
  {
    LeaseCoversSteps(run, t, i, k, j, worker, start, n);
    HeldNext(run, t, i, n, j, worker, start);
  }

  /** An owner whose heartbeats each commit before the current expiry never loses the job: whatever other
      workers claim, sweep, cancel or resume, it still owns it, at the same attempt, until it finishes it. */
  lemma {:induction false} HeartbeatKeepsLease(run: Run, t: Timing, i: nat, k: nat, n: nat, j: Id, worker: Id,
                                               start: Time)
    requires i <= n <= k <= |run.ops| && Clocked(run, t)
    requires j in run.dbs[i].jobs && OwnedBy(run.dbs[i].jobs[j], worker) && run.dbs[i].jobs[j].expires == Some(start)
    requires HeartbeatsLand(run, t, i, k, j, worker, start)
    requires Unfinished(run, i, k, j, worker)
    ensures Held(run, i, n, j, worker, start)
    decreases n
  {
    if i < n {
      HeartbeatKeepsLease(run, t, i, k, n - 1, j, worker, start);
      HeldThrough(run, t, i, k, n - 1, j, worker, start);
    }
  }

  /** The bound is tight: a claim whose clock has reached the expiry does take the lease away, by the sweep
      or, when it picks the job, by a takeover. */
  lemma ExpiredLeaseIsLost(run: Run, m: nat, j: Id)
    requires m < |run.ops| && run.ops[m].ClaimJob? && j in run.dbs[m].jobs
    requires LeaseExpired(run.dbs[m].jobs[j], run.ops[m].now)
    requires External(run.dbs[m].jobs[j].kind) || IsClaim(run.ops[m], j)
    ensures IsLoss(run.dbs[m], run.ops[m], run.dbs[m + 1], j)
  {
    RowStep(run, m, j);
    ClaimStep(run, m, j);
  }

  // ----- fail_job: a read in one step, the write in a later one -----

  /** The status fail_job picks from the row it read. */
  function FailureStatus(job: Job): JobStatus {
    if job.attempt >= job.maxAttempts then Failed else Retry
  }

  /** fail_job as one atomic transaction. */
  function FailAtomically(db: Db, j: Id, worker: Id, now: Time): Db {
    if j in db.jobs then Step(db, FinishJob(j, worker, FailureStatus(db.jobs[j]), None, now)) else db
  }

  /** The worker makes no claim during steps [i, k). */
  ghost predicate ClaimsNothing(run: Run, i: nat, k: nat, worker: Id)
    requires k <= |run.ops|
  {
    forall m :: i <= m < k ==> !(run.ops[m].ClaimJob? && run.ops[m].worker == worker)
  }

  lemma ClaimsNothingEarlier(run: Run, i: nat, k: nat, worker: Id)
    requires i < k <= |run.ops| && ClaimsNothing(run, i, k, worker)
    ensures ClaimsNothing(run, i, k - 1, worker)
    ensures !(run.ops[k - 1].ClaimJob? && run.ops[k - 1].worker == worker)
  {
  }

  lemma OwnedBefore(run: Run, i: nat, j: Id, worker: Id)
    requires i < |run.ops| && j in run.dbs[i].jobs
    requires j in run.dbs[i + 1].jobs && OwnedBy(run.dbs[i + 1].jobs[j], worker)
    requires !(run.ops[i].ClaimJob? && run.ops[i].worker == worker)
    ensures OwnedBy(run.dbs[i].jobs[j], worker)
    ensures run.dbs[i + 1].jobs[j].attempt == run.dbs[i].jobs[j].attempt
    ensures run.dbs[i + 1].jobs[j].maxAttempts == run.dbs[i].jobs[j].maxAttempts
  {
    RowStep(run, i, j);
    ClaimStep(run, i, j);
  }

  /** A worker that owns j now and has not claimed in between already owned it, at this attempt. */
  lemma {:induction false} OwnershipReachesBack(run: Run, i: nat, k: nat, j: Id, worker: Id)
    requires i <= k <= |run.ops|
    requires j in run.dbs[i].jobs
    requires j in run.dbs[k].jobs && OwnedBy(run.dbs[k].jobs[j], worker)
    requires ClaimsNothing(run, i, k, worker)
    ensures OwnedBy(run.dbs[i].jobs[j], worker)
    ensures run.dbs[i].jobs[j].attempt == run.dbs[k].jobs[j].attempt
    ensures run.dbs[i].jobs[j].maxAttempts == run.dbs[k].jobs[j].maxAttempts
    decreases k
  {
    if i < k {
      RowPersists(run, i, k - 1, j);
      ClaimsNothingEarlier(run, i, k, worker);
      OwnedBefore(run, k - 1, j, worker);
      OwnershipReachesBack(run, i, k - 1, j, worker);
    }
  }

  /** fail_job reads the attempt at step i and writes at step k. Whatever other workers, heartbeats,
      cancels and resumes do in between, as long as this worker does not claim, the write has exactly
      the effect of the atomic version, accepted or refused. */
  lemma FailureReportRefinesAtomic(run: Run, i: nat, k: nat, j: Id, worker: Id, now: Time)
    requires i <= k <= |run.ops| && j in run.dbs[i].jobs
    requires ClaimsNothing(run, i, k, worker)
    ensures Step(run.dbs[k], FinishJob(j, worker, FailureStatus(run.dbs[i].jobs[j]), None, now))
         == FailAtomically(run.dbs[k], j, worker, now)
  {
    RowPersists(run, i, k, j);
    if OwnedBy(run.dbs[k].jobs[j], worker) {
      OwnershipReachesBack(run, i, k, j, worker);
    }
  }
}
