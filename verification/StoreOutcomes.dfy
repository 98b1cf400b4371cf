/** What runs do to job, project and grant rows, read off the columns and the operations alone: when a job is
    swept, claimed or sent back to the queue, and what stands behind a job that needs a grant. */
module StoreOutcomes {
  import opened Common
  import opened Payloads
  import opened State
  import opened Database
  import opened JobLeases
  import opened SystemRuns

  // ----- claims -----

  /** A claim finds j running an operation that writes to the platform, on a lease that its clock has passed. */
  predicate Interrupted(db: Db, op: Op, j: Id) {
    && op.ClaimJob? && j in db.jobs && db.jobs[j].status == Running
    && db.jobs[j].kind in {ExecuteTest, ProductionCreate, Reconcile, Release, ReleaseEvaluate, ReleaseRecovery}
    && db.jobs[j].expires.Some? && db.jobs[j].expires.value <= op.now
  }

  /** A claim may take the row: it is queued and due, or a planning job whose lease ran out, and has attempts
      left. */
  predicate Due(job: Job, now: Time) {
    && job.attempt < job.maxAttempts
    && (((job.status == Pending || job.status == Retry) && job.nextRun <= now)
        || (job.status == Running && job.kind in {Prepare, SyncJuguang}
            && job.expires.Some? && job.expires.value <= now))
  }

  predicate Earlier(a: Job, aId: Id, b: Job, bId: Id) {
    a.createdAt < b.createdAt || (a.createdAt == b.createdAt && aId <= bId)
  }

  lemma DueIsClaimable(job: Job, now: Time)
    ensures Due(job, now) <==> Claimable(Swept(job, now), now)
    ensures Swept(job, now).createdAt == job.createdAt
  {
    assert External(job.kind) || job.kind == Prepare || job.kind == SyncJuguang;
  }

  /** A claim takes the first due row by creation time and id, if there is one, leases it, sends every
      interrupted external operation to reconciliation, and leaves every other row alone. */
  lemma ClaimDecides(run: Run, m: nat, j: Id)
    requires m < |run.ops| && run.ops[m].ClaimJob? && j in run.dbs[m].jobs
    ensures j in run.dbs[m + 1].jobs
    ensures var op, before, after := run.ops[m], run.dbs[m].jobs[j], run.dbs[m + 1].jobs[j];
            && (op.picked == None ==> !Due(before, op.now))
            && (op.picked.Some? ==> op.picked.value in run.dbs[m].jobs && Due(run.dbs[m].jobs[op.picked.value], op.now))
            && (op.picked.Some? && Due(before, op.now) ==>
                  Earlier(run.dbs[m].jobs[op.picked.value], op.picked.value, before, j))
            && after == (if op.picked == Some(j) then
                           before.(status := Running, attempt := before.attempt + 1, owner := Some(op.worker),
                                   expires := Some(op.until))
                         else if Interrupted(run.dbs[m], op, j) then
                           before.(status := NeedsReconcile, owner := None, expires := None)
                         else before)
  {
    RowStep(run, m, j);
    TakeStep(run, m);
    var op, jobs := run.ops[m], run.dbs[m].jobs;
    DueIsClaimable(jobs[j], op.now);
    assert SweptJobs(jobs, op.now)[j] == Swept(jobs[j], op.now);
    if op.picked.Some? {
      PickedIsClaimable(run.dbs[m], op, op.picked.value);
      DueIsClaimable(jobs[op.picked.value], op.now);
      assert SweptJobs(jobs, op.now)[op.picked.value] == Swept(jobs[op.picked.value], op.now);
    }
  }

  predicate Flagged(before: Project, after: Project) {
    after == if before.execution == WriteInProgress then before.(execution := ExecutionState.ReconcileRequired)
             else before
  }

  /** A row-by-row sweep flags the projects of its rows. */
  lemma {:induction false} SweepFlags(db: Db, rows: seq<Id>, p: Id)
    requires p in db.projects && forall i :: 0 <= i < |rows| ==> rows[i] in db.jobs
    ensures var after := SweepProjects(db, rows).projects[p];
            if exists i :: 0 <= i < |rows| && db.jobs[rows[i]].project == p then Flagged(db.projects[p], after)
            else after == db.projects[p]
  {
    if rows != [] {
      var n := |rows| - 1;
      SweepFlags(db, rows[..n], p);
      if i :| 0 <= i < |rows| && db.jobs[rows[i]].project == p {
        assert i == n || rows[..n][i] == rows[i];
      }
    }
  }

  lemma InterruptedIsListed(run: Run, m: nat, j: Id) returns (i: nat)
    requires m < |run.ops| && Interrupted(run.dbs[m], run.ops[m], j)
    ensures i < |run.ops[m].rows| && run.ops[m].rows[i] == j
    ensures forall k :: 0 <= k < |run.ops[m].rows| ==> run.ops[m].rows[k] in run.dbs[m].jobs
  {
    TakeStep(run, m);
    assert j in IndeterminateJobs(run.dbs[m].jobs, run.ops[m].now);
    i :| 0 <= i < |run.ops[m].rows| && run.ops[m].rows[i] == j;
    forall k | 0 <= k < |run.ops[m].rows| ensures run.ops[m].rows[k] in run.dbs[m].jobs {
      assert run.ops[m].rows[k] in IndeterminateJobs(run.dbs[m].jobs, run.ops[m].now);
    }
  }

  /** The claim that finds an interrupted external operation flags its project: out of WRITE_IN_PROGRESS into
      RECONCILE_REQUIRED, and nothing else about it changes. */
  lemma InterruptedFlagsProject(run: Run, m: nat, j: Id)
    requires m < |run.ops| && Interrupted(run.dbs[m], run.ops[m], j)
    requires run.dbs[m].jobs[j].project in run.dbs[m].projects
    ensures var p := run.dbs[m].jobs[j].project;
            p in run.dbs[m + 1].projects && Flagged(run.dbs[m].projects[p], run.dbs[m + 1].projects[p])
  {
    var db, op := run.dbs[m], run.ops[m];
    var swept := db.(jobs := SweptJobs(db.jobs, op.now));
    var i := InterruptedIsListed(run, m, j);
    TakeStep(run, m);
    assert swept.jobs[op.rows[i]].project == db.jobs[j].project;
    SweepFlags(swept, op.rows, db.jobs[j].project);
  }

  predicate Claims(op: Op, j: Id) {
    op.ClaimJob? && op.picked == Some(j)
  }

  /** An interrupted external operation is never replayed: the claim that finds it sends it to reconciliation,
      with no owner left, and from then on its row never changes and no claim ever takes it, whatever anybody
      finishes, cancels or resumes. */
  lemma InterruptedIsNeverReplayed(run: Run, m: nat, n: nat, j: Id)
    requires m < n <= |run.ops| && Interrupted(run.dbs[m], run.ops[m], j)
    ensures j in run.dbs[n].jobs
    ensures run.dbs[n].jobs[j] == run.dbs[m].jobs[j].(status := NeedsReconcile, owner := None, expires := None)
    ensures !Claims(run.ops[m], j) && (n < |run.ops| ==> !Claims(run.ops[n], j))
  {
    ClaimDecides(run, m, j);
    FinalRowsAreFrozen(run, m + 1, n, j);
    if n < |run.ops| && run.ops[n].ClaimJob? {
      ClaimDecides(run, n, j);
    }
  }

  // ----- finishes, cancels, resumes, heartbeats -----

  predicate Owns(job: Job, worker: Id) {
    job.status == Running && job.owner == Some(worker)
  }

  /** The columns of row j after any operation but a claim. */
  function ColumnsAfter(job: Job, j: Id, op: Op): Job {
    match op
    case FinishJob(k, worker, status, result, now) =>
      if k != j || !Owns(job, worker) then job
      else Job(job.project, job.kind, job.input, status, job.attempt, job.maxAttempts, None, None, now + 30,
               job.createdAt, result)
    case CancelJob(k) =>
      if k != j || job.status !in {Pending, Retry} then job
      else job.(status := Cancelled, owner := None, expires := None)
    case ResumeJob(k, now) =>
      if k != j || job.status !in {Failed, Cancelled} then job
      else job.(status := Pending, attempt := 0, nextRun := now)
    case HeartbeatJob(k, worker, until) => if k == j && Owns(job, worker) then job.(expires := Some(until)) else job
    case HeartbeatWorker(worker, until) => if Owns(job, worker) then job.(expires := Some(until)) else job
    case _ => job
  }

  lemma OtherRowStep(run: Run, m: nat, j: Id)
    requires m < |run.ops| && !run.ops[m].ClaimJob? && j in run.dbs[m].jobs
    ensures j in run.dbs[m + 1].jobs
    ensures run.dbs[m + 1].jobs[j] == ColumnsAfter(run.dbs[m].jobs[j], j, run.ops[m])
  {
    RowStep(run, m, j);
  }

  /** Step i sent j back to the queue. */
  predicate SentBack(run: Run, i: nat, j: Id)
    requires i < |run.ops|
  {
    && run.ops[i].FinishJob? && run.ops[i].j == j && run.ops[i].status == Retry
    && j in run.dbs[i].jobs && Owns(run.dbs[i].jobs[j], run.ops[i].worker)
  }

  ghost predicate Untouched(run: Run, i: nat, k: nat, j: Id)
    requires k <= |run.ops|
  {
    forall m :: i < m < k ==> !Claims(run.ops[m], j) && !(run.ops[m].ResumeJob? && run.ops[m].j == j)
  }

  lemma {:induction false} SentBackStays(run: Run, i: nat, k: nat, j: Id)
    requires i < k <= |run.ops| && SentBack(run, i, j) && Untouched(run, i, k, j)
    ensures j in run.dbs[k].jobs && run.dbs[k].jobs[j].nextRun == run.ops[i].now + 30
    ensures run.dbs[k].jobs[j].status in {Retry, Cancelled}
    decreases k
  {
    if k == i + 1 {
      OtherRowStep(run, i, j);
    } else {
      SentBackStays(run, i, k - 1, j);
      if run.ops[k - 1].ClaimJob? {
        ClaimDecides(run, k - 1, j);
      } else {
        OtherRowStep(run, k - 1, j);
      }
    }
  }

  /** A job sent back to the queue is not claimed again, unless it is resumed, before a claim reads a clock
      thirty seconds on. */
  lemma RetryWaits(run: Run, i: nat, k: nat, j: Id)
    requires i < k < |run.ops| && SentBack(run, i, j) && Untouched(run, i, k, j) && Claims(run.ops[k], j)
    ensures run.ops[i].now + 30 <= run.ops[k].now
  {
    SentBackStays(run, i, k, j);
    ClaimDecides(run, k, j);
  }

  /** An accepted failure report sends the job back to the queue while it has attempts left, and fails it otherwise. */
  lemma FailureIsExact(db: Db, j: Id, worker: Id, now: Time)
    requires j in db.jobs && Owns(db.jobs[j], worker)
    ensures var job, next := db.jobs[j], FailAtomically(db, j, worker, now);
            next.jobs == db.jobs[j := job.(status := if job.attempt < job.maxAttempts then Retry else Failed,
                                           result := None, owner := None, expires := None, nextRun := now + 30)]
  {
  }

  /** A failure reported in two steps, in any run in which the worker claims nothing in between and still owns
      the job at the end: the job goes back to the queue exactly if it was claimed fewer times since its last
      resume than its limit, and is FAILED otherwise. */
  lemma FailureIsRetriedExactly(run: Run, i: nat, k: nat, j: Id, worker: Id, now: Time)
    requires i <= k <= |run.ops| && j in run.dbs[i].jobs && ClaimsNothing(run, i, k, worker)
    requires j in run.dbs[k].jobs && Owns(run.dbs[k].jobs[j], worker)
    ensures var next := Step(run.dbs[k], FinishJob(j, worker, FailureStatus(run.dbs[i].jobs[j]), None, now));
            && j in next.jobs
            && next.jobs[j].status == (if TallyOf(run, j, k).sinceResume < run.dbs[k].jobs[j].maxAttempts then Retry
                                       else Failed)
            && next.jobs[j].nextRun == now + 30 && next.jobs[j].owner == None
  {
    LeasesAreConserved(run, j, k);
    OwnershipReachesBack(run, i, k, j, worker);
  }

  // ----- state moves -----

  /** The edges of the three surfaces, by the state they lead to. */
  predicate ProjectEdge(from: ProjectState, to: ProjectState) {
    match to
    case Draft => false
    case InputValidated => from in {Draft, WaitingBudget, AdvisoryReady, FailedClosed}
    case ThreeChainReady => from == InputValidated
    case MatrixReady => from in {ThreeChainReady, WaitingBudget}
    case WaitingBudget => from in {ThreeChainReady, MatrixReady}
    case WaitingConfirmation => from == MatrixReady
    case AdvisoryReady => from == WaitingConfirmation
    case FailedClosed => from !in {WaitingBudget, FailedClosed, ProjectClosed}
    case ProjectClosed => from in {WaitingBudget, AdvisoryReady, FailedClosed}
  }

  predicate ExecutionEdge(from: ExecutionState, to: ExecutionState) {
    match to
    case NoExecution => from in {TestWriteAuthorized, ProductionCreateAuthorized}
    case TestWriteAuthorized => from in {NoExecution, ReadbackVerified, RecoveryRequired, WaitingReleaseAuthorization}
    case ProductionCreateAuthorized => from in {NoExecution, RecoveryRequired}
    case WriteInProgress => from in {TestWriteAuthorized, ProductionCreateAuthorized}
    case PartiallyCreatedPaused => from == WriteInProgress
    case PauseFailedEmergency => from == WriteInProgress
    case CreatePaused => from == WriteInProgress
    case ReadbackVerified => from in {WriteInProgress, CreatePaused, ExecutionState.ReconcileRequired}
    case ReadbackMismatch => from in {WriteInProgress, CreatePaused}
    case ReconcileRequired =>
      from in {WriteInProgress, PartiallyCreatedPaused, PauseFailedEmergency, CreatePaused, ReadbackMismatch,
               RecoveryRequired, RelockFailed}
    case RecoveryRequired =>
      from in {WriteInProgress, PartiallyCreatedPaused, PauseFailedEmergency, ReadbackMismatch,
               ExecutionState.ReconcileRequired, RelockFailed}
    case RelockFailed => from in {WriteInProgress, CreatePaused, ExecutionState.ReconcileRequired}
    case WaitingReleaseAuthorization => from in {WriteInProgress, ReadbackVerified}
  }

  predicate DeliveryEdge(from: DeliveryState, to: DeliveryState) {
    match to
    case NotReleased => false
    case FeedLearning => from == NotReleased
    case SearchEligible => from == FeedLearning
    case Stable => from in {FeedLearning, SearchEligible}
    case Closing => from in {FeedLearning, SearchEligible, Stable}
    case DeliveryClosed => from in {NotReleased, Closing}
  }

  lemma EdgesAreTheTable(p: ProjectState, p': ProjectState, e: ExecutionState, e': ExecutionState, d: DeliveryState,
                         d': DeliveryState)
    ensures ProjectEdge(p, p') <==> p' in ProjectTransitions(p)
    ensures ExecutionEdge(e, e') <==> e' in ExecutionTransitions(e)
    ensures DeliveryEdge(d, d') <==> d' in DeliveryTransitions(d)
  {
    assert ExecutionEdge(e, e') <==> e' in ExecutionTransitions(e) by {
      match e {
        case WriteInProgress =>
        case _ =>
      }
    }
  }

  /** The row a project has after an operation: a move is made exactly along an edge of its surface, a claim
      flags the projects of the operations it finds interrupted, and nothing else touches a project. */
  ghost predicate MovesTo(db: Db, op: Op, p: Id, before: Project, after: Project) {
    if op.MoveProject? && op.p == p && ProjectEdge(before.project, op.projectTarget) then
      after == Project(op.projectTarget, before.execution, before.delivery)
    else if op.MoveExecution? && op.p == p && ExecutionEdge(before.execution, op.executionTarget) then
      after == Project(before.project, op.executionTarget, before.delivery)
    else if op.MoveDelivery? && op.p == p && DeliveryEdge(before.delivery, op.deliveryTarget) then
      after == Project(before.project, before.execution, op.deliveryTarget)
    else if exists j :: Interrupted(db, op, j) && db.jobs[j].project == p then Flagged(before, after)
    else after == before
  }

  lemma ClaimMoves(run: Run, m: nat, p: Id)
    requires m < |run.ops| && run.ops[m].ClaimJob? && p in run.dbs[m].projects
    ensures p in run.dbs[m + 1].projects
    ensures MovesTo(run.dbs[m], run.ops[m], p, run.dbs[m].projects[p], run.dbs[m + 1].projects[p])
  {
    var db, op := run.dbs[m], run.ops[m];
    var swept := db.(jobs := SweptJobs(db.jobs, op.now));
    TakeStep(run, m);
    if j :| Interrupted(db, op, j) && db.jobs[j].project == p {
      InterruptedFlagsProject(run, m, j);
    } else {
      forall i | 0 <= i < |op.rows| ensures op.rows[i] in swept.jobs && swept.jobs[op.rows[i]].project != p {
        assert op.rows[i] in IndeterminateJobs(db.jobs, op.now);
        assert Interrupted(db, op, op.rows[i]);
      }
      SweepFlags(swept, op.rows, p);
    }
  }

  lemma ProjectMoves(run: Run, m: nat, p: Id)
    requires m < |run.ops| && p in run.dbs[m].projects
    ensures p in run.dbs[m + 1].projects
    ensures MovesTo(run.dbs[m], run.ops[m], p, run.dbs[m].projects[p], run.dbs[m + 1].projects[p])
  {
    if run.ops[m].ClaimJob? {
      ClaimMoves(run, m, p);
    } else {
      TakeStep(run, m);
      var op, row := run.ops[m], run.dbs[m].projects[p];
      EdgesAreTheTable(row.project, if op.MoveProject? then op.projectTarget else Draft,
                       row.execution, if op.MoveExecution? then op.executionTarget else NoExecution,
                       row.delivery, if op.MoveDelivery? then op.deliveryTarget else NotReleased);
    }
  }

  // ----- what stands behind a job that needs a grant -----

  predicate SpentFor(db: Db, g: Id, p: Id, grantType: GrantType) {
    && g in db.grants && db.grants[g].grantType == grantType && db.grants[g].project == p
    && db.grants[g].status == Consumed
    && db.grants[g].consumedAt.Some? && db.grants[g].consumedAt.value < db.grants[g].expiresAt
  }

  predicate ListsPlans(scope: GrantScope, plans: seq<Plan>) {
    && scope.PlanScope? && |plans| == |scope.revisions| == |scope.hashes|
    && forall i :: 0 <= i < |plans| ==>
         && plans[i].revision == scope.revisions[i]
         && plans[i].payloadSha == scope.hashes[i] && plans[i].payload == scope.hashes[i].content
  }

  /** In every reachable state of the system: an EXECUTE_TEST job names a consumed execution grant of its project
      that lists exactly its plans and their payloads, a PRODUCTION_CREATE job a consumed production-create
      grant that does, a RELEASE job a consumed release grant of exactly its terms. */
  lemma GatedJobsAreGranted(run: SystemRun, n: nat, j: Id)
    requires n <= |run.ops| && j in run.dbs[n].jobs
    ensures var db, job := run.dbs[n], run.dbs[n].jobs[j];
            && (job.kind in {ExecuteTest, ProductionCreate} ==>
                  && job.input.WriteInput?
                  && SpentFor(db, job.input.order.grant, job.project,
                              if job.kind == ExecuteTest then ExecutionGrant else ProductionCreateGrant)
                  && ListsPlans(db.grants[job.input.order.grant].scope, job.input.order.plans))
            && (job.kind == Release ==>
                  && job.input.ReleaseInput? && SpentFor(db, job.input.grant, job.project, ReleaseGrant)
                  && db.grants[job.input.grant].scope.CampaignScope?
                  && db.grants[job.input.grant].scope.terms == job.input.terms)
  {
    var db, job := run.dbs[n], run.dbs[n].jobs[j];
    if job.kind in {ExecuteTest, ProductionCreate, Release} {
      RowsAreSound(run, n, j);
      GrantsAndJobsBiject(run, n);
      var g :| Authorised(db, j, g);
      if job.kind != Release {
        PlansAreListed(job.input.order, db.grants[g].scope);
      }
    }
  }

  lemma PlansAreListed(order: WriteOrder, scope: GrantScope)
    requires Covers(scope, WriteInput(order)) && AllIntact(order.plans)
    ensures ListsPlans(scope, order.plans)
  {
    forall i | 0 <= i < |order.plans|
      ensures order.plans[i].revision == scope.revisions[i]
      ensures order.plans[i].payloadSha == scope.hashes[i] && order.plans[i].payload == scope.hashes[i].content
    {
      assert PlanListed(order.plans[i], scope.revisions[i], scope.hashes[i]) && Intact(order.plans[i]);
    }
  }

  // ----- grants and work keys -----

  /** When a grant is issued, consumed or revoked, and what it then holds. */
  lemma GrantDecides(run: Run, m: nat)
    requires m < |run.ops|
    ensures var db, next := run.dbs[m], run.dbs[m + 1];
            match run.ops[m]
            case IssueGrant(g, p, grantType, scope, nonce, expiresAt) =>
              next.grants == if g !in db.grants && p in db.projects && !NonceTaken(db, p, grantType, nonce) then
                               db.grants[g := Grant(p, grantType, Issued, scope, nonce, expiresAt, None)]
                             else db.grants
            case ConsumeGrant(g, grantType, p, kind, input, maxAttempts, j, now) =>
              if !WorkTaken(db, p, kind, input) && p in db.projects && MayConsume(db, g, grantType, p, now) then
                && next.grants == db.grants[g := db.grants[g].(status := Consumed, consumedAt := Some(now))]
                && next.jobs == db.jobs[j := Job(p, kind, input, Pending, 0, maxAttempts, None, None, now, now, None)]
              else next == db
            case RevokeGrant(g) =>
              next.grants == if g in db.grants && db.grants[g].status == Issued then
                               db.grants[g := db.grants[g].(status := Revoked)]
                             else db.grants
            case EnqueueJob(p, kind, input, maxAttempts, j, now) =>
              next.jobs == if p in db.projects && !WorkTaken(db, p, kind, input) then
                             db.jobs[j := Job(p, kind, input, Pending, 0, maxAttempts, None, None, now, now, None)]
                           else db.jobs
            case _ => next.grants == db.grants
  {
    TakeStep(run, m);
  }

  predicate NonceTaken(db: Db, p: Id, grantType: GrantType, nonce: Id) {
    exists h :: h in db.grants && db.grants[h].project == p && db.grants[h].grantType == grantType
                && db.grants[h].nonce == nonce
  }

  predicate WorkTaken(db: Db, p: Id, kind: JobKind, input: JobInput) {
    exists j :: j in db.jobs && db.jobs[j].project == p && db.jobs[j].kind == kind && db.jobs[j].input == input
  }

  predicate MayConsume(db: Db, g: Id, grantType: GrantType, p: Id, now: Time) {
    && g in db.grants && db.grants[g].project == p && db.grants[g].grantType == grantType
    && db.grants[g].status == Issued && db.grants[g].expiresAt > now
  }

  /** In every reachable state no two jobs are the same work. */
  lemma {:induction false} WorkIsUnique(run: Run, n: nat, j: Id, k: Id)
    requires n <= |run.ops| && j in run.dbs[n].jobs && k in run.dbs[n].jobs && j != k
    ensures var a, b := run.dbs[n].jobs[j], run.dbs[n].jobs[k];
            !(a.project == b.project && a.kind == b.kind && a.input == b.input)
  {
    var i := n - 1;
    TakeStep(run, i);
    if j in run.dbs[i].jobs && k in run.dbs[i].jobs {
      WorkIsUnique(run, i, j, k);
      RowPersists(run, i, n, j);
      RowPersists(run, i, n, k);
    } else if j in run.dbs[i].jobs {
      NewRow(run.dbs[i], run.ops[i], k);
      RowPersists(run, i, n, j);
      GrantDecides(run, i);
    } else {
      NewRow(run.dbs[i], run.ops[i], j);
      if k in run.dbs[i].jobs {
        RowPersists(run, i, n, k);
        GrantDecides(run, i);
      } else {
        NewRow(run.dbs[i], run.ops[i], k);
      }
    }
  }

  lemma GrantStep(run: Run, i: nat, g: Id)
    requires i < |run.ops| && g in run.dbs[i + 1].grants
    ensures g !in run.dbs[i].grants ==>
              && run.ops[i].IssueGrant? && run.ops[i].g == g
              && var row := run.dbs[i + 1].grants[g];
                 !NonceTaken(run.dbs[i], row.project, row.grantType, row.nonce)
    ensures g in run.dbs[i].grants ==>
              var a, b := run.dbs[i].grants[g], run.dbs[i + 1].grants[g];
              a.project == b.project && a.grantType == b.grantType && a.nonce == b.nonce
  {
    GrantDecides(run, i);
    TakeStep(run, i);
    if g in run.dbs[i].grants {
      GrantRowEffect(run.dbs[i], run.ops[i], g);
    } else {
      NewGrantRow(run.dbs[i], run.ops[i], g);
    }
  }

  /** Nor do two grants of one project and type ever share a nonce. */
  lemma {:induction false} NoncesAreUnique(run: Run, n: nat, g: Id, h: Id)
    requires n <= |run.ops| && g in run.dbs[n].grants && h in run.dbs[n].grants && g != h
    ensures var a, b := run.dbs[n].grants[g], run.dbs[n].grants[h];
            !(a.project == b.project && a.grantType == b.grantType && a.nonce == b.nonce)
  {
    var i := n - 1;
    GrantStep(run, i, g);
    GrantStep(run, i, h);
    if g in run.dbs[i].grants && h in run.dbs[i].grants {
      NoncesAreUnique(run, i, g, h);
    }
  }

  // ----- events -----

  /** What each transaction adds to the outbox and to the transition log, moves of a state apart: one event exactly
      if it created, issued, revoked, consumed or recorded something, and no log entry. */
  lemma EventsAreAnnounced(run: Run, m: nat)
    requires m < |run.ops| && !run.ops[m].ClaimJob?
    requires !run.ops[m].MoveProject? && !run.ops[m].MoveExecution? && !run.ops[m].MoveDelivery?
    ensures var op, db, next := run.ops[m], run.dbs[m], run.dbs[m + 1];
            && next.log == db.log
            && next.outbox == db.outbox
                 + match op
                   case CreateProject(p) => if p in db.projects then [] else [ProjectCreated(p)]
                   case EmitEvent(event) => [event]
                   case IssueGrant(g, _, _, _, _, _) => if next.grants == db.grants then [] else [GrantIssued(g)]
                   case RevokeGrant(g) => if next.grants == db.grants then [] else [GrantRevoked(g)]
                   case ConsumeGrant(g, _, _, _, _, _, j, _) =>
                     if next.grants == db.grants then [] else [GrantConsumed(g, j)]
                   case _ => []
  {
    TakeStep(run, m);
    var op, db, next := run.ops[m], run.dbs[m], run.dbs[m + 1];
    if op.IssueGrant? && GrantInsertable(db, op.g, op.p, op.grantType, op.nonce) {
      assert op.g in next.grants && op.g !in db.grants;
    } else if op.RevokeGrant? && op.g in db.grants && db.grants[op.g].status == Issued {
      assert next.grants[op.g].status == Revoked;
    } else if op.ConsumeGrant? && next != db {
      assert next.grants[op.g].status == Consumed && db.grants[op.g].status == Issued;
    }
  }
}
