/** SeedingService: the worker that drains the job queue, and the calls that enqueue external work. Every
    store access is its own transaction, and other connections commit freely in between; whatever they
    do, every transaction asked for here keeps CallerOk, so the store's history stays a run of the whole
    system. */
module Service {
  import opened Common
  import opened Payloads
  import opened State
  import opened Platform
  import opened Traces
  import opened Database
  import opened ArtifactRows
  import opened SystemRuns
  import opened Store
  import opened Dispatch
  import E = Execution
  import R = Reconciliation
  import L = Release

  // ----- bookkeeping over histories -----

  lemma Committed(h: History, op: Op, next: Db)
    requires Requested(h) && Legal(h.dbs[|h.ops|], op) && next == Step(h.dbs[|h.ops|], op)
    requires CallerOk(h.dbs[|h.ops|], op)
    ensures Requested(Recorded(h, op, next)) && Continues(h, Recorded(h, op, next))
  {
    RecordedRequested(h, op, next);
  }

  /** Row j was `job` after n transactions. */
  predicate JobWas(h: History, n: nat, j: Id, job: Job) {
    n <= |h.ops| < |h.dbs| && j in h.dbs[n].jobs && h.dbs[n].jobs[j] == job
  }

  predicate SameJob(row: Job, job: Job) {
    row.project == job.project && row.kind == job.kind && row.input == job.input
  }

  lemma JobStays(h: History, n: nat, j: Id, job: Job)
    requires Requested(h) && JobWas(h, n, j, job)
    ensures j in h.dbs[|h.ops|].jobs && SameJob(h.dbs[|h.ops|].jobs[j], job)
  {
    RowPersists(h, n, |h.ops|, j);
  }

  lemma JobIsSound(h: History, n: nat, j: Id, job: Job)
    requires Requested(h) && JobWas(h, n, j, job)
    ensures RowSound(job)
  {
    RowsAreSound(h, n, j);
  }

  lemma {:induction false} ArtifactsPersist(run: Run, i: nat, k: nat)
    requires i <= k <= |run.ops|
    ensures run.dbs[i].artifacts <= run.dbs[k].artifacts
    decreases k
  {
    if i < k {
      ArtifactsPersist(run, i, k - 1);
      TakeStep(run, k - 1);
      ArtifactsGrow(run.dbs[k - 1], run.ops[k - 1]);
    }
  }

  /** The last transaction moved p's execution state to `target`, and the table allowed it. */
  predicate EnteredExecution(h: History, p: Id, target: ExecutionState) {
    && h.ops != [] && |h.dbs| == |h.ops| + 1
    && h.ops[|h.ops| - 1] == MoveExecution(p, target)
    && p in h.dbs[|h.ops| - 1].projects
    && target in ExecutionTransitions(h.dbs[|h.ops| - 1].projects[p].execution)
  }

  predicate EnteredDelivery(h: History, p: Id, target: DeliveryState) {
    && h.ops != [] && |h.dbs| == |h.ops| + 1
    && h.ops[|h.ops| - 1] == MoveDelivery(p, target)
    && p in h.dbs[|h.ops| - 1].projects
    && target in DeliveryTransitions(h.dbs[|h.ops| - 1].projects[p].delivery)
  }

  /** A reconcile that has a target state ended by entering it. A verified production batch therefore
      got there from WRITE_IN_PROGRESS or READBACK_VERIFIED, never from RECONCILE_REQUIRED. */
  predicate ReconcileRecorded(h: History, job: Job, status: BatchStatus) {
    match job.input
    case ReconcileInput(_, order) =>
      var target := ReconcileTarget(order.production, status);
      target.Some? ==> EnteredExecution(h, job.project, target.value)
    case _ => false
  }

  predicate EnteredAt(h: History, k: nat, p: Id, target: ExecutionState) {
    && k < |h.ops| < |h.dbs| && h.ops[k] == MoveExecution(p, target) && p in h.dbs[k].projects
    && target in ExecutionTransitions(h.dbs[k].projects[p].execution)
  }

  /** Some transaction from step `from` on moved p's execution state to `target`. */
  ghost predicate EnteredSince(h: History, from: nat, p: Id, target: ExecutionState) {
    exists k :: from <= k && EnteredAt(h, k, p, target)
  }

  /** From step `from` on, the project entered the state that the engine run demands, if it demands one. */
  ghost predicate Moved(h: History, from: nat, job: Job, run: JobRun) {
    match run
    case ExecuteRun(_, _, batch) =>
      EnteredSince(h, from, job.project, CreateTarget(job.kind == ProductionCreate, batch.status))
    case ReconcileRun(_, _, batch) =>
      HasOrder(job.input)
      && var target := ReconcileTarget(job.input.order.production, batch.status);
         target.Some? ==> EnteredSince(h, from, job.project, target.value)
    case _ => true
  }

  lemma EnteredLater(earlier: History, h: History, from: nat, p: Id, target: ExecutionState)
    requires Continues(earlier, h) && |h.ops| < |h.dbs|
    ensures EnteredSince(earlier, from, p, target) ==> EnteredSince(h, from, p, target)
  {
    if k :| from <= k && EnteredAt(earlier, k, p, target) {
      assert EnteredAt(h, k, p, target);
    }
  }

  lemma MovedLater(earlier: History, h: History, from: nat, job: Job, run: JobRun)
    requires Continues(earlier, h) && |h.ops| < |h.dbs| && Moved(earlier, from, job, run)
    ensures Moved(h, from, job, run)
  {
    match run
    case ExecuteRun(_, _, batch) =>
      EnteredLater(earlier, h, from, job.project, CreateTarget(job.kind == ProductionCreate, batch.status));
    case ReconcileRun(_, _, batch) =>
      var target := ReconcileTarget(job.input.order.production, batch.status);
      if target.Some? {
        EnteredLater(earlier, h, from, job.project, target.value);
      }
    case _ =>
  }

  predicate SpendRecorded(h: History, p: Id, status: SpendStatus) {
    match status
    case WithinCap => true
    case CapExceededPaused => EnteredDelivery(h, p, DeliveryClosed)
    case CapExceededRelockFailed => EnteredDelivery(h, p, Closing)
  }

  /** The last transaction finished job j, which `worker` then owned. */
  predicate JustFinished(h: History, j: Id, worker: Id, status: JobStatus, result: JobResult) {
    && h.ops != [] && |h.dbs| == |h.ops| + 1
    && var op, db := h.ops[|h.ops| - 1], h.dbs[|h.ops| - 1];
       && op.FinishJob? && op.j == j && op.worker == worker && op.status == status && op.result == Some(result)
       && j in db.jobs && OwnedBy(db.jobs[j], worker)
  }

  predicate IsReconcileReport(op: Op, j: Id, worker: Id) {
    op.FinishJob? && op.j == j && op.worker == worker && op.status == NeedsReconcile
    && op.result == Some(WorkerException)
  }

  /** Some transaction from step `from` on reported the job as needing reconciliation. */
  ghost predicate AskedReconcile(h: History, from: nat, j: Id, worker: Id) {
    exists k :: from <= k < |h.ops| && IsReconcileReport(h.ops[k], j, worker)
  }

  predicate IsPut(op: Op, job: Job, kind: ArtifactKind, content: ArtifactContent) {
    op.PutArtifact? && op.p == job.project && op.artifactKind == kind && op.input == job.input && op.content == content
  }

  /** Transaction k offered this content for the artifact of the job and kind, and was accepted. */
  predicate OfferedAt(h: History, k: nat, job: Job, kind: ArtifactKind, content: ArtifactContent) {
    k < |h.ops| < |h.dbs| && IsPut(h.ops[k], job, kind, content) && job.project in h.dbs[k].projects
  }

  /** Some transaction from step `from` on did. Whether that stored it, OfferedIsStoredExactly says. */
  ghost predicate Offered(h: History, from: nat, job: Job, kind: ArtifactKind, content: ArtifactContent) {
    exists k :: from <= k && OfferedAt(h, k, job, kind, content)
  }

  /** When an offered artifact is what a reader will find, now and for the rest of the run: exactly if nothing
      was stored for the job and kind before, or the same content was. Otherwise the earlier one stays. */
  lemma OfferedIsStoredExactly(h: History, k: nat, n: nat, job: Job, kind: ArtifactKind, content: ArtifactContent)
    requires Requested(h) && k < n <= |h.ops| && OfferedAt(h, k, job, kind, content)
    ensures var before, now := StoredUnder(h.dbs[k].artifacts, job.project, kind, job.input),
                               StoredUnder(h.dbs[n].artifacts, job.project, kind, job.input);
            && now.Some?
            && (now.value.content == content <==> before.None? || before.value.content == content)
            && (before.Some? ==> now == before)
  {
    PutStoresExactly(h, k, n);
  }

  lemma OfferedLater(earlier: History, h: History, from: nat, later: nat, job: Job, kind: ArtifactKind,
                     content: ArtifactContent)
    requires Continues(earlier, h) && |h.ops| < |h.dbs| && from <= later && Offered(earlier, later, job, kind, content)
    ensures Offered(h, from, job, kind, content)
  {
    var k :| later <= k && OfferedAt(earlier, k, job, kind, content);
    assert OfferedAt(h, k, job, kind, content);
  }

  /** Some transaction from step `from` on put this event in the outbox. */
  ghost predicate Emitted(h: History, from: nat, event: Event) {
    exists k :: from <= k < |h.ops| && h.ops[k] == EmitEvent(event)
  }

  /** What a failed or safe recovery does to the delivery surface, as it was read after step `from`: an open
      surface is closed as far as the pause was confirmed, and one that never opened is closed if it was. */
  ghost predicate WoundDown(h: History, from: nat, p: Id, safe: bool) {
    exists k :: from <= k <= |h.ops| && |h.dbs| == |h.ops| + 1 && WoundDownFrom(h, k, p, safe)
  }

  predicate WoundDownFrom(h: History, k: nat, p: Id, safe: bool)
    requires k <= |h.ops| && |h.dbs| == |h.ops| + 1
  {
    && p in h.dbs[k].projects
    && var delivery := h.dbs[k].projects[p].delivery;
       if delivery in {FeedLearning, SearchEligible, Stable} then
         EnteredDelivery(h, p, if safe then DeliveryClosed else Closing)
       else safe && delivery == NotReleased ==> EnteredDelivery(h, p, DeliveryClosed)
  }

  lemma WoundDownLater(h: History, from: nat, later: nat, p: Id, safe: bool)
    requires from <= later
    ensures WoundDown(h, later, p, safe) ==> WoundDown(h, from, p, safe)
  {
  }

  lemma EarningIsPerJob(row: Job, job: Job, result: Option<JobResult>)
    requires SameJob(row, job) && EarnsSuccess(job, result)
    ensures EarnsSuccess(row, result)
  {
  }

  class SeedingService {
    const store: SeedingStore
    const world: World
    const engine: E.TestExecutionEngine
    const reconciler: R.Reconciler
    const releaser: L.ProductionReleaseEngine
    const testReady: bool
    const productionReady: bool
    const releaseReady: bool

    constructor (store: SeedingStore, world: World, testReady: bool, productionReady: bool, releaseReady: bool)
      ensures this.store == store && this.world == world && Wired()
    {
      var engine := new E.TestExecutionEngine(world);
      var reconciler := new R.Reconciler(engine);
      var releaser := new L.ProductionReleaseEngine(world);
      this.store, this.world := store, world;
      this.engine, this.reconciler, this.releaser := engine, reconciler, releaser;
      this.testReady, this.productionReady, this.releaseReady := testReady, productionReady, releaseReady;
    }

    ghost predicate Wired() {
      engine.world == world && reconciler.engine == engine && releaser.world == world
    }

    ghost predicate Sound()
      reads store
    {
      store.Valid() && Requested(store.history)
    }

    /** Everything committed since the old state, here or elsewhere, extends the run properly. */
    twostate predicate Advanced()
      reads store
    {
      Sound() && Continues(old(store.history), store.history)
    }

    method Clock() returns (now: Time) {
      now := *;
    }

    /** Between two transactions: others commit, and the next access may fail for any reason. */
    method Between(ghost worker: Option<Id>) returns (broken: bool)
      requires Sound()
      modifies store
      ensures Advanced()
    {
      store.Interleave(worker);
      broken := *;
    }

    // ----- single transactions -----

    method MoveExecutionTo(ghost worker: Option<Id>, p: Id, target: ExecutionState) returns (ok: bool)
      requires Sound()
      modifies store
      ensures Advanced()
      ensures ok ==> EnteredExecution(store.history, p, target) && |store.history.ops| > |old(store.history).ops|
    {
      var broken := Between(worker);
      if broken {
        return false;
      }
      ghost var h := store.history;
      var r := store.TransitionExecution(p, target);
      Committed(h, MoveExecution(p, target), store.Rows());
      ok := r.Ok?;
    }

    method MoveDeliveryTo(ghost worker: Option<Id>, p: Id, target: DeliveryState) returns (ok: bool)
      requires Sound()
      modifies store
      ensures Advanced()
      ensures ok ==> EnteredDelivery(store.history, p, target)
    {
      var broken := Between(worker);
      if broken {
        return false;
      }
      ghost var h := store.history;
      var r := store.TransitionDelivery(p, target);
      Committed(h, MoveDelivery(p, target), store.Rows());
      ok := r.Ok?;
    }

    method FailProject(ghost worker: Option<Id>, p: Id)
      requires Sound()
      modifies store
      ensures Advanced()
    {
      var broken := Between(worker);
      if broken {
        return;
      }
      if p in store.projects
         && store.projects[p].project in {InputValidated, ThreeChainReady, MatrixReady, WaitingConfirmation} {
        broken := Between(worker);
        if !broken {
          ghost var h := store.history;
          var _ := store.TransitionProject(p, FailedClosed);
          Committed(h, MoveProject(p, FailedClosed), store.Rows());
        }
      }
    }

    method Put(ghost worker: Option<Id>, job: Job, kind: ArtifactKind, content: ArtifactContent) returns (ok: bool)
      requires Sound()
      modifies store
      ensures Advanced()
      ensures ok ==> Offered(store.history, |old(store.history).ops|, job, kind, content)
    {
      var broken := Between(worker);
      if broken {
        return false;
      }
      var now := Clock();
      var a: Id := *;
      ghost var h := store.history;
      var r := store.StoreArtifact(a, job.project, kind, job.input, content, now);
      Committed(h, PutArtifact(a, job.project, kind, job.input, content, now), store.Rows());
      ok := r.Ok?;
      assert ok ==> OfferedAt(store.history, |h.ops|, job, kind, content);
    }

    method Announce(ghost worker: Option<Id>, event: Event) returns (ok: bool)
      requires Sound() && !event.StateChanged?
      modifies store
      ensures Advanced()
      ensures ok ==> Emitted(store.history, |old(store.history).ops|, event)
    {
      var broken := Between(worker);
      if broken {
        return false;
      }
      ghost var h := store.history;
      store.Emit(event);
      Committed(h, EmitEvent(event), store.Rows());
      assert store.history.ops[|h.ops|] == EmitEvent(event);
      ok := true;
    }

    // ----- handlers: one engine run, then its record -----

    /** The engine run of a create job; no receipt when the adapter is missing or the engine raised. */
    method RunCreate(job: Job) returns (receipt: Option<BatchReceipt>, ghost run: JobRun)
      requires Wired() && RowSound(job) && job.kind in {ExecuteTest, ProductionCreate}
      modifies world
      ensures RunFits(job, run) && world.calls == old(world.calls) + JobTrace(job, run)
      ensures receipt.Some? ==> run.ExecuteRun? && run.batch == receipt.value
      ensures !(if job.kind == ProductionCreate then productionReady else testReady) ==> run == Silent
    {
      receipt, run := None, Silent;
      if !(if job.kind == ProductionCreate then productionReady else testReady) {
        return;
      }
      var outcome; ghost var attempts, lock;
      outcome, attempts, lock := engine.Execute(job.input.order.plans);
      if outcome == E.Raised(E.PreflightRefused) {
        run := PreflightStopped;
        return;
      }
      E.RelockSkippedExactlyOnMismatch(job.input.order.plans, attempts, lock, outcome);
      receipt, run := Some(outcome.receipt), ExecuteRun(attempts, lock, outcome.receipt);
    }

    /** _process_test_execution and _process_production_create. */
    method ProcessCreate(ghost worker: Option<Id>, job: Job) returns (result: Option<JobResult>, ghost run: JobRun)
      requires Sound() && Wired() && RowSound(job) && job.kind in {ExecuteTest, ProductionCreate}
      modifies store, world
      ensures Advanced()
      ensures RunFits(job, run) && world.calls == old(world.calls) + JobTrace(job, run)
      ensures result.Some? ==> result == ResultOf(job, run) && run.ExecuteRun?
      ensures result.Some? ==>
                EnteredExecution(store.history, job.project,
                                 CreateTarget(job.kind == ProductionCreate, run.batch.status))
      ensures result.Some? ==> Moved(store.history, |old(store.history).ops|, job, run)
      ensures result.Some? && job.kind == ProductionCreate ==>
                Offered(store.history, |old(store.history).ops|, job, ProductionReadback, ReadbackContent(run.batch))
    {
      result := None;
      var receipt;
      receipt, run := RunCreate(job);
      if receipt.None? {
        return;
      }
      var production := job.kind == ProductionCreate;
      var ok :=
        RecordAndMove(worker, job, production, receipt.value, Some(CreateTarget(production, receipt.value.status)));
      if ok {
        result := Some(BatchResult(receipt.value));
      }
    }

    /** Record the attempts and, in production, the readback the release will be checked against. */
    method RecordBatch(ghost worker: Option<Id>, job: Job, order: WriteOrder, production: bool, receipt: BatchReceipt)
      returns (ok: bool)
      requires Sound()
      modifies store
      ensures Advanced()
      ensures ok ==> Emitted(store.history, |old(store.history).ops|, ExecutionRecorded(job.project, order.grant))
      ensures ok && production ==>
                Offered(store.history, |old(store.history).ops|, job, ProductionReadback, ReadbackContent(receipt))
    {
      ok := Announce(worker, ExecutionRecorded(job.project, order.grant));
      if ok && production {
        ok := Put(worker, job, ProductionReadback, ReadbackContent(receipt));
      }
    }

    /** The record, then the move to the state the outcome demands, if it demands one. */
    method RecordAndMove(ghost worker: Option<Id>, job: Job, production: bool, receipt: BatchReceipt,
                         target: Option<ExecutionState>)
      returns (ok: bool)
      requires Sound() && HasOrder(job.input)
      modifies store
      ensures Advanced()
      ensures ok && target.Some? ==>
                EnteredExecution(store.history, job.project, target.value)
                && EnteredSince(store.history, |old(store.history).ops|, job.project, target.value)
      ensures ok && production ==>
                Offered(store.history, |old(store.history).ops|, job, ProductionReadback, ReadbackContent(receipt))
    {
      ok := RecordBatch(worker, job, job.input.order, production, receipt);
      if ok && target.Some? {
        ghost var h, from := store.history, |old(store.history).ops|;
        ok := MoveExecutionTo(worker, job.project, target.value);
        assert ok ==> EnteredAt(store.history, |store.history.ops| - 1, job.project, target.value);
        if production {
          OfferedLater(h, store.history, from, from, job, ProductionReadback, ReadbackContent(receipt));
        }
      }
    }

    method RunReconcile(job: Job) returns (receipt: Option<BatchReceipt>, ghost run: JobRun)
      requires Wired() && RowSound(job) && job.kind == Reconcile
      modifies world
      ensures RunFits(job, run) && world.calls == old(world.calls) + JobTrace(job, run)
      ensures receipt.Some? ==> run.ReconcileRun? && run.batch == receipt.value
      ensures !(if job.input.order.production then productionReady else testReady) ==> run == Silent
    {
      receipt, run := None, Silent;
      if !(if job.input.order.production then productionReady else testReady) {
        return;
      }
      var outcome; ghost var findings, lock;
      outcome, findings, lock := reconciler.Reconcile(job.input.order.plans);
      if outcome == E.Raised(E.PreflightRefused) {
        run := PreflightStopped;
        return;
      }
      R.ReconcileAlwaysRelocks(job.input.order.plans, findings, lock, outcome);
      receipt, run := Some(outcome.receipt), ReconcileRun(findings, lock, outcome.receipt);
    }

    method ProcessReconcile(ghost worker: Option<Id>, job: Job) returns (result: Option<JobResult>, ghost run: JobRun)
      requires Sound() && Wired() && RowSound(job) && job.kind == Reconcile
      modifies store, world
      ensures Advanced()
      ensures RunFits(job, run) && world.calls == old(world.calls) + JobTrace(job, run)
      ensures result.Some? ==> result == ResultOf(job, run) && run.ReconcileRun?
      ensures result.Some? ==> ReconcileRecorded(store.history, job, run.batch.status)
      ensures result.Some? ==> Moved(store.history, |old(store.history).ops|, job, run)
      ensures result.Some? && job.input.order.production ==>
                Offered(store.history, |old(store.history).ops|, job, ProductionReadback, ReadbackContent(run.batch))
    {
      result := None;
      var receipt;
      receipt, run := RunReconcile(job);
      if receipt.None? {
        return;
      }
      var production := job.input.order.production;
      var ok :=
        RecordAndMove(worker, job, production, receipt.value, ReconcileTarget(production, receipt.value.status));
      if ok {
        result := Some(BatchResult(receipt.value));
      }
    }

    method ProcessRelease(ghost worker: Option<Id>, job: Job) returns (result: Option<JobResult>, ghost run: JobRun)
      requires Sound() && Wired() && RowSound(job) && job.kind == Release
      modifies store, world
      ensures Advanced()
      ensures RunFits(job, run) && world.calls == old(world.calls) + JobTrace(job, run)
      ensures result.Some? ==> result == ResultOf(job, run) && result.value.ReleaseResult?
      ensures result.Some? && result.value.release.status == ReleaseActive ==>
                EnteredDelivery(store.history, job.project, FeedLearning)
      ensures result.Some? ==> Offered(store.history, |old(store.history).ops|, job, ReleaseActivation,
                                       ActivationContent(result.value.release))
    {
      result, run := None, Silent;
      if !releaseReady {
        return;
      }
      var outcome; ghost var release;
      outcome, release := releaser.Activate(job.input.terms);
      run := ActivateRun(release);
      if outcome.NoRelease? {
        return;
      }
      var ok := RecordRelease(worker, job, outcome.receipt);
      if ok {
        result := Some(ReleaseResult(outcome.receipt));
      }
    }

    /** Store the activation; an active one opens the delivery surface. */
    method RecordRelease(ghost worker: Option<Id>, job: Job, release: ReleaseReceipt) returns (ok: bool)
      requires Sound()
      modifies store
      ensures Advanced()
      ensures ok && release.status == ReleaseActive ==> EnteredDelivery(store.history, job.project, FeedLearning)
      ensures ok ==>
                Offered(store.history, |old(store.history).ops|, job, ReleaseActivation, ActivationContent(release))
    {
      ok := Put(worker, job, ReleaseActivation, ActivationContent(release));
      if ok && release.status == ReleaseActive {
        ghost var h, from := store.history, |old(store.history).ops|;
        ok := MoveDeliveryTo(worker, job.project, FeedLearning);
        OfferedLater(h, store.history, from, from, job, ReleaseActivation, ActivationContent(release));
      }
    }

    method ProcessReleaseEvaluation(ghost worker: Option<Id>, job: Job)
      returns (result: Option<JobResult>, ghost run: JobRun)
      requires Sound() && Wired() && RowSound(job) && job.kind == ReleaseEvaluate
      modifies store, world
      ensures Advanced()
      ensures RunFits(job, run) && world.calls == old(world.calls) + JobTrace(job, run)
      ensures result.Some? ==> result == ResultOf(job, run) && result.value.SpendResult?
      ensures result.Some? ==> SpendRecorded(store.history, job.project, result.value.spend.status)
      ensures result.Some? ==>
                Offered(store.history, |old(store.history).ops|, job, SpendEvaluation, SpendContent(result.value.spend))
    {
      result, run := None, Silent;
      if !releaseReady {
        return;
      }
      var outcome; ghost var spend;
      outcome, spend := releaser.EvaluateSpend(job.input.campaigns, job.input.cap);
      run := EvaluateRun(spend);
      if outcome.None? {
        return;
      }
      var ok := RecordSpend(worker, job, outcome.value);
      if ok {
        result := Some(SpendResult(outcome.value));
      }
    }

    /** Store the evaluation; an exceeded cap closes the delivery, as far as the pause was confirmed. */
    method RecordSpend(ghost worker: Option<Id>, job: Job, spend: SpendReceipt) returns (ok: bool)
      requires Sound()
      modifies store
      ensures Advanced()
      ensures ok ==> SpendRecorded(store.history, job.project, spend.status)
      ensures ok ==> Offered(store.history, |old(store.history).ops|, job, SpendEvaluation, SpendContent(spend))
    {
      var status := spend.status;
      ok := Put(worker, job, SpendEvaluation, SpendContent(spend));
      if ok && status != WithinCap {
        ghost var h, from := store.history, |old(store.history).ops|;
        ok := CloseDelivery(worker, job.project, status == CapExceededPaused);
        OfferedLater(h, store.history, from, from, job, SpendEvaluation, SpendContent(spend));
      }
    }

    method ProcessReleaseRecovery(ghost worker: Option<Id>, job: Job)
      returns (result: Option<JobResult>, ghost run: JobRun)
      requires Sound() && Wired() && RowSound(job) && job.kind == ReleaseRecovery
      modifies store, world
      ensures Advanced()
      ensures RunFits(job, run) && world.calls == old(world.calls) + JobTrace(job, run)
      ensures result.Some? ==> result == ResultOf(job, run) && result.value.RecoveryResult?
      ensures result.Some? ==> WoundDown(store.history, |old(store.history).ops|, job.project, result.value.safe)
      ensures result.Some? ==> Offered(store.history, |old(store.history).ops|, job, RecoveryRecord,
                                       RecoveryContent(result.value.safe, result.value.relockReceipt))
    {
      result, run := None, Silent;
      if !releaseReady {
        return;
      }
      var receipt, safe; ghost var pause;
      receipt, safe, pause := releaser.PauseAndRelock(job.input.campaigns);
      run := RecoverRun(pause);
      var ok := RecordRecovery(worker, job, safe, receipt);
      if ok {
        result := Some(RecoveryResult(safe, receipt));
      }
    }

    /** Store the recovery, then wind delivery down. */
    method RecordRecovery(ghost worker: Option<Id>, job: Job, safe: bool, receipt: Option<int>) returns (ok: bool)
      requires Sound()
      modifies store
      ensures Advanced()
      ensures ok ==> WoundDown(store.history, |old(store.history).ops|, job.project, safe)
      ensures ok ==>
                Offered(store.history, |old(store.history).ops|, job, RecoveryRecord, RecoveryContent(safe, receipt))
    {
      ok := Put(worker, job, RecoveryRecord, RecoveryContent(safe, receipt));
      if ok {
        ghost var h, from := store.history, |old(store.history).ops|;
        ok := WindDown(worker, job.project, safe);
        WoundDownLater(store.history, from, |h.ops|, job.project, safe);
        OfferedLater(h, store.history, from, from, job, RecoveryRecord, RecoveryContent(safe, receipt));
      }
    }

    /** Close the delivery surface after a recovery, as far as it was opened. */
    method WindDown(ghost worker: Option<Id>, p: Id, safe: bool) returns (ok: bool)
      requires Sound()
      modifies store
      ensures Advanced()
      ensures ok ==> WoundDown(store.history, |old(store.history).ops|, p, safe)
    {
      var broken := Between(worker);
      if broken || p !in store.projects {
        return false;
      }
      ghost var k := |store.history.ops|;
      var delivery := store.projects[p].delivery;
      ok := true;
      if safe && delivery == NotReleased {
        ok := MoveDeliveryTo(worker, p, DeliveryClosed);
      } else if delivery in {FeedLearning, SearchEligible, Stable} {
        ok := CloseDelivery(worker, p, safe);
      }
      if ok {
        assert WoundDownFrom(store.history, k, p, safe);
      }
    }

    /** CLOSING first and, if the pause was confirmed, CLOSED after. */
    method CloseDelivery(ghost worker: Option<Id>, p: Id, safe: bool) returns (ok: bool)
      requires Sound()
      modifies store
      ensures Advanced()
      ensures ok ==> EnteredDelivery(store.history, p, if safe then DeliveryClosed else Closing)
    {
      ok := MoveDeliveryTo(worker, p, Closing);
      if ok && safe {
        ok := MoveDeliveryTo(worker, p, DeliveryClosed);
      }
    }

    /** _process_prepare and _process_juguang_sync, as far as the job queue can tell: any transactions,
        then success or failure. Neither writes to the platform. */
    method ProcessPlanning(ghost worker: Option<Id>, job: Job) returns (result: Option<JobResult>, ghost run: JobRun)
      requires Sound() && !External(job.kind)
      modifies store
      ensures Advanced()
      ensures RunFits(job, run) && JobTrace(job, run) == []
      ensures result.Some? ==> result == ResultOf(job, run)
    {
      run := Silent;
      var broken := Between(worker);
      result := if broken then None else Some(ArtifactResult);
    }

    method Handle(ghost worker: Option<Id>, job: Job) returns (result: Option<JobResult>, ghost run: JobRun)
      requires Sound() && Wired() && RowSound(job)
      modifies store, world
      ensures Advanced()
      ensures RunFits(job, run) && world.calls == old(world.calls) + JobTrace(job, run)
      ensures result.Some? ==> result == ResultOf(job, run)
      ensures result.Some? ==> Moved(store.history, |old(store.history).ops|, job, run)
    {
      match job.kind
      case ExecuteTest => result, run := ProcessCreate(worker, job);
      case ProductionCreate => result, run := ProcessCreate(worker, job);
      case Reconcile => result, run := ProcessReconcile(worker, job);
      case Release => result, run := ProcessRelease(worker, job);
      case ReleaseEvaluate => result, run := ProcessReleaseEvaluation(worker, job);
      case ReleaseRecovery => result, run := ProcessReleaseRecovery(worker, job);
      case Prepare => result, run := ProcessPlanning(worker, job);
      case SyncJuguang => result, run := ProcessPlanning(worker, job);
    }

    // ----- the worker -----

    /** Finish the job as its result demands, with an alert first when a release or recovery failed. */
    method Report(worker: Id, ghost n: nat, j: Id, job: Job, result: JobResult, ghost run: JobRun) returns (ok: bool)
      requires Sound() && JobWas(store.history, n, j, job)
      requires RunFits(job, run) && ResultOf(job, run) == Some(result)
      modifies store
      ensures Advanced()
      ensures ok ==> JustFinished(store.history, j, worker, FinalStatus(job.kind, result), result)
      ensures ok && FinalStatus(job.kind, result) == Failed && job.kind in {Release, ReleaseRecovery} ==>
                Emitted(store.history, |old(store.history).ops|, Alert(job.project, j))
    {
      var status := FinalStatus(job.kind, result);
      if status == Failed && (job.kind == Release || job.kind == ReleaseRecovery) {
        ok := Announce(Some(worker), Alert(job.project, j));
        if !ok {
          return;
        }
      }
      if status == Succeeded {
        SuccessIsEarned(job, run, result);
      }
      ok := FinishAs(worker, n, j, job, status, result);
    }

    /** One accepted or refused finish; a success must have been earned. */
    method FinishAs(worker: Id, ghost n: nat, j: Id, job: Job, status: JobStatus, result: JobResult) returns (ok: bool)
      requires Sound() && JobWas(store.history, n, j, job)
      requires status in {Succeeded, Failed, NeedsReconcile}
      requires status == Succeeded ==> EarnsSuccess(job, Some(result))
      modifies store
      ensures Advanced()
      ensures ok ==> JustFinished(store.history, j, worker, status, result)
      ensures ok ==> |store.history.ops| > |old(store.history).ops|
    {
      var broken := Between(Some(worker));
      if broken {
        return false;
      }
      var now := Clock();
      ghost var h := store.history;
      JobStays(h, n, j, job);
      if status == Succeeded {
        EarningIsPerJob(store.jobs[j], job, Some(result));
      }
      var r := store.Finish(j, worker, status, Some(result), now);
      Committed(h, FinishJob(j, worker, status, Some(result), now), store.Rows());
      ok := r.Ok?;
    }

    /** The exception path: an external job is never retried, only sent to reconciliation. */
    method Unwind(worker: Id, ghost n: nat, j: Id, job: Job) returns (broken: bool)
      requires Sound() && JobWas(store.history, n, j, job)
      modifies store
      ensures Advanced()
      ensures External(job.kind) && !broken ==> AskedReconcile(store.history, |old(store.history).ops|, j, worker)
    {
      broken := ReportException(worker, n, j, job);
      if broken {
        return;
      }
      if Batch(job.kind) {
        FlagProject(Some(worker), job.project);
      }
      if job.kind in {Release, ReleaseEvaluate, ReleaseRecovery} {
        var told := Announce(Some(worker), Alert(job.project, j));
        if !told {
          return;
        }
      }
      FailProject(Some(worker), job.project);
    }

    method ReportException(worker: Id, ghost n: nat, j: Id, job: Job) returns (broken: bool)
      requires Sound() && JobWas(store.history, n, j, job)
      modifies store
      ensures Advanced()
      ensures External(job.kind) && !broken ==> AskedReconcile(store.history, |old(store.history).ops|, j, worker)
    {
      if External(job.kind) {
        var ok := FinishAs(worker, n, j, job, NeedsReconcile, WorkerException);
        broken := !ok;
        if ok {
          assert IsReconcileReport(store.history.ops[|store.history.ops| - 1], j, worker);
        }
        return;
      }
      broken := Between(Some(worker));
      if !broken {
        var now := Clock();
        JobStays(store.history, n, j, job);
        var r := store.Fail(j, worker, now);
        broken := r.Err?;
      }
    }

    /** A project left in WRITE_IN_PROGRESS is moved to RECONCILE_REQUIRED; failures are swallowed. */
    method FlagProject(ghost worker: Option<Id>, p: Id)
      requires Sound()
      modifies store
      ensures Advanced()
    {
      var broken := Between(worker);
      if !broken && p in store.projects && store.projects[p].execution == WriteInProgress {
        var _ := MoveExecutionTo(worker, p, ExecutionState.ReconcileRequired);
      }
    }

    /** Run the claimed job's handler and report how it went. */
    method SeeThrough(worker: Id, ghost n: nat, j: Id, job: Job)
      returns (result: Option<JobResult>, broken: bool, ghost run: JobRun)
      requires Sound() && Wired() && JobWas(store.history, n, j, job) && n == |store.history.ops|
      modifies store, world
      ensures Advanced()
      ensures RunFits(job, run) && world.calls == old(world.calls) + JobTrace(job, run)
      ensures WorkFits(store.history, n, worker, j, job, result, broken, run)
    {
      broken := false;
      JobIsSound(store.history, n, j, job);
      result, run := Handle(Some(worker), job);
      if result.Some? {
        ghost var h := store.history;
        var ok := Report(worker, n, j, job, result.value, run);
        MovedLater(h, store.history, n, job, run);
        if ok {
          return;
        }
      }
      result := None;
      ghost var from := |store.history.ops|;
      broken := Unwind(worker, n, j, job);
      AskedLater(store.history, n, from, j, worker);
    }

    /** Claim one job and see it through. The only platform calls are those of the engine run for the
        claimed job; a result is returned only when the job was finished with it, in the status it
        demands; and otherwise an external job was sent to reconciliation, unless the store broke or the
        lease was lost. */
    method ProcessNextJob(worker: Id) returns (turn: Turn, ghost run: JobRun)
      requires Sound() && Wired()
      modifies store, world
      ensures Advanced()
      ensures TurnFits(old(store.history), store.history, old(world.calls), world.calls, worker, turn, run)
    {
      run := Silent;
      var now := Clock();
      ghost var h := store.history;
      var claimed; ghost var rows;
      claimed, rows := store.Claim(worker, now, now + 60);
      ghost var op := ClaimJob(worker, now, now + 60, rows, claimed);
      Committed(h, op, store.Rows());
      assert store.history.ops[|h.ops|] == op;
      if claimed.None? {
        return Idle, run;
      }
      var job := store.jobs[claimed.value];
      var result, broken;
      result, broken, run := SeeThrough(worker, |h.ops| + 1, claimed.value, job);
      turn := Worked(claimed.value, job, result, broken);
    }
  }

  /** The release gate after a reconcile: a production batch it verified can only have been recorded from
      WRITE_IN_PROGRESS or READBACK_VERIFIED. From RECONCILE_REQUIRED, the state reconciles are requested
      in, the move is refused and the job ends in the exception path instead. */
  lemma VerifiedReconcileCameFrom(h: History, job: Job)
    requires ReconcileRecorded(h, job, ReconciledVerifiedPaused) && job.input.order.production
    ensures EnteredExecution(h, job.project, WaitingReleaseAuthorization)
    ensures h.dbs[|h.ops| - 1].projects[job.project].execution in {WriteInProgress, ReadbackVerified}
  {
    WaitingReleaseEnteredFrom(h.dbs[|h.ops| - 1].projects[job.project].execution);
  }

  /** One turn of the worker: the queue was empty, or a job was claimed and handled. */
  datatype Turn = Idle | Worked(j: Id, job: Job, result: Option<JobResult>, broken: bool)

  /** A returned result is the engine's, and the job was just finished with it; a raised exception on an
      external job was reported for reconciliation at some step from `from` on. */
  ghost predicate WorkFits(h: History, from: nat, worker: Id, j: Id, job: Job, result: Option<JobResult>, broken: bool,
                           run: JobRun)
    requires RunFits(job, run)
  {
    match result
    case Some(r) =>
      && ResultOf(job, run) == result && JustFinished(h, j, worker, FinalStatus(job.kind, r), r)
      && Moved(h, from, job, run)
    case None => External(job.kind) && !broken ==> AskedReconcile(h, from, j, worker)
  }

  ghost predicate TurnFits(before: History, after: History, callsBefore: seq<Call>, callsAfter: seq<Call>, worker: Id,
                           turn: Turn, run: JobRun) {
    match turn
    case Idle => IsClaimBy(after, |before.ops|, worker, None) && callsAfter == callsBefore
    case Worked(j, job, result, broken) =>
      && IsClaimBy(after, |before.ops|, worker, Some(j))
      && JobWas(after, |before.ops| + 1, j, job)
      && RunFits(job, run) && callsAfter == callsBefore + JobTrace(job, run)
      && WorkFits(after, |before.ops| + 1, worker, j, job, result, broken, run)
  }

  /** End to end: a turn that creates anything on the platform does so for a job which, when it was claimed,
      its own consumed grant covered exactly, revision by revision and hash by hash; those plans in order, with
      the payloads hashed, and one relock after them. */
  lemma TurnCreatesAreAuthorised(before: History, after: History, callsBefore: seq<Call>, callsAfter: seq<Call>,
                                 worker: Id, turn: Turn, run: JobRun)
    requires Requested(after) && turn.Worked? && TurnFits(before, after, callsBefore, callsAfter, worker, turn, run)
    requires Creates(JobTrace(turn.job, run)) != []
    ensures callsAfter == callsBefore + JobTrace(turn.job, run)
    ensures |before.ops| + 1 < |after.dbs| && Licensed(after.dbs[|before.ops| + 1], turn.j)
    ensures CreatesInOrderThenRelocks(turn.job, JobTrace(turn.job, run))
  {
    CreatesAreAuthorised(after, |before.ops| + 1, turn.j, run);
  }

  /** End to end: a turn that enables anything does so for exactly the campaigns of a RELEASE job whose terms,
      when it was claimed, its own consumed grant granted, all of them named by one stored production readback,
      and directly after exactly the granted cap was armed for them and verified. */
  lemma TurnEnablesAreReadBack(before: History, after: History, callsBefore: seq<Call>, callsAfter: seq<Call>,
                               worker: Id, turn: Turn, run: JobRun, i: nat)
    requires Requested(after) && turn.Worked? && TurnFits(before, after, callsBefore, callsAfter, worker, turn, run)
    requires i < |JobTrace(turn.job, run)| && L.IsEnable(JobTrace(turn.job, run)[i])
    ensures callsAfter == callsBefore + JobTrace(turn.job, run)
    ensures |before.ops| + 1 < |after.dbs| && Licensed(after.dbs[|before.ops| + 1], turn.j)
    ensures turn.job.kind == Release && turn.job.input.ReleaseInput?
    ensures JobTrace(turn.job, run)[i].ids == turn.job.input.terms.campaigns
    ensures exists receipt :: JobTrace(turn.job, run)[..i] == L.Armed(turn.job.input.terms, receipt)
    ensures ReadBack(after.dbs[|before.ops| + 1], turn.job.project, JobTrace(turn.job, run)[i].ids)
  {
    EnablesAreReadBackAndCapped(after, |before.ops| + 1, turn.j, run, i);
  }

  /** A claim for a lease of sixty seconds. */
  predicate IsClaimBy(h: History, n: nat, worker: Id, picked: Option<Id>) {
    && n < |h.ops| && h.ops[n].ClaimJob? && h.ops[n].worker == worker && h.ops[n].picked == picked
    && h.ops[n].until == h.ops[n].now + 60
  }

  lemma AskedLater(h: History, from: nat, later: nat, j: Id, worker: Id)
    requires from <= later
    ensures AskedReconcile(h, later, j, worker) ==> AskedReconcile(h, from, j, worker)
  {
  }
}
