/** Runs of the program that show why some properties are not stronger: each is built transaction by
    transaction from the empty database, and is one the code can produce. */
module Witnesses {
  import opened Common
  import opened Payloads
  import opened State
  import opened Platform
  import opened Readback
  import opened Traces
  import opened Database
  import opened ArtifactRows
  import opened SystemRuns
  import opened Dispatch
  import opened CodeRuns
  import E = Execution
  import R = Reconciliation

  // ----- the sample work -----

  const SAMPLE_PAYLOAD := Payload(
    CampaignSpec(Some(3), None, None, None, None),
    UnitSpec(Some(4), None, None, TargetInfo(None, None, None, None, [], []), []), [CreativeSpec(Some(7), None)])
  const SAMPLE_PLAN := Plan(0, 0, SAMPLE_PAYLOAD, Sha(SAMPLE_PAYLOAD))

  function SampleOrder(g: Id, production: bool): WriteOrder {
    WriteOrder(g, 1, production, [SAMPLE_PLAN])
  }

  function SampleKind(production: bool): JobKind {
    if production then ProductionCreate else ExecuteTest
  }

  function SampleInput(g: Id, production: bool): JobInput {
    WriteInput(SampleOrder(g, production))
  }

  function SampleGrant(production: bool, nonce: Id): Grant {
    Grant(0, TypeFor(SampleKind(production)), Issued, PlanScope([0], [Sha(SAMPLE_PAYLOAD)]), nonce, 10, None)
  }

  function SampleJob(g: Id, production: bool, now: Time): Job {
    NewJob(0, SampleKind(production), SampleInput(g, production), 1, now)
  }

  lemma SampleIsProper(g: Id, production: bool)
    ensures WellFormed(SampleKind(production), SampleInput(g, production))
    ensures Covers(SampleGrant(production, g).scope, SampleInput(g, production))
    ensures E.Confirmable(SAMPLE_PAYLOAD)
  {
    assert Sortable([]);
  }

  /** On top of a confirmed project: authorised to write, its grant consumed and its job 1 enqueued. */
  function Enqueued(s: Scene, production: bool): Scene {
    At(WithJob(WithGrant(s, 0, Used(SampleGrant(production, 0), 1)), 1, SampleJob(0, production, 1)),
       AuthorisedState(TypeFor(SampleKind(production))))
  }

  lemma EnqueuedIsReachable(production: bool) returns (run: CodeRun, s: Scene)
    ensures run.ops != [] && run.ops[|run.ops| - 1].ConsumeGrant? && run.ops[|run.ops| - 1].p == 0
    ensures IsConfirmed(s) && Shows(Tip(run), Enqueued(s, production))
  {
    run, s := ConfirmedIsReachable();
    run := Authorise(run, s, 0, SampleGrant(production, 0));
    SampleIsProper(0, production);
    var t := At(WithGrant(s, 0, SampleGrant(production, 0)), AuthorisedState(TypeFor(SampleKind(production))));
    run := Consume(run, t, 0, SampleKind(production), SampleInput(0, production), 1, 1);
  }

  /** The PREPARE job is done, so the create job is next in the queue. */
  lemma CreateIsNext(s: Scene, job: Job, now: Time)
    requires IsConfirmed(s) && job.status == Pending && job.nextRun <= now && job.maxAttempts == 1 && job.attempt == 0
    ensures NextInQueue(s.jobs[1 := job], 1, now)
  {
  }

  // ----- a job may run before its project enters WRITE_IN_PROGRESS -----

  /** Consuming the grant and entering WRITE_IN_PROGRESS are two transactions, and a worker can claim the
      job in between: a run in which a create job is RUNNING while its project is still where it was
      authorised. WriteProgress says exactly which runs avoid this. */
  lemma RunningBeforeWriteInProgress(production: bool) returns (run: CodeRun, j: Id)
    ensures var db := Tip(run);
            && j in db.jobs && db.jobs[j].kind == SampleKind(production) && db.jobs[j].status == Running
            && db.jobs[j].project in db.projects
            && db.projects[db.jobs[j].project].execution == AuthorisedState(TypeFor(SampleKind(production)))
  {
    var s;
    run, s := EnqueuedIsReachable(production);
    j := 1;
    CreateIsNext(s, SampleJob(0, production, 1), 1);
    run := Claim(run, Enqueued(s, production), 1, 1);
  }

  // ----- what the engines may have done for the sample work -----

  /** The platform refuses the one create; the account is relocked. */
  function RefusedRun(): JobRun {
    ExecuteRun([E.CreateFailed(Refused(OtherPlatformError(0)))], Some(E.RelockAnswered(1, Answer(true))),
               BatchReceipt(BatchFailedTerminal, [E.ErrorReceipt(SAMPLE_PLAN, None, OtherPlatformError(0))], Some(1),
                            true))
  }

  function CreatedReceipt(): PlanReceipt {
    PlanReceipt(0, Some(E.EchoIds(SAMPLE_PAYLOAD)), true, true, [])
  }

  /** The plan is created, paused and read back clean; the account is relocked. */
  function VerifiedRun(): JobRun {
    ExecuteRun([E.Echo(SAMPLE_PAYLOAD)], Some(E.RelockAnswered(1, Answer(true))),
               BatchReceipt(VerifiedPaused, [CreatedReceipt()], Some(1), true))
  }

  lemma RefusedRunFits(job: Job)
    requires job.kind in {ExecuteTest, ProductionCreate} && job.input.WriteInput?
    requires job.input.order.plans == [SAMPLE_PLAN]
    ensures RunFits(job, RefusedRun())
  {
  }

  lemma VerifiedRunFits(job: Job)
    requires job.kind in {ExecuteTest, ProductionCreate} && job.input.WriteInput?
    requires job.input.order.plans == [SAMPLE_PLAN]
    ensures RunFits(job, VerifiedRun()) && EarnsSuccess(job, Some(BatchResult(VerifiedRun().batch)))
  {
    SampleIsProper(0, true);
    E.EchoIsVerified(SAMPLE_PLAN);
    ExtractionIsExact(ResponseFor(E.EchoIds(SAMPLE_PAYLOAD)), E.EchoIds(SAMPLE_PAYLOAD));
  }

  // ----- a second readback of one job is dropped -----

  /** The create job is running and its project is in WRITE_IN_PROGRESS. */
  function Begun(s: Scene, production: bool): Scene {
    At(WithJob(Enqueued(s, production), 1, ClaimedJob(production)), WriteInProgress)
  }

  function ClaimedJob(production: bool): Job {
    Leased(SampleJob(0, production, 1), 0, 61)
  }

  lemma BegunIsReachable(production: bool) returns (run: CodeRun, s: Scene)
    ensures run.ops != [] && IsConfirmed(s) && Shows(Tip(run), Begun(s, production))
  {
    run, s := EnqueuedIsReachable(production);
    run := MoveTo(run, Enqueued(s, production), WriteInProgress);
    CreateIsNext(s, SampleJob(0, production, 1), 1);
    run := Claim(run, At(Enqueued(s, production), WriteInProgress), 1, 1);
  }

  /** A running create job records a failed batch and is finished with it. */
  lemma Fails(run: CodeRun, s: Scene, j: Id, batch: BatchReceipt) returns (next: CodeRun)
    requires run.ops != [] && Shows(Tip(run), s) && s.states.execution == WriteInProgress
    requires j in s.jobs && OwnedBy(s.jobs[j], 0) && HasOrder(s.jobs[j].input)
    requires !HasArtifact(s.artifacts, 0, ProductionReadback)
    ensures next.ops != [] && Shows(Tip(next), Failed(s, j, batch))
  {
    next := Offer(run, s, 3, s.jobs[j].input, batch, 2);
    var t := WithArtifact(s, Artifact(3, 0, ProductionReadback, s.jobs[j].input, ReadbackContent(batch), 2));
    next := MoveTo(next, t, RecoveryRequired);
    next := Finish(next, At(t, RecoveryRequired), j, JobStatus.Failed, BatchResult(batch), 3);
  }

  function Failed(s: Scene, j: Id, batch: BatchReceipt): Scene
    requires j in s.jobs
  {
    var t := WithArtifact(s, Artifact(3, 0, ProductionReadback, s.jobs[j].input, ReadbackContent(batch), 2));
    WithJob(At(t, RecoveryRequired), j, Finished(s.jobs[j], JobStatus.Failed, Some(BatchResult(batch)), 3))
  }

  /** A failed job is resumed while the project is authorised again, by a second grant with its own job 2. */
  function Retried(s: Scene): Scene
    requires 1 in s.jobs
  {
    At(WithJob(WithGrant(WithJob(s, 1, Resumed(s.jobs[1], 4)), 1, Used(SampleGrant(true, 1), 5)), 2,
               SampleJob(1, true, 5)),
       WriteInProgress)
  }

  lemma Retries(run: CodeRun, s: Scene) returns (next: CodeRun)
    requires run.ops != [] && Shows(Tip(run), s) && Confirmed(Tip(run), 0) && s.states.execution == RecoveryRequired
    requires s.grants.Keys == {0} && s.grants[0].nonce == 0 && s.jobs.Keys == {0, 1} && s.jobs[0].kind == Prepare
    requires s.jobs[1].input == SampleInput(0, true) && s.jobs[1].status == JobStatus.Failed
    ensures next.ops != [] && Shows(Tip(next), Retried(s))
  {
    next := Resume(run, s, 1, 4);
    var t := WithJob(s, 1, Resumed(s.jobs[1], 4));
    next := Authorise(next, t, 1, SampleGrant(true, 1));
    NoSecondCreate(t.jobs);
    next := Reenqueues(next, At(WithGrant(t, 1, SampleGrant(true, 1)), ProductionCreateAuthorized));
    assert t.grants[1 := SampleGrant(true, 1)][1 := Used(SampleGrant(true, 1), 5)]
      == t.grants[1 := Used(SampleGrant(true, 1), 5)];
  }

  lemma NoSecondCreate(jobs: map<Id, Job>)
    requires jobs.Keys == {0, 1} && jobs[0].kind == Prepare && jobs[1].input == SampleInput(0, true)
    ensures !WorkExists(jobs, 0, ProductionCreate, SampleInput(1, true))
  {
  }

  /** Job 2 under the second grant, then WRITE_IN_PROGRESS. */
  lemma Reenqueues(run: CodeRun, s: Scene) returns (next: CodeRun)
    requires run.ops != [] && Shows(Tip(run), s) && s.states.execution == ProductionCreateAuthorized
    requires 1 in s.grants && s.grants[1] == SampleGrant(true, 1)
    requires 2 !in s.jobs && !WorkExists(s.jobs, 0, ProductionCreate, SampleInput(1, true))
    ensures next.ops != []
    ensures Shows(Tip(next),
                  At(WithJob(WithGrant(s, 1, Used(SampleGrant(true, 1), 5)), 2, SampleJob(1, true, 5)),
                     WriteInProgress))
  {
    SampleIsProper(1, true);
    next := Consume(run, s, 1, ProductionCreate, SampleInput(1, true), 2, 5);
    next :=
      MoveTo(next, WithJob(WithGrant(s, 1, Used(SampleGrant(true, 1), 5)), 2, SampleJob(1, true, 5)), WriteInProgress);
  }

  /** Transaction k offered this batch as the readback of the work. */
  predicate OfferedAt(run: CodeRun, k: nat, input: JobInput, batch: BatchReceipt) {
    k < |run.ops| && IsOffer(run.ops[k], input, batch)
  }

  predicate IsOffer(op: Op, input: JobInput, batch: BatchReceipt) {
    op.PutArtifact? && op.p == 0 && op.artifactKind == ProductionReadback && op.input == input
    && op.content == ReadbackContent(batch)
  }

  function Completed(s: Scene, batch: BatchReceipt): Scene
    requires 1 in s.jobs
  {
    At(WithJob(s, 1, Finished(Leased(s.jobs[1], 0, 66), Succeeded, Some(BatchResult(batch)), 8)),
       WaitingReleaseAuthorization)
  }

  /** Job 1, next in the queue, is claimed and completed with a batch that earns it; its readback was stored before. */
  lemma Completes(run: CodeRun, s: Scene, batch: BatchReceipt) returns (next: CodeRun)
    requires run.ops != [] && Shows(Tip(run), s) && s.states.execution == WriteInProgress
    requires NextInQueue(s.jobs, 1, 6) && HasOrder(s.jobs[1].input)
    requires ArtifactExists(s.artifacts, 0, ProductionReadback, s.jobs[1].input)
    requires EarnsSuccess(s.jobs[1], Some(BatchResult(batch)))
    ensures Shows(Tip(next), Completed(s, batch))
    ensures exists k :: OfferedAt(next, k, s.jobs[1].input, batch)
  {
    next := Claim(run, s, 1, 6);
    var t := WithJob(s, 1, Leased(s.jobs[1], 0, 66));
    var k := |next.ops| + 1;
    next := Offer(next, t, 4, s.jobs[1].input, batch, 7);
    next := MoveTo(next, t, WaitingReleaseAuthorization);
    next := Finish(next, At(t, WaitingReleaseAuthorization), 1, Succeeded, BatchResult(batch), 8);
    assert OfferedAt(next, k, s.jobs[1].input, batch);
    assert t.jobs[1 := Completed(s, batch).jobs[1]] == Completed(s, batch).jobs;
  }

  /** The whole story, on top of a confirmed project. */
  function Story(s: Scene): Scene
    requires IsConfirmed(s)
  {
    Completed(Retried(FailedOnce(s)), VerifiedRun().batch)
  }

  lemma RetriedIsNext(s: Scene, first: Job, second: Job)
    requires IsConfirmed(s) && first.status == Pending && first.nextRun <= 6 && first.attempt == 0
    requires first.maxAttempts == 1
    requires second.status == Pending && first.createdAt < second.createdAt
    ensures NextInQueue(s.jobs[1 := first][2 := second], 1, 6)
  {
  }

  lemma LastIsStored(artifacts: seq<Artifact>, a: Artifact)
    requires !HasArtifact(artifacts, a.project, a.kind)
    ensures ArtifactExists(artifacts + [a], a.project, a.kind, a.input)
    ensures StoredUnder(artifacts + [a], a.project, a.kind, a.input) == Some(a)
  {
    assert (artifacts + [a])[|artifacts|] == a;
    StoredUnderAppend(artifacts, a, a.project, a.kind, a.input);
  }

  /** The project after the failed first run. */
  function FailedOnce(s: Scene): Scene
    requires IsConfirmed(s)
  {
    Failed(Begun(s, true), 1, RefusedRun().batch)
  }

  lemma FailedOnceIsReachable() returns (run: CodeRun, s: Scene)
    ensures run.ops != [] && IsConfirmed(s) && Shows(Tip(run), FailedOnce(s))
  {
    run, s := BegunIsReachable(true);
    run := Fails(run, Begun(s, true), 1, RefusedRun().batch);
  }

  lemma RetriedIsReachable() returns (run: CodeRun, s: Scene)
    ensures run.ops != [] && IsConfirmed(s) && Shows(Tip(run), Retried(FailedOnce(s)))
  {
    run, s := FailedOnceIsReachable();
    StillConfirmed(s, FailedOnce(s));
    run := Retries(run, FailedOnce(s));
  }

  /** Its job 1 is next, has a readback stored, and would be earned by the second run. */
  lemma RetriedIsReady(s: Scene)
    requires IsConfirmed(s)
    ensures var t := Retried(FailedOnce(s));
            && NextInQueue(t.jobs, 1, 6) && t.jobs[1].input == SampleInput(0, true)
            && ArtifactExists(t.artifacts, 0, ProductionReadback, SampleInput(0, true))
            && EarnsSuccess(t.jobs[1], Some(BatchResult(VerifiedRun().batch)))
  {
    var first, t := Resumed(FailedOnce(s).jobs[1], 4), Retried(FailedOnce(s));
    RetriedIsNext(s, first, SampleJob(1, true, 5));
    assert t.jobs == s.jobs[1 := first][2 := SampleJob(1, true, 5)];
    LastIsStored(s.artifacts, t.artifacts[|s.artifacts|]);
    VerifiedRunFits(first);
  }

  lemma StoryIsReachable() returns (run: CodeRun, s: Scene)
    ensures IsConfirmed(s) && Shows(Tip(run), Story(s))
    ensures exists k :: OfferedAt(run, k, SampleInput(0, true), VerifiedRun().batch)
  {
    run, s := RetriedIsReachable();
    RetriedIsReady(s);
    run := Completes(run, Retried(FailedOnce(s)), VerifiedRun().batch);
  }

  lemma StillConfirmed(s: Scene, t: Scene)
    requires IsConfirmed(s) && t.states.project == AdvisoryReady && s.artifacts <= t.artifacts
    ensures HasArtifact(t.artifacts, 0, PLAN_MATRIX) && HasArtifact(t.artifacts, 0, CONFIRMATION)
  {
    var i :| 0 <= i < |s.artifacts| && s.artifacts[i].project == 0 && s.artifacts[i].kind == PLAN_MATRIX;
    var k :| 0 <= k < |s.artifacts| && s.artifacts[k].project == 0 && s.artifacts[k].kind == CONFIRMATION;
    assert t.artifacts[i] == s.artifacts[i] && t.artifacts[k] == s.artifacts[k];
  }

  /** Job j succeeded with its second run, but what is stored for it is the first, which failed and names no
      campaign. */
  ghost predicate ReadbackLost(db: Db, j: Id, first: JobRun, second: JobRun) {
    && j in db.jobs && RunFits(db.jobs[j], first) && RunFits(db.jobs[j], second)
    && db.jobs[j].kind == ProductionCreate && db.jobs[j].input.WriteInput? && db.jobs[j].status == Succeeded
    && first.ExecuteRun? && second.ExecuteRun? && db.jobs[j].result == Some(BatchResult(second.batch))
    && FullyVerified(db.jobs[j].input.order.plans, second.batch) && CampaignsOf(second.batch) != {}
    && first.batch.status == BatchFailedTerminal && CampaignsOf(first.batch) == {}
    && var stored := StoredUnder(db.artifacts, db.jobs[j].project, ProductionReadback, db.jobs[j].input);
       (stored.Some? && stored.value.content == ReadbackContent(first.batch))
  }

  lemma NothingToRelease(db: Db, artifacts: seq<Artifact>, a: Artifact, campaigns: seq<int>)
    requires db.artifacts == artifacts + [a] && !HasArtifact(artifacts, 0, ProductionReadback)
    requires a.content == ReadbackContent(RefusedRun().batch) && ReadBack(db, 0, campaigns)
    ensures campaigns == []
  {
    var i :| 0 <= i < |db.artifacts| && ReadBackBy(db.artifacts[i], 0, campaigns);
    assert i == |artifacts|;
    RefusedNamesNothing(a.content.batch);
    NamesSomething(a, 0, campaigns);
  }

  lemma NamesSomething(a: Artifact, p: Id, campaigns: seq<int>)
    requires ReadBackBy(a, p, campaigns)
    ensures campaigns != [] ==> CampaignsOf(a.content.batch) != {}
  {
    if campaigns != [] {
      var c := campaigns[0];
      assert c in CampaignsOf(a.content.batch);
    }
  }

  lemma RefusedNamesNothing(batch: BatchReceipt)
    requires batch == RefusedRun().batch
    ensures CampaignsOf(batch) == {}
  {
  }

  lemma VerifiedNamesSomething(batch: BatchReceipt)
    requires batch == VerifiedRun().batch
    ensures CampaignsOf(batch) != {}
  {
    assert batch.receipts[0].ids.value.campaign in CampaignsOf(batch);
  }

  /** A production create that failed can be resumed, and its second run can succeed: in this run its job is
      SUCCEEDED with a fully verified batch, offered as a readback, and the project waits for release; but the
      readback stored for the job is still that of the failed run, so no release of the campaigns that exist
      can be granted. Service.OfferedIsStoredExactly says exactly when this happens. */
  lemma SecondReadbackIsDropped() returns (run: CodeRun, first: JobRun, second: JobRun)
    ensures ReadbackLost(Tip(run), 1, first, second)
    ensures 0 in Tip(run).projects && Tip(run).projects[0].execution == WaitingReleaseAuthorization
    ensures forall campaigns :: ReadBack(Tip(run), 0, campaigns) ==> campaigns == []
    ensures exists k :: OfferedAt(run, k, SampleInput(0, true), second.batch)
  {
    var s;
    run, s := StoryIsReachable();
    first, second := RefusedRun(), VerifiedRun();
    StoryLosesReadback(s, Tip(run));
    var a := Tip(run).artifacts[|s.artifacts|];
    forall campaigns | ReadBack(Tip(run), 0, campaigns) ensures campaigns == [] {
      NothingToRelease(Tip(run), s.artifacts, a, campaigns);
    }
  }

  lemma StoryLosesReadback(s: Scene, db: Db)
    requires IsConfirmed(s) && Shows(db, Story(s))
    ensures ReadbackLost(db, 1, RefusedRun(), VerifiedRun())
    ensures |s.artifacts| < |db.artifacts| && db.artifacts == s.artifacts + [db.artifacts[|s.artifacts|]]
    ensures db.artifacts[|s.artifacts|].content == ReadbackContent(RefusedRun().batch)
  {
    RefusedRunFits(db.jobs[1]);
    VerifiedRunFits(db.jobs[1]);
    RefusedNamesNothing(RefusedRun().batch);
    VerifiedNamesSomething(VerifiedRun().batch);
    LastIsStored(s.artifacts, db.artifacts[|s.artifacts|]);
  }

  // ----- a verified production reconcile is refused -----

  /** Discovery answers with exactly the objects of the plan, paused, and so does the readback. */
  function EchoFinding(p: Payload): R.Finding {
    var cs, us, rs := [E.EchoCampaign(p.campaign)], [E.EchoUnit(p.group)], E.EchoCreatives(p.creatives);
    R.FoundThen(cs, us, rs, [1], E.Probed(cs, us, rs))
  }

  function FoundRun(): JobRun {
    ReconcileRun([EchoFinding(SAMPLE_PAYLOAD)], Some(E.RelockAnswered(1, Answer(true))),
                 BatchReceipt(ReconciledVerifiedPaused, [CreatedReceipt()], Some(1), true))
  }

  lemma OnlyRowIsNamed(c: CampaignRow, u: UnitRow)
    ensures R.NamedCampaigns([c], c.name) == [c] && R.NamedUnits([u], R.UnitTitle(u)) == [u]
  {
    assert [c][..0] == [] && [u][..0] == [];
  }

  lemma OnlyCreativeIsFound(p: Payload)
    requires |p.creatives| == 1
    ensures R.FoundCreatives(p, E.EchoCreatives(p.creatives)) == [1]
  {
    var rs, notes := E.EchoCreatives(p.creatives), R.NotesOf(p.creatives);
    assert p.creatives[0].note in notes;
    assert rs == [rs[0]] && rs[..0] == [];
    assert R.NotedCreatives(rs, notes) == rs;
    assert R.IdFields(rs) == Numerics([1]);
    IntsOfNumerics(R.IdFields(rs), [1]);
  }

  lemma EchoIdsAreFound(p: Payload)
    requires |p.creatives| == 1
    ensures R.UniquelyFound(p, EchoFinding(p).cs, EchoFinding(p).us, EchoFinding(p).rs)
    ensures R.FoundIds(p, EchoFinding(p).cs, EchoFinding(p).us, EchoFinding(p).rs) == E.EchoIds(p)
  {
    OnlyRowIsNamed(E.EchoCampaign(p.campaign), E.EchoUnit(p.group));
    OnlyCreativeIsFound(p);
    assert E.EchoIds(p) == ObjectIds(1, 1, [1]);
  }

  /** Discovery finds exactly the objects of a plan with one creative. */
  lemma EchoIsFound(p: Payload)
    requires |p.creatives| == 1 && E.Confirmable(p)
    ensures R.FoundClean(p, EchoFinding(p))
    ensures R.FoundIds(p, EchoFinding(p).cs, EchoFinding(p).us, EchoFinding(p).rs) == E.EchoIds(p)
  {
    EchoIdsAreFound(p);
    E.EchoIsClean(p);
  }

  lemma FoundRunFits(job: Job)
    requires job.kind == Reconcile && job.input.ReconcileInput? && job.input.order.plans == [SAMPLE_PLAN]
    ensures RunFits(job, FoundRun()) && FinalStatus(Reconcile, BatchResult(FoundRun().batch)) == Succeeded
  {
    SampleIsProper(0, true);
    EchoIsFound(SAMPLE_PAYLOAD);
  }

  function SourceJob(): Job {
    Finished(ClaimedJob(true), NeedsReconcile, Some(WorkerException), 2)
  }

  /** On top of a confirmed project: a production create ended in an exception and was sent to reconciliation. */
  function Interrupted(s: Scene): Scene {
    At(WithJob(Begun(s, true), 1, SourceJob()), ExecutionState.ReconcileRequired)
  }

  lemma InterruptedIsReachable() returns (run: CodeRun, s: Scene)
    ensures run.ops != [] && IsConfirmed(s) && Shows(Tip(run), Interrupted(s))
  {
    run, s := BegunIsReachable(true);
    run := Finish(run, Begun(s, true), 1, NeedsReconcile, WorkerException, 2);
    run := MoveTo(run, WithJob(Begun(s, true), 1, SourceJob()), ExecutionState.ReconcileRequired);
  }

  function ReconcileJob(): Job {
    NewJob(0, Reconcile, ReconcileInput(1, SampleOrder(0, true)), 1, 3)
  }

  /** And a worker claimed its reconcile. */
  function Reconciling(s: Scene): Scene {
    WithJob(Interrupted(s), 2, Leased(ReconcileJob(), 0, 63))
  }

  /** enqueue_reconcile takes up any indeterminate create job of a project that waits for it. */
  lemma AskReconcile(run: CodeRun, s: Scene, source: Id) returns (next: CodeRun)
    requires run.ops != [] && Shows(Tip(run), s) && s.states.execution == ExecutionState.ReconcileRequired
    requires source in s.jobs && s.jobs[source].project == 0 && s.jobs[source].kind in {ExecuteTest, ProductionCreate}
    requires s.jobs[source].status == NeedsReconcile && WellFormed(s.jobs[source].kind, s.jobs[source].input)
    requires 2 !in s.jobs && forall j :: j in s.jobs ==> s.jobs[j].kind != Reconcile
    ensures next.ops != []
    ensures Shows(Tip(next),
                  WithJob(s, 2, NewJob(0, Reconcile, ReconcileInput(source, s.jobs[source].input.order), 1, 3)))
  {
    next := Enqueue(run, s, Reconcile, ReconcileInput(source, s.jobs[source].input.order), 1, 2, 3);
  }

  lemma ReconcileIsNext(s: Scene, source: Job, job: Job)
    requires IsConfirmed(s) && source.status == NeedsReconcile
    requires job.status == Pending && job.nextRun <= 3 && job.attempt < job.maxAttempts
    ensures NextInQueue(s.jobs[1 := source][2 := job], 2, 3)
  {
  }

  lemma ReconcilingIsReachable() returns (run: CodeRun, s: Scene)
    ensures run.ops != [] && IsConfirmed(s) && Shows(Tip(run), Reconciling(s))
  {
    run, s := InterruptedIsReachable();
    SampleIsProper(0, true);
    run := AskReconcile(run, Interrupted(s), 1);
    ReconcileIsNext(s, SourceJob(), ReconcileJob());
    ReconcileIsThird(s);
    run := Claim(run, WithJob(Interrupted(s), 2, ReconcileJob()), 2, 3);
  }

  lemma ReconcileIsThird(s: Scene)
    ensures WithJob(Interrupted(s), 2, ReconcileJob()).jobs == s.jobs[1 := SourceJob()][2 := ReconcileJob()]
    ensures WithJob(WithJob(Interrupted(s), 2, ReconcileJob()), 2, Leased(ReconcileJob(), 0, 63)) == Reconciling(s)
  {
    assert s.jobs[1 := SampleJob(0, true, 1)][1 := ClaimedJob(true)][1 := SourceJob()] == s.jobs[1 := SourceJob()];
    assert Interrupted(s).jobs[2 := ReconcileJob()][2 := Leased(ReconcileJob(), 0, 63)]
        == Interrupted(s).jobs[2 := Leased(ReconcileJob(), 0, 63)];
  }

  /** The move a verified production batch asks for was refused: it changed nothing. */
  predicate RefusedMove(run: CodeRun, k: nat) {
    k < |run.ops| && run.ops[k] == MoveExecution(0, WaitingReleaseAuthorization) && run.dbs[k + 1] == run.dbs[k]
  }

  /** The reconcile records its batch, has its move refused, and ends in the exception path. */
  lemma RecordsInVain(run: CodeRun, s: Scene, j: Id, batch: BatchReceipt) returns (next: CodeRun)
    requires run.ops != [] && Shows(Tip(run), s) && s.states.execution == ExecutionState.ReconcileRequired
    requires j in s.jobs && OwnedBy(s.jobs[j], 0) && HasOrder(s.jobs[j].input)
    requires !HasArtifact(s.artifacts, 0, ProductionReadback)
    ensures 0 in Tip(next).projects && Tip(next).projects[0] == s.states
    ensures j in Tip(next).jobs && Tip(next).jobs[j] == Finished(s.jobs[j], NeedsReconcile, Some(WorkerException), 5)
    ensures exists k: nat :: RefusedMove(next, k)
  {
    next := Offer(run, s, 3, s.jobs[j].input, batch, 4);
    var t := WithArtifact(s, Artifact(3, 0, ProductionReadback, s.jobs[j].input, ReadbackContent(batch), 4));
    var k := |next.ops|;
    next := Commit(next, MoveExecution(0, WaitingReleaseAuthorization));
    assert RefusedMove(next, k);
    next := Finish(next, t, j, NeedsReconcile, WorkerException, 5);
    assert RefusedMove(next, k);
  }

  /** A production reconcile is enqueued, claimed and fully verified, its engine result is one the dispatch
      completes a job with, and its project is where reconciles are requested; but the state it must enter is
      refused, so the job ends in the exception path, to be reconciled again. Dispatch.ReconcileTargetsFitExactly
      says in which states this can happen. */
  lemma VerifiedReconcileIsRefused() returns (run: CodeRun, j: Id, found: JobRun)
    ensures var db := Tip(run);
            && j in db.jobs && db.jobs[j].kind == Reconcile && db.jobs[j].status == NeedsReconcile
            && RunFits(db.jobs[j], found) && ResultOf(db.jobs[j], found) == Some(BatchResult(FoundRun().batch))
            && FinalStatus(Reconcile, BatchResult(FoundRun().batch)) == Succeeded
            && 0 in db.projects && db.projects[0].execution == ExecutionState.ReconcileRequired
    ensures exists k: nat :: RefusedMove(run, k)
  {
    var s;
    run, s := ReconcilingIsReachable();
    j, found := 2, FoundRun();
    run := RecordsInVain(run, Reconciling(s), 2, found.batch);
    FoundRunFits(Tip(run).jobs[2]);
  }

  // ----- a create that may have happened is sent again -----

  /** The one create ends in a transport error, and the relock breaks too. */
  function UnclearRun(): JobRun {
    ExecuteRun([E.CreateFailed(Refused(TransportError))], Some(E.RelockSilent(Broken)),
               BatchReceipt(BatchRelockFailed, [E.ErrorReceipt(SAMPLE_PLAN, None, TransportError)], None, false))
  }

  lemma UnclearRunCreates(job: Job)
    requires job.kind in {ExecuteTest, ProductionCreate} && job.input.WriteInput?
    requires job.input.order.plans == [SAMPLE_PLAN]
    ensures RunFits(job, UnclearRun()) && Creates(JobTrace(job, UnclearRun())) == [SAMPLE_PAYLOAD]
  {
    E.TraceCounts(job.input.order.plans, UnclearRun().attempts, UnclearRun().lock);
    assert E.PayloadsOf([SAMPLE_PLAN]) == [SAMPLE_PAYLOAD];
  }

  lemma VerifiedRunCreates(job: Job)
    requires job.kind in {ExecuteTest, ProductionCreate} && job.input.WriteInput?
    requires job.input.order.plans == [SAMPLE_PLAN]
    ensures RunFits(job, VerifiedRun()) && Creates(JobTrace(job, VerifiedRun())) == [SAMPLE_PAYLOAD]
  {
    VerifiedRunFits(job);
    E.TraceCounts(job.input.order.plans, VerifiedRun().attempts, VerifiedRun().lock);
    assert E.PayloadsOf([SAMPLE_PLAN]) == [SAMPLE_PAYLOAD];
  }

  /** The job as it failed. */
  function UnclearJob(): Job {
    Finished(ClaimedJob(false), JobStatus.Failed, Some(BatchResult(UnclearRun().batch)), 3)
  }

  /** On top of a confirmed project: the create job failed, with its relock. */
  function Unclear(s: Scene): Scene {
    WithJob(At(Begun(s, false), RelockFailed), 1, UnclearJob())
  }

  lemma UnclearIsReachable() returns (run: CodeRun, s: Scene)
    ensures run.ops != [] && IsConfirmed(s) && Shows(Tip(run), Unclear(s))
  {
    run, s := BegunIsReachable(false);
    run := Commit(run, EmitEvent(ExecutionRecorded(0, 0)));
    run := MoveTo(run, Begun(s, false), RelockFailed);
    run := Finish(run, At(Begun(s, false), RelockFailed), 1, JobStatus.Failed, BatchResult(UnclearRun().batch), 3);
  }

  lemma ResumedIsNext(s: Scene, job: Job)
    requires IsConfirmed(s) && job.status == Pending && job.nextRun <= 6 && job.attempt < job.maxAttempts
    ensures NextInQueue(s.jobs[1 := job], 1, 6)
  {
  }

  /** A create job's only create ends in a transport error, so it may have happened; the relock breaks, so the job
      is stored FAILED; an operator resumes it, and a worker claims it with the same order, for which sending the
      same create again is a run of the engine. TurnOutcomes.UnclearCreateIsFinalExactly says that the failed
      relock is what makes this possible. */
  lemma UnclearCreateIsSentAgain() returns (run: CodeRun)
    ensures var db := Tip(run);
            && 1 in db.jobs && db.jobs[1].status == Running && db.jobs[1].kind == ExecuteTest
            && db.jobs[1].result == Some(BatchResult(UnclearRun().batch))
            && RunFits(db.jobs[1], UnclearRun()) && Creates(JobTrace(db.jobs[1], UnclearRun())) == [SAMPLE_PAYLOAD]
            && RunFits(db.jobs[1], VerifiedRun()) && Creates(JobTrace(db.jobs[1], VerifiedRun())) == [SAMPLE_PAYLOAD]
  {
    var s;
    run, s := UnclearIsReachable();
    run := Resume(run, Unclear(s), 1, 4);
    var t := WithJob(Unclear(s), 1, Resumed(UnclearJob(), 4));
    ResumedIsNext(s, Resumed(UnclearJob(), 4));
    assert t.jobs == s.jobs[1 := Resumed(UnclearJob(), 4)];
    run := Claim(run, t, 1, 6);
    UnclearRunCreates(Tip(run).jobs[1]);
    VerifiedRunCreates(Tip(run).jobs[1]);
  }
}
