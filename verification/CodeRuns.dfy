/** Runs that the program itself can produce, as evidence that something can happen. SystemRuns lets callers
    ask for more than the code ever does, which suits theorems about every run; here each transaction must
    also pass the checks the code makes before asking for it, and come right after the one the code makes
    just before. */
module CodeRuns {
  import opened Common
  import opened Payloads
  import opened State
  import opened Database
  import opened SystemRuns

  const PREPARE_INPUT := PlanningRecord(0)
  const PLAN_MATRIX := PlanningRecord(1)
  const CONFIRMATION := PlanningRecord(2)

  predicate HasArtifact(artifacts: seq<Artifact>, p: Id, kind: ArtifactKind) {
    exists i :: 0 <= i < |artifacts| && artifacts[i].project == p && artifacts[i].kind == kind
  }

  /** A create grant is issued only for a confirmed project. */
  predicate Confirmed(db: Db, p: Id) {
    && p in db.projects && db.projects[p].project == AdvisoryReady
    && HasArtifact(db.artifacts, p, PLAN_MATRIX) && HasArtifact(db.artifacts, p, CONFIRMATION)
  }

  /** The source of a reconcile is an indeterminate job with the same order. */
  predicate Reconcilable(db: Db, p: Id, input: JobInput) {
    && p in db.projects && db.projects[p].execution == ExecutionState.ReconcileRequired
    && input.ReconcileInput? && input.source in db.jobs
    && var job := db.jobs[input.source];
       job.project == p && Batch(job.kind) && job.status == NeedsReconcile && HasOrder(job.input)
       && job.input.order == input.order
  }

  /** What the code checks on the rows before it asks for a transaction. */
  ghost predicate Permitted(db: Db, op: Op) {
    match op
    case EnqueueJob(p, kind, input, _, _, _) =>
      && kind in {Prepare, Reconcile}
      && (kind == Prepare ==> p in db.projects && db.projects[p].project == InputValidated)
      && (kind == Reconcile ==> Reconcilable(db, p, input))
    case IssueGrant(_, p, grantType, _, _, _) => grantType != ReleaseGrant && Confirmed(db, p)
    case ConsumeGrant(g, grantType, p, kind, input, _, _, _) =>
      && grantType != ReleaseGrant && p in db.projects && db.projects[p].execution == AuthorisedState(grantType)
      && g in db.grants && Covers(db.grants[g].scope, input)
    case ResumeJob(j, _) => j in db.jobs && db.jobs[j].status == Failed
    case _ => true
  }

  /** A readback is put right after its record, a project authorised right after its grant was issued, and it
      enters WRITE_IN_PROGRESS right after its grant was consumed. */
  predicate Follows(previous: Op, op: Op) {
    match op
    case PutArtifact(_, p, kind, input, _, _) =>
      kind == ProductionReadback ==> HasOrder(input) && previous == EmitEvent(ExecutionRecorded(p, input.order.grant))
    case MoveExecution(p, target) =>
      && (target in {TestWriteAuthorized, ProductionCreateAuthorized} ==>
            previous.IssueGrant? && previous.p == p && target == AuthorisedState(previous.grantType))
      && (target == WriteInProgress ==> previous.ConsumeGrant? && previous.p == p)
    case _ => true
  }

  ghost predicate CodeAllows(h: History, i: nat)
    requires i < |h.ops| < |h.dbs|
  {
    Permitted(h.dbs[i], h.ops[i]) && (if i > 0 then Follows(h.ops[i - 1], h.ops[i]) else h.ops[i].CreateProject?)
  }

  type CodeRun = run: SystemRun | forall i :: 0 <= i < |run.ops| ==> CodeAllows(run, i)
    witness History([EMPTY], [])

  function Tip(run: SystemRun): Db {
    run.dbs[|run.ops|]
  }

  /** The code may ask for this transaction next. */
  ghost predicate MayCommit(run: CodeRun, op: Op) {
    && Legal(Tip(run), op) && CallerOk(Tip(run), op) && Permitted(Tip(run), op)
    && if run.ops != [] then Follows(run.ops[|run.ops| - 1], op) else op.CreateProject?
  }

  /** The run goes on by one transaction. */
  ghost predicate Extends(run: CodeRun, op: Op, next: CodeRun) {
    next == Recorded(run, op, Step(Tip(run), op)) && Tip(next) == Step(Tip(run), op)
  }

  lemma Commit(run: CodeRun, op: Op) returns (next: CodeRun)
    requires MayCommit(run, op)
    ensures Extends(run, op, next)
  {
    RecordedRequested(run, op, Step(Tip(run), op));
    var h: SystemRun := Recorded(run, op, Step(Tip(run), op));
    forall i | 0 <= i < |h.ops| ensures CodeAllows(h, i) {
      if i < |run.ops| {
        assert CodeAllows(run, i);
        assert h.dbs[i] == run.dbs[i];
      }
    }
    next := h;
  }

  // ----- the tables, with one project -----

  datatype Scene = Scene(states: Project, grants: map<Id, Grant>, jobs: map<Id, Job>, artifacts: seq<Artifact>)

  predicate Shows(db: Db, s: Scene) {
    db.projects == map[0 := s.states] && db.grants == s.grants && db.jobs == s.jobs && db.artifacts == s.artifacts
  }

  function AtProject(s: Scene, target: ProjectState): Scene {
    s.(states := s.states.(project := target))
  }

  function At(s: Scene, target: ExecutionState): Scene {
    s.(states := s.states.(execution := target))
  }

  function WithJob(s: Scene, j: Id, job: Job): Scene {
    s.(jobs := s.jobs[j := job])
  }

  function WithGrant(s: Scene, g: Id, row: Grant): Scene {
    s.(grants := s.grants[g := row])
  }

  function WithArtifact(s: Scene, a: Artifact): Scene {
    s.(artifacts := s.artifacts + [a])
  }

  lemma MoveProjectTo(run: CodeRun, s: Scene, target: ProjectState) returns (next: CodeRun)
    requires run.ops != [] && Shows(Tip(run), s) && target in ProjectTransitions(s.states.project)
    ensures next.ops == run.ops + [MoveProject(0, target)] && Shows(Tip(next), AtProject(s, target))
  {
    next := Commit(run, MoveProject(0, target));
  }

  lemma MoveTo(run: CodeRun, s: Scene, target: ExecutionState) returns (next: CodeRun)
    requires run.ops != [] && Shows(Tip(run), s) && target in ExecutionTransitions(s.states.execution)
    requires Follows(run.ops[|run.ops| - 1], MoveExecution(0, target))
    ensures next.ops == run.ops + [MoveExecution(0, target)] && Shows(Tip(next), At(s, target))
  {
    next := Commit(run, MoveExecution(0, target));
  }

  /** Issue a create grant and authorise the project. */
  lemma Authorise(run: CodeRun, s: Scene, g: Id, row: Grant) returns (next: CodeRun)
    requires run.ops != [] && Shows(Tip(run), s) && Confirmed(Tip(run), 0)
    requires row.project == 0 && row.status == Issued && row.consumedAt == None && row.grantType != ReleaseGrant
    requires g !in s.grants && forall h :: h in s.grants ==> s.grants[h].nonce != row.nonce
    requires AuthorisedState(row.grantType) in ExecutionTransitions(s.states.execution)
    ensures next.ops != [] && Shows(Tip(next), At(WithGrant(s, g, row), AuthorisedState(row.grantType)))
  {
    next := Commit(run, IssueGrant(g, 0, row.grantType, row.scope, row.nonce, row.expiresAt));
    next := MoveTo(next, WithGrant(s, g, row), AuthorisedState(row.grantType));
  }

  function Used(row: Grant, now: Time): Grant {
    row.(status := Consumed, consumedAt := Some(now))
  }

  /** Consume the grant for a new create job. */
  lemma Consume(run: CodeRun, s: Scene, g: Id, kind: JobKind, input: JobInput, j: Id, now: Time) returns (next: CodeRun)
    requires run.ops != [] && Shows(Tip(run), s)
    requires kind in {ExecuteTest, ProductionCreate} && WellFormed(kind, input) && input.order.grant == g
    requires GrantUsable(Tip(run), g, TypeFor(kind), 0, now) && Covers(s.grants[g].scope, input)
    requires s.states.execution == AuthorisedState(TypeFor(kind))
    requires j !in s.jobs && !WorkExists(s.jobs, 0, kind, input)
    ensures next.ops == run.ops + [ConsumeGrant(g, TypeFor(kind), 0, kind, input, 1, j, now)]
    ensures Shows(Tip(next), WithJob(WithGrant(s, g, Used(s.grants[g], now)), j, NewJob(0, kind, input, 1, now)))
  {
    next := Commit(run, ConsumeGrant(g, TypeFor(kind), 0, kind, input, 1, j, now));
  }

  predicate NextInQueue(jobs: map<Id, Job>, j: Id, now: Time) {
    FirstClaimable(jobs, now, Some(j)) && forall k :: k in jobs ==> !LeaseExpired(jobs[k], now)
  }

  lemma Claim(run: CodeRun, s: Scene, j: Id, now: Time) returns (next: CodeRun)
    requires run.ops != [] && Shows(Tip(run), s) && NextInQueue(s.jobs, j, now)
    ensures next.ops == run.ops + [ClaimJob(0, now, now + 60, [], Some(j))]
    ensures Shows(Tip(next), WithJob(s, j, Leased(s.jobs[j], 0, now + 60)))
  {
    assert IndeterminateJobs(s.jobs, now) == {};
    assert SweptJobs(s.jobs, now) == s.jobs;
    next := Commit(run, ClaimJob(0, now, now + 60, [], Some(j)));
  }

  /** Put a planning record under a new key. */
  lemma PutPlanning(run: CodeRun, s: Scene, a: Artifact) returns (next: CodeRun)
    requires run.ops != [] && Shows(Tip(run), s) && a.project == 0 && a.kind.PlanningRecord?
    requires !ArtifactExists(s.artifacts, 0, a.kind, a.input)
    ensures next.ops != [] && Shows(Tip(next), WithArtifact(s, a))
  {
    next := Commit(run, PutArtifact(a.id, 0, a.kind, a.input, a.content, a.createdAt));
  }

  /** Record an engine run, then offer its batch as a readback. */
  lemma Offer(run: CodeRun, s: Scene, a: Id, input: JobInput, batch: BatchReceipt, now: Time) returns (next: CodeRun)
    requires run.ops != [] && Shows(Tip(run), s) && HasOrder(input)
    ensures |next.ops| == |run.ops| + 2 && run.ops <= next.ops
    ensures next.ops[|run.ops| + 1] == PutArtifact(a, 0, ProductionReadback, input, ReadbackContent(batch), now)
    ensures Shows(Tip(next), if ArtifactExists(s.artifacts, 0, ProductionReadback, input) then s
                             else WithArtifact(s,
                                               Artifact(a, 0, ProductionReadback, input, ReadbackContent(batch), now)))
  {
    var recorded := Commit(run, EmitEvent(ExecutionRecorded(0, input.order.grant)));
    next := Commit(recorded, PutArtifact(a, 0, ProductionReadback, input, ReadbackContent(batch), now));
  }

  lemma Finish(run: CodeRun, s: Scene, j: Id, status: JobStatus, result: JobResult, now: Time) returns (next: CodeRun)
    requires run.ops != [] && Shows(Tip(run), s)
    requires status in {Succeeded, Failed, NeedsReconcile} && j in s.jobs && OwnedBy(s.jobs[j], 0)
    requires status == Succeeded ==> EarnsSuccess(s.jobs[j], Some(result))
    ensures next.ops == run.ops + [FinishJob(j, 0, status, Some(result), now)] && run.dbs <= next.dbs
    ensures Shows(Tip(next), WithJob(s, j, Finished(s.jobs[j], status, Some(result), now)))
  {
    next := Commit(run, FinishJob(j, 0, status, Some(result), now));
  }

  function Resumed(job: Job, now: Time): Job {
    job.(status := Pending, attempt := 0, nextRun := now)
  }

  lemma Resume(run: CodeRun, s: Scene, j: Id, now: Time) returns (next: CodeRun)
    requires run.ops != [] && Shows(Tip(run), s) && j in s.jobs && s.jobs[j].status == Failed
    ensures next.ops != [] && Shows(Tip(next), WithJob(s, j, Resumed(s.jobs[j], now)))
  {
    next := Commit(run, ResumeJob(j, now));
  }

  lemma Enqueue(run: CodeRun, s: Scene, kind: JobKind, input: JobInput, maxAttempts: nat, j: Id, now: Time)
    returns (next: CodeRun)
    requires run.ops != [] && Shows(Tip(run), s)
    requires Permitted(Tip(run), EnqueueJob(0, kind, input, maxAttempts, j, now))
    requires CallerOk(Tip(run), EnqueueJob(0, kind, input, maxAttempts, j, now))
    requires j !in s.jobs && !WorkExists(s.jobs, 0, kind, input)
    ensures next.ops != [] && Shows(Tip(next), WithJob(s, j, NewJob(0, kind, input, maxAttempts, now)))
  {
    next := Commit(run, EnqueueJob(0, kind, input, maxAttempts, j, now));
  }

  // ----- up to the confirmed project -----

  /** A confirmed project of one finished PREPARE job, authorised for nothing yet. */
  predicate IsConfirmed(s: Scene) {
    && s.states == Project(AdvisoryReady, NoExecution, NotReleased) && s.grants == map[]
    && s.jobs.Keys == {0} && s.jobs[0].kind == Prepare && s.jobs[0].status == Succeeded
    && HasArtifact(s.artifacts, 0, PLAN_MATRIX) && HasArtifact(s.artifacts, 0, CONFIRMATION)
    && !HasArtifact(s.artifacts, 0, ProductionReadback)
  }

  function Planning(a: Id, kind: ArtifactKind, body: Id): Artifact {
    Artifact(a, 0, kind, RequestInput(body), OtherContent, 0)
  }

  function Prepared(states: ProjectState, job: Job, artifacts: seq<Artifact>): Scene {
    Scene(Project(states, NoExecution, NotReleased), map[], map[0 := job], artifacts)
  }

  function Fresh(state: ProjectState): Scene {
    Scene(Project(state, NoExecution, NotReleased), map[], map[], [])
  }

  /** The first half of enqueue_prepare. */
  lemma Validated() returns (run: CodeRun)
    ensures run.ops != [] && Shows(Tip(run), Fresh(InputValidated))
  {
    run := Commit(History([EMPTY], []), CreateProject(0));
    run := MoveProjectTo(run, Fresh(Draft), InputValidated);
  }

  /** The second half: the PREPARE job is enqueued; and a worker claims it. */
  lemma Preparing() returns (run: CodeRun)
    ensures run.ops != []
    ensures Shows(Tip(run), Prepared(InputValidated, Leased(NewJob(0, Prepare, RequestInput(0), 3, 0), 0, 60), []))
  {
    run := Validated();
    run := Enqueue(run, Fresh(InputValidated), Prepare, RequestInput(0), 3, 0, 0);
    var job := NewJob(0, Prepare, RequestInput(0), 3, 0);
    assert WithJob(Fresh(InputValidated), 0, job) == Prepared(InputValidated, job, []);
    run := Claim(run, Prepared(InputValidated, job, []), 0, 0);
    assert map[0 := job][0 := Leased(job, 0, 60)] == map[0 := Leased(job, 0, 60)];
  }

  /** _process_prepare, run to its end: the records are stored and the project waits for confirmation. */
  lemma Planned(job: Job, run: CodeRun) returns (next: CodeRun)
    requires run.ops != [] && Shows(Tip(run), Prepared(InputValidated, job, [])) && job.kind == Prepare
    requires OwnedBy(job, 0)
    ensures next.ops != []
    ensures Shows(Tip(next), Prepared(WaitingConfirmation, Finished(job, Succeeded, Some(ArtifactResult), 0),
                                      [Planning(0, PREPARE_INPUT, 0), Planning(1, PLAN_MATRIX, 0)]))
  {
    var records := [Planning(0, PREPARE_INPUT, 0)];
    next := PutPlanning(run, Prepared(InputValidated, job, []), records[0]);
    assert [] + records == records;
    next := MoveProjectTo(next, Prepared(InputValidated, job, records), ThreeChainReady);
    next := PutPlanning(next, Prepared(ThreeChainReady, job, records), Planning(1, PLAN_MATRIX, 0));
    records := records + [Planning(1, PLAN_MATRIX, 0)];
    next := MoveProjectTo(next, Prepared(ThreeChainReady, job, records), MatrixReady);
    next := MoveProjectTo(next, Prepared(MatrixReady, job, records), WaitingConfirmation);
    next := Finish(next, Prepared(WaitingConfirmation, job, records), 0, Succeeded, ArtifactResult, 0);
    assert map[0 := job][0 := Finished(job, Succeeded, Some(ArtifactResult), 0)]
      == map[0 := Finished(job, Succeeded, Some(ArtifactResult), 0)];
  }

  /** The project prepared, and confirmed by a person. */
  lemma ConfirmedIsReachable() returns (run: CodeRun, s: Scene)
    ensures run.ops != [] && Shows(Tip(run), s) && IsConfirmed(s)
  {
    var leased := Leased(NewJob(0, Prepare, RequestInput(0), 3, 0), 0, 60);
    run := Preparing();
    run := Planned(leased, run);
    var job := Finished(leased, Succeeded, Some(ArtifactResult), 0);
    var records := [Planning(0, PREPARE_INPUT, 0), Planning(1, PLAN_MATRIX, 0)];
    run := PutPlanning(run, Prepared(WaitingConfirmation, job, records), Planning(2, CONFIRMATION, 1));
    records := records + [Planning(2, CONFIRMATION, 1)];
    run := MoveProjectTo(run, Prepared(WaitingConfirmation, job, records), AdvisoryReady);
    s := Prepared(AdvisoryReady, job, records);
    assert records[1].kind == PLAN_MATRIX && records[2].kind == CONFIRMATION;
  }
}
