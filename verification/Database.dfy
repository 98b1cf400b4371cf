/** The rows of the SQLite authority and the effect of each transaction on them.
    A refused transaction raises, is rolled back, and so leaves the rows as they were. */
module Database {
  import opened Common
  import opened Payloads
  import opened State

  datatype JobKind =
    | Prepare
    | SyncJuguang
    | ExecuteTest
    | ProductionCreate
    | Reconcile
    | Release
    | ReleaseEvaluate
    | ReleaseRecovery

  datatype JobStatus = Pending | Running | Retry | Succeeded | Failed | Cancelled | NeedsReconcile

  datatype Job = Job(
    project: Id, kind: JobKind, input: JobInput, status: JobStatus, attempt: nat, maxAttempts: nat,
    owner: Option<Id>, expires: Option<Time>, nextRun: Time, createdAt: Time, result: Option<JobResult>)

  datatype GrantType = ExecutionGrant | ProductionCreateGrant | ReleaseGrant

  datatype GrantStatus = Issued | Consumed | Revoked | Expired

  datatype GrantScope = PlanScope(revisions: seq<Id>, hashes: seq<Digest>)
                      | CampaignScope(terms: ReleaseTerms, startAt: Time)

  datatype Grant = Grant(
    project: Id, grantType: GrantType, status: GrantStatus, scope: GrantScope, nonce: Id,
    expiresAt: Time, consumedAt: Option<Time>)

  datatype Project = Project(project: ProjectState, execution: ExecutionState, delivery: DeliveryState)

  datatype ArtifactKind = ProductionReadback | ReleaseActivation | SpendEvaluation | RecoveryRecord
    | PlanningRecord(name: Id)

  datatype ArtifactContent =
    | ReadbackContent(batch: BatchReceipt)
    | ActivationContent(release: ReleaseReceipt)
    | SpendContent(spend: SpendReceipt)
    | RecoveryContent(safe: bool, relockReceipt: Option<int>)
    | OtherContent

  datatype Artifact = Artifact(
    id: Id, project: Id, kind: ArtifactKind, input: JobInput, content: ArtifactContent, createdAt: Time)

  /** One row of state_transitions. */
  datatype LogEntry =
    | ProjectMoved(p: Id, projectFrom: ProjectState, projectTo: ProjectState)
    | ExecutionMoved(p: Id, executionFrom: ExecutionState, executionTo: ExecutionState)
    | DeliveryMoved(p: Id, deliveryFrom: DeliveryState, deliveryTo: DeliveryState)

  /** One row of the outbox. A StateChanged event carries its transition and, when a lease sweep
      caused it, the swept job. */
  datatype Event =
    | ProjectCreated(p: Id)
    | StateChanged(entry: LogEntry, job: Option<Id>)
    | GrantIssued(g: Id)
    | GrantRevoked(g: Id)
    | GrantConsumed(g: Id, j: Id)
    | ExecutionRecorded(p: Id, g: Id)
    | Alert(p: Id, j: Id)

  datatype Db = Db(
    projects: map<Id, Project>, jobs: map<Id, Job>, grants: map<Id, Grant>,
    artifacts: seq<Artifact>, log: seq<LogEntry>, outbox: seq<Event>)

  const EMPTY := Db(map[], map[], map[], [], [], [])

  /** Kinds whose interrupted run leaves the platform in an unknown state. */
  predicate External(kind: JobKind) {
    kind in {ExecuteTest, ProductionCreate, Reconcile, Release, ReleaseEvaluate, ReleaseRecovery}
  }

  // ----- job rows -----

  function NewJob(p: Id, kind: JobKind, input: JobInput, maxAttempts: nat, now: Time): Job {
    Job(p, kind, input, Pending, 0, maxAttempts, None, None, now, now, None)
  }

  predicate LeaseExpired(job: Job, now: Time) {
    job.status == Running && job.expires.Some? && job.expires.value <= now
  }

  predicate Indeterminate(job: Job, now: Time) {
    LeaseExpired(job, now) && External(job.kind)
  }

  function Swept(job: Job, now: Time): Job {
    if Indeterminate(job, now) then job.(status := NeedsReconcile, owner := None, expires := None) else job
  }

  predicate Claimable(job: Job, now: Time) {
    && (((job.status == Pending || job.status == Retry) && job.nextRun <= now) || LeaseExpired(job, now))
    && job.attempt < job.maxAttempts
  }

  function Leased(job: Job, worker: Id, until: Time): Job {
    job.(status := Running, attempt := job.attempt + 1, owner := Some(worker), expires := Some(until))
  }

  predicate OwnedBy(job: Job, worker: Id) {
    job.status == Running && job.owner == Some(worker)
  }

  function Finished(job: Job, status: JobStatus, result: Option<JobResult>, now: Time): Job {
    job.(status := status, result := result, owner := None, expires := None, nextRun := now + 30)
  }

  /** ORDER BY created_at, job_id. */
  predicate QueuedBefore(jobs: map<Id, Job>, a: Id, b: Id)
    requires a in jobs && b in jobs
  {
    jobs[a].createdAt < jobs[b].createdAt || (jobs[a].createdAt == jobs[b].createdAt && a <= b)
  }

  predicate SameWork(job: Job, p: Id, kind: JobKind, input: JobInput) {
    job.project == p && job.kind == kind && job.input == input
  }

  predicate WorkExists(jobs: map<Id, Job>, p: Id, kind: JobKind, input: JobInput) {
    exists j :: j in jobs && SameWork(jobs[j], p, kind, input)
  }

  function SweptJobs(jobs: map<Id, Job>, now: Time): map<Id, Job> {
    map j | j in jobs :: Swept(jobs[j], now)
  }

  /** The rows the first SELECT of a claim returns, as a set. */
  function IndeterminateJobs(jobs: map<Id, Job>, now: Time): set<Id> {
    set j | j in jobs && Indeterminate(jobs[j], now)
  }

  ghost predicate Enumerates(rows: seq<Id>, s: set<Id>) {
    && (forall i :: 0 <= i < |rows| ==> rows[i] in s)
    && (forall j :: j in s ==> j in rows)
    && (forall i, k :: 0 <= i < k < |rows| ==> rows[i] != rows[k])
  }

  predicate FirstClaimable(jobs: map<Id, Job>, now: Time, picked: Option<Id>) {
    match picked
    case None => forall j :: j in jobs ==> !Claimable(jobs[j], now)
    case Some(j) =>
      && j in jobs && Claimable(jobs[j], now)
      && forall k :: k in jobs && Claimable(jobs[k], now) ==> QueuedBefore(jobs, j, k)
  }

  // ----- operations -----

  datatype Op =
    | CreateProject(p: Id)
    | MoveProject(p: Id, projectTarget: ProjectState)
    | MoveExecution(p: Id, executionTarget: ExecutionState)
    | MoveDelivery(p: Id, deliveryTarget: DeliveryState)
    | PutArtifact(a: Id, p: Id, artifactKind: ArtifactKind, input: JobInput, content: ArtifactContent, now: Time)
    | EmitEvent(event: Event)
    | IssueGrant(g: Id, p: Id, grantType: GrantType, scope: GrantScope, nonce: Id, expiresAt: Time)
    | RevokeGrant(g: Id)
    | ConsumeGrant(g: Id, grantType: GrantType, p: Id, kind: JobKind, input: JobInput, maxAttempts: nat, j: Id,
                   now: Time)
    | EnqueueJob(p: Id, kind: JobKind, input: JobInput, maxAttempts: nat, j: Id, now: Time)
    | ClaimJob(worker: Id, now: Time, until: Time, rows: seq<Id>, picked: Option<Id>)
    | HeartbeatJob(j: Id, worker: Id, until: Time)
    | HeartbeatWorker(worker: Id, until: Time)
    | FinishJob(j: Id, worker: Id, status: JobStatus, result: Option<JobResult>, now: Time)
    | CancelJob(j: Id)
    | ResumeJob(j: Id, now: Time)

  /** What the environment supplies with an operation: fresh ids, and query results that answer
      the query (in whatever order SQLite returns the swept rows). */
  ghost predicate Legal(db: Db, op: Op) {
    match op
    case ConsumeGrant(_, _, _, _, _, _, j, _) => j !in db.jobs
    case EnqueueJob(_, _, _, _, j, _) => j !in db.jobs
    case ClaimJob(_, now, _, rows, picked) =>
      && Enumerates(rows, IndeterminateJobs(db.jobs, now))
      && FirstClaimable(SweptJobs(db.jobs, now), now, picked)
    case EmitEvent(event) => !event.StateChanged?
    case FinishJob(_, _, status, _, _) => status in {Succeeded, Failed, Retry, NeedsReconcile}
    case _ => true
  }

  // ----- state moves -----

  function Logged(db: Db, entry: LogEntry, job: Option<Id>): Db {
    db.(log := db.log + [entry], outbox := db.outbox + [StateChanged(entry, job)])
  }

  function MoveProjectDb(db: Db, p: Id, target: ProjectState): Db {
    if p in db.projects && target in ProjectTransitions(db.projects[p].project) then
      var row := db.projects[p];
      Logged(db.(projects := db.projects[p := row.(project := target)]), ProjectMoved(p, row.project, target), None)
    else db
  }

  function MoveExecutionDb(db: Db, p: Id, target: ExecutionState): Db {
    if p in db.projects && target in ExecutionTransitions(db.projects[p].execution) then
      var row := db.projects[p];
      Logged(db.(projects := db.projects[p := row.(execution := target)]), ExecutionMoved(p, row.execution, target),
             None)
    else db
  }

  function MoveDeliveryDb(db: Db, p: Id, target: DeliveryState): Db {
    if p in db.projects && target in DeliveryTransitions(db.projects[p].delivery) then
      var row := db.projects[p];
      Logged(db.(projects := db.projects[p := row.(delivery := target)]), DeliveryMoved(p, row.delivery, target), None)
    else db
  }

  // ----- grants -----

  /** grant_id is a primary key, (project, type, nonce) is unique, and the project must exist. */
  predicate GrantInsertable(db: Db, g: Id, p: Id, grantType: GrantType, nonce: Id) {
    && g !in db.grants
    && p in db.projects
    && forall h :: h in db.grants ==>
         !(db.grants[h].project == p && db.grants[h].grantType == grantType && db.grants[h].nonce == nonce)
  }

  predicate GrantUsable(db: Db, g: Id, grantType: GrantType, p: Id, now: Time) {
    && g in db.grants
    && db.grants[g].project == p
    && db.grants[g].grantType == grantType
    && db.grants[g].status == Issued
    && now < db.grants[g].expiresAt
  }

  function ConsumeGrantDb(db: Db, g: Id, grantType: GrantType, p: Id, kind: JobKind, input: JobInput,
                          maxAttempts: nat, j: Id, now: Time): Db {
    if !WorkExists(db.jobs, p, kind, input) && GrantUsable(db, g, grantType, p, now) && p in db.projects then
      db.(grants := db.grants[g := db.grants[g].(status := Consumed, consumedAt := Some(now))],
          jobs := db.jobs[j := NewJob(p, kind, input, maxAttempts, now)],
          outbox := db.outbox + [GrantConsumed(g, j)])
    else db
  }

  // ----- claims -----

  /** The claim's direct update of one swept job's project. */
  function SweepProject(db: Db, row: Id): Db {
    if row in db.jobs && db.jobs[row].project in db.projects
       && db.projects[db.jobs[row].project].execution == WriteInProgress then
      var p := db.jobs[row].project;
      Logged(db.(projects := db.projects[p := db.projects[p].(execution := ExecutionState.ReconcileRequired)]),
             ExecutionMoved(p, WriteInProgress, ExecutionState.ReconcileRequired), Some(row))
    else db
  }

  function SweepProjects(db: Db, rows: seq<Id>): (r: Db)
    ensures r.jobs == db.jobs && r.grants == db.grants && r.artifacts == db.artifacts
    ensures r.projects.Keys == db.projects.Keys
  {
    if rows == [] then db
    else SweepProject(SweepProjects(db, rows[..|rows| - 1]), rows[|rows| - 1])
  }

  function ClaimDb(db: Db, worker: Id, now: Time, until: Time, rows: seq<Id>, picked: Option<Id>): Db {
    var moved := SweepProjects(db.(jobs := SweptJobs(db.jobs, now)), rows);
    if picked.Some? && picked.value in moved.jobs
    then moved.(jobs := moved.jobs[picked.value := Leased(moved.jobs[picked.value], worker, until)])
    else moved
  }

  // ----- the transaction semantics -----

  function Step(db: Db, op: Op): Db {
    match op
    case CreateProject(p) =>
      if p in db.projects then db
      else db.(projects := db.projects[p := Project(Draft, NoExecution, NotReleased)],
               outbox := db.outbox + [ProjectCreated(p)])
    case MoveProject(p, target) => MoveProjectDb(db, p, target)
    case MoveExecution(p, target) => MoveExecutionDb(db, p, target)
    case MoveDelivery(p, target) => MoveDeliveryDb(db, p, target)
    case PutArtifact(a, p, kind, input, content, now) =>
      if p !in db.projects || ArtifactExists(db.artifacts, p, kind, input) then db
      else db.(artifacts := db.artifacts + [Artifact(a, p, kind, input, content, now)])
    case EmitEvent(event) => db.(outbox := db.outbox + [event])
    case IssueGrant(g, p, grantType, scope, nonce, expiresAt) =>
      if GrantInsertable(db, g, p, grantType, nonce) then
        db.(grants := db.grants[g := Grant(p, grantType, Issued, scope, nonce, expiresAt, None)],
            outbox := db.outbox + [GrantIssued(g)])
      else db
    case RevokeGrant(g) =>
      if g in db.grants && db.grants[g].status == Issued then
        db.(grants := db.grants[g := db.grants[g].(status := Revoked)], outbox := db.outbox + [GrantRevoked(g)])
      else db
    case ConsumeGrant(g, grantType, p, kind, input, maxAttempts, j, now) =>
      ConsumeGrantDb(db, g, grantType, p, kind, input, maxAttempts, j, now)
    case EnqueueJob(p, kind, input, maxAttempts, j, now) =>
      if p !in db.projects || WorkExists(db.jobs, p, kind, input) then db
      else db.(jobs := db.jobs[j := NewJob(p, kind, input, maxAttempts, now)])
    case ClaimJob(worker, now, until, rows, picked) => ClaimDb(db, worker, now, until, rows, picked)
    case HeartbeatJob(j, worker, until) =>
      if j in db.jobs && OwnedBy(db.jobs[j], worker)
      then db.(jobs := db.jobs[j := db.jobs[j].(expires := Some(until))]) else db
    case HeartbeatWorker(worker, until) =>
      db.(jobs := map j | j in db.jobs ::
                    if OwnedBy(db.jobs[j], worker) then db.jobs[j].(expires := Some(until)) else db.jobs[j])
    case FinishJob(j, worker, status, result, now) =>
      if j in db.jobs && OwnedBy(db.jobs[j], worker)
      then db.(jobs := db.jobs[j := Finished(db.jobs[j], status, result, now)]) else db
    case CancelJob(j) =>
      if j in db.jobs && (db.jobs[j].status == Pending || db.jobs[j].status == Retry)
      then db.(jobs := db.jobs[j := db.jobs[j].(status := Cancelled, owner := None, expires := None)]) else db
    case ResumeJob(j, now) =>
      if j in db.jobs && (db.jobs[j].status == Failed || db.jobs[j].status == Cancelled)
      then db.(jobs := db.jobs[j := db.jobs[j].(status := Pending, attempt := 0, nextRun := now)]) else db
  }

  /** artifacts is UNIQUE(project_id, kind, input_sha), inserted with OR IGNORE. */
  predicate ArtifactExists(artifacts: seq<Artifact>, p: Id, kind: ArtifactKind, input: JobInput) {
    exists i ::
      0 <= i < |artifacts| && artifacts[i].project == p && artifacts[i].kind == kind && artifacts[i].input == input
  }

  /** What an operation does to one existing job row, whatever the other rows hold. */
  function JobAfter(job: Job, j: Id, op: Op): Job {
    match op
    case ClaimJob(worker, now, until, _, picked) =>
      if picked == Some(j) then Leased(Swept(job, now), worker, until) else Swept(job, now)
    case HeartbeatJob(k, worker, until) =>
      if k == j && OwnedBy(job, worker) then job.(expires := Some(until)) else job
    case HeartbeatWorker(worker, until) =>
      if OwnedBy(job, worker) then job.(expires := Some(until)) else job
    case FinishJob(k, worker, status, result, now) =>
      if k == j && OwnedBy(job, worker) then Finished(job, status, result, now) else job
    case CancelJob(k) =>
      if k == j && (job.status == Pending || job.status == Retry)
      then job.(status := Cancelled, owner := None, expires := None) else job
    case ResumeJob(k, now) =>
      if k == j && (job.status == Failed || job.status == Cancelled)
      then job.(status := Pending, attempt := 0, nextRun := now) else job
    case _ => job
  }

  /** Rows are never deleted, and each evolves by its own row effect. */
  lemma RowEffect(db: Db, op: Op, j: Id)
    requires Legal(db, op) && j in db.jobs
    ensures j in Step(db, op).jobs
    ensures Step(db, op).jobs[j] == JobAfter(db.jobs[j], j, op)
  {
  }

  /** A row that appears was just enqueued, pending and unclaimed. */
  lemma NewRow(db: Db, op: Op, j: Id)
    requires Legal(db, op) && j !in db.jobs && j in Step(db, op).jobs
    ensures op.EnqueueJob? || op.ConsumeGrant?
    ensures op.j == j
    ensures Step(db, op).jobs[j] == NewJob(op.p, op.kind, op.input, op.maxAttempts, op.now)
    ensures op.ConsumeGrant? ==> GrantUsable(db, op.g, op.grantType, op.p, op.now)
  {
  }

  // ----- runs -----

  /** The rows after each transaction, and the transactions. */
  datatype History = History(dbs: seq<Db>, ops: seq<Op>)

  ghost predicate Behaves(h: History) {
    && |h.dbs| == |h.ops| + 1
    && h.dbs[0] == EMPTY
    && forall i :: 0 <= i < |h.ops| ==> StepHolds(h, i)
  }

  ghost predicate StepHolds(h: History, i: nat)
    requires i < |h.ops| < |h.dbs|
  {
    Legal(h.dbs[i], h.ops[i]) && h.dbs[i + 1] == Step(h.dbs[i], h.ops[i])
  }

  /** A run of the store from an empty database. Several workers and callers interleave freely;
      nothing is assumed about the order of their clocks. */
  type Run = h: History | Behaves(h) witness History([EMPTY], [])

  function Recorded(h: History, op: Op, next: Db): History {
    History(h.dbs + [next], h.ops + [op])
  }

  lemma RecordedBehaves(h: History, op: Op, next: Db)
    requires Behaves(h) && Legal(h.dbs[|h.ops|], op) && next == Step(h.dbs[|h.ops|], op)
    ensures Behaves(Recorded(h, op, next))
  {
    var g := Recorded(h, op, next);
    forall i | 0 <= i < |g.ops| ensures StepHolds(g, i) {
      if i < |h.ops| {
        assert StepHolds(h, i);
        assert g.dbs[i] == h.dbs[i] && g.dbs[i + 1] == h.dbs[i + 1] && g.ops[i] == h.ops[i];
      }
    }
  }

  lemma TakeStep(run: Run, i: nat)
    requires i < |run.ops|
    ensures Legal(run.dbs[i], run.ops[i]) && run.dbs[i + 1] == Step(run.dbs[i], run.ops[i])
  {
    assert StepHolds(run, i);
  }

  /** RowEffect along a run. */
  lemma RowStep(run: Run, i: nat, j: Id)
    requires i < |run.ops| && j in run.dbs[i].jobs
    ensures j in run.dbs[i + 1].jobs
    ensures run.dbs[i + 1].jobs[j] == JobAfter(run.dbs[i].jobs[j], j, run.ops[i])
  {
    TakeStep(run, i);
    RowEffect(run.dbs[i], run.ops[i], j);
  }

  lemma {:induction false} RowPersists(run: Run, i: nat, k: nat, j: Id)
    requires i <= k <= |run.ops| && j in run.dbs[i].jobs
    ensures j in run.dbs[k].jobs
    ensures run.dbs[k].jobs[j].project == run.dbs[i].jobs[j].project
    ensures run.dbs[k].jobs[j].kind == run.dbs[i].jobs[j].kind
    ensures run.dbs[k].jobs[j].input == run.dbs[i].jobs[j].input
    ensures run.dbs[k].jobs[j].maxAttempts == run.dbs[i].jobs[j].maxAttempts
    decreases k
  {
    if i < k {
      RowPersists(run, i, k - 1, j);
      RowStep(run, k - 1, j);
    }
  }
}
