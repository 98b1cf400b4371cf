/** Runs of the whole system: the store driven only by the service. The service's callers of each
    transaction guarantee CallerOk; its methods are shown to do so in module Service. The whole-run
    authorisation theorems follow. */
module SystemRuns {
  import opened Common
  import opened Payloads
  import opened State
  import opened Database
  import opened JobLeases

  /** Kinds that a grant must authorise. */
  predicate Gated(kind: JobKind) {
    kind in {ExecuteTest, ProductionCreate, Release}
  }

  function TypeFor(kind: JobKind): GrantType
    requires Gated(kind)
  {
    match kind
    case ExecuteTest => ExecutionGrant
    case ProductionCreate => ProductionCreateGrant
    case Release => ReleaseGrant
  }

  /** The state a create grant leaves its project in, and in which its job may be enqueued. */
  function AuthorisedState(grantType: GrantType): ExecutionState {
    if grantType == ProductionCreateGrant then ProductionCreateAuthorized else TestWriteAuthorized
  }

  /** Kinds whose result is a batch receipt. */
  predicate Batch(kind: JobKind) {
    kind in {ExecuteTest, ProductionCreate, Reconcile}
  }

  predicate HasOrder(input: JobInput) {
    input.WriteInput? || input.ReconcileInput?
  }

  /** Whether a job was enqueued under grant g. */
  predicate Uses(job: Job, g: Id) {
    Gated(job.kind) && (job.input.WriteInput? || job.input.ReleaseInput?) && GrantOf(job.input) == g
  }

  /** The grant an authorised write or release names. */
  function GrantOf(input: JobInput): Id
    requires input.WriteInput? || input.ReleaseInput?
  {
    if input.WriteInput? then input.order.grant else input.grant
  }

  predicate PlanListed(plan: Plan, revision: Id, hash: Digest) {
    plan.revision == revision && plan.payloadSha == hash
  }

  /** The work is exactly what the scope authorises: its plans are the scope's revisions, in order, each with
      the authorised payload hash; its release terms are the scope's terms. */
  predicate Covers(scope: GrantScope, input: JobInput) {
    match input
    case WriteInput(order) =>
      && scope.PlanScope? && |order.plans| == |scope.revisions| == |scope.hashes|
      && forall i :: 0 <= i < |order.plans| ==> PlanListed(order.plans[i], scope.revisions[i], scope.hashes[i])
    case ReleaseInput(_, terms) => scope.CampaignScope? && scope.terms == terms
    case _ => false
  }

  predicate WellFormed(kind: JobKind, input: JobInput) {
    && (kind == ExecuteTest || kind == ProductionCreate ==> input.WriteInput?)
    && (kind == Reconcile ==> input.ReconcileInput?)
    && (kind == Release ==> input.ReleaseInput?)
    && (kind == ReleaseEvaluate ==> input.EvaluateInput?)
    && (kind == ReleaseRecovery ==> input.RecoverInput?)
    && (Batch(kind) ==> input.order.plans != [] && AllIntact(input.order.plans))
  }

  /** Some stored production readback of project p names every campaign. */
  ghost predicate ReadBack(db: Db, p: Id, campaigns: seq<int>) {
    exists i :: 0 <= i < |db.artifacts| && ReadBackBy(db.artifacts[i], p, campaigns)
  }

  predicate ReadBackBy(a: Artifact, p: Id, campaigns: seq<int>) {
    && a.project == p && a.kind == ProductionReadback && a.content.ReadbackContent?
    && forall c :: c in campaigns ==> c in CampaignsOf(a.content.batch)
  }

  /** The result stored with a success proves what the job's kind promises. */
  ghost predicate EarnsSuccess(job: Job, result: Option<JobResult>) {
    && (Batch(job.kind) ==>
          result.Some? && result.value.BatchResult? && HasOrder(job.input)
          && FullyVerified(job.input.order.plans, result.value.batch))
    && (job.kind == Release ==>
          result.Some? && result.value.ReleaseResult? && result.value.release.status == ReleaseActive
          && job.input.ReleaseInput? && result.value.release.campaigns == job.input.terms.campaigns
          && result.value.release.cap == job.input.terms.cap)
  }

  /** What the service's callers guarantee about the transaction they ask for. */
  ghost predicate CallerOk(db: Db, op: Op) {
    match op
    case EnqueueJob(_, kind, input, maxAttempts, _, _) =>
      !Gated(kind) && WellFormed(kind, input) && (External(kind) ==> maxAttempts == 1)
    case ConsumeGrant(g, grantType, p, kind, input, maxAttempts, j, _) =>
      && Gated(kind) && grantType == TypeFor(kind) && maxAttempts == 1
      && WellFormed(kind, input) && Uses(NewJob(p, kind, input, maxAttempts, 0), g)
      && (g in db.grants ==> Covers(db.grants[g].scope, input))
    case IssueGrant(_, p, grantType, scope, _, _) =>
      grantType == ReleaseGrant ==> scope.CampaignScope? && ReadBack(db, p, scope.terms.campaigns)
    case FinishJob(j, _, status, result, _) =>
      j in db.jobs ==>
        && (External(db.jobs[j].kind) ==> status != Retry)
        && (status == Succeeded ==> EarnsSuccess(db.jobs[j], result))
    case _ => true
  }

  ghost predicate StepRequested(run: Run, i: nat)
    requires i < |run.ops|
  {
    CallerOk(run.dbs[i], run.ops[i])
  }

  type SystemRun = run: Run | forall i :: 0 <= i < |run.ops| ==> StepRequested(run, i)
    witness History([EMPTY], [])

  /** Every recorded transaction was asked for by a caller that met CallerOk. */
  ghost predicate Requested(h: History) {
    Behaves(h) && forall i :: 0 <= i < |h.ops| ==> StepRequested(h, i)
  }

  lemma RecordedRequested(h: History, op: Op, next: Db)
    requires Requested(h) && Legal(h.dbs[|h.ops|], op) && next == Step(h.dbs[|h.ops|], op)
    requires CallerOk(h.dbs[|h.ops|], op)
    ensures Requested(Recorded(h, op, next))
  {
    RecordedBehaves(h, op, next);
    var g := Recorded(h, op, next);
    forall i | 0 <= i < |g.ops| ensures StepRequested(g, i) {
      if i < |h.ops| {
        assert StepRequested(h, i);
        assert g.dbs[i] == h.dbs[i] && g.ops[i] == h.ops[i];
      }
    }
  }

  lemma TakeSystemStep(run: SystemRun, i: nat)
    requires i < |run.ops|
    ensures Legal(run.dbs[i], run.ops[i]) && CallerOk(run.dbs[i], run.ops[i])
    ensures run.dbs[i + 1] == Step(run.dbs[i], run.ops[i])
  {
    assert StepRequested(run, i);
    TakeStep(run, i);
  }

  // ----- one grant, one job -----

  ghost predicate Authorised(db: Db, j: Id, g: Id) {
    && j in db.jobs && Uses(db.jobs[j], g)
    && g in db.grants && db.grants[g].status == Consumed
    && db.grants[g].grantType == TypeFor(db.jobs[j].kind)
    && db.grants[g].project == db.jobs[j].project
    && Covers(db.grants[g].scope, db.jobs[j].input)
    && db.grants[g].consumedAt.Some? && db.grants[g].consumedAt.value < db.grants[g].expiresAt
  }

  ghost predicate HasGrant(db: Db, j: Id) {
    exists g :: Authorised(db, j, g)
  }

  ghost predicate HasJob(db: Db, g: Id) {
    exists j :: Authorised(db, j, g)
  }

  /** Jobs that need a grant and CONSUMED grants are in bijection, each pair of matching type, project and
      scope, the grant consumed strictly before its expiry; and no grant is ever EXPIRED. */
  ghost predicate GrantsMatchJobs(db: Db) {
    && (forall j :: j in db.jobs && Gated(db.jobs[j].kind) ==> HasGrant(db, j))
    && (forall g :: g in db.grants && db.grants[g].status == Consumed ==> HasJob(db, g))
    && (forall j, k, g :: Authorised(db, j, g) && Authorised(db, k, g) ==> j == k)
    && (forall g :: g in db.grants ==> db.grants[g].status != Expired)
  }

  /** Rows already authorised stay authorised by the same grant. */
  lemma AuthorisedPersists(db: Db, op: Op, j: Id, g: Id)
    requires Legal(db, op) && Authorised(db, j, g)
    ensures Authorised(Step(db, op), j, g)
  {
    RowEffect(db, op, j);
    GrantRowEffect(db, op, g);
  }

  /** Rows that were there before and are authorised now were authorised before, unless this very
      step consumed their grant. */
  lemma AuthorisedBefore(db: Db, op: Op, j: Id, g: Id)
    requires Legal(db, op) && j in db.jobs && Authorised(Step(db, op), j, g)
    requires !(op.ConsumeGrant? && op.g == g && Step(db, op) != db)
    ensures Authorised(db, j, g)
  {
    RowEffect(db, op, j);
    if g in db.grants {
      GrantRowEffect(db, op, g);
    } else {
      NewGrantRow(db, op, g);
    }
  }

  /** A grant row changes only by revocation or consumption, and only out of ISSUED. */
  lemma GrantRowEffect(db: Db, op: Op, g: Id)
    requires Legal(db, op) && g in db.grants
    ensures g in Step(db, op).grants
    ensures var before, after := db.grants[g], Step(db, op).grants[g];
            || after == before
            || (before.status == Issued && op.RevokeGrant? && op.g == g && after == before.(status := Revoked))
            || (before.status == Issued && op.ConsumeGrant? && op.g == g
                && GrantUsable(db, g, op.grantType, op.p, op.now)
                && after == before.(status := Consumed, consumedAt := Some(op.now)))
  {
  }

  lemma NewGrantRow(db: Db, op: Op, g: Id)
    requires Legal(db, op) && g !in db.grants && g in Step(db, op).grants
    ensures op.IssueGrant? && op.g == g
    ensures Step(db, op).grants[g] == Grant(op.p, op.grantType, Issued, op.scope, op.nonce, op.expiresAt, None)
  {
  }

  lemma ConsumeKeepsMatch(db: Db, op: Op)
    requires Legal(db, op) && CallerOk(db, op) && op.ConsumeGrant? && Step(db, op) != db
    requires GrantsMatchJobs(db)
    ensures GrantsMatchJobs(Step(db, op))
  {
    var next := Step(db, op);
    assert Authorised(next, op.j, op.g);
    forall j | j in next.jobs && Gated(next.jobs[j].kind) ensures HasGrant(next, j) {
      if j != op.j {
        var g :| Authorised(db, j, g);
        AuthorisedPersists(db, op, j, g);
      }
    }
    forall g | g in next.grants && next.grants[g].status == Consumed ensures HasJob(next, g) {
      if g != op.g {
        var j :| Authorised(db, j, g);
        AuthorisedPersists(db, op, j, g);
      }
    }
    forall j, k, g | Authorised(next, j, g) && Authorised(next, k, g) ensures j == k {
      OnlyNewJobUses(db, op, j, g);
      OnlyNewJobUses(db, op, k, g);
    }
  }

  /** The grant being consumed was ISSUED, so no older job can have been enqueued under it. */
  lemma OnlyNewJobUses(db: Db, op: Op, j: Id, g: Id)
    requires Legal(db, op) && CallerOk(db, op) && op.ConsumeGrant? && Step(db, op) != db
    requires GrantsMatchJobs(db)
    requires Authorised(Step(db, op), j, g)
    ensures if g == op.g then j == op.j else Authorised(db, j, g)
  {
    if j != op.j {
      var h :| Authorised(db, j, h);
      assert h == g;
    }
  }

  lemma OthersKeepMatch(db: Db, op: Op)
    requires Legal(db, op) && CallerOk(db, op) && !(op.ConsumeGrant? && Step(db, op) != db)
    requires GrantsMatchJobs(db)
    ensures GrantsMatchJobs(Step(db, op))
  {
    var next := Step(db, op);
    forall j | j in next.jobs && Gated(next.jobs[j].kind) ensures HasGrant(next, j) {
      GatedIsOld(db, op, j);
      var g :| Authorised(db, j, g);
      AuthorisedPersists(db, op, j, g);
    }
    forall g | g in next.grants && next.grants[g].status == Consumed ensures HasJob(next, g) {
      ConsumedIsOld(db, op, g);
      var j :| Authorised(db, j, g);
      AuthorisedPersists(db, op, j, g);
    }
    forall j, k, g | Authorised(next, j, g) && Authorised(next, k, g) ensures j == k {
      GatedIsOld(db, op, j);
      GatedIsOld(db, op, k);
      AuthorisedBefore(db, op, j, g);
      AuthorisedBefore(db, op, k, g);
    }
    forall g | g in next.grants ensures next.grants[g].status != Expired {
      if g in db.grants { GrantRowEffect(db, op, g); } else { NewGrantRow(db, op, g); }
    }
  }

  lemma GatedIsOld(db: Db, op: Op, j: Id)
    requires Legal(db, op) && CallerOk(db, op) && !(op.ConsumeGrant? && Step(db, op) != db)
    requires j in Step(db, op).jobs && Gated(Step(db, op).jobs[j].kind)
    ensures j in db.jobs && Gated(db.jobs[j].kind)
  {
    if j in db.jobs { RowEffect(db, op, j); } else { NewRow(db, op, j); }
  }

  lemma ConsumedIsOld(db: Db, op: Op, g: Id)
    requires Legal(db, op) && !(op.ConsumeGrant? && Step(db, op) != db)
    requires g in Step(db, op).grants && Step(db, op).grants[g].status == Consumed
    ensures g in db.grants && db.grants[g].status == Consumed
  {
    if g in db.grants { GrantRowEffect(db, op, g); } else { NewGrantRow(db, op, g); }
  }

  lemma MatchStep(db: Db, op: Op)
    requires Legal(db, op) && CallerOk(db, op)
    requires GrantsMatchJobs(db)
    ensures GrantsMatchJobs(Step(db, op))
  {
    if op.ConsumeGrant? && Step(db, op) != db {
      ConsumeKeepsMatch(db, op);
    } else {
      OthersKeepMatch(db, op);
    }
  }

  lemma {:induction false} GrantsAndJobsBiject(run: SystemRun, n: nat)
    requires n <= |run.ops|
    ensures GrantsMatchJobs(run.dbs[n])
  {
    if n > 0 {
      GrantsAndJobsBiject(run, n - 1);
      TakeSystemStep(run, n - 1);
      MatchStep(run.dbs[n - 1], run.ops[n - 1]);
    }
  }

  /** A CONSUMED or REVOKED grant row never changes again, in any run of the store. */
  lemma {:induction false} SpentGrantsAreFrozen(run: Run, i: nat, k: nat, g: Id)
    requires i <= k <= |run.ops| && g in run.dbs[i].grants
    requires run.dbs[i].grants[g].status in {Consumed, Revoked}
    ensures g in run.dbs[k].grants && run.dbs[k].grants[g] == run.dbs[i].grants[g]
    decreases k
  {
    if i < k {
      SpentGrantsAreFrozen(run, i, k - 1, g);
      TakeStep(run, k - 1);
      GrantRowEffect(run.dbs[k - 1], run.ops[k - 1], g);
    }
  }

  lemma {:induction false} AuthorisedForever(run: SystemRun, i: nat, k: nat, j: Id, g: Id)
    requires i <= k <= |run.ops| && Authorised(run.dbs[i], j, g)
    ensures Authorised(run.dbs[k], j, g)
    decreases k
  {
    if i < k {
      AuthorisedForever(run, i, k - 1, j, g);
      TakeStep(run, k - 1);
      AuthorisedPersists(run.dbs[k - 1], run.ops[k - 1], j, g);
    }
  }

  /** Once a grant has authorised a job, no later step makes it authorise another. */
  lemma GrantYieldsOneJob(run: SystemRun, i: nat, k: nat, j: Id, later: Id, g: Id)
    requires i <= k <= |run.ops|
    requires Authorised(run.dbs[i], j, g) && Authorised(run.dbs[k], later, g)
    ensures later == j
  {
    AuthorisedForever(run, i, k, j, g);
    GrantsAndJobsBiject(run, k);
  }

  /** Once revoked, a grant authorises nothing. */
  lemma RevokedGrantYieldsNothing(run: SystemRun, i: nat, k: nat, g: Id, j: Id)
    requires i <= k <= |run.ops| && g in run.dbs[i].grants && run.dbs[i].grants[g].status == Revoked
    ensures !Authorised(run.dbs[k], j, g)
  {
    SpentGrantsAreFrozen(run, i, k, g);
  }

  // ----- successes -----

  ghost predicate RowSound(job: Job) {
    && WellFormed(job.kind, job.input)
    && (External(job.kind) ==> job.maxAttempts == 1 && job.status != Retry)
    && (job.status == Succeeded ==> EarnsSuccess(job, job.result))
  }

  lemma SoundStep(run: SystemRun, i: nat, j: Id)
    requires i < |run.ops| && j in run.dbs[i + 1].jobs
    requires j in run.dbs[i].jobs ==> RowSound(run.dbs[i].jobs[j])
    ensures RowSound(run.dbs[i + 1].jobs[j])
  {
    TakeSystemStep(run, i);
    if j in run.dbs[i].jobs {
      RowEffect(run.dbs[i], run.ops[i], j);
    } else {
      NewRow(run.dbs[i], run.ops[i], j);
    }
  }

  lemma {:induction false} RowsAreSound(run: SystemRun, n: nat, j: Id)
    requires n <= |run.ops| && j in run.dbs[n].jobs
    ensures RowSound(run.dbs[n].jobs[j])
  {
    if n > 0 {
      if j in run.dbs[n - 1].jobs {
        RowsAreSound(run, n - 1, j);
      }
      SoundStep(run, n - 1, j);
    }
  }

  /** In every run of the whole system, a SUCCEEDED create or reconcile job stores one receipt per
      plan of its order, in plan order, each pause- and readback-verified, with the account lock
      verified; and that row stays exactly as it is in every later state. */
  lemma SuccessfulWritesAreVerified(run: SystemRun, i: nat, k: nat, j: Id)
    requires i <= k <= |run.ops| && j in run.dbs[i].jobs
    requires Batch(run.dbs[i].jobs[j].kind) && run.dbs[i].jobs[j].status == Succeeded
    ensures var job := run.dbs[i].jobs[j];
            && HasOrder(job.input) && job.result.Some? && job.result.value.BatchResult?
            && FullyVerified(job.input.order.plans, job.result.value.batch)
            && j in run.dbs[k].jobs && run.dbs[k].jobs[j] == job
  {
    RowsAreSound(run, i, j);
    FinalRowsAreFrozen(run, i, k, j);
  }

  /** External jobs are claimed at most once, plus once per operator resume, and only ever out of
      PENDING: neither a lost lease nor a reported failure replays one. */
  lemma ExternalRunsOncePerResume(run: SystemRun, n: nat, j: Id)
    requires n <= |run.ops| && j in run.dbs[n].jobs && External(run.dbs[n].jobs[j].kind)
    ensures TallyOf(run, j, n).claims <= 1 + TallyOf(run, j, n).resumes
    ensures n < |run.ops| && IsClaim(run.ops[n], j) ==> run.dbs[n].jobs[j].status == Pending
  {
    RowsAreSound(run, n, j);
    LeasesAreConserved(run, j, n);
    ClaimsAreBounded(run.dbs[n].jobs[j], TallyOf(run, j, n));
    if n < |run.ops| && IsClaim(run.ops[n], j) {
      TakeStep(run, n);
      ExternalNeverReclaimed(run.dbs[n], run.ops[n], j);
    }
  }

  // ----- releases are bound to read-back objects -----

  ghost predicate ReleasesBound(db: Db) {
    && (forall g :: g in db.grants && db.grants[g].grantType == ReleaseGrant ==>
          db.grants[g].scope.CampaignScope? && ReadBack(db, db.grants[g].project, db.grants[g].scope.terms.campaigns))
    && (forall j :: j in db.jobs && db.jobs[j].kind == Release ==>
          db.jobs[j].input.ReleaseInput? && ReadBack(db, db.jobs[j].project, db.jobs[j].input.terms.campaigns))
  }

  lemma ArtifactsGrow(db: Db, op: Op)
    requires Legal(db, op)
    ensures db.artifacts <= Step(db, op).artifacts
  {
  }

  lemma ReadBackPersists(db: Db, next: Db, p: Id, campaigns: seq<int>)
    requires db.artifacts <= next.artifacts && ReadBack(db, p, campaigns)
    ensures ReadBack(next, p, campaigns)
  {
    var i :| 0 <= i < |db.artifacts| && ReadBackBy(db.artifacts[i], p, campaigns);
    assert next.artifacts[i] == db.artifacts[i];
  }

  lemma GrantStaysBound(db: Db, op: Op, g: Id)
    requires Legal(db, op) && CallerOk(db, op) && ReleasesBound(db)
    requires g in Step(db, op).grants && Step(db, op).grants[g].grantType == ReleaseGrant
    ensures Step(db, op).grants[g].scope.CampaignScope?
    ensures ReadBack(db, Step(db, op).grants[g].project, Step(db, op).grants[g].scope.terms.campaigns)
  {
    if g in db.grants { GrantRowEffect(db, op, g); } else { NewGrantRow(db, op, g); }
  }

  lemma JobStaysBound(db: Db, op: Op, j: Id)
    requires Legal(db, op) && CallerOk(db, op) && ReleasesBound(db)
    requires j in Step(db, op).jobs && Step(db, op).jobs[j].kind == Release
    ensures Step(db, op).jobs[j].input.ReleaseInput?
    ensures ReadBack(db, Step(db, op).jobs[j].project, Step(db, op).jobs[j].input.terms.campaigns)
  {
    if j in db.jobs { RowEffect(db, op, j); } else { NewRow(db, op, j); }
  }

  lemma BoundStep(db: Db, op: Op)
    requires Legal(db, op) && CallerOk(db, op) && ReleasesBound(db)
    ensures ReleasesBound(Step(db, op))
  {
    var next := Step(db, op);
    ArtifactsGrow(db, op);
    forall g | g in next.grants && next.grants[g].grantType == ReleaseGrant
      ensures next.grants[g].scope.CampaignScope?
      ensures ReadBack(next, next.grants[g].project, next.grants[g].scope.terms.campaigns)
    {
      GrantStaysBound(db, op, g);
      ReadBackPersists(db, next, next.grants[g].project, next.grants[g].scope.terms.campaigns);
    }
    forall j | j in next.jobs && next.jobs[j].kind == Release
      ensures next.jobs[j].input.ReleaseInput?
      ensures ReadBack(next, next.jobs[j].project, next.jobs[j].input.terms.campaigns)
    {
      JobStaysBound(db, op, j);
      ReadBackPersists(db, next, next.jobs[j].project, next.jobs[j].input.terms.campaigns);
    }
  }

  /** In every reachable state of the system, the campaigns a RELEASE job is going to enable all
      appear in one stored production readback of its project. */
  lemma {:induction false} ReleasesAreReadBack(run: SystemRun, n: nat)
    requires n <= |run.ops|
    ensures ReleasesBound(run.dbs[n])
  {
    if n > 0 {
      ReleasesAreReadBack(run, n - 1);
      TakeSystemStep(run, n - 1);
      BoundStep(run.dbs[n - 1], run.ops[n - 1]);
    }
  }
}
