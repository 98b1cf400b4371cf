/** The request half of SeedingService: issuing release grants, and enqueueing external jobs behind the
    grants that authorise them. Reads, checks and writes are separate transactions, and other connections
    commit in between; what was read is only used where it cannot have gone stale. */
module Requests {
  import opened Common
  import opened Payloads
  import opened State
  import opened Sorting
  import opened Database
  import opened JobLeases
  import opened SystemRuns
  import opened Store
  import opened Dispatch
  import opened Service
  import opened PlanRevisions

  datatype ServiceError =
    | AdapterMissing
    | NotFound
    | GrantIntegrityMismatch
    | GrantScopeMismatch
    | PayloadShaMismatch
    | ExecutionStateConflict
    | DeliveryNotActive
    | JobNotReconcilable
    | ActionNotAllowed
    | ReleaseProofMismatch
    | ReadbackIncomplete
    | ReleaseObjectMismatch
    | ReleaseWindowClosed
    | StoreRefused(error: StoreError)
    | StoreBroken

  // ----- what stays true of rows that were read earlier -----

  predicate GrantWas(h: History, n: nat, g: Id, row: Grant) {
    n <= |h.ops| < |h.dbs| && g in h.dbs[n].grants && h.dbs[n].grants[g] == row
  }

  predicate SameGrant(now: Grant, row: Grant) {
    now.project == row.project && now.grantType == row.grantType && now.scope == row.scope
    && now.expiresAt == row.expiresAt
  }

  lemma {:induction false} GrantPersists(run: Run, i: nat, k: nat, g: Id)
    requires i <= k <= |run.ops| && g in run.dbs[i].grants
    ensures g in run.dbs[k].grants && SameGrant(run.dbs[k].grants[g], run.dbs[i].grants[g])
    decreases k
  {
    if i < k {
      GrantPersists(run, i, k - 1, g);
      TakeStep(run, k - 1);
      GrantRowEffect(run.dbs[k - 1], run.ops[k - 1], g);
    }
  }

  lemma GrantStays(h: History, n: nat, g: Id, row: Grant)
    requires Requested(h) && GrantWas(h, n, g, row)
    ensures g in h.dbs[|h.ops|].grants && SameGrant(h.dbs[|h.ops|].grants[g], row)
  {
    GrantPersists(h, n, |h.ops|, g);
  }

  lemma ReadBackStays(h: History, n: nat, p: Id, campaigns: seq<int>)
    requires Requested(h) && n <= |h.ops| && ReadBack(h.dbs[n], p, campaigns)
    ensures ReadBack(h.dbs[|h.ops|], p, campaigns)
  {
    ArtifactsPersist(h, n, |h.ops|);
    ReadBackPersists(h.dbs[n], h.dbs[|h.ops|], p, campaigns);
  }

  // ----- the plans a grant authorises -----

  predicate Authorises(revision: Id, hash: Digest, active: map<Id, ActivePlan>) {
    revision in active && active[revision].platform.Some? && Sha(active[revision].platform.value) == hash
  }

  /** Still active, compiled, and hashing to what was granted. */
  predicate Resolvable(revisions: seq<Id>, hashes: seq<Digest>, active: map<Id, ActivePlan>)
    requires |revisions| == |hashes|
  {
    forall i :: 0 <= i < |revisions| ==> Authorises(revisions[i], hashes[i], active)
  }

  predicate PlanMatches(plan: Plan, revision: Id, hash: Digest, active: map<Id, ActivePlan>) {
    Authorises(revision, hash, active)
    && plan == Plan(revision, active[revision].logicalKey, active[revision].platform.value, hash)
  }

  predicate PlansMatch(plans: seq<Plan>, revisions: seq<Id>, hashes: seq<Digest>, active: map<Id, ActivePlan>) {
    && |plans| == |revisions| == |hashes|
    && forall i :: 0 <= i < |plans| ==> PlanMatches(plans[i], revisions[i], hashes[i], active)
  }

  lemma MatchingPlansAreIntact(plans: seq<Plan>, revisions: seq<Id>, hashes: seq<Digest>, active: map<Id, ActivePlan>)
    requires PlansMatch(plans, revisions, hashes, active)
    ensures AllIntact(plans)
  {
    forall i | 0 <= i < |plans| ensures Intact(plans[i]) {
      assert PlanMatches(plans[i], revisions[i], hashes[i], active);
    }
  }

  /** Plans resolved under a grant are exactly what its scope covers. */
  lemma MatchingPlansAreCovered(order: WriteOrder, scope: GrantScope, active: map<Id, ActivePlan>)
    requires scope.PlanScope? && PlansMatch(order.plans, scope.revisions, scope.hashes, active)
    ensures Covers(scope, WriteInput(order))
  {
    forall i | 0 <= i < |order.plans| ensures PlanListed(order.plans[i], scope.revisions[i], scope.hashes[i]) {
      assert PlanMatches(order.plans[i], scope.revisions[i], scope.hashes[i], active);
    }
  }

  /** And each is the current end of one history of its logical plan, which belongs to the project. */
  lemma MatchingPlansAreCurrent(plans: seq<Plan>, revisions: seq<Id>, hashes: seq<Digest>, table: map<Id, Revision>,
                                chains: Chains, owners: map<Id, Id>, p: Id, i: nat)
    requires Represents(table, chains) && i < |plans|
    requires PlansMatch(plans, revisions, hashes, ActivePlans(table, owners, p))
    ensures plans[i].logicalKey in owners && owners[plans[i].logicalKey] == p
    ensures exists stage :: var chain := ChainOf(chains, Slot(plans[i].logicalKey, stage));
                            chain != [] && chain[|chain| - 1] == plans[i].revision
  {
    var r := plans[i].revision;
    assert PlanMatches(plans[i], revisions[i], hashes[i], ActivePlans(table, owners, p));
    ListedAreHeads(table, chains, owners, p, r);
    assert ChainOf(chains, Slot(table[r].logicalKey, table[r].stage))
      == chains[Slot(table[r].logicalKey, table[r].stage)];
  }

  method ResolvePlans(revisions: seq<Id>, hashes: seq<Digest>, active: map<Id, ActivePlan>)
    returns (r: Option<seq<Plan>>)
    requires |revisions| == |hashes|
    ensures r.Some? <==> Resolvable(revisions, hashes, active)
    ensures r.Some? ==> PlansMatch(r.value, revisions, hashes, active)
  {
    var plans := [];
    for n := 0 to |revisions|
      invariant PlansMatch(plans, revisions[..n], hashes[..n], active)
      invariant forall i :: 0 <= i < n ==> Authorises(revisions[i], hashes[i], active)
    {
      if !Authorises(revisions[n], hashes[n], active) {
        return None;
      }
      var row := active[revisions[n]];
      plans := plans + [Plan(revisions[n], row.logicalKey, row.platform.value, hashes[n])];
    }
    assert revisions[..|revisions|] == revisions && hashes[..|hashes|] == hashes;
    r := Some(plans);
  }

  // ----- the objects a release may name -----

  /** receipt_by_plan: the last receipt of a plan wins. */
  function ReceiptOf(receipts: seq<PlanReceipt>, revision: Id): (r: Option<PlanReceipt>)
    ensures r.Some? ==> r.value in receipts && r.value.revision == revision
  {
    if receipts == [] then None
    else if receipts[|receipts| - 1].revision == revision then Some(receipts[|receipts| - 1])
    else ReceiptOf(receipts[..|receipts| - 1], revision)
  }

  /** The objects of every active plan, in order; None when a receipt or its ids are missing. */
  function ExpectedObjects(receipts: seq<PlanReceipt>, revisions: seq<Id>): (r: Option<seq<ObjectIds>>)
    ensures r.Some? ==> |r.value| == |revisions|
  {
    if revisions == [] then Some([])
    else
      var receipt, rest := ReceiptOf(receipts, revisions[0]), ExpectedObjects(receipts, revisions[1..]);
      if receipt.None? || receipt.value.ids.None? || rest.None? then None
      else Some([receipt.value.ids.value] + rest.value)
  }

  function CampaignIds(objects: seq<ObjectIds>): seq<int> {
    seq(|objects|, i requires 0 <= i < |objects| => objects[i].campaign)
  }

  /** The expected campaigns all come out of the stored receipt. */
  lemma {:induction false} ExpectedAreReadBack(batch: BatchReceipt, revisions: seq<Id>)
    requires ExpectedObjects(batch.receipts, revisions).Some?
    ensures forall c :: c in CampaignIds(ExpectedObjects(batch.receipts, revisions).value) ==> c in CampaignsOf(batch)
  {
    if revisions != [] {
      ExpectedAreReadBack(batch, revisions[1..]);
      var objects, rest :=
        ExpectedObjects(batch.receipts, revisions).value, ExpectedObjects(batch.receipts, revisions[1..]).value;
      assert CampaignIds(objects) == [objects[0].campaign] + CampaignIds(rest);
      var receipt := ReceiptOf(batch.receipts, revisions[0]).value;
      var i :| 0 <= i < |batch.receipts| && batch.receipts[i] == receipt;
      assert batch.receipts[i].ids.value.campaign in CampaignsOf(batch);
    }
  }

  /** ORDER BY created_at, artifact_id. */
  predicate StoredBefore(a: Artifact, b: Artifact) {
    a.createdAt < b.createdAt || (a.createdAt == b.createdAt && a.id <= b.id)
  }

  predicate IsReadback(a: Artifact, p: Id) {
    a.project == p && a.kind == ProductionReadback
  }

  /** Among p's production readbacks, a is the last in that order. */
  predicate IsLatest(artifacts: seq<Artifact>, p: Id, a: Artifact) {
    && a in artifacts && IsReadback(a, p)
    && forall i :: 0 <= i < |artifacts| && IsReadback(artifacts[i], p) ==> StoredBefore(artifacts[i], a)
  }

  method LatestReadback(artifacts: seq<Artifact>, p: Id) returns (r: Option<Artifact>)
    ensures r.Some? ==> IsLatest(artifacts, p, r.value)
    ensures r.None? ==> forall i :: 0 <= i < |artifacts| ==> !IsReadback(artifacts[i], p)
    ensures r.Some? ==> r.value in artifacts && r.value.project == p && r.value.kind == ProductionReadback
    ensures r.Some? ==> forall i :: 0 <= i < |artifacts| ==>
              artifacts[i].project == p && artifacts[i].kind == ProductionReadback ==>
                artifacts[i].createdAt < r.value.createdAt
                || (artifacts[i].createdAt == r.value.createdAt && artifacts[i].id <= r.value.id)
  {
    r := None;
    for n := 0 to |artifacts|
      invariant r.Some? ==> IsLatest(artifacts[..n], p, r.value)
      invariant r.None? ==> forall i :: 0 <= i < n ==> !IsReadback(artifacts[i], p)
    {
      TakeNext(artifacts, n);
      if IsReadback(artifacts[n], p) && (r.None? || StoredBefore(r.value, artifacts[n])) {
        r := Some(artifacts[n]);
      }
    }
    assert artifacts[..|artifacts|] == artifacts;
  }

  datatype ReleaseRequest = ReleaseRequest(
    revisions: seq<Id>, campaigns: seq<int>, objects: seq<ObjectIds>, cap: SpendCap, monitor: Id,
    startAt: Time, expiresAt: Time, nonce: Id)

  /** The scope a release request asks for. */
  function ScopeOf(request: ReleaseRequest, advertiser: int): GrantScope {
    CampaignScope(ReleaseTerms(advertiser, request.campaigns, request.cap, request.monitor), request.startAt)
  }

  /** The row of the grant that the request asks for. */
  function ReleaseRow(p: Id, request: ReleaseRequest, advertiser: int): (row: Grant)
    ensures row.grantType == ReleaseGrant && row.scope == ScopeOf(request, advertiser)
  {
    Grant(p, ReleaseGrant, Issued,
          CampaignScope(ReleaseTerms(advertiser, request.campaigns, request.cap, request.monitor), request.startAt),
          request.nonce, request.expiresAt, None)
  }

  /** Each member of the set once, in ascending order. */
  predicate ListsExactly(ids: seq<Id>, s: set<Id>) {
    && (forall i, k :: 0 <= i < k < |ids| ==> ids[i] < ids[k])
    && Members(ids) == s
  }

  lemma SortingListsExactly(rows: seq<Id>, s: set<Id>)
    requires forall r :: r in rows <==> r in s
    requires forall i, k :: 0 <= i < k < |rows| ==> rows[i] != rows[k]
    ensures ListsExactly(SortBy(rows, IdLe), s)
  {
    var ids := SortBy(rows, IdLe);
    SortBySorted(rows, IdLe);
    ArrangementKeepsDistinct(rows, ids);
    forall id ensures id in ids <==> id in s {
      SameMembers(rows, ids, id);
    }
    forall i, k | 0 <= i < k < |ids| ensures ids[i] < ids[k] {
      assert IdLe(ids[i], ids[k]) && ids[i] != ids[k];
    }
  }

  lemma ListsAgree(a: seq<Id>, b: seq<Id>, s: set<Id>)
    requires ListsExactly(a, s) && ListsExactly(b, s)
    ensures a == b
  {
    forall id: Id ensures multiset(a)[id] == multiset(b)[id] {
      CountsOnce(a, id);
      CountsOnce(b, id);
      assert id in Members(a) <==> id in Members(b);
    }
    assert Sorted(a, IdLe) && Sorted(b, IdLe);
    SortedUnique(a, b, IdLe);
  }

  /** The request names exactly the active plans, in order, with the objects the readback gives them. */
  predicate RequestMatches(request: ReleaseRequest, active: set<Id>, batch: BatchReceipt) {
    && ListsExactly(request.revisions, active)
    && ExpectedObjects(batch.receipts, request.revisions) == Some(request.objects)
    && request.campaigns == CampaignIds(request.objects)
  }

  /** Some stored readback of p, the latest at a moment from step `from` on, matches the request. */
  ghost predicate ReleaseBacked(h: History, from: nat, p: Id, request: ReleaseRequest, active: set<Id>) {
    exists n, a: Artifact :: from <= n && BackedAt(h, n, p, request, active, a)
  }

  predicate BackedAt(h: History, n: nat, p: Id, request: ReleaseRequest, active: set<Id>, a: Artifact) {
    && n <= |h.ops| < |h.dbs| && IsLatest(h.dbs[n].artifacts, p, a) && a.content.ReadbackContent?
    && RequestMatches(request, active, a.content.batch)
  }

  /** Row j is the job that was asked for. */
  predicate Enqueued(jobs: map<Id, Job>, j: Id, p: Id, kind: JobKind, input: JobInput) {
    j in jobs && jobs[j].project == p && jobs[j].kind == kind && jobs[j].input == input
  }

  /** A create job of p under grant g: its plans are the granted revisions, in order, each active with the
      granted payload. */
  predicate EnqueuedCreate(jobs: map<Id, Job>, grants: map<Id, Grant>, j: Id, p: Id, g: Id, production: bool,
                           active: map<Id, ActivePlan>) {
    && j in jobs && jobs[j].project == p && jobs[j].input.WriteInput?
    && jobs[j].kind == (if production then ProductionCreate else ExecuteTest)
    && g in grants && grants[g].scope.PlanScope?
    && jobs[j].input.order.grant == g && jobs[j].input.order.production == production
    && PlansMatch(jobs[j].input.order.plans, grants[g].scope.revisions, grants[g].scope.hashes, active)
  }

  function EvaluationOf(key: Id, g: Id, terms: ReleaseTerms): JobInput {
    EvaluateInput(key, g, terms.advertiser, terms.campaigns, terms.cap)
  }

  /** In any state of a proper history, a gated job is licensed by the grant its input names. */
  lemma LicensedNow(h: History, j: Id)
    requires Requested(h) && j in h.dbs[|h.ops|].jobs && Gated(h.dbs[|h.ops|].jobs[j].kind)
    ensures Licensed(h.dbs[|h.ops|], j)
  {
    GatedIsAuthorised(h, |h.ops|, j);
  }

  class RequestHandler {
    const service: SeedingService
    const plans: PlanStore

    constructor (service: SeedingService, plans: PlanStore)
      ensures this.service == service && this.plans == plans
    {
      this.service, this.plans := service, plans;
    }

    /** What list_active_plans returned: the plan table is left as it was read. */
    ghost function Active(p: Id): map<Id, ActivePlan>
      reads plans
    {
      ActivePlans(plans.revisions, plans.owners, p)
    }

    /** list_active_plans, after whatever other connections loaded meanwhile. */
    method ReadPlans(p: Id) returns (active: map<Id, ActivePlan>, rows: seq<Id>)
      requires plans.Valid()
      modifies plans
      ensures plans.Valid() && active == Active(p)
      ensures forall r :: r in rows <==> r in active
      ensures forall i, k :: 0 <= i < k < |rows| ==> rows[i] != rows[k]
    {
      plans.Interleave();
      rows := plans.ListActive(p);
      active := ActivePlans(plans.revisions, plans.owners, p);
    }

    /** uuid4: an id no job has. */
    method FreshJobId() returns (j: Id)
      ensures j !in service.store.jobs
    {
      j := 0;
      ghost var below: set<Id> := {};
      while j in service.store.jobs
        invariant below <= service.store.jobs.Keys && forall k :: k in below ==> k < j
        decreases service.store.jobs.Keys - below
      {
        below := below + {j};
        j := j + 1;
      }
    }

    method ReadGrant(g: Id) returns (row: Option<Grant>, ghost n: nat)
      requires service.Sound()
      modifies service.store
      ensures service.Advanced()
      ensures row.Some? ==> GrantWas(service.store.history, n, g, row.value)
    {
      var broken := service.Between(None);
      n := |service.store.history.ops|;
      row := None;
      if !broken && g in service.store.grants {
        row := Some(service.store.grants[g]);
      }
    }

    /** Consume the grant and enqueue its job, in one transaction. The grant is still the one that was read,
        and the job, new or found, is the one it was consumed for. */
    method Consume(ghost n: nat, g: Id, row: Grant, p: Id, kind: JobKind, input: JobInput)
      returns (r: Result<Id, ServiceError>)
      requires service.Sound() && GrantWas(service.store.history, n, g, row)
      requires Gated(kind) && WellFormed(kind, input) && Uses(NewJob(p, kind, input, 1, 0), g)
      requires Covers(row.scope, input)
      modifies service.store
      ensures service.Advanced()
      ensures r.Ok? ==> Enqueued(service.store.jobs, r.value, p, kind, input)
      ensures r.Ok? ==> g in service.store.grants && SameGrant(service.store.grants[g], row)
      ensures r.Ok? ==> Licensed(service.store.Rows(), r.value)
    {
      var broken := service.Between(None);
      if broken {
        return Err(StoreBroken);
      }
      var now := service.Clock();
      var j := FreshJobId();
      ghost var h := service.store.history;
      GrantStays(h, n, g, row);
      var consumed := service.store.ConsumeGrantAndEnqueue(g, TypeFor(kind), p, kind, input, 1, j, now);
      Committed(h, ConsumeGrant(g, TypeFor(kind), p, kind, input, 1, j, now), service.store.Rows());
      GrantStays(service.store.history, n, g, row);
      if consumed.Ok? {
        LicensedNow(service.store.history, consumed.value);
      }
      r := if consumed.Ok? then Ok(consumed.value) else Err(StoreRefused(consumed.error));
    }

    method EnqueueExternal(p: Id, kind: JobKind, input: JobInput) returns (r: Result<Id, ServiceError>)
      requires service.Sound() && External(kind) && !Gated(kind) && WellFormed(kind, input)
      modifies service.store
      ensures service.Advanced()
      ensures r.Ok? ==> Enqueued(service.store.jobs, r.value, p, kind, input)
    {
      var broken := service.Between(None);
      if broken {
        return Err(StoreBroken);
      }
      var now := service.Clock();
      var j := FreshJobId();
      ghost var h := service.store.history;
      var enqueued := service.store.Enqueue(p, kind, input, 1, j, now);
      Committed(h, EnqueueJob(p, kind, input, 1, j, now), service.store.Rows());
      r := if enqueued.Ok? then Ok(enqueued.value) else Err(StoreRefused(enqueued.error));
    }

    /** find_job by the exact input, then the state check on the project as it was read, then the consume. */
    method FindOrConsume(ghost n: nat, g: Id, row: Grant, p: Id, state: ExecutionState, kind: JobKind,
                         order: WriteOrder)
      returns (r: Result<Id, ServiceError>, existing: bool)
      requires service.Sound() && GrantWas(service.store.history, n, g, row)
      requires kind in {ExecuteTest, ProductionCreate}
      requires order.grant == g && order.plans != [] && AllIntact(order.plans) && Covers(row.scope, WriteInput(order))
      modifies service.store
      ensures service.Advanced()
      ensures r.Ok? ==> Enqueued(service.store.jobs, r.value, p, kind, WriteInput(order))
      ensures r.Ok? && !existing ==> state == AuthorisedState(TypeFor(kind))
    {
      var jobs := service.store.jobs;
      existing := false;
      if exists j :: j in jobs && SameWork(jobs[j], p, kind, WriteInput(order)) {
        var j :| j in jobs && SameWork(jobs[j], p, kind, WriteInput(order));
        return Ok(j), true;
      }
      if state != AuthorisedState(TypeFor(kind)) {
        return Err(ExecutionStateConflict), false;
      }
      r := Consume(n, g, row, p, kind, WriteInput(order));
    }

    /** enqueue_test_execution and enqueue_production_create. `proofOk` and `scopeOk` stand for the hash,
        signature and advertiser comparisons. */
    method EnqueueCreate(production: bool, p: Id, g: Id, advertiser: int, proofOk: bool, scopeOk: bool)
      returns (r: Result<Id, ServiceError>, existing: bool)
      requires service.Sound() && plans.Valid()
      modifies service.store, plans
      ensures service.Advanced() && plans.Valid()
      ensures r.Ok? ==> EnqueuedCreate(service.store.jobs, service.store.grants, r.value, p, g, production, Active(p))
      ensures r.Ok? ==> Licensed(service.store.Rows(), r.value)
      ensures r.Ok? ==> proofOk && scopeOk && (if production then service.productionReady else service.testReady)
      ensures r.Ok? && !existing ==>
                && p in old(service.store.projects)
                && old(service.store.projects)[p].execution
                     == (if production then ProductionCreateAuthorized else TestWriteAuthorized)
                && EnteredExecution(service.store.history, p, WriteInProgress)
    {
      if p !in service.store.projects {
        return Err(NotFound), false;
      }
      var state := service.store.projects[p].execution;
      if !(if production then service.productionReady else service.testReady) {
        return Err(AdapterMissing), false;
      }
      var row; ghost var n;
      row, n := ReadGrant(g);
      if row.None? || row.value.project != p {
        return Err(NotFound), false;
      }
      var scope := row.value.scope;
      if !scope.PlanScope? || scope.revisions == [] || |scope.revisions| != |scope.hashes| || !proofOk {
        return Err(GrantIntegrityMismatch), false;
      }
      if !scopeOk {
        return Err(GrantScopeMismatch), false;
      }
      var active, _ := ReadPlans(p);
      var resolved := ResolvePlans(scope.revisions, scope.hashes, active);
      if resolved.None? {
        return Err(ServiceError.PayloadShaMismatch), false;
      }
      var order := WriteOrder(g, advertiser, production, resolved.value);
      MatchingPlansAreIntact(resolved.value, scope.revisions, scope.hashes, active);
      MatchingPlansAreCovered(order, scope, active);
      var kind := if production then ProductionCreate else ExecuteTest;
      r, existing := Begin(n, g, row.value, p, state, kind, order);
      GrantStays(service.store.history, n, g, row.value);
      if r.Ok? {
        LicensedNow(service.store.history, r.value);
      }
    }

    /** Two transactions: the job is enqueued first, the project moved to WRITE_IN_PROGRESS after. */
    method Begin(ghost n: nat, g: Id, row: Grant, p: Id, state: ExecutionState, kind: JobKind, order: WriteOrder)
      returns (r: Result<Id, ServiceError>, existing: bool)
      requires service.Sound() && GrantWas(service.store.history, n, g, row)
      requires kind in {ExecuteTest, ProductionCreate}
      requires order.grant == g && order.plans != [] && AllIntact(order.plans) && Covers(row.scope, WriteInput(order))
      modifies service.store
      ensures service.Advanced()
      ensures r.Ok? ==> Enqueued(service.store.jobs, r.value, p, kind, WriteInput(order))
      ensures r.Ok? && !existing ==>
                state == AuthorisedState(TypeFor(kind)) && EnteredExecution(service.store.history, p, WriteInProgress)
    {
      var broken := service.Between(None);
      if broken {
        return Err(StoreBroken), false;
      }
      r, existing := FindOrConsume(n, g, row, p, state, kind, order);
      if r.Err? || existing {
        return;
      }
      ghost var k := |service.store.history.ops|;
      ghost var job := service.store.jobs[r.value];
      var moved := service.MoveExecutionTo(None, p, WriteInProgress);
      JobStays(service.store.history, k, r.value, job);
      if !moved {
        r := Err(StoreBroken);
      }
    }

    /** issue_release_grant. `proofOk` stands for the sha comparisons. */
    method IssueReleaseGrant(p: Id, request: ReleaseRequest, proofOk: bool, g: Id, advertiser: int)
      returns (r: Result<(), ServiceError>)
      requires service.Sound() && plans.Valid()
      modifies service.store, plans
      ensures service.Advanced() && plans.Valid()
      ensures r.Ok? ==>
                && g in service.store.grants && service.store.grants[g] == ReleaseRow(p, request, advertiser)
                && ReleaseBacked(service.store.history, |old(service.store.history).ops|, p, request, Active(p).Keys)
      ensures r.Ok? ==>
                && proofOk && request.startAt < request.expiresAt
                && p in old(service.store.projects)
                && old(service.store.projects)[p].execution == WaitingReleaseAuthorization
    {
      if p !in service.store.projects {
        return Err(NotFound);
      }
      if service.store.projects[p].execution != WaitingReleaseAuthorization {
        return Err(ExecutionStateConflict);
      }
      var broken := service.Between(None);
      var artifact := LatestReadback(service.store.artifacts, p);
      if broken || artifact.None? {
        return Err(NotFound);
      }
      ghost var n := |service.store.history.ops|;
      if !proofOk {
        return Err(ReleaseProofMismatch);
      }
      var active, rows := ReadPlans(p);
      var checked := CheckObjects(request, active.Keys, rows, artifact.value.content);
      if checked.Err? {
        return checked;
      }
      var now := service.Clock();
      if request.expiresAt <= now || request.expiresAt <= request.startAt {
        return Err(ReleaseWindowClosed);
      }
      r := InsertReleaseGrant(n, p, request, artifact.value, active.Keys, g, advertiser);
    }

    /** The request against the readback: its plans, their objects and their campaigns must be the expected ones. */
    method CheckObjects(request: ReleaseRequest, ghost active: set<Id>, rows: seq<Id>, content: ArtifactContent)
      returns (r: Result<(), ServiceError>)
      requires forall id :: id in rows <==> id in active
      requires forall i, k :: 0 <= i < k < |rows| ==> rows[i] != rows[k]
      ensures r.Ok? <==> content.ReadbackContent? && RequestMatches(request, active, content.batch)
    {
      var revisions := SortBy(rows, IdLe);
      SortingListsExactly(rows, active);
      if content.ReadbackContent? && ListsExactly(request.revisions, active) {
        ListsAgree(request.revisions, revisions, active);
      }
      if !content.ReadbackContent? {
        return Err(ReadbackIncomplete);
      }
      var expected := ExpectedObjects(content.batch.receipts, revisions);
      if expected.None? {
        return Err(ReadbackIncomplete);
      }
      if request.revisions != revisions || request.objects != expected.value
         || request.campaigns != CampaignIds(expected.value) {
        return Err(ReleaseObjectMismatch);
      }
      r := Ok(());
    }

    method InsertReleaseGrant(ghost n: nat, p: Id, request: ReleaseRequest, artifact: Artifact, ghost active: set<Id>,
                              g: Id, advertiser: int)
      returns (r: Result<(), ServiceError>)
      requires service.Sound()
      requires n == |service.store.history.ops| && IsLatest(service.store.artifacts, p, artifact)
      requires artifact.content.ReadbackContent? && RequestMatches(request, active, artifact.content.batch)
      modifies service.store
      ensures service.Advanced()
      ensures r.Ok? ==>
                && g in service.store.grants && service.store.grants[g] == ReleaseRow(p, request, advertiser)
                && BackedAt(service.store.history, n, p, request, active, artifact)
    {
      MatchIsReadBack(service.store.Rows(), p, request, active, artifact);
      var broken := service.Between(None);
      if broken {
        return Err(StoreBroken);
      }
      ghost var h := service.store.history;
      ReadBackStays(h, n, p, request.campaigns);
      var scope := ScopeOf(request, advertiser);
      var inserted := service.store.InsertGrant(g, p, ReleaseGrant, scope, request.nonce, request.expiresAt);
      Committed(h, IssueGrant(g, p, ReleaseGrant, scope, request.nonce, request.expiresAt), service.store.Rows());
      assert service.store.history.dbs[n] == h.dbs[n];
      assert IsLatest(service.store.history.dbs[n].artifacts, p, artifact);
      r := if inserted.Ok? then Ok(()) else Err(StoreRefused(inserted.error));
    }

    /** enqueue_release: inside the grant's window, under exactly the granted terms. */
    method EnqueueRelease(p: Id, g: Id, proofOk: bool) returns (r: Result<Id, ServiceError>, at: Time)
      requires service.Sound()
      modifies service.store
      ensures service.Advanced()
      ensures r.Ok? ==>
                && g in service.store.grants && service.store.grants[g].scope.CampaignScope?
                && Enqueued(service.store.jobs, r.value, p, Release,
                            ReleaseInput(g, service.store.grants[g].scope.terms))
                && Licensed(service.store.Rows(), r.value)
      ensures r.Ok? ==>
                proofOk && service.releaseReady
                && service.store.grants[g].scope.startAt <= at < service.store.grants[g].expiresAt
    {
      at := 0;
      if !service.releaseReady {
        return Err(AdapterMissing), at;
      }
      var row; ghost var n;
      row, n := ReadGrant(g);
      if row.None? || row.value.project != p {
        return Err(NotFound), at;
      }
      var scope := row.value.scope;
      if !scope.CampaignScope? || !proofOk {
        return Err(GrantIntegrityMismatch), at;
      }
      at := service.Clock();
      if at < scope.startAt || row.value.expiresAt <= at {
        return Err(ReleaseWindowClosed), at;
      }
      r := Consume(n, g, row.value, p, Release, ReleaseInput(g, scope.terms));
      GrantStays(service.store.history, n, g, row.value);
    }

    method EnqueueReleaseEvaluation(p: Id, g: Id, key: Id, proofOk: bool) returns (r: Result<Id, ServiceError>)
      requires service.Sound()
      modifies service.store
      ensures service.Advanced()
      ensures r.Ok? ==>
                && g in service.store.grants && service.store.grants[g].scope.CampaignScope?
                && var terms := service.store.grants[g].scope.terms;
                   Enqueued(service.store.jobs, r.value, p, ReleaseEvaluate,
                            EvaluateInput(key, g, terms.advertiser, terms.campaigns, terms.cap))
      ensures r.Ok? ==>
                && proofOk && service.releaseReady
                && p in old(service.store.projects)
                && old(service.store.projects)[p].delivery in {FeedLearning, SearchEligible, Stable}
    {
      if p !in service.store.projects {
        return Err(NotFound);
      }
      var delivery := service.store.projects[p].delivery;
      if !service.releaseReady {
        return Err(AdapterMissing);
      }
      var row; ghost var n;
      row, n := ReadGrant(g);
      if row.None? || row.value.project != p {
        return Err(NotFound);
      }
      var scope := row.value.scope;
      if !scope.CampaignScope? || !proofOk {
        return Err(GrantIntegrityMismatch);
      }
      if delivery !in {FeedLearning, SearchEligible, Stable} {
        return Err(DeliveryNotActive);
      }
      r := EnqueueExternal(p, ReleaseEvaluate, EvaluationOf(key, g, scope.terms));
      GrantStays(service.store.history, n, g, row.value);
    }

    /** enqueue_reconcile: only an indeterminate external job can be reconciled. A create or reconcile is
        taken up again with exactly its original order; a release becomes a recovery of the granted
        campaigns. */
    method EnqueueReconcile(p: Id, source: Id, proofOk: bool, actionAllowed: bool) returns (r: Result<Id, ServiceError>)
      requires service.Sound()
      modifies service.store
      ensures service.Advanced()
      ensures r.Ok? ==> source in service.store.jobs && r.value in service.store.jobs
                        && Reconciles(service.store.jobs[r.value], source, service.store.jobs[source])
      ensures r.Ok? ==>
                && proofOk && actionAllowed
                && service.store.jobs[source].project == p && service.store.jobs[source].status == NeedsReconcile
      ensures r.Ok? && !Batch(service.store.jobs[source].kind) ==>
                RecoversUnder(service.store.jobs[r.value], source, service.store.grants)
      ensures r.Ok? && Batch(service.store.jobs[source].kind) ==>
                p in old(service.store.projects)
                && old(service.store.projects)[p].execution == ExecutionState.ReconcileRequired
    {
      if p !in service.store.projects {
        return Err(NotFound);
      }
      var state := service.store.projects[p].execution;
      var broken := service.Between(None);
      if broken || source !in service.store.jobs {
        return Err(NotFound);
      }
      var job := service.store.jobs[source];
      ghost var n := |service.store.history.ops|;
      if job.project != p || job.status != NeedsReconcile || !External(job.kind) {
        return Err(JobNotReconcilable);
      }
      JobIsSound(service.store.history, n, source, job);
      if Batch(job.kind) {
        r := ReconcileBatch(p, source, job, state, proofOk, actionAllowed);
      } else {
        r := RecoverRelease(p, source, job, proofOk, actionAllowed);
      }
      JobStays(service.store.history, n, source, job);
      FinalRowsAreFrozen(service.store.history, n, |service.store.history.ops|, source);
    }

    method ReconcileBatch(p: Id, source: Id, job: Job, state: ExecutionState, proofOk: bool, actionAllowed: bool)
      returns (r: Result<Id, ServiceError>)
      requires service.Sound() && RowSound(job) && Batch(job.kind) && job.project == p
      modifies service.store
      ensures service.Advanced()
      ensures r.Ok? ==> r.value in service.store.jobs && Reconciles(service.store.jobs[r.value], source, job)
      ensures r.Ok? ==> proofOk && actionAllowed && state == ExecutionState.ReconcileRequired
    {
      var order := job.input.order;
      if !(if order.production then service.productionReady else service.testReady) {
        return Err(AdapterMissing);
      }
      if !actionAllowed {
        return Err(ActionNotAllowed);
      }
      if !proofOk {
        return Err(GrantIntegrityMismatch);
      }
      if state != ExecutionState.ReconcileRequired {
        return Err(ExecutionStateConflict);
      }
      r := EnqueueExternal(p, Reconcile, ReconcileInput(source, order));
    }

    method RecoverRelease(p: Id, source: Id, job: Job, proofOk: bool, actionAllowed: bool)
      returns (r: Result<Id, ServiceError>)
      requires service.Sound() && RowSound(job) && External(job.kind) && !Batch(job.kind) && job.project == p
      modifies service.store
      ensures service.Advanced()
      ensures r.Ok? ==> r.value in service.store.jobs && Reconciles(service.store.jobs[r.value], source, job)
      ensures r.Ok? ==> RecoversUnder(service.store.jobs[r.value], source, service.store.grants)
      ensures r.Ok? ==> proofOk && actionAllowed
    {
      if !service.releaseReady {
        return Err(AdapterMissing);
      }
      var g := job.input.grant;
      var row; ghost var n;
      row, n := ReadGrant(g);
      if row.None? {
        return Err(NotFound);
      }
      var scope := row.value.scope;
      if !scope.CampaignScope? || !proofOk {
        return Err(GrantIntegrityMismatch);
      }
      if !actionAllowed {
        return Err(ActionNotAllowed);
      }
      r := EnqueueExternal(p, ReleaseRecovery, RecoverInput(source, g, scope.terms.advertiser, scope.terms.campaigns));
      GrantStays(service.store.history, n, g, row.value);
    }
  }

  /** `next` takes up the indeterminate job `source`. */
  predicate Reconciles(next: Job, source: Id, job: Job) {
    && next.project == job.project && External(job.kind)
    && if Batch(job.kind)
       then HasOrder(job.input) && next.kind == Reconcile && next.input == ReconcileInput(source, job.input.order)
       else next.kind == ReleaseRecovery && next.input.RecoverInput? && next.input.source == source
            && (job.input.ReleaseInput? || job.input.EvaluateInput? || job.input.RecoverInput?)
            && next.input.grant == job.input.grant
  }

  /** The recovery is for exactly the account and campaigns of the grant it names. */
  predicate RecoversUnder(next: Job, source: Id, grants: map<Id, Grant>) {
    && next.input.RecoverInput? && next.input.grant in grants && grants[next.input.grant].scope.CampaignScope?
    && var terms := grants[next.input.grant].scope.terms;
       next.input == RecoverInput(source, next.input.grant, terms.advertiser, terms.campaigns)
  }

  lemma MatchIsReadBack(db: Db, p: Id, request: ReleaseRequest, active: set<Id>, artifact: Artifact)
    requires IsLatest(db.artifacts, p, artifact) && artifact.content.ReadbackContent?
    requires RequestMatches(request, active, artifact.content.batch)
    ensures ReadBack(db, p, request.campaigns)
  {
    ExpectedAreReadBack(artifact.content.batch, request.revisions);
    var i :| 0 <= i < |db.artifacts| && db.artifacts[i] == artifact;
    assert ReadBackBy(db.artifacts[i], p, request.campaigns);
  }
}
