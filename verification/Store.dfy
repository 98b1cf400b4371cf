/** SeedingStore: one method per transaction, updating the rows in place. The ghost history records
    the run, so that every theorem about runs speaks about this object. */
module Store {
  import opened Common
  import opened Payloads
  import opened State
  import opened Database
  import opened JobLeases
  import opened SystemRuns

  datatype StoreError =
    | ProjectNotFound
    | ProjectAlreadyExists
    | InvalidTransition
    | GrantNotFound
    | GrantAlreadyExists
    | GrantTypeMismatch
    | GrantNotActive
    | GrantHasExpired
    | GrantNotRevocable
    | JobNotFound
    | JobLeaseLost
    | JobNotCancellable
    | JobNotResumable

  /** h continues earlier. */
  ghost predicate Continues(earlier: History, h: History) {
    earlier.dbs <= h.dbs && earlier.ops <= h.ops
  }

  /** Claim order has a first row among any candidates. */
  lemma FirstInQueue(jobs: map<Id, Job>, candidates: set<Id>) returns (first: Id)
    requires candidates != {} && candidates <= jobs.Keys
    ensures first in candidates && forall k :: k in candidates ==> QueuedBefore(jobs, first, k)
  {
    first :| first in candidates;
    var rest := candidates - {first};
    if rest != {} {
      var next := FirstInQueue(jobs, rest);
      var j := first;
      first := if QueuedBefore(jobs, next, j) then next else j;
      forall k | k in candidates ensures QueuedBefore(jobs, first, k) {
        assert k == j || k in rest;
        if k in rest {
          assert QueuedBefore(jobs, next, k);
        }
      }
    } else {
      assert candidates == {first};
    }
  }

  class SeedingStore {
    var projects: map<Id, Project>
    var jobs: map<Id, Job>
    var grants: map<Id, Grant>
    var artifacts: seq<Artifact>
    var log: seq<LogEntry>
    var outbox: seq<Event>
    ghost var history: History

    ghost function Rows(): Db
      reads this
    {
      Db(projects, jobs, grants, artifacts, log, outbox)
    }

    ghost predicate Valid()
      reads this
    {
      Behaves(history) && history.dbs[|history.ops|] == Rows()
    }

    /** This method committed exactly the transaction op. */
    twostate predicate Did(op: Op)
      requires old(Valid())
      reads this
    {
      && Valid()
      && Rows() == Step(old(Rows()), op)
      && Legal(old(Rows()), op)
      && history == Recorded(old(history), op, Rows())
    }

    constructor ()
      ensures Valid() && Requested(history) && history.ops == []
    {
      projects, jobs, grants, artifacts, log, outbox := map[], map[], map[], [], [], [];
      history := History([EMPTY], []);
    }

    ghost method Record(op: Op, before: Db)
      requires Behaves(history) && history.dbs[|history.ops|] == before
      requires Legal(before, op) && Rows() == Step(before, op)
      modifies this`history
      ensures Valid() && history == Recorded(old(history), op, Rows())
    {
      RecordedBehaves(history, op, Rows());
      history := Recorded(history, op, Rows());
    }

    /** Other connections commit any number of transactions, each asked for by a proper caller and
        none of them a claim by `worker`, if one is named. Its body does nothing; callers rely on the
        contract only. */
    method Interleave(ghost worker: Option<Id>)
      requires Valid()
      modifies this
      ensures Valid() && Continues(old(history), history)
      ensures old(Requested(history)) ==> Requested(history)
      ensures forall m :: |old(history).ops| <= m < |history.ops| ==>
                !(history.ops[m].ClaimJob? && Some(history.ops[m].worker) == worker)
    {
    }

    // ----- projects -----

    method NewProject(p: Id) returns (r: Result<(), StoreError>)
      requires Valid()
      modifies this
      ensures Did(CreateProject(p))
      ensures r == if p in old(projects) then Err(ProjectAlreadyExists) else Ok(())
    {
      ghost var before := Rows();
      if p in projects {
        r := Err(ProjectAlreadyExists);
      } else {
        projects := projects[p := Project(Draft, NoExecution, NotReleased)];
        outbox := outbox + [ProjectCreated(p)];
        r := Ok(());
      }
      Record(CreateProject(p), before);
    }

    method Append(entry: LogEntry, job: Option<Id>)
      modifies this`log, this`outbox
      ensures log == old(log) + [entry] && outbox == old(outbox) + [StateChanged(entry, job)]
    {
      log := log + [entry];
      outbox := outbox + [StateChanged(entry, job)];
    }

    method TransitionProject(p: Id, target: ProjectState) returns (r: Result<(), StoreError>)
      requires Valid()
      modifies this
      ensures Did(MoveProject(p, target))
      ensures r.Ok? <==> p in old(projects) && target in ProjectTransitions(old(projects)[p].project)
    {
      ghost var before := Rows();
      if p !in projects {
        r := Err(ProjectNotFound);
      } else if target !in ProjectTransitions(projects[p].project) {
        r := Err(InvalidTransition);
      } else {
        var current := projects[p].project;
        projects := projects[p := projects[p].(project := target)];
        Append(ProjectMoved(p, current, target), None);
        r := Ok(());
      }
      Record(MoveProject(p, target), before);
    }

    method TransitionExecution(p: Id, target: ExecutionState) returns (r: Result<(), StoreError>)
      requires Valid()
      modifies this
      ensures Did(MoveExecution(p, target))
      ensures r.Ok? <==> p in old(projects) && target in ExecutionTransitions(old(projects)[p].execution)
    {
      ghost var before := Rows();
      if p !in projects {
        r := Err(ProjectNotFound);
      } else if target !in ExecutionTransitions(projects[p].execution) {
        r := Err(InvalidTransition);
      } else {
        var current := projects[p].execution;
        projects := projects[p := projects[p].(execution := target)];
        Append(ExecutionMoved(p, current, target), None);
        r := Ok(());
      }
      Record(MoveExecution(p, target), before);
    }

    method TransitionDelivery(p: Id, target: DeliveryState) returns (r: Result<(), StoreError>)
      requires Valid()
      modifies this
      ensures Did(MoveDelivery(p, target))
      ensures r.Ok? <==> p in old(projects) && target in DeliveryTransitions(old(projects)[p].delivery)
    {
      ghost var before := Rows();
      if p !in projects {
        r := Err(ProjectNotFound);
      } else if target !in DeliveryTransitions(projects[p].delivery) {
        r := Err(InvalidTransition);
      } else {
        var current := projects[p].delivery;
        projects := projects[p := projects[p].(delivery := target)];
        Append(DeliveryMoved(p, current, target), None);
        r := Ok(());
      }
      Record(MoveDelivery(p, target), before);
    }

    // ----- artifacts and events -----

    method StoreArtifact(a: Id, p: Id, kind: ArtifactKind, input: JobInput, content: ArtifactContent, now: Time)
      returns (r: Result<(), StoreError>)
      requires Valid()
      modifies this
      ensures Did(PutArtifact(a, p, kind, input, content, now))
      ensures r.Ok? <==> p in old(projects)
    {
      ghost var before := Rows();
      if p !in projects {
        r := Err(ProjectNotFound);
      } else {
        if !ArtifactExists(artifacts, p, kind, input) {
          artifacts := artifacts + [Artifact(a, p, kind, input, content, now)];
        }
        r := Ok(());
      }
      Record(PutArtifact(a, p, kind, input, content, now), before);
    }

    method Emit(event: Event)
      requires Valid() && !event.StateChanged?
      modifies this
      ensures Did(EmitEvent(event))
    {
      ghost var before := Rows();
      outbox := outbox + [event];
      Record(EmitEvent(event), before);
    }

    // ----- grants -----

    method InsertGrant(g: Id, p: Id, grantType: GrantType, scope: GrantScope, nonce: Id, expiresAt: Time)
      returns (r: Result<(), StoreError>)
      requires Valid()
      modifies this
      ensures Did(IssueGrant(g, p, grantType, scope, nonce, expiresAt))
      ensures r.Ok? <==> GrantInsertable(old(Rows()), g, p, grantType, nonce)
    {
      ghost var before := Rows();
      if g in grants || p !in projects
         || exists h ::
           h in grants && grants[h].project == p && grants[h].grantType == grantType && grants[h].nonce == nonce {
        r := Err(GrantAlreadyExists);
      } else {
        grants := grants[g := Grant(p, grantType, Issued, scope, nonce, expiresAt, None)];
        outbox := outbox + [GrantIssued(g)];
        r := Ok(());
      }
      Record(IssueGrant(g, p, grantType, scope, nonce, expiresAt), before);
    }

    method Revoke(g: Id) returns (r: Result<(), StoreError>)
      requires Valid()
      modifies this
      ensures Did(RevokeGrant(g))
      ensures r.Ok? <==> g in old(grants) && old(grants)[g].status == Issued
    {
      ghost var before := Rows();
      if g !in grants {
        r := Err(GrantNotFound);
      } else if grants[g].status != Issued {
        r := Err(GrantNotRevocable);
      } else {
        grants := grants[g := grants[g].(status := Revoked)];
        outbox := outbox + [GrantRevoked(g)];
        r := Ok(());
      }
      Record(RevokeGrant(g), before);
    }

    /** The row of exactly this work, if it was enqueued before. */
    method FindWork(p: Id, kind: JobKind, input: JobInput) returns (r: Option<Id>)
      ensures r.Some? <==> WorkExists(jobs, p, kind, input)
      ensures r.Some? ==> r.value in jobs && SameWork(jobs[r.value], p, kind, input)
      ensures r.Some? <==>
              exists j :: j in jobs && jobs[j].project == p && jobs[j].kind == kind && jobs[j].input == input
    {
      r := None;
      if exists j :: j in jobs && SameWork(jobs[j], p, kind, input) {
        var existing :| existing in jobs && SameWork(jobs[existing], p, kind, input);
        r := Some(existing);
      }
    }

    /** The consuming half: the EXPIRED mark is written before the refusal is raised, and the rollback
        takes it back. */
    method ConsumeRow(g: Id, grantType: GrantType, p: Id, kind: JobKind, input: JobInput, maxAttempts: nat, jobId: Id,
                      now: Time)
      returns (r: Result<Id, StoreError>)
      requires !WorkExists(jobs, p, kind, input)
      modifies this`grants, this`jobs, this`outbox
      ensures Rows() == ConsumeGrantDb(old(Rows()), g, grantType, p, kind, input, maxAttempts, jobId, now)
      ensures r.Ok? <==> GrantUsable(old(Rows()), g, grantType, p, now) && p in projects
      ensures r.Ok? ==> r.value == jobId && jobId in jobs && SameWork(jobs[jobId], p, kind, input)
      ensures r.Err? ==> Rows() == old(Rows())
    {
      if g !in grants || grants[g].project != p || p !in projects {
        return Err(GrantNotFound);
      }
      if grants[g].grantType != grantType {
        return Err(GrantTypeMismatch);
      }
      if grants[g].status != Issued {
        return Err(GrantNotActive);
      }
      if grants[g].expiresAt <= now {
        var saved := grants;
        grants := grants[g := grants[g].(status := Expired)];
        r := Err(GrantHasExpired);
        grants := saved;
        return;
      }
      grants := grants[g := grants[g].(status := Consumed, consumedAt := Some(now))];
      jobs := jobs[jobId := NewJob(p, kind, input, maxAttempts, now)];
      outbox := outbox + [GrantConsumed(g, jobId)];
      r := Ok(jobId);
    }

    /** Consume a grant and enqueue its job, in one transaction. */
    method ConsumeGrantAndEnqueue(g: Id, grantType: GrantType, p: Id, kind: JobKind, input: JobInput,
                                  maxAttempts: nat, jobId: Id, now: Time)
      returns (r: Result<Id, StoreError>)
      requires Valid() && jobId !in jobs
      modifies this
      ensures Did(ConsumeGrant(g, grantType, p, kind, input, maxAttempts, jobId, now))
      ensures r.Ok? ==> r.value in jobs && SameWork(jobs[r.value], p, kind, input)
      ensures r.Err? ==> Rows() == old(Rows())
      ensures r.Ok? <==> WorkExists(old(jobs), p, kind, input)
                         || (GrantUsable(old(Rows()), g, grantType, p, now) && p in old(projects))
    {
      ghost var before := Rows();
      var existing := FindWork(p, kind, input);
      if existing.Some? {
        r := Ok(existing.value);
      } else {
        r := ConsumeRow(g, grantType, p, kind, input, maxAttempts, jobId, now);
      }
      Record(ConsumeGrant(g, grantType, p, kind, input, maxAttempts, jobId, now), before);
    }

    // ----- jobs -----

    method Enqueue(p: Id, kind: JobKind, input: JobInput, maxAttempts: nat, jobId: Id, now: Time)
      returns (r: Result<Id, StoreError>)
      requires Valid() && jobId !in jobs
      modifies this
      ensures Did(EnqueueJob(p, kind, input, maxAttempts, jobId, now))
      ensures r.Ok? <==> p in old(projects)
      ensures r.Ok? ==> r.value in jobs && SameWork(jobs[r.value], p, kind, input)
    {
      ghost var before := Rows();
      var existing := FindWork(p, kind, input);
      if p !in projects {
        r := Err(ProjectNotFound);
      } else if existing.Some? {
        r := Ok(existing.value);
      } else {
        jobs := jobs[jobId := NewJob(p, kind, input, maxAttempts, now)];
        r := Ok(jobId);
      }
      Record(EnqueueJob(p, kind, input, maxAttempts, jobId, now), before);
    }

    /** One row of the sweep: a project left in WRITE_IN_PROGRESS is moved by direct SQL. */
    method SweepRow(row: Id)
      requires row in jobs
      modifies this`projects, this`log, this`outbox
      ensures Rows() == SweepProject(old(Rows()), row)
    {
      var p := jobs[row].project;
      if p in projects && projects[p].execution == WriteInProgress {
        projects := projects[p := projects[p].(execution := ExecutionState.ReconcileRequired)];
        Append(ExecutionMoved(p, WriteInProgress, ExecutionState.ReconcileRequired), Some(row));
      }
    }

    /** Sweep expired external writes out of reach and flag their projects. */
    method Sweep(now: Time) returns (ghost rows: seq<Id>)
      modifies this`jobs, this`projects, this`log, this`outbox
      ensures Enumerates(rows, IndeterminateJobs(old(jobs), now))
      ensures Rows() == SweepProjects(old(Rows()).(jobs := SweptJobs(old(jobs), now)), rows)
    {
      var indeterminate := IndeterminateJobs(jobs, now);
      jobs := map j | j in jobs :: Swept(jobs[j], now);
      ghost var swept := Rows();
      rows := [];
      var todo := indeterminate;
      while todo != {}
        invariant todo <= indeterminate <= jobs.Keys
        invariant Enumerates(rows, indeterminate - todo)
        invariant Rows() == SweepProjects(swept, rows)
        decreases todo
      {
        var row :| row in todo;
        SweepRow(row);
        assert (rows + [row])[..|rows|] == rows;
        rows := rows + [row];
        todo := todo - {row};
      }
      assert indeterminate - todo == indeterminate;
    }

    /** Lease the first claimable row, if there is one. */
    method LeaseNext(worker: Id, now: Time, until: Time) returns (claimed: Option<Id>)
      modifies this`jobs
      ensures FirstClaimable(old(jobs), now, claimed)
      ensures claimed.None? ==> jobs == old(jobs)
      ensures claimed.Some? ==> jobs == old(jobs)[claimed.value := Leased(old(jobs)[claimed.value], worker, until)]
    {
      var candidates := set j | j in jobs && Claimable(jobs[j], now);
      if candidates == {} {
        claimed := None;
        forall j | j in jobs ensures !Claimable(jobs[j], now) {
          assert j !in candidates;
        }
      } else {
        ghost var first := FirstInQueue(jobs, candidates);
        var row :| row in candidates && forall k :: k in candidates ==> QueuedBefore(jobs, row, k);
        claimed := Some(row);
        jobs := jobs[row := Leased(jobs[row], worker, until)];
      }
    }

    /** Claim the next runnable job. */
    method Claim(worker: Id, now: Time, until: Time) returns (claimed: Option<Id>, ghost rows: seq<Id>)
      requires Valid()
      modifies this
      ensures Did(ClaimJob(worker, now, until, rows, claimed))
      ensures claimed.Some? ==> claimed.value in jobs && OwnedBy(jobs[claimed.value], worker)
    {
      ghost var before := Rows();
      rows := Sweep(now);
      claimed := LeaseNext(worker, now, until);
      assert Rows() == ClaimDb(before, worker, now, until, rows, claimed);
      Record(ClaimJob(worker, now, until, rows, claimed), before);
    }

    method Heartbeat(j: Id, worker: Id, until: Time) returns (r: Result<(), StoreError>)
      requires Valid()
      modifies this
      ensures Did(HeartbeatJob(j, worker, until))
      ensures r.Ok? <==> j in old(jobs) && OwnedBy(old(jobs)[j], worker)
    {
      ghost var before := Rows();
      if j in jobs && OwnedBy(jobs[j], worker) {
        jobs := jobs[j := jobs[j].(expires := Some(until))];
        r := Ok(());
      } else {
        r := Err(JobLeaseLost);
      }
      Record(HeartbeatJob(j, worker, until), before);
    }

    /** Extend every lease this worker holds. */
    method HeartbeatAll(worker: Id, until: Time) returns (count: nat)
      requires Valid()
      modifies this
      ensures Did(HeartbeatWorker(worker, until))
      ensures count == |set j | j in old(jobs) && OwnedBy(old(jobs)[j], worker)|
    {
      ghost var before := Rows();
      count := |set j | j in jobs && OwnedBy(jobs[j], worker)|;
      jobs := map j | j in jobs :: if OwnedBy(jobs[j], worker) then jobs[j].(expires := Some(until)) else jobs[j];
      Record(HeartbeatWorker(worker, until), before);
    }

    method Finish(j: Id, worker: Id, status: JobStatus, result: Option<JobResult>, now: Time)
      returns (r: Result<(), StoreError>)
      requires Valid() && status in {Succeeded, Failed, Retry, NeedsReconcile}
      modifies this
      ensures Did(FinishJob(j, worker, status, result, now))
      ensures r.Ok? <==> j in old(jobs) && OwnedBy(old(jobs)[j], worker)
    {
      ghost var before := Rows();
      if j in jobs && OwnedBy(jobs[j], worker) {
        jobs := jobs[j := Finished(jobs[j], status, result, now)];
        r := Ok(());
      } else {
        r := Err(JobLeaseLost);
      }
      Record(FinishJob(j, worker, status, result, now), before);
    }

    /** Report a failure: read the attempt on one connection, let other workers commit, then write.
        The write lands exactly as if read and write had been one transaction. */
    method Fail(j: Id, worker: Id, now: Time) returns (r: Result<(), StoreError>)
      requires Valid()
      modifies this
      ensures Valid() && Continues(old(history), history)
      ensures old(Requested(history)) && (j in old(jobs) ==> !External(old(jobs)[j].kind)) ==> Requested(history)
      ensures j !in old(jobs) ==> r == Err(JobNotFound) && history == old(history)
      ensures j in old(jobs) ==>
                var n := |history.ops|;
                && n > |old(history).ops|
                && Rows() == FailAtomically(history.dbs[n - 1], j, worker, now)
                && (r.Ok? <==> j in history.dbs[n - 1].jobs && OwnedBy(history.dbs[n - 1].jobs[j], worker))
    {
      if j !in jobs {
        return Err(JobNotFound);
      }
      var status := FailureStatus(jobs[j]);
      ghost var i := |history.ops|;
      ghost var earlier := history;
      Interleave(Some(worker));
      ghost var k := |history.ops|;
      ghost var run: Run := history;
      assert run.dbs[i] == earlier.dbs[i];
      assert ClaimsNothing(run, i, k, worker);
      FailureReportRefinesAtomic(run, i, k, j, worker, now);
      RowPersists(run, i, k, j);
      ghost var middle := history;
      if Requested(history) && !External(jobs[j].kind) {
        RecordedRequested(history, FinishJob(j, worker, status, None, now),
                          Step(Rows(), FinishJob(j, worker, status, None, now)));
      }
      r := Finish(j, worker, status, None, now);
      assert history.dbs[k] == middle.dbs[k];
    }

    method Cancel(j: Id) returns (r: Result<(), StoreError>)
      requires Valid()
      modifies this
      ensures Did(CancelJob(j))
      ensures r.Ok? <==> j in old(jobs) && (old(jobs)[j].status == Pending || old(jobs)[j].status == Retry)
    {
      ghost var before := Rows();
      if j in jobs && (jobs[j].status == Pending || jobs[j].status == Retry) {
        jobs := jobs[j := jobs[j].(status := Cancelled, owner := None, expires := None)];
        r := Ok(());
      } else {
        r := Err(JobNotCancellable);
      }
      Record(CancelJob(j), before);
    }

    method Resume(j: Id, now: Time) returns (r: Result<(), StoreError>)
      requires Valid()
      modifies this
      ensures Did(ResumeJob(j, now))
      ensures r.Ok? <==> j in old(jobs) && (old(jobs)[j].status == Failed || old(jobs)[j].status == Cancelled)
    {
      ghost var before := Rows();
      if j in jobs && (jobs[j].status == Failed || jobs[j].status == Cancelled) {
        jobs := jobs[j := jobs[j].(status := Pending, attempt := 0, nextRun := now)];
        r := Ok(());
      } else {
        r := Err(JobNotResumable);
      }
      Record(ResumeJob(j, now), before);
    }
  }
}
