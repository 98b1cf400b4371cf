/** When a RUNNING create job's project is in WRITE_IN_PROGRESS. Consuming the grant and entering the state
    are two transactions, so the implication can fail; here is exactly when it holds, in terms of guards on
    the rows each step is about to change. */
module WriteProgress {
  import opened Common
  import opened State
  import opened Database
  import opened JobLeases

  predicate InProgress(db: Db, p: Id) {
    p in db.projects && db.projects[p].execution == WriteInProgress
  }

  /** This claim will sweep an expired external job of the project. */
  predicate SweepsProject(db: Db, op: Op, p: Id) {
    op.ClaimJob? && exists row :: row in db.jobs && Indeterminate(db.jobs[row], op.now) && db.jobs[row].project == p
  }

  predicate Enters(db: Db, op: Op, p: Id) {
    && op == MoveExecution(p, WriteInProgress) && p in db.projects
    && WriteInProgress in ExecutionTransitions(db.projects[p].execution)
  }

  predicate Leaves(db: Db, op: Op, p: Id) {
    && InProgress(db, p)
    && ((op.MoveExecution? && op.p == p && op.executionTarget in ExecutionTransitions(WriteInProgress))
        || SweepsProject(db, op, p))
  }

  /** What a row-by-row sweep does to one project. */
  lemma {:induction false} SweepEffect(db: Db, rows: seq<Id>, p: Id)
    requires p in db.projects && forall i :: 0 <= i < |rows| ==> rows[i] in db.jobs
    ensures var after := SweepProjects(db, rows);
            && (InProgress(after, p)
                <==> InProgress(db, p) && forall i :: 0 <= i < |rows| ==> db.jobs[rows[i]].project != p)
  {
    if rows != [] {
      var n := |rows| - 1;
      SweepEffect(db, rows[..n], p);
      assert (forall i :: 0 <= i < |rows| ==> db.jobs[rows[i]].project != p)
        <==> (forall i :: 0 <= i < n ==> db.jobs[rows[..n][i]].project != p) && db.jobs[rows[n]].project != p;
    }
  }

  lemma ClaimProgress(db: Db, op: Op, p: Id)
    requires Legal(db, op) && op.ClaimJob? && p in db.projects
    ensures InProgress(Step(db, op), p) <==> InProgress(db, p) && !SweepsProject(db, op, p)
  {
    var swept := db.(jobs := SweptJobs(db.jobs, op.now));
    forall i | 0 <= i < |op.rows|
      ensures op.rows[i] in swept.jobs && swept.jobs[op.rows[i]].project == db.jobs[op.rows[i]].project
    {
      assert op.rows[i] in IndeterminateJobs(db.jobs, op.now);
    }
    SweepEffect(swept, op.rows, p);
    SweptRows(db, op, p);
  }

  /** The claim's rows hold one of the project's exactly when it sweeps the project. */
  lemma SweptRows(db: Db, op: Op, p: Id)
    requires Legal(db, op) && op.ClaimJob?
    ensures forall i :: 0 <= i < |op.rows| ==> op.rows[i] in db.jobs
    ensures SweepsProject(db, op, p) <==> exists i :: 0 <= i < |op.rows| && db.jobs[op.rows[i]].project == p
  {
    forall i | 0 <= i < |op.rows| ensures op.rows[i] in IndeterminateJobs(db.jobs, op.now) {
    }
    if SweepsProject(db, op, p) {
      var row :| row in db.jobs && Indeterminate(db.jobs[row], op.now) && db.jobs[row].project == p;
      assert row in IndeterminateJobs(db.jobs, op.now);
      var i :| 0 <= i < |op.rows| && op.rows[i] == row;
    }
  }

  lemma ProgressStep(db: Db, op: Op, p: Id)
    requires Legal(db, op)
    ensures InProgress(Step(db, op), p) <==> Enters(db, op, p) || (InProgress(db, p) && !Leaves(db, op, p))
  {
    if op.ClaimJob? && p in db.projects {
      ClaimProgress(db, op, p);
    }
  }

  ghost predicate Stays(run: Run, i: nat, k: nat, p: Id)
    requires k <= |run.ops|
  {
    forall m :: i <= m < k ==> !Leaves(run.dbs[m], run.ops[m], p)
  }

  ghost predicate EnteredAt(run: Run, m: nat, k: nat, p: Id)
    requires m < k <= |run.ops|
  {
    Enters(run.dbs[m], run.ops[m], p) && Stays(run, m + 1, k, p)
  }

  ghost predicate EnteredDuring(run: Run, c: nat, k: nat, p: Id)
    requires k <= |run.ops|
  {
    exists m :: c <= m < k && EnteredAt(run, m, k, p)
  }

  /** Over any stretch of steps, say from a consumption at c on: the project is in WRITE_IN_PROGRESS at n
      exactly when a step in between entered it and none since left it, or it was there at c and never left. */
  lemma {:induction false} InProgressExactly(run: Run, c: nat, n: nat, p: Id)
    requires c <= n <= |run.ops|
    ensures InProgress(run.dbs[n], p) <==>
              EnteredDuring(run, c, n, p) || (InProgress(run.dbs[c], p) && Stays(run, c, n, p))
    decreases n
  {
    if c < n {
      InProgressExactly(run, c, n - 1, p);
      TakeStep(run, n - 1);
      ProgressStep(run.dbs[n - 1], run.ops[n - 1], p);
      EnteredNext(run, c, n - 1, p);
    }
  }

  lemma EnteredNext(run: Run, c: nat, n: nat, p: Id)
    requires c <= n < |run.ops|
    ensures EnteredDuring(run, c, n + 1, p) <==>
              Enters(run.dbs[n], run.ops[n], p) || (EnteredDuring(run, c, n, p) && !Leaves(run.dbs[n], run.ops[n], p))
    ensures Stays(run, c, n + 1, p) <==> Stays(run, c, n, p) && !Leaves(run.dbs[n], run.ops[n], p)
  {
    var k := n + 1;
    forall m | c <= m < n
      ensures EnteredAt(run, m, k, p) <==> EnteredAt(run, m, n, p) && !Leaves(run.dbs[n], run.ops[n], p)
    {
      assert Stays(run, m + 1, k, p) <==> Stays(run, m + 1, n, p) && !Leaves(run.dbs[n], run.ops[n], p);
    }
    assert EnteredAt(run, n, k, p) <==> Enters(run.dbs[n], run.ops[n], p);
    if EnteredDuring(run, c, n, p) && !Leaves(run.dbs[n], run.ops[n], p) {
      var m :| c <= m < n && EnteredAt(run, m, n, p);
      assert EnteredAt(run, m, k, p);
    }
  }

  // ----- a job while it runs -----

  predicate IsRunning(db: Db, j: Id) {
    j in db.jobs && db.jobs[j].status == Running
  }

  /** The step takes a RUNNING external job out of RUNNING: its owner finishes it, or a claim sweeps it. */
  predicate Ends(db: Db, op: Op, j: Id) {
    IsFinish(db, op, j) || (op.ClaimJob? && j in db.jobs && Indeterminate(db.jobs[j], op.now))
  }

  lemma RunningStep(db: Db, op: Op, j: Id)
    requires Legal(db, op) && (j in db.jobs ==> External(db.jobs[j].kind))
    ensures IsRunning(Step(db, op), j) <==> IsClaim(op, j) || (IsRunning(db, j) && !Ends(db, op, j))
  {
    PickedIsClaimable(db, op, j);
    if j in db.jobs {
      RowEffect(db, op, j);
    } else if j in Step(db, op).jobs {
      NewRow(db, op, j);
    }
  }

  /** A check on the rows before the step: a claim of j must find its project in WRITE_IN_PROGRESS and sweep
      no other job of it, and while j runs on no step may move the project out. */
  predicate Guarded(db: Db, op: Op, j: Id, p: Id) {
    if IsClaim(op, j) then InProgress(db, p) && !SweepsProject(db, op, p)
    else IsRunning(db, j) && !Ends(db, op, j) ==> !Leaves(db, op, p)
  }

  ghost predicate StepGuarded(run: Run, m: nat, j: Id, p: Id)
    requires m < |run.ops|
  {
    Guarded(run.dbs[m], run.ops[m], j, p)
  }

  ghost predicate Implied(run: Run, m: nat, j: Id, p: Id)
    requires m <= |run.ops|
  {
    IsRunning(run.dbs[m], j) ==> InProgress(run.dbs[m], p)
  }

  /** Given the implication before a step, it holds after it exactly if the step was guarded. */
  lemma ImpliedStep(run: Run, m: nat, j: Id, p: Id)
    requires m < |run.ops| && (j in run.dbs[m].jobs ==> External(run.dbs[m].jobs[j].kind))
    requires Implied(run, m, j, p)
    ensures Implied(run, m + 1, j, p) <==> StepGuarded(run, m, j, p)
  {
    TakeStep(run, m);
    RunningStep(run.dbs[m], run.ops[m], j);
    ProgressStep(run.dbs[m], run.ops[m], p);
    PickedIsClaimable(run.dbs[m], run.ops[m], j);
  }

  ghost predicate ImpliedThrough(run: Run, n: nat, j: Id, p: Id)
    requires n <= |run.ops|
  {
    forall m :: 0 <= m <= n ==> Implied(run, m, j, p)
  }

  ghost predicate GuardedThrough(run: Run, n: nat, j: Id, p: Id)
    requires n <= |run.ops|
  {
    forall m :: 0 <= m < n ==> StepGuarded(run, m, j, p)
  }

  /** RUNNING implies WRITE_IN_PROGRESS throughout an execution exactly when every claim of the job found its
      project there and every later step, while it ran, left it there: guards that can be checked before
      each step. */
  lemma {:induction false} RunningImpliesInProgressExactly(run: Run, n: nat, j: Id, p: Id)
    requires n <= |run.ops|
    requires forall m :: 0 <= m <= n && j in run.dbs[m].jobs ==> External(run.dbs[m].jobs[j].kind)
    ensures ImpliedThrough(run, n, j, p) <==> GuardedThrough(run, n, j, p)
    decreases n
  {
    if n == 0 {
      assert Implied(run, 0, j, p);
    } else {
      RunningImpliesInProgressExactly(run, n - 1, j, p);
      assert ImpliedThrough(run, n, j, p) <==> ImpliedThrough(run, n - 1, j, p) && Implied(run, n, j, p);
      assert GuardedThrough(run, n, j, p) <==> GuardedThrough(run, n - 1, j, p) && StepGuarded(run, n - 1, j, p);
      if ImpliedThrough(run, n - 1, j, p) {
        assert Implied(run, n - 1, j, p);
        ImpliedStep(run, n - 1, j, p);
      }
    }
  }
}
