/** The transition log is a faithful history: replaying it against the transition tables rebuilds
    every project row, and the outbox announces exactly its entries, in order. */
module TransitionLog {
  import opened Common
  import opened Database
  import opened State

  const FRESH := Project(Draft, NoExecution, NotReleased)

  /** One audited move: it must start where the project is and be allowed by the table. */
  function ApplyEntry(row: Project, p: Id, entry: LogEntry): Option<Project> {
    if entry.p != p then Some(row)
    else
      match entry
      case ProjectMoved(_, from, to) =>
        if row.project == from && to in ProjectTransitions(from) then Some(row.(project := to)) else None
      case ExecutionMoved(_, from, to) =>
        if row.execution == from && to in ExecutionTransitions(from) then Some(row.(execution := to)) else None
      case DeliveryMoved(_, from, to) =>
        if row.delivery == from && to in DeliveryTransitions(from) then Some(row.(delivery := to)) else None
  }

  /** The project row an auditor reconstructs from the log alone; None if some entry does not chain. */
  function Replay(log: seq<LogEntry>, p: Id): Option<Project> {
    if log == [] then Some(FRESH)
    else
      var before := Replay(log[..|log| - 1], p);
      if before.None? then None else ApplyEntry(before.value, p, log[|log| - 1])
  }

  /** The transitions the outbox announces, in order. */
  function Announced(outbox: seq<Event>): seq<LogEntry> {
    if outbox == [] then []
    else
      var before, last := Announced(outbox[..|outbox| - 1]), outbox[|outbox| - 1];
      if last.StateChanged? then before + [last.entry] else before
  }

  function CurrentRow(db: Db, p: Id): Project {
    if p in db.projects then db.projects[p] else FRESH
  }

  ghost predicate Faithful(db: Db) {
    && Announced(db.outbox) == db.log
    && forall p :: Replay(db.log, p) == Some(CurrentRow(db, p))
  }

  lemma AnnouncedAppend(outbox: seq<Event>, event: Event)
    ensures Announced(outbox + [event])
         == if event.StateChanged? then Announced(outbox) + [event.entry] else Announced(outbox)
  {
    assert (outbox + [event])[..|outbox|] == outbox;
  }

  /** Appending an allowed move, together with the row it describes, keeps the history faithful. */
  lemma LoggedFaithful(db: Db, next: Db, entry: LogEntry, job: Option<Id>)
    requires Faithful(db)
    requires next.log == db.log + [entry] && next.outbox == db.outbox + [StateChanged(entry, job)]
    requires entry.p in db.projects && ApplyEntry(db.projects[entry.p], entry.p, entry).Some?
    requires next.projects == db.projects[entry.p := ApplyEntry(db.projects[entry.p], entry.p, entry).value]
    ensures Faithful(next)
  {
    AnnouncedAppend(db.outbox, StateChanged(entry, job));
    forall p ensures Replay(next.log, p) == Some(CurrentRow(next, p)) {
      assert next.log[..|db.log|] == db.log;
      assert Replay(db.log, p) == Some(CurrentRow(db, p));
    }
  }

  lemma SweepProjectFaithful(db: Db, row: Id)
    requires Faithful(db)
    ensures Faithful(SweepProject(db, row))
  {
    if row in db.jobs && db.jobs[row].project in db.projects
       && db.projects[db.jobs[row].project].execution == WriteInProgress {
      LoggedFaithful(db, SweepProject(db, row),
                     ExecutionMoved(db.jobs[row].project, WriteInProgress, ExecutionState.ReconcileRequired),
                     Some(row));
    }
  }

  lemma {:induction false} SweepProjectsFaithful(db: Db, rows: seq<Id>)
    requires Faithful(db)
    ensures Faithful(SweepProjects(db, rows))
  {
    if rows != [] {
      SweepProjectsFaithful(db, rows[..|rows| - 1]);
      SweepProjectFaithful(SweepProjects(db, rows[..|rows| - 1]), rows[|rows| - 1]);
    }
  }

  lemma ClaimFaithful(db: Db, worker: Id, now: Time, until: Time, rows: seq<Id>, picked: Option<Id>)
    requires Faithful(db)
    ensures Faithful(ClaimDb(db, worker, now, until, rows, picked))
  {
    var swept := db.(jobs := SweptJobs(db.jobs, now));
    forall p ensures Replay(swept.log, p) == Some(CurrentRow(swept, p)) {
      assert Replay(db.log, p) == Some(CurrentRow(db, p));
    }
    SweepProjectsFaithful(swept, rows);
    var moved := SweepProjects(swept, rows);
    var next := ClaimDb(db, worker, now, until, rows, picked);
    forall p ensures Replay(next.log, p) == Some(CurrentRow(next, p)) {
      assert Replay(moved.log, p) == Some(CurrentRow(moved, p));
    }
  }

  lemma MoveFaithful(db: Db, op: Op)
    requires Faithful(db) && (op.MoveProject? || op.MoveExecution? || op.MoveDelivery?)
    ensures Faithful(Step(db, op))
  {
    var next := Step(db, op);
    if op.p in db.projects && next != db {
      var entry := next.log[|db.log|];
      LoggedFaithful(db, next, entry, None);
    }
  }

  /** Nothing logged, nothing moved, at most one event that is not a state change. */
  lemma QuietFaithful(db: Db, next: Db, events: seq<Event>)
    requires Faithful(db)
    requires next.log == db.log
    requires next.outbox == db.outbox + events
    requires events == [] || (|events| == 1 && !events[0].StateChanged?)
    requires forall p :: CurrentRow(next, p) == CurrentRow(db, p)
    ensures Faithful(next)
  {
    if events == [] {
      assert next.outbox == db.outbox;
    } else {
      assert events == [events[0]];
      AnnouncedAppend(db.outbox, events[0]);
    }
    forall p ensures Replay(next.log, p) == Some(CurrentRow(next, p)) {
      assert Replay(db.log, p) == Some(CurrentRow(db, p));
    }
  }

  /** The events of an operation that moves no state surface. */
  function QuietEvents(db: Db, op: Op): seq<Event> {
    var next := Step(db, op);
    if |next.outbox| > |db.outbox| then [next.outbox[|db.outbox|]] else []
  }

  lemma QuietStep(db: Db, op: Op)
    requires Legal(db, op)
    requires !(op.MoveProject? || op.MoveExecution? || op.MoveDelivery? || op.ClaimJob?)
    ensures var next, events := Step(db, op), QuietEvents(db, op);
            && next.log == db.log
            && next.outbox == db.outbox + events
            && (events == [] || (|events| == 1 && !events[0].StateChanged?))
            && forall p :: CurrentRow(next, p) == CurrentRow(db, p)
  {
  }

  /** In every reachable state the log replays to every project's current row, every entry is in the
      tables (the claim's direct SQL sweep included), and the outbox announces each entry once. */
  lemma {:induction false} LogIsFaithful(run: Run, n: nat)
    requires n <= |run.ops|
    ensures Faithful(run.dbs[n])
  {
    if n > 0 {
      LogIsFaithful(run, n - 1);
      TakeStep(run, n - 1);
      var db, op := run.dbs[n - 1], run.ops[n - 1];
      if op.MoveProject? || op.MoveExecution? || op.MoveDelivery? {
        MoveFaithful(db, op);
      } else if op.ClaimJob? {
        ClaimFaithful(db, op.worker, op.now, op.until, op.rows, op.picked);
      } else {
        QuietStep(db, op);
        QuietFaithful(db, Step(db, op), QuietEvents(db, op));
      }
    }
  }

  function DeliveryMoves(log: seq<LogEntry>, p: Id): nat {
    if log == [] then 0
    else
      var last := log[|log| - 1];
      DeliveryMoves(log[..|log| - 1], p) + if last.DeliveryMoved? && last.p == p then 1 else 0
  }

  lemma {:induction false} MovesWithinRank(log: seq<LogEntry>, p: Id)
    requires Replay(log, p).Some?
    ensures DeliveryMoves(log, p) <= DeliveryRank(Replay(log, p).value.delivery)
  {
    if log != [] {
      MovesWithinRank(log[..|log| - 1], p);
    }
  }

  /** A project's delivery surface moves at most five times in any run. */
  lemma AtMostFiveDeliveryMoves(run: Run, n: nat, p: Id)
    requires n <= |run.ops|
    ensures DeliveryMoves(run.dbs[n].log, p) <= 5
  {
    LogIsFaithful(run, n);
    MovesWithinRank(run.dbs[n].log, p);
  }

  lemma {:induction false} SweepKeepsOtherSurfaces(db: Db, rows: seq<Id>, p: Id)
    requires p in db.projects
    ensures SweepProjects(db, rows).projects[p].delivery == db.projects[p].delivery
    ensures SweepProjects(db, rows).projects[p].project == db.projects[p].project
  {
    if rows != [] {
      SweepKeepsOtherSurfaces(db, rows[..|rows| - 1], p);
    }
  }

  /** CLOSED stays CLOSED through one step, on both surfaces that have it. */
  lemma ClosedStays(db: Db, op: Op, p: Id)
    requires p in db.projects
    ensures var next := Step(db, op);
            && p in next.projects
            && (db.projects[p].delivery == DeliveryClosed ==> next.projects[p].delivery == DeliveryClosed)
            && (db.projects[p].project == ProjectClosed ==> next.projects[p].project == ProjectClosed)
  {
    if op.ClaimJob? {
      SweepKeepsOtherSurfaces(db.(jobs := SweptJobs(db.jobs, op.now)), op.rows, p);
    }
  }

  /** CLOSED is final on both surfaces that have it. */
  lemma {:induction false} ClosedIsFinal(run: Run, i: nat, k: nat, p: Id)
    requires i <= k <= |run.ops| && p in run.dbs[i].projects
    ensures p in run.dbs[k].projects
    ensures run.dbs[i].projects[p].delivery == DeliveryClosed ==> run.dbs[k].projects[p].delivery == DeliveryClosed
    ensures run.dbs[i].projects[p].project == ProjectClosed ==> run.dbs[k].projects[p].project == ProjectClosed
    decreases k
  {
    if i < k {
      ClosedIsFinal(run, i, k - 1, p);
      TakeStep(run, k - 1);
      ClosedStays(run.dbs[k - 1], run.ops[k - 1], p);
    }
  }
}
