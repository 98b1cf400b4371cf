/** The artifacts table: INSERT OR IGNORE on (project, kind, input) keeps the first artifact of a key, so
    asking for a second one to be stored under it does nothing. */
module ArtifactRows {
  import opened Common
  import opened Payloads
  import opened Database

  predicate HasKey(a: Artifact, p: Id, kind: ArtifactKind, input: JobInput) {
    a.project == p && a.kind == kind && a.input == input
  }

  /** What is stored under a key. */
  function StoredUnder(artifacts: seq<Artifact>, p: Id, kind: ArtifactKind, input: JobInput): (r: Option<Artifact>)
    ensures r.Some? <==> ArtifactExists(artifacts, p, kind, input)
    ensures r.Some? ==> r.value in artifacts && HasKey(r.value, p, kind, input)
  {
    if artifacts == [] then None
    else if HasKey(artifacts[0], p, kind, input) then Some(artifacts[0])
    else StoredUnder(artifacts[1..], p, kind, input)
  }

  /** The unique index. */
  predicate KeysUnique(artifacts: seq<Artifact>) {
    forall i, k :: 0 <= i < k < |artifacts| ==>
      !HasKey(artifacts[k], artifacts[i].project, artifacts[i].kind, artifacts[i].input)
  }

  lemma {:induction false} StoredUnderAppend(artifacts: seq<Artifact>, last: Artifact, p: Id, kind: ArtifactKind,
                                             input: JobInput)
    ensures StoredUnder(artifacts + [last], p, kind, input)
         == if StoredUnder(artifacts, p, kind, input).Some? then StoredUnder(artifacts, p, kind, input)
            else if HasKey(last, p, kind, input) then Some(last) else None
  {
    if artifacts != [] {
      assert (artifacts + [last])[1..] == artifacts[1..] + [last];
      StoredUnderAppend(artifacts[1..], last, p, kind, input);
    }
  }

  /** No step appends an artifact under a key that is taken. */
  lemma OnlyNewKeys(db: Db, op: Op)
    requires Legal(db, op)
    ensures Step(db, op).artifacts == db.artifacts
            || (op.PutArtifact? && op.p in db.projects && !ArtifactExists(db.artifacts, op.p, op.artifactKind, op.input)
                && Step(db, op).artifacts
                     == db.artifacts + [Artifact(op.a, op.p, op.artifactKind, op.input, op.content, op.now)])
  {
  }

  lemma {:induction false} KeysAreUnique(run: Run, n: nat)
    requires n <= |run.ops|
    ensures KeysUnique(run.dbs[n].artifacts)
  {
    if n > 0 {
      KeysAreUnique(run, n - 1);
      TakeStep(run, n - 1);
      OnlyNewKeys(run.dbs[n - 1], run.ops[n - 1]);
    }
  }

  /** The first artifact of a key stays, whatever is put under it later. */
  lemma StoredStep(db: Db, op: Op, p: Id, kind: ArtifactKind, input: JobInput)
    requires Legal(db, op) && StoredUnder(db.artifacts, p, kind, input).Some?
    ensures StoredUnder(Step(db, op).artifacts, p, kind, input) == StoredUnder(db.artifacts, p, kind, input)
  {
    OnlyNewKeys(db, op);
    if Step(db, op).artifacts != db.artifacts {
      StoredUnderAppend(db.artifacts, Artifact(op.a, op.p, op.artifactKind, op.input, op.content, op.now), p, kind,
                        input);
    }
  }

  lemma {:induction false} StoredStays(run: Run, i: nat, k: nat, p: Id, kind: ArtifactKind, input: JobInput)
    requires i <= k <= |run.ops| && StoredUnder(run.dbs[i].artifacts, p, kind, input).Some?
    ensures StoredUnder(run.dbs[k].artifacts, p, kind, input) == StoredUnder(run.dbs[i].artifacts, p, kind, input)
    decreases k
  {
    if i < k {
      StoredStays(run, i, k - 1, p, kind, input);
      TakeStep(run, k - 1);
      StoredStep(run.dbs[k - 1], run.ops[k - 1], p, kind, input);
    }
  }

  /** The effect of one put on its own key. */
  lemma FirstPutWins(db: Db, op: Op)
    requires Legal(db, op) && op.PutArtifact? && op.p in db.projects
    ensures var before, after := StoredUnder(db.artifacts, op.p, op.artifactKind, op.input),
                                 StoredUnder(Step(db, op).artifacts, op.p, op.artifactKind, op.input);
            after == if before.Some? then before
                     else Some(Artifact(op.a, op.p, op.artifactKind, op.input, op.content, op.now))
  {
    OnlyNewKeys(db, op);
    if Step(db, op).artifacts != db.artifacts {
      StoredUnderAppend(db.artifacts, Artifact(op.a, op.p, op.artifactKind, op.input, op.content, op.now),
                        op.p, op.artifactKind, op.input);
    }
  }

  /** When a put really stores its content, for the rest of the run: exactly if nothing was stored under its
      key before, or the same content was. Otherwise the earlier content stays and this one is lost. */
  lemma PutStoresExactly(run: Run, i: nat, k: nat)
    requires i < k <= |run.ops| && run.ops[i].PutArtifact? && run.ops[i].p in run.dbs[i].projects
    ensures var op := run.ops[i];
            var before := StoredUnder(run.dbs[i].artifacts, op.p, op.artifactKind, op.input);
            var now := StoredUnder(run.dbs[k].artifacts, op.p, op.artifactKind, op.input);
            && now.Some?
            && (now.value.content == op.content <==> before.None? || before.value.content == op.content)
            && (before.Some? ==> now == before)
  {
    var op := run.ops[i];
    TakeStep(run, i);
    FirstPutWins(run.dbs[i], op);
    StoredStays(run, i + 1, k, op.p, op.artifactKind, op.input);
  }
}
