/** What a run of execute does and reports, read off the trace of its calls and their replies alone. */
module ExecuteOutcomes {
  import opened Common
  import opened Payloads
  import opened Platform
  import opened Readback
  import opened ReadbackOutcomes
  import opened Traces
  import opened Execution

  // ----- what a create response says -----

  predicate Positive(f: IdField) {
    f.Numeric? && f.n > 0
  }

  predicate Numbers(fields: seq<IdField>) {
    forall i :: 0 <= i < |fields| ==> fields[i] != NotNumeric
  }

  predicate Positives(fields: seq<IdField>) {
    forall i :: 0 <= i < |fields| ==> Positive(fields[i])
  }

  /** It has one campaign of positive id with one unit. */
  predicate OneUnit(rows: seq<CascadeRow>) {
    |rows| == 1 && Positive(rows[0].campaign) && |rows[0].units| == 1
  }

  /** It names one campaign, one unit and its creatives, all by positive ids. */
  predicate Names(rows: seq<CascadeRow>) {
    OneUnit(rows) && Positive(rows[0].units[0].id)
    && rows[0].units[0].creativities != [] && Positives(rows[0].units[0].creativities)
  }

  /** An id that had to be read is not a number. */
  predicate Unreadable(rows: seq<CascadeRow>) {
    || (|rows| == 1 && rows[0].campaign == NotNumeric)
    || (OneUnit(rows) && (rows[0].units[0].id == NotNumeric || !Numbers(rows[0].units[0].creativities)))
  }

  /** Every id could be read, and they do not say what was created. */
  predicate Unclear(rows: seq<CascadeRow>) {
    !Names(rows) && !Unreadable(rows)
  }

  function Named(rows: seq<CascadeRow>): ObjectIds
    requires Names(rows)
  {
    var unit := rows[0].units[0];
    ObjectIds(rows[0].campaign.n, unit.id.n,
              seq(|unit.creativities|, i requires 0 <= i < |unit.creativities| => unit.creativities[i].n))
  }

  lemma {:induction false} IntsAreExact(fields: seq<IdField>)
    ensures Ints(fields).Some? <==> Numbers(fields)
    ensures Ints(fields).Some? ==> (AllPositive(Ints(fields).value) <==> Positives(fields))
  {
    if fields != [] {
      IntsAreExact(fields[1..]);
      assert fields == [fields[0]] + fields[1..];
      assert Numbers(fields) <==> fields[0] != NotNumeric && Numbers(fields[1..]);
      assert Positives(fields) <==> Positive(fields[0]) && Positives(fields[1..]);
      if Ints(fields).Some? {
        assert Ints(fields).value[1..] == Ints(fields[1..]).value;
        assert AllPositive(Ints(fields).value)
          <==> Ints(fields).value[0] > 0 && AllPositive(Ints(fields).value[1..]);
      }
    }
  }

  lemma NamedIsTheResponse(rows: seq<CascadeRow>)
    requires Names(rows)
    ensures PositiveIds(Named(rows)) && rows == ResponseFor(Named(rows))
  {
    assert rows == [rows[0]] && rows[0].units == [rows[0].units[0]];
    assert Numerics(Named(rows).creativities) == rows[0].units[0].creativities;
  }

  lemma RepliesAreExact(rows: seq<CascadeRow>)
    ensures ExtractIds(rows).Extracted? <==> Names(rows)
    ensures Names(rows) ==> CreatedIds(rows) == Named(rows)
    ensures ExtractIds(rows).Malformed? <==> Unreadable(rows)
    ensures ExtractIds(rows).Ambiguous? <==> Unclear(rows)
  {
    if |rows| == 1 && |rows[0].units| == 1 {
      IntsAreExact(rows[0].units[0].creativities);
      if rows[0].units[0].creativities != [] {
        assert Positives(rows[0].units[0].creativities) ==> Numbers(rows[0].units[0].creativities);
      }
    }
    if Names(rows) {
      NamedIsTheResponse(rows);
      ExtractionIsExact(rows, Named(rows));
    }
  }

  // ----- what the calls from one create on say -----

  /** The platform may have created something without saying what. */
  predicate CreateUnclear(t: seq<Call>, c: nat)
    requires c < |t| && t[c].Create?
  {
    t[c].created == Refused(TransportError) || (t[c].created.Answer? && Unclear(t[c].created.value))
  }

  predicate CreateRefused(t: seq<Call>, c: nat)
    requires c < |t| && t[c].Create?
  {
    t[c].created.Refused? && t[c].created.code != TransportError
  }

  predicate CreateNamed(t: seq<Call>, c: nat) {
    c < |t| && t[c].Create? && t[c].created.Answer? && Names(t[c].created.value)
  }

  function IdsAt(t: seq<Call>, c: nat): ObjectIds
    requires CreateNamed(t, c)
  {
    Named(t[c].created.value)
  }

  /** The next call pauses exactly the campaign that was created. */
  predicate PausedNext(t: seq<Call>, c: nat) {
    CreateNamed(t, c) && c + 1 < |t| && t[c + 1].SetStatus? && !t[c + 1].enable
    && t[c + 1].ids == [IdsAt(t, c).campaign]
  }

  predicate PauseAcknowledged(t: seq<Call>, c: nat) {
    PausedNext(t, c) && t[c + 1].acknowledged.Answer? && IdsAt(t, c).campaign in t[c + 1].acknowledged.value
  }

  // ----- what the queries of a readback say -----

  /** From position q on, the campaign, then its unit, then the creatives are asked for, by exactly these ids. */
  predicate AsksCampaign(t: seq<Call>, q: nat, ids: ObjectIds) {
    q < |t| && t[q].ListCampaigns? && t[q].ids == [ids.campaign] && t[q].name == None
  }

  predicate AsksUnit(t: seq<Call>, q: nat, ids: ObjectIds) {
    AsksCampaign(t, q, ids) && t[q].campaigns.Answer? && q + 1 < |t| && t[q + 1].ListUnits?
    && t[q + 1].ids == [ids.group] && t[q + 1].campaign == None
  }

  predicate AsksCreatives(t: seq<Call>, q: nat, ids: ObjectIds) {
    AsksUnit(t, q, ids) && t[q + 1].units.Answer? && q + 2 < |t| && t[q + 2].SearchCreatives?
    && t[q + 2].ids == ids.creativities && t[q + 2].group == None
  }

  predicate AllAnswered(t: seq<Call>, q: nat, ids: ObjectIds) {
    AsksCreatives(t, q, ids) && t[q + 2].creatives.Answer?
  }

  predicate QueryRefused(t: seq<Call>, q: nat, ids: ObjectIds) {
    || (AsksCampaign(t, q, ids) && t[q].campaigns.Refused?)
    || (AsksUnit(t, q, ids) && t[q + 1].units.Refused?)
    || (AsksCreatives(t, q, ids) && t[q + 2].creatives.Refused?)
  }

  predicate QueryBroken(t: seq<Call>, q: nat, ids: ObjectIds) {
    || (AsksCampaign(t, q, ids) && t[q].campaigns.Broken?)
    || (AsksUnit(t, q, ids) && t[q + 1].units.Broken?)
    || (AsksCreatives(t, q, ids) && t[q + 2].creatives.Broken?)
  }

  predicate CompareRaises(t: seq<Call>, q: nat, p: Payload, ids: ObjectIds) {
    AllAnswered(t, q, ids) && Raises(p, ids, t[q + 1].units.value, t[q + 2].creatives.value)
  }

  ghost predicate ReadClean(t: seq<Call>, q: nat, p: Payload, ids: ObjectIds) {
    AllAnswered(t, q, ids) && Clean(p, ids, t[q].campaigns.value, t[q + 1].units.value, t[q + 2].creatives.value)
  }

  /** The readback could not be made, or raised. */
  predicate ReadBroken(t: seq<Call>, q: nat, p: Payload, ids: ObjectIds) {
    QueryBroken(t, q, ids) || CompareRaises(t, q, p, ids)
  }

  /** The readback was refused, or what was read is not what was asked for. */
  ghost predicate ReadMismatch(t: seq<Call>, q: nat, p: Payload, ids: ObjectIds) {
    QueryRefused(t, q, ids)
    || (AllAnswered(t, q, ids) && !CompareRaises(t, q, p, ids) && !ReadClean(t, q, p, ids))
  }

  /** What the queries say is what the evidence of the readback says. */
  ghost predicate ProbeSaid(t: seq<Call>, q: nat, p: Payload, ids: ObjectIds, probe: Probe) {
    && (ProbeRaises(p, ids, probe) <==> ReadBroken(t, q, p, ids))
    && (ProbeClean(p, ids, probe) <==> ReadClean(t, q, p, ids))
    && (!ProbeRaises(p, ids, probe) && !ProbeClean(p, ids, probe) <==> ReadMismatch(t, q, p, ids))
    && !(ReadBroken(t, q, p, ids) && ReadClean(t, q, p, ids))
  }

  /** The queries of the probe stand in t from q on. */
  predicate Queries(t: seq<Call>, q: nat, ids: ObjectIds, probe: Probe) {
    && ProbeWellFormed(probe) && q + |ProbeCalls(ids, probe)| <= |t|
    && t[q..q + |ProbeCalls(ids, probe)|] == ProbeCalls(ids, probe)
  }

  lemma QueryStands(t: seq<Call>, q: nat, ids: ObjectIds, probe: Probe)
    requires Queries(t, q, ids, probe)
    ensures var calls := ProbeCalls(ids, probe);
            && t[q] == calls[0] && (|calls| > 1 ==> t[q + 1] == calls[1]) && (|calls| > 2 ==> t[q + 2] == calls[2])
  {
    var calls := ProbeCalls(ids, probe);
    forall k | 0 <= k < |calls| ensures t[q + k] == calls[k] {
      assert t[q..q + |calls|][k] == t[q + k];
    }
  }

  /** One query leads to the next as long as they are answered. */
  predicate AsksOn(t: seq<Call>, q: nat, ids: ObjectIds) {
    && AsksCampaign(t, q, ids)
    && (t[q].campaigns.Answer? ==> AsksUnit(t, q, ids) && (t[q + 1].units.Answer? ==> AsksCreatives(t, q, ids)))
  }

  lemma SilenceSays(t: seq<Call>, q: nat, p: Payload, ids: ObjectIds, probe: Probe)
    requires Queries(t, q, ids, probe) && !probe.Probed?
    ensures ProbeSaid(t, q, p, ids, probe) && AsksOn(t, q, ids) && !AllAnswered(t, q, ids)
  {
    QueryStands(t, q, ids, probe);
    assert !AllAnswered(t, q, ids);
  }

  lemma AnswersSay(t: seq<Call>, q: nat, ids: ObjectIds, probe: Probe)
    requires Queries(t, q, ids, probe) && probe.Probed?
    ensures AllAnswered(t, q, ids) && !QueryRefused(t, q, ids) && !QueryBroken(t, q, ids) && AsksOn(t, q, ids)
    ensures t[q].campaigns.value == probe.campaigns
    ensures t[q + 1].units.value == probe.units && t[q + 2].creatives.value == probe.creatives
  {
    QueryStands(t, q, ids, probe);
  }

  lemma ProbeSays(t: seq<Call>, q: nat, p: Payload, ids: ObjectIds, probe: Probe)
    requires Queries(t, q, ids, probe) && AllPositive(ids.creativities)
    ensures ProbeSaid(t, q, p, ids, probe) && AsksOn(t, q, ids)
  {
    if probe.Probed? {
      AnswersSay(t, q, ids, probe);
      RaisesExactly(p, ids, probe.campaigns, probe.units, probe.creatives);
      VerdictIsExact(p, ids, probe.campaigns, probe.units, probe.creatives);
    } else {
      SilenceSays(t, q, p, ids, probe);
    }
  }

  /** The create at c was answered with usable ids, its campaign's pause acknowledged, and what was read back is
      what was asked for, paused. */
  ghost predicate CleanTurn(t: seq<Call>, c: nat) {
    PauseAcknowledged(t, c) && ReadClean(t, c + 2, t[c].payload, IdsAt(t, c))
  }

  // ----- where turns stand in a trace -----

  lemma {:induction false} InSomeBlock(blocks: seq<Block>, k: nat) returns (i: nat)
    requires k < |Flatten(blocks)|
    ensures i < |blocks| && Start(blocks, i) <= k < Start(blocks, i + 1)
  {
    var n := |blocks| - 1;
    assert blocks[..n + 1] == blocks;
    if k < |Flatten(blocks[..n])| {
      i := InSomeBlock(blocks[..n], k);
      assert blocks[..n][..i] == blocks[..i] && blocks[..n][..i + 1] == blocks[..i + 1];
    } else {
      i := n;
    }
  }

  /** Turn i of the run stands in t from position c on. */
  predicate TurnAt(t: seq<Call>, c: nat, plan: Plan, a: Attempt) {
    c + |AttemptCalls(plan, a)| <= |t| && t[c..c + |AttemptCalls(plan, a)|] == AttemptCalls(plan, a)
  }

  lemma TurnStands(plans: seq<Plan>, attempts: seq<Attempt>, lock: Option<LockRun>, i: nat)
    requires i < |attempts| <= |plans|
    ensures TurnAt(ExecuteTrace(plans, attempts, lock), CreateAt(plans, attempts, i), plans[i], attempts[i])
    ensures CreateAt(plans, attempts, i) + |AttemptCalls(plans[i], attempts[i])| == CreateAt(plans, attempts, i + 1)
  {
    BlockIs(plans, attempts, i);
    AttemptInPlace(plans, attempts, lock, i);
  }

  lemma LockCreatesNothing(lock: Option<LockRun>)
    ensures forall k :: 0 <= k < |LockBlock(lock)| ==> !LockBlock(lock)[k].Create?
  {
  }

  lemma OnlyFirstCreates(calls: seq<Call>)
    requires calls != [] && LedBy(calls, calls[0])
    ensures forall k :: 0 < k < |calls| ==> !calls[k].Create?
  {
    forall k | 0 < k < |calls| ensures !calls[k].Create? {
      assert calls[k] == calls[1..][k - 1];
    }
  }

  /** Among calls that stand in t from position `from` on, only the first can be a create. */
  lemma CreateStandsFirst(t: seq<Call>, from: nat, calls: seq<Call>, c: nat)
    requires calls != [] && LedBy(calls, calls[0])
    requires from <= c < from + |calls| <= |t| && t[from..from + |calls|] == calls && t[c].Create?
    ensures c == from
  {
    OnlyFirstCreates(calls);
    assert t[c] == t[from..from + |calls|][c - from];
  }

  lemma TurnIndex(plans: seq<Plan>, attempts: seq<Attempt>, lock: Option<LockRun>, c: nat) returns (i: nat)
    requires |attempts| <= |plans| && c < |ExecuteTrace(plans, attempts, lock)|
    requires ExecuteTrace(plans, attempts, lock)[c].Create?
    ensures i < |attempts| && CreateAt(plans, attempts, i) <= c < CreateAt(plans, attempts, i + 1)
  {
    var t, body := ExecuteTrace(plans, attempts, lock), Flatten(Blocks(plans, attempts));
    LockCreatesNothing(lock);
    assert c <= |body|;
    i := InSomeBlock(Blocks(plans, attempts), c - 1);
  }

  /** Every create opens the turn of one plan. */
  lemma CreateOpensTurn(plans: seq<Plan>, attempts: seq<Attempt>, lock: Option<LockRun>, c: nat) returns (i: nat)
    requires |attempts| <= |plans| && c < |ExecuteTrace(plans, attempts, lock)|
    requires ExecuteTrace(plans, attempts, lock)[c].Create?
    ensures i < |attempts| && c == CreateAt(plans, attempts, i)
    ensures TurnAt(ExecuteTrace(plans, attempts, lock), c, plans[i], attempts[i])
  {
    i := TurnIndex(plans, attempts, lock, c);
    TurnStands(plans, attempts, lock, i);
    CreateStandsFirst(ExecuteTrace(plans, attempts, lock), CreateAt(plans, attempts, i),
                      AttemptCalls(plans[i], attempts[i]), c);
  }

  /** The closing relock stands right behind the last turn. */
  lemma LockStands(plans: seq<Plan>, attempts: seq<Attempt>, lock: LockRun)
    requires 0 < |attempts| <= |plans|
    ensures var t, n := ExecuteTrace(plans, attempts, Some(lock)), CreateAt(plans, attempts, |attempts|);
            n < |t| && t[n..] == LockCalls(lock) && t[n].Relock?
  {
    var blocks := Blocks(plans, attempts);
    assert blocks[..|attempts|] == blocks;
  }

  // ----- what a turn's calls are, case by case -----

  lemma CreateFailedCalls(t: seq<Call>, c: nat, plan: Plan, r: Reply<seq<CascadeRow>>)
    requires TurnAt(t, c, plan, CreateFailed(r)) && AttemptWellFormed(CreateFailed(r))
    ensures c < |t| && t[c] == Create(plan.payload, r) && !CreateNamed(t, c)
    ensures CreateUnclear(t, c) || CreateRefused(t, c) || r.Broken? || (r.Answer? && Unreadable(r.value))
  {
    assert t[c] == t[c..c + 1][0];
    if r.Answer? {
      RepliesAreExact(r.value);
    }
  }

  lemma PauseFailedCalls(t: seq<Call>, c: nat, plan: Plan, rows: seq<CascadeRow>, r: Reply<seq<int>>)
    requires TurnAt(t, c, plan, PauseFailed(rows, r)) && AttemptWellFormed(PauseFailed(rows, r))
    ensures CreateNamed(t, c) && t[c] == Create(plan.payload, Answer(rows)) && PausedNext(t, c)
    ensures t[c + 1].acknowledged == r && !PauseAcknowledged(t, c)
  {
    RepliesAreExact(rows);
    var calls := t[c..c + 2];
    assert t[c] == calls[0] && t[c + 1] == calls[1];
  }

  lemma PausedThenCalls(t: seq<Call>, c: nat, plan: Plan, rows: seq<CascadeRow>, ack: seq<int>, probe: Probe)
    requires TurnAt(t, c, plan, PausedThen(rows, ack, probe)) && AttemptWellFormed(PausedThen(rows, ack, probe))
    ensures CreateNamed(t, c) && t[c] == Create(plan.payload, Answer(rows)) && PauseAcknowledged(t, c)
    ensures IdsAt(t, c) == CreatedIds(rows) && PositiveIds(IdsAt(t, c))
    ensures c + 2 + |ProbeCalls(CreatedIds(rows), probe)| <= |t|
    ensures t[c + 2..c + 2 + |ProbeCalls(CreatedIds(rows), probe)|] == ProbeCalls(CreatedIds(rows), probe)
  {
    RepliesAreExact(rows);
    NamedIsTheResponse(rows);
    var tail := ProbeCalls(CreatedIds(rows), probe);
    var calls := t[c..c + 2 + |tail|];
    assert t[c] == calls[0] && t[c + 1] == calls[1];
    assert t[c + 2..c + 2 + |tail|] == calls[2..];
  }

  // ----- the status of a run -----

  /** What each status says about the calls from the last create on. */
  ghost predicate Says(status: BatchStatus, t: seq<Call>, c: nat)
    requires c < |t| && t[c].Create?
  {
    && (status == VerifiedPaused <==> CleanTurn(t, c))
    && (status == BatchReconcileRequired <==> CreateUnclear(t, c))
    && (status == BatchFailedTerminal <==> CreateRefused(t, c))
    && (status == BatchPauseFailed <==> CreateNamed(t, c) && !PauseAcknowledged(t, c))
    && (status == BatchReadbackMismatch
        <==> PauseAcknowledged(t, c) && ReadMismatch(t, c + 2, t[c].payload, IdsAt(t, c)))
    && (status == BatchRecoveryRequired
        <==> || t[c].created.Broken? || (t[c].created.Answer? && Unreadable(t[c].created.value))
             || (PauseAcknowledged(t, c) && ReadBroken(t, c + 2, t[c].payload, IdsAt(t, c))))
    && status !in {BatchRelockFailed, ReconciledVerifiedPaused, ReconciledNotCreated}
  }

  lemma QueriesFollow(t: seq<Call>, c: nat, plan: Plan, a: Attempt)
    requires a.PausedThen? && TurnAt(t, c, plan, a) && AttemptWellFormed(a)
    ensures PauseAcknowledged(t, c) && t[c].payload == plan.payload && IdsAt(t, c) == CreatedIds(a.created)
    ensures Queries(t, c + 2, IdsAt(t, c), a.probe) && AllPositive(IdsAt(t, c).creativities)
    ensures ProbeSaid(t, c + 2, plan.payload, IdsAt(t, c), a.probe) && AsksOn(t, c + 2, IdsAt(t, c))
  {
    PausedThenCalls(t, c, plan, a.created, a.acknowledged, a.probe);
    ProbeSays(t, c + 2, plan.payload, IdsAt(t, c), a.probe);
  }

  lemma CreateFailedSays(t: seq<Call>, c: nat, plan: Plan, r: Reply<seq<CascadeRow>>)
    requires TurnAt(t, c, plan, CreateFailed(r)) && AttemptWellFormed(CreateFailed(r))
    ensures c < |t| && t[c].Create? && t[c].payload == plan.payload && !PauseAcknowledged(t, c)
    ensures Says(FailureStatus(plan, CreateFailed(r)), t, c)
  {
    CreateFailedCalls(t, c, plan, r);
    if r.Answer? {
      RepliesAreExact(r.value);
    }
  }

  lemma PauseFailedSays(t: seq<Call>, c: nat, plan: Plan, rows: seq<CascadeRow>, r: Reply<seq<int>>)
    requires TurnAt(t, c, plan, PauseFailed(rows, r)) && AttemptWellFormed(PauseFailed(rows, r))
    ensures c < |t| && t[c].Create? && t[c].payload == plan.payload && !PauseAcknowledged(t, c)
    ensures Says(FailureStatus(plan, PauseFailed(rows, r)), t, c)
  {
    PauseFailedCalls(t, c, plan, rows, r);
  }

  lemma PausedThenSays(t: seq<Call>, c: nat, plan: Plan, a: Attempt)
    requires a.PausedThen? && TurnAt(t, c, plan, a) && AttemptWellFormed(a)
    ensures c < |t| && t[c].Create? && t[c].payload == plan.payload
    ensures Verified(plan, a) <==> CleanTurn(t, c)
    ensures Says(if Verified(plan, a) then VerifiedPaused else FailureStatus(plan, a), t, c)
  {
    QueriesFollow(t, c, plan, a);
  }

  lemma TurnSays(t: seq<Call>, c: nat, plan: Plan, a: Attempt)
    requires TurnAt(t, c, plan, a) && AttemptWellFormed(a)
    ensures c < |t| && t[c].Create? && t[c].payload == plan.payload
    ensures Verified(plan, a) <==> CleanTurn(t, c)
    ensures Says(if Verified(plan, a) then VerifiedPaused else FailureStatus(plan, a), t, c)
  {
    match a
    case CreateFailed(r) => CreateFailedSays(t, c, plan, r);
    case PauseFailed(rows, r) => PauseFailedSays(t, c, plan, rows, r);
    case PausedThen(_, _, _) => PausedThenSays(t, c, plan, a);
  }

  predicate LastCreate(t: seq<Call>, c: nat) {
    c < |t| && t[c].Create? && forall k :: c < k < |t| ==> !t[k].Create?
  }

  /** The relock was answered, and the lock then confirmed. */
  predicate LockedAtEnd(t: seq<Call>) {
    |t| >= 2 && t[|t| - 2].Relock? && t[|t| - 2].receipt.Answer? && t[|t| - 1] == VerifyLocked(Answer(true))
  }

  lemma TurnOpens(plans: seq<Plan>, attempts: seq<Attempt>, lock: Option<LockRun>, i: nat)
    requires i < |attempts| <= |plans|
    ensures CreateAt(plans, attempts, i) < |ExecuteTrace(plans, attempts, lock)|
    ensures ExecuteTrace(plans, attempts, lock)[CreateAt(plans, attempts, i)].Create?
  {
    TurnStands(plans, attempts, lock, i);
    OpensAt(ExecuteTrace(plans, attempts, lock), CreateAt(plans, attempts, i), AttemptCalls(plans[i], attempts[i]));
  }

  lemma OpensAt(t: seq<Call>, from: nat, calls: seq<Call>)
    requires calls != [] && calls[0].Create? && from + |calls| <= |t| && t[from..from + |calls|] == calls
    ensures t[from].Create?
  {
    assert t[from] == t[from..from + |calls|][0];
  }

  lemma LastTurn(plans: seq<Plan>, attempts: seq<Attempt>, lock: Option<LockRun>, c: nat)
    requires |attempts| <= |plans| && LastCreate(ExecuteTrace(plans, attempts, lock), c)
    ensures attempts != [] && c == CreateAt(plans, attempts, |attempts| - 1)
  {
    var i := CreateOpensTurn(plans, attempts, lock, c);
    var n := |attempts| - 1;
    TurnOpens(plans, attempts, lock, n);
    StartsGrow(Blocks(plans, attempts), i, n);
  }

  lemma LockIsTold(plans: seq<Plan>, attempts: seq<Attempt>, lock: LockRun)
    requires 0 < |attempts| <= |plans| && LockWellFormed(lock)
    ensures Locked(lock) <==> LockedAtEnd(ExecuteTrace(plans, attempts, Some(lock)))
  {
    var t, n := ExecuteTrace(plans, attempts, Some(lock)), CreateAt(plans, attempts, |attempts|);
    LockStands(plans, attempts, lock);
    assert t[|t| - 1] == t[n..][|t| - 1 - n];
    if lock.RelockAnswered? {
      assert t[|t| - 2] == t[n..][|t| - 2 - n];
    }
  }

  lemma AttemptsAreWellFormed(plans: seq<Plan>, attempts: seq<Attempt>, lock: Option<LockRun>, outcome: Outcome,
                              i: nat)
    requires ExecuteShape(plans, attempts, lock, outcome) && i < |attempts| <= |plans|
    ensures AttemptWellFormed(attempts[i]) && Intact(plans[i])
    ensures i < |attempts| - 1 ==> Verified(plans[i], attempts[i])
  {
    if outcome.Returned? {
      var good := GoodTurns(plans, attempts);
      if i < good {
        assert GoodTurn(plans[i], attempts[i], outcome.receipt.receipts[i]);
      } else {
        assert BadTurn(plans[i], attempts[i], outcome.receipt.receipts[i]);
      }
    }
  }

  /** Every status of a run that returns is exact, read off its calls: RELOCK_FAILED says that the lock was not
      confirmed at the end, and otherwise the status says how the turn of the last create went.
      RECONCILE_REQUIRED says that this create was refused by a transport error or answered without saying what
      was created; FAILED_TERMINAL, that it was refused in any other way; PAUSE_FAILED, that it named its objects
      and their pause was not acknowledged; READBACK_MISMATCH, that a query was refused or what was read is not
      what was asked for; RECOVERY_REQUIRED, that the create, a query or the comparison broke. */
  lemma ExecuteStatusIsExact(plans: seq<Plan>, attempts: seq<Attempt>, lock: Option<LockRun>, r: BatchReceipt, c: nat)
    requires ExecuteShape(plans, attempts, lock, Returned(r)) && |attempts| <= |plans|
    requires LastCreate(ExecuteTrace(plans, attempts, lock), c)
    ensures r.lockVerified <==> LockedAtEnd(ExecuteTrace(plans, attempts, lock))
    ensures r.status == BatchRelockFailed <==> !r.lockVerified
    ensures r.lockVerified ==> Says(r.status, ExecuteTrace(plans, attempts, lock), c)
  {
    var n := |attempts| - 1;
    LastTurn(plans, attempts, lock, c);
    LockIsTold(plans, attempts, lock.value);
    AttemptStands(plans, attempts, lock, Returned(r), n);
    TurnSays(ExecuteTrace(plans, attempts, lock), c, plans[n], attempts[n]);
  }

  /** A run that made any attempt has a last create. */
  lemma LastCreateExists(plans: seq<Plan>, attempts: seq<Attempt>, lock: Option<LockRun>) returns (c: nat)
    requires 0 < |attempts| <= |plans|
    ensures LastCreate(ExecuteTrace(plans, attempts, lock), c)
  {
    var t, n := ExecuteTrace(plans, attempts, lock), |attempts| - 1;
    c := CreateAt(plans, attempts, n);
    TurnOpens(plans, attempts, lock, n);
    forall k | c < k < |t| ensures !t[k].Create? {
      if t[k].Create? {
        var i := CreateOpensTurn(plans, attempts, lock, k);
        StartsGrow(Blocks(plans, attempts), i, n);
      }
    }
  }

  // ----- every create of a run -----

  /** The calls go on as they must: a create that names its objects is followed at once by the pause of exactly
      its campaign; an acknowledged pause by the queries for exactly its objects, one after the other as long
      as they are answered. */
  predicate GoesOn(t: seq<Call>, c: nat) {
    && (CreateNamed(t, c) ==> PausedNext(t, c))
    && (PauseAcknowledged(t, c) ==> AsksOn(t, c + 2, IdsAt(t, c)))
  }

  predicate IsHashed(plans: seq<Plan>, p: Payload) {
    exists i :: 0 <= i < |plans| && plans[i].payload == p && plans[i].payloadSha.content == p
  }

  lemma TurnGoesOn(t: seq<Call>, c: nat, plan: Plan, a: Attempt)
    requires TurnAt(t, c, plan, a) && AttemptWellFormed(a)
    ensures GoesOn(t, c)
  {
    match a
    case CreateFailed(r) => CreateFailedCalls(t, c, plan, r);
    case PauseFailed(rows, r) => PauseFailedCalls(t, c, plan, rows, r);
    case PausedThen(rows, ack, probe) =>
      QueriesFollow(t, c, plan, a);
  }

  /** All that is known about turn i of a run, with its place in t. */
  ghost predicate Stands(t: seq<Call>, c: nat, plan: Plan, a: Attempt, last: bool) {
    && TurnAt(t, c, plan, a) && AttemptWellFormed(a)
    && Intact(plan) && (last || Verified(plan, a))
  }

  lemma AttemptStands(plans: seq<Plan>, attempts: seq<Attempt>, lock: Option<LockRun>, outcome: Outcome, i: nat)
    requires ExecuteShape(plans, attempts, lock, outcome) && i < |attempts| <= |plans|
    ensures Stands(ExecuteTrace(plans, attempts, lock), CreateAt(plans, attempts, i), plans[i], attempts[i],
                   i == |attempts| - 1)
  {
    TurnStands(plans, attempts, lock, i);
    AttemptsAreWellFormed(plans, attempts, lock, outcome, i);
  }

  lemma StandingIsSettled(t: seq<Call>, c: nat, plan: Plan, a: Attempt, last: bool)
    requires Stands(t, c, plan, a, last)
    ensures c < |t| && t[c].Create? && t[c].payload == plan.payload && GoesOn(t, c) && (last || CleanTurn(t, c))
  {
    TurnSays(t, c, plan, a);
    TurnGoesOn(t, c, plan, a);
  }

  /** In every run, returned or raised: each create sends the hashed payload of a plan and goes on as it must;
      and one that another create follows was verified, call by call, before. */
  lemma CreatesAreSettled(plans: seq<Plan>, attempts: seq<Attempt>, lock: Option<LockRun>, outcome: Outcome, c: nat)
    requires ExecuteShape(plans, attempts, lock, outcome) && |attempts| <= |plans|
    requires c < |ExecuteTrace(plans, attempts, lock)| && ExecuteTrace(plans, attempts, lock)[c].Create?
    ensures IsHashed(plans, ExecuteTrace(plans, attempts, lock)[c].payload)
    ensures GoesOn(ExecuteTrace(plans, attempts, lock), c)
    ensures !LastCreate(ExecuteTrace(plans, attempts, lock), c) ==> CleanTurn(ExecuteTrace(plans, attempts, lock), c)
  {
    var t := ExecuteTrace(plans, attempts, lock);
    var i := CreateOpensTurn(plans, attempts, lock, c);
    AttemptStands(plans, attempts, lock, outcome, i);
    StandingIsSettled(t, c, plans[i], attempts[i], i == |attempts| - 1);
    if i == |attempts| - 1 {
      var last := LastCreateExists(plans, attempts, lock);
      LastTurn(plans, attempts, lock, last);
    }
  }

  // ----- the receipts of a run -----

  /** What went wrong in the turn, as a code. */
  predicate ErrorIs(t: seq<Call>, c: nat, code: ErrorCode)
    requires c < |t| && t[c].Create?
  {
    || t[c].created == Refused(code)
    || (t[c].created.Broken? && code == UnexpectedCreateError)
    || (t[c].created.Answer? && Unclear(t[c].created.value) && code == CreateResponseAmbiguous)
    || (t[c].created.Answer? && Unreadable(t[c].created.value) && code == UnexpectedCreateResponse)
    || (PausedNext(t, c) && t[c + 1].acknowledged == Refused(code))
    || (PausedNext(t, c) && t[c + 1].acknowledged.Broken? && code == UnexpectedPauseError)
    || (PausedNext(t, c) && t[c + 1].acknowledged.Answer? && !PauseAcknowledged(t, c)
        && code == PauseResponseMissingObject)
    || (PauseAcknowledged(t, c) && ReadErrorIs(t, c + 2, t[c].payload, IdsAt(t, c), code))
  }

  predicate ReadErrorIs(t: seq<Call>, q: nat, p: Payload, ids: ObjectIds, code: ErrorCode) {
    || (AsksCampaign(t, q, ids) && t[q].campaigns == Refused(code))
    || (AsksUnit(t, q, ids) && t[q + 1].units == Refused(code))
    || (AsksCreatives(t, q, ids) && t[q + 2].creatives == Refused(code))
    || (ReadBroken(t, q, p, ids) && code == UnexpectedReadbackError)
  }

  /** The receipt of a readback: exactly the differences that were read, or the one error that ended it. */
  ghost predicate ReadReceipt(t: seq<Call>, q: nat, plan: Plan, ids: ObjectIds, receipt: PlanReceipt) {
    if AllAnswered(t, q, ids) && !CompareRaises(t, q, plan.payload, ids) then DiffSays(t, q, plan, ids, receipt)
    else exists code :: ReadErrorIs(t, q, plan.payload, ids, code)
           && receipt == PlanReceipt(plan.revision, Some(ids), false, false, [PlatformError(code)])
  }

  ghost predicate DiffSays(t: seq<Call>, q: nat, plan: Plan, ids: ObjectIds, receipt: PlanReceipt)
    requires AllAnswered(t, q, ids)
  {
    var cs, us, rs := t[q].campaigns.value, t[q + 1].units.value, t[q + 2].creatives.value;
    && receipt.revision == plan.revision && receipt.ids == Some(ids)
    && (receipt.readbackVerified <==> Clean(plan.payload, ids, cs, us, rs))
    && (receipt.pauseVerified <==> PausedRows(cs, us, rs))
    && forall d :: d in receipt.diff <==> Reported(d, plan.payload, ids, cs, us, rs)
  }

  /** The receipt of a turn that created something and had it paused is that of its readback; any other names the
      plan, the objects if they are known, and the one error that ended the turn. */
  ghost predicate ReceiptSays(t: seq<Call>, c: nat, plan: Plan, receipt: PlanReceipt)
    requires c < |t| && t[c].Create?
  {
    if PauseAcknowledged(t, c) then ReadReceipt(t, c + 2, plan, IdsAt(t, c), receipt)
    else exists code :: ErrorIs(t, c, code)
           && receipt == PlanReceipt(plan.revision, if CreateNamed(t, c) then Some(IdsAt(t, c)) else None, false, false,
                                     [PlatformError(code)])
  }

  lemma UnpausedReceipt(t: seq<Call>, c: nat, plan: Plan, a: Attempt)
    requires !a.PausedThen? && TurnAt(t, c, plan, a) && AttemptWellFormed(a)
    ensures c < |t| && t[c].Create? && ReceiptSays(t, c, plan, AttemptReceipt(plan, a))
  {
    match a
    case CreateFailed(r) =>
      CreateFailedCalls(t, c, plan, r);
      if r.Answer? {
        RepliesAreExact(r.value);
      }
      assert ErrorIs(t, c, CreateCode(r));
    case PauseFailed(rows, r) =>
      PauseFailedCalls(t, c, plan, rows, r);
      RepliesAreExact(rows);
      assert ErrorIs(t, c, PauseCode(r));
  }

  /** The receipt a readback leaves behind, if it raises too. */
  function ReadOutcome(plan: Plan, ids: ObjectIds, probe: Probe): PlanReceipt {
    if ProbeRaises(plan.payload, ids, probe) then ErrorReceipt(plan, Some(ids), UnexpectedReadbackError)
    else ProbeReceipt(plan, ids, probe)
  }

  lemma SilentReceipt(t: seq<Call>, q: nat, plan: Plan, ids: ObjectIds, probe: Probe)
    requires Queries(t, q, ids, probe) && !probe.Probed?
    ensures ReadReceipt(t, q, plan, ids, ReadOutcome(plan, ids, probe))
  {
    QueryStands(t, q, ids, probe);
    SilenceSays(t, q, plan.payload, ids, probe);
    var reply := match probe
      case CampaignsSilent(r) => if r.Refused? then Some(r.code) else None
      case UnitsSilent(_, r) => if r.Refused? then Some(r.code) else None
      case CreativesSilent(_, _, r) => if r.Refused? then Some(r.code) else None;
    assert ReadErrorIs(t, q, plan.payload, ids, if reply.Some? then reply.value else UnexpectedReadbackError);
  }

  lemma AnsweredReceipt(t: seq<Call>, q: nat, plan: Plan, ids: ObjectIds, probe: Probe)
    requires Queries(t, q, ids, probe) && probe.Probed? && AllPositive(ids.creativities)
    requires !ProbeRaises(plan.payload, ids, probe)
    ensures AllAnswered(t, q, ids) && DiffSays(t, q, plan, ids, ProbeReceipt(plan, ids, probe))
  {
    AnswersSay(t, q, ids, probe);
    var diff := Differences(plan.payload, ids, probe.campaigns, probe.units, probe.creatives).value;
    VerdictIsExact(plan.payload, ids, probe.campaigns, probe.units, probe.creatives);
    PausedIsExact(probe.campaigns, probe.units, probe.creatives);
    forall d
      ensures d in diff <==> Reported(d, plan.payload, ids, probe.campaigns, probe.units, probe.creatives)
    {
      DiffIsExact(d, plan.payload, ids, probe.campaigns, probe.units, probe.creatives, diff);
    }
  }

  lemma ReadReceiptSays(t: seq<Call>, q: nat, plan: Plan, ids: ObjectIds, probe: Probe)
    requires Queries(t, q, ids, probe) && AllPositive(ids.creativities)
    ensures ReadReceipt(t, q, plan, ids, ReadOutcome(plan, ids, probe))
  {
    if !probe.Probed? {
      SilentReceipt(t, q, plan, ids, probe);
    } else {
      ProbeSays(t, q, plan.payload, ids, probe);
      AnswersSay(t, q, ids, probe);
      if !ProbeRaises(plan.payload, ids, probe) {
        AnsweredReceipt(t, q, plan, ids, probe);
      } else {
        assert ReadErrorIs(t, q, plan.payload, ids, UnexpectedReadbackError);
      }
    }
  }

  lemma TurnReceipt(t: seq<Call>, c: nat, plan: Plan, a: Attempt)
    requires TurnAt(t, c, plan, a) && AttemptWellFormed(a)
    ensures c < |t| && t[c].Create? && ReceiptSays(t, c, plan, AttemptReceipt(plan, a))
  {
    if a.PausedThen? {
      QueriesFollow(t, c, plan, a);
      ReadReceiptSays(t, c + 2, plan, IdsAt(t, c), a.probe);
    } else {
      UnpausedReceipt(t, c, plan, a);
    }
  }

  lemma GoodReceipt(plan: Plan, a: Attempt, r: PlanReceipt)
    requires GoodTurn(plan, a, r)
    ensures r == AttemptReceipt(plan, a)
  {
    var rows, probe := a.created, a.probe;
    VerdictIsExact(plan.payload, CreatedIds(rows), probe.campaigns, probe.units, probe.creatives);
  }

  lemma ReceiptIsOfAttempt(plans: seq<Plan>, attempts: seq<Attempt>, lock: Option<LockRun>, r: BatchReceipt, i: nat)
    requires ExecuteShape(plans, attempts, lock, Returned(r)) && i < |attempts| <= |plans|
    ensures i < |r.receipts| && r.receipts[i] == AttemptReceipt(plans[i], attempts[i])
  {
    if i < GoodTurns(plans, attempts) {
      assert GoodTurn(plans[i], attempts[i], r.receipts[i]);
      GoodReceipt(plans[i], attempts[i], r.receipts[i]);
    } else {
      assert BadTurn(plans[i], attempts[i], r.receipts[i]);
    }
  }

  /** Cut where block i starts, the trace has i creates. */
  lemma PrefixCreates(head: seq<Call>, blocks: seq<Block>, tail: seq<Call>, payloads: seq<Payload>, i: nat)
    requires i <= |blocks| && OneCreateEach(blocks, payloads) && Creates(head) == []
    ensures |head| + Start(blocks, i) <= |head + Flatten(blocks) + tail|
    ensures |Creates((head + Flatten(blocks) + tail)[..|head| + Start(blocks, i)])| == i
  {
    PrefixOfTrace(head, blocks, tail, i);
    CountsConcat(head, Flatten(blocks[..i]));
    FlattenCounts(blocks[..i], payloads);
  }

  lemma CreatesBefore(plans: seq<Plan>, attempts: seq<Attempt>, lock: Option<LockRun>, i: nat)
    requires i < |attempts| <= |plans|
    ensures CreateAt(plans, attempts, i) <= |ExecuteTrace(plans, attempts, lock)|
    ensures |Creates(ExecuteTrace(plans, attempts, lock)[..CreateAt(plans, attempts, i)])| == i
  {
    CountsNothing([Preflight(true)]);
    PrefixCreates([Preflight(true)], Blocks(plans, attempts), LockBlock(lock), PayloadsOf(plans), i);
  }

  lemma PrefixOfTrace(head: seq<Call>, blocks: seq<Block>, tail: seq<Call>, i: nat)
    requires i <= |blocks|
    ensures |head| + Start(blocks, i) <= |head + Flatten(blocks) + tail|
    ensures (head + Flatten(blocks) + tail)[..|head| + Start(blocks, i)] == head + Flatten(blocks[..i])
  {
    FlattenPrefix(blocks, i);
  }

  lemma {:induction false} FlattenPrefix(blocks: seq<Block>, i: nat)
    requires i <= |blocks|
    ensures Start(blocks, i) <= |Flatten(blocks)| && Flatten(blocks)[..Start(blocks, i)] == Flatten(blocks[..i])
  {
    if i == |blocks| {
      assert blocks[..i] == blocks;
    } else {
      FlattenPrefix(blocks[..|blocks| - 1], i);
      assert blocks[..|blocks| - 1][..i] == blocks[..i];
    }
  }

  lemma ReceiptOfTurn(plans: seq<Plan>, attempts: seq<Attempt>, lock: Option<LockRun>, r: BatchReceipt, i: nat, c: nat)
    requires ExecuteShape(plans, attempts, lock, Returned(r)) && i < |attempts| <= |plans|
    requires c == CreateAt(plans, attempts, i)
    ensures i < |r.receipts| <= |plans|
    ensures c < |ExecuteTrace(plans, attempts, lock)| && ExecuteTrace(plans, attempts, lock)[c].Create?
    ensures ReceiptSays(ExecuteTrace(plans, attempts, lock), c, plans[i], r.receipts[i])
  {
    AttemptStands(plans, attempts, lock, Returned(r), i);
    TurnReceipt(ExecuteTrace(plans, attempts, lock), c, plans[i], attempts[i]);
    ReceiptIsOfAttempt(plans, attempts, lock, r, i);
  }

  /** The receipts of a run that returns tell, create by create, what was named and what was read. */
  lemma ReceiptsAreTold(plans: seq<Plan>, attempts: seq<Attempt>, lock: Option<LockRun>, r: BatchReceipt, c: nat)
    requires ExecuteShape(plans, attempts, lock, Returned(r)) && |attempts| <= |plans|
    requires c < |ExecuteTrace(plans, attempts, lock)| && ExecuteTrace(plans, attempts, lock)[c].Create?
    ensures var t := ExecuteTrace(plans, attempts, lock);
            var k := |Creates(t[..c])|;
            k < |r.receipts| <= |plans| && ReceiptSays(t, c, plans[k], r.receipts[k])
  {
    var i := CreateOpensTurn(plans, attempts, lock, c);
    CreatesBefore(plans, attempts, lock, i);
    ReceiptOfTurn(plans, attempts, lock, r, i, c);
  }
}
