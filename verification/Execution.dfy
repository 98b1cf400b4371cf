/** TestExecutionEngine.execute: create, pause, read back, relock. The trace of every run, against any
    platform, is pinned down call by call; the safety theorems are read off that shape. */
module Execution {
  import opened Common
  import opened Payloads
  import opened Platform
  import opened Readback
  import opened Traces

  datatype Cause = EmptyBatch | PreflightRefused | HashMismatch

  /** A run either raises or returns a receipt. */
  datatype Outcome = Raised(cause: Cause) | Returned(receipt: BatchReceipt)

  // ----- readbacks -----

  /** How far the three queries of a readback got: the first reply that is not an answer, or all three. */
  datatype Probe =
    | CampaignsSilent(campaignReply: Reply<seq<CampaignRow>>)
    | UnitsSilent(campaigns: seq<CampaignRow>, unitReply: Reply<seq<UnitRow>>)
    | CreativesSilent(campaigns: seq<CampaignRow>, units: seq<UnitRow>, creativeReply: Reply<seq<CreativeRow>>)
    | Probed(campaigns: seq<CampaignRow>, units: seq<UnitRow>, creatives: seq<CreativeRow>)

  predicate ProbeWellFormed(probe: Probe) {
    match probe
    case CampaignsSilent(r) => !r.Answer?
    case UnitsSilent(_, r) => !r.Answer?
    case CreativesSilent(_, _, r) => !r.Answer?
    case Probed(_, _, _) => true
  }

  function ProbeCalls(ids: ObjectIds, probe: Probe): seq<Call> {
    match probe
    case CampaignsSilent(r) => [ListCampaigns([ids.campaign], None, r)]
    case UnitsSilent(cs, r) =>
      [ListCampaigns([ids.campaign], None, Answer(cs)), ListUnits([ids.group], None, r)]
    case CreativesSilent(cs, us, r) =>
      [ListCampaigns([ids.campaign], None, Answer(cs)), ListUnits([ids.group], None, Answer(us)),
       SearchCreatives(ids.creativities, None, r)]
    case Probed(cs, us, rs) =>
      [ListCampaigns([ids.campaign], None, Answer(cs)), ListUnits([ids.group], None, Answer(us)),
       SearchCreatives(ids.creativities, None, Answer(rs))]
  }

  /** The readback raises: a query broke, or the comparison did. */
  predicate ProbeRaises(p: Payload, ids: ObjectIds, probe: Probe) {
    match probe
    case CampaignsSilent(r) => r.Broken?
    case UnitsSilent(_, r) => r.Broken?
    case CreativesSilent(_, _, r) => r.Broken?
    case Probed(cs, us, rs) => Differences(p, ids, cs, us, rs).None?
  }

  ghost predicate ProbeClean(p: Payload, ids: ObjectIds, probe: Probe) {
    match probe
    case Probed(cs, us, rs) => Clean(p, ids, cs, us, rs)
    case _ => false
  }

  // ----- attempts on one plan -----

  /** Everything one plan's turn can do after its hash check. */
  datatype Attempt =
    | CreateFailed(createReply: Reply<seq<CascadeRow>>)
    | PauseFailed(created: seq<CascadeRow>, pauseReply: Reply<seq<int>>)
    | PausedThen(created: seq<CascadeRow>, acknowledged: seq<int>, probe: Probe)

  function CreatedIds(rows: seq<CascadeRow>): ObjectIds {
    var x := ExtractIds(rows);
    if x.Extracted? then x.ids else ObjectIds(0, 0, [])
  }

  predicate Usable(r: Reply<seq<CascadeRow>>) {
    r.Answer? && ExtractIds(r.value).Extracted?
  }

  predicate PauseTaken(ids: ObjectIds, r: Reply<seq<int>>) {
    r.Answer? && ids.campaign in r.value
  }

  predicate AttemptWellFormed(a: Attempt) {
    match a
    case CreateFailed(r) => !Usable(r)
    case PauseFailed(rows, r) => ExtractIds(rows).Extracted? && !PauseTaken(CreatedIds(rows), r)
    case PausedThen(rows, ack, probe) =>
      ExtractIds(rows).Extracted? && CreatedIds(rows).campaign in ack && ProbeWellFormed(probe)
  }

  /** The calls the attempt makes, with their replies. */
  function AttemptCalls(plan: Plan, a: Attempt): (calls: seq<Call>)
    ensures calls != [] && calls[0].Create? && calls[0].payload == plan.payload && LedBy(calls, calls[0])
    ensures !Enables(calls)
  {
    match a
    case CreateFailed(r) => [Create(plan.payload, r)]
    case PauseFailed(rows, r) => [Create(plan.payload, Answer(rows)), SetStatus([CreatedIds(rows).campaign], false, r)]
    case PausedThen(rows, ack, probe) =>
      [Create(plan.payload, Answer(rows)), SetStatus([CreatedIds(rows).campaign], false, Answer(ack))]
      + ProbeCalls(CreatedIds(rows), probe)
  }

  /** Created with usable ids, its pause acknowledged, and read back clean. */
  ghost predicate Verified(plan: Plan, a: Attempt) {
    match a
    case PausedThen(rows, ack, probe) => AttemptWellFormed(a) && ProbeClean(plan.payload, CreatedIds(rows), probe)
    case _ => false
  }

  /** The status an attempt that is not verified leaves behind. */
  function FailureStatus(plan: Plan, a: Attempt): BatchStatus {
    match a
    case CreateFailed(Refused(code)) => if code == TransportError then BatchReconcileRequired else BatchFailedTerminal
    case CreateFailed(Broken) => BatchRecoveryRequired
    case CreateFailed(Answer(rows)) =>
      if ExtractIds(rows).Ambiguous? then BatchReconcileRequired else BatchRecoveryRequired
    case PauseFailed(_, _) => BatchPauseFailed
    case PausedThen(rows, _, probe) =>
      if ProbeRaises(plan.payload, CreatedIds(rows), probe) then BatchRecoveryRequired else BatchReadbackMismatch
  }

  function Blocks(plans: seq<Plan>, attempts: seq<Attempt>): seq<Block>
    requires |attempts| <= |plans|
  {
    seq(|attempts|, i requires 0 <= i < |attempts| => AttemptCalls(plans[i], attempts[i]))
  }

  // ----- the closing relock -----

  datatype LockRun = RelockSilent(relockReply: Reply<int>) | RelockAnswered(receipt: int, verifyReply: Reply<bool>)

  function LockCalls(lock: LockRun): (calls: seq<Call>)
    ensures calls != [] && calls[0].Relock? && LedBy(calls, calls[0])
    ensures !Enables(calls)
  {
    match lock
    case RelockSilent(r) => [Relock(r)]
    case RelockAnswered(receipt, r) => [Relock(Answer(receipt)), VerifyLocked(r)]
  }

  predicate Locked(lock: LockRun) {
    match lock
    case RelockSilent(_) => false
    case RelockAnswered(_, r) => r == Answer(true)
  }

  function LockReceipt(lock: LockRun): Option<int> {
    match lock
    case RelockSilent(_) => None
    case RelockAnswered(receipt, _) => Some(receipt)
  }

  predicate LockWellFormed(lock: LockRun) {
    lock.RelockSilent? ==> !lock.relockReply.Answer?
  }

  // ----- the shape of a whole run -----

  /** _error_receipt. */
  function ErrorReceipt(plan: Plan, ids: Option<ObjectIds>, code: ErrorCode): PlanReceipt {
    PlanReceipt(plan.revision, ids, false, false, [PlatformError(code)])
  }

  /** The receipt of a readback that did not raise. */
  function ProbeReceipt(plan: Plan, ids: ObjectIds, probe: Probe): PlanReceipt {
    match probe
    case Probed(cs, us, rs) =>
      var diff := Differences(plan.payload, ids, cs, us, rs);
      PlanReceipt(plan.revision, Some(ids), PauseConfirmed(cs, us, rs), diff == Some([]),
                  if diff.Some? then diff.value else [])
    case CampaignsSilent(Refused(code)) => ErrorReceipt(plan, Some(ids), code)
    case UnitsSilent(_, Refused(code)) => ErrorReceipt(plan, Some(ids), code)
    case CreativesSilent(_, _, Refused(code)) => ErrorReceipt(plan, Some(ids), code)
    case _ => ErrorReceipt(plan, Some(ids), UnexpectedReadbackError)
  }

  function CreateCode(r: Reply<seq<CascadeRow>>): ErrorCode {
    match r
    case Refused(code) => code
    case Broken => UnexpectedCreateError
    case Answer(rows) => if ExtractIds(rows).Ambiguous? then CreateResponseAmbiguous else UnexpectedCreateResponse
  }

  function PauseCode(r: Reply<seq<int>>): ErrorCode {
    match r
    case Refused(code) => code
    case Broken => UnexpectedPauseError
    case Answer(_) => PauseResponseMissingObject
  }

  /** The receipt an attempt leaves behind. */
  function AttemptReceipt(plan: Plan, a: Attempt): PlanReceipt {
    match a
    case CreateFailed(r) => ErrorReceipt(plan, None, CreateCode(r))
    case PauseFailed(rows, r) => ErrorReceipt(plan, Some(CreatedIds(rows)), PauseCode(r))
    case PausedThen(rows, _, probe) =>
      if ProbeRaises(plan.payload, CreatedIds(rows), probe)
      then ErrorReceipt(plan, Some(CreatedIds(rows)), UnexpectedReadbackError)
      else ProbeReceipt(plan, CreatedIds(rows), probe)
  }

  /** One turn of the loop that was verified, with its receipt. */
  ghost predicate GoodTurn(plan: Plan, a: Attempt, r: PlanReceipt) {
    match a
    case PausedThen(rows, _, _) =>
      Intact(plan) && Verified(plan, a) && r == PlanReceipt(plan.revision, Some(CreatedIds(rows)), true, true, [])
    case _ => false
  }

  ghost predicate BadTurn(plan: Plan, a: Attempt, r: PlanReceipt) {
    Intact(plan) && AttemptWellFormed(a) && !Verified(plan, a) && r == AttemptReceipt(plan, a) && !r.readbackVerified
  }

  /** The loop's turns: all good, except that the last may be the failure that ended it. */
  ghost predicate Turns(plans: seq<Plan>, attempts: seq<Attempt>, receipts: seq<PlanReceipt>, good: nat)
    requires good <= |attempts| <= |plans| && |receipts| == |attempts|
  {
    && good <= |attempts| <= good + 1
    && (forall i :: 0 <= i < good ==> GoodTurn(plans[i], attempts[i], receipts[i]))
    && (good < |attempts| ==> BadTurn(plans[good], attempts[good], receipts[good]))
  }

  /** A run over nonempty plans after an accepted preflight. It raises exactly when it reaches a plan
      whose payload no longer matches its hash; otherwise it closes with the relock. */
  ghost predicate ExecuteShape(plans: seq<Plan>, attempts: seq<Attempt>, lock: Option<LockRun>, outcome: Outcome) {
    match outcome
    case Raised(cause) =>
      && cause == HashMismatch && lock == None
      && |attempts| < |plans| && !Intact(plans[|attempts|])
      && forall i :: 0 <= i < |attempts| ==> Intact(plans[i]) && Verified(plans[i], attempts[i])
    case Returned(r) =>
      && lock.Some? && LockWellFormed(lock.value)
      && r.lockVerified == Locked(lock.value) && r.relockReceipt == LockReceipt(lock.value)
      && |attempts| == |r.receipts| <= |plans|
      && var good := GoodTurns(plans, attempts);
         && Turns(plans, attempts, r.receipts, good)
         && (good == |attempts| ==> |attempts| == |plans|)
         && r.status == (if !r.lockVerified then BatchRelockFailed
                         else if good == |attempts| then VerifiedPaused
                         else FailureStatus(plans[good], attempts[good]))
  }

  /** How many leading turns were verified. */
  ghost function GoodTurns(plans: seq<Plan>, attempts: seq<Attempt>): (n: nat)
    requires |attempts| <= |plans|
    ensures n <= |attempts|
  {
    if attempts != [] && Verified(plans[|attempts| - 1], attempts[|attempts| - 1]) then |attempts|
    else if attempts != [] then |attempts| - 1
    else 0
  }

  function LockBlock(lock: Option<LockRun>): Block {
    if lock.Some? then LockCalls(lock.value) else []
  }

  function ExecuteTrace(plans: seq<Plan>, attempts: seq<Attempt>, lock: Option<LockRun>): seq<Call>
    requires |attempts| <= |plans|
  {
    [Preflight(true)] + Flatten(Blocks(plans, attempts)) + LockBlock(lock)
  }

  // ----- theorems about every run -----

  function PayloadsOf(plans: seq<Plan>): seq<Payload> {
    seq(|plans|, i requires 0 <= i < |plans| => plans[i].payload)
  }

  lemma TraceCounts(plans: seq<Plan>, attempts: seq<Attempt>, lock: Option<LockRun>)
    requires |attempts| <= |plans|
    ensures Creates(ExecuteTrace(plans, attempts, lock)) == PayloadsOf(plans)[..|attempts|]
    ensures Relocks([Preflight(true)] + Flatten(Blocks(plans, attempts))) == 0
    ensures Relocks(ExecuteTrace(plans, attempts, lock)) == if lock.Some? then 1 else 0
  {
    var head, body := [Preflight(true)], Flatten(Blocks(plans, attempts));
    FlattenCounts(Blocks(plans, attempts), PayloadsOf(plans));
    CountsFirst(head, Preflight(true));
    CountsConcat(head, body);
    CountsConcat(head + body, LockBlock(lock));
    if lock.Some? {
      CountsFirst(LockCalls(lock.value), LockCalls(lock.value)[0]);
    }
  }

  /** Creates are a prefix of the plans, in order, one per attempt; a run relocks exactly once, as its
      last act, unless a hash mismatch raised out of the loop. */
  lemma CreatesArePrefixThenRelock(plans: seq<Plan>, attempts: seq<Attempt>, lock: Option<LockRun>, outcome: Outcome)
    requires ExecuteShape(plans, attempts, lock, outcome)
    ensures |attempts| <= |plans|
    ensures Creates(ExecuteTrace(plans, attempts, lock)) == PayloadsOf(plans)[..|attempts|]
    ensures Relocks([Preflight(true)] + Flatten(Blocks(plans, attempts))) == 0
    ensures Relocks(ExecuteTrace(plans, attempts, lock)) == if outcome.Returned? then 1 else 0
  {
    TraceCounts(plans, attempts, lock);
  }

  /** Nothing in a run ever switches a campaign on. */
  lemma NeverEnables(plans: seq<Plan>, attempts: seq<Attempt>, lock: Option<LockRun>)
    requires |attempts| <= |plans|
    ensures !Enables(ExecuteTrace(plans, attempts, lock))
  {
    FlattenNever(Blocks(plans, attempts));
  }

  /** The relock is skipped exactly when a plan the run reaches is no longer intact: with intact plans
      every run relocks, and when the first damaged plan is reached nothing relocks, whatever the
      earlier plans have created. */
  lemma RelockSkippedExactlyOnMismatch(plans: seq<Plan>, attempts: seq<Attempt>, lock: Option<LockRun>,
                                       outcome: Outcome)
    requires ExecuteShape(plans, attempts, lock, outcome)
    ensures AllIntact(plans) ==> outcome.Returned?
    ensures outcome.Raised?
            <==> |attempts| < |plans| && !Intact(plans[|attempts|]) && GoodTurns(plans, attempts) == |attempts|
    ensures outcome.Raised? && |attempts| > 0 ==>
              && Creates(ExecuteTrace(plans, attempts, lock)) != [] && Relocks(ExecuteTrace(plans, attempts, lock)) == 0
  {
    TraceCounts(plans, attempts, lock);
  }

  // ----- which batches can skip the relock -----

  /** A platform can confirm this plan: it has a creative to show, and its keyword rows can be compared. */
  predicate Confirmable(p: Payload) {
    p.creatives != [] && Sortable(p.group.keywords)
  }

  /** A check before the call: behind at least one intact plan, all of which a platform can confirm, stands a
      damaged one. */
  predicate ExposedAt(plans: seq<Plan>, d: nat) {
    && 0 < d < |plans| && !Intact(plans[d])
    && forall i :: 0 <= i < d ==> Intact(plans[i]) && Confirmable(plans[i].payload)
  }

  predicate Exposed(plans: seq<Plan>) {
    exists d :: 0 < d < |plans| && ExposedAt(plans, d)
  }

  /** A run that created something and never tried to relock. */
  ghost predicate SkipsRelock(plans: seq<Plan>, attempts: seq<Attempt>) {
    && |attempts| <= |plans| && ExecuteShape(plans, attempts, None, Raised(HashMismatch))
    && Creates(ExecuteTrace(plans, attempts, None)) != [] && Relocks(ExecuteTrace(plans, attempts, None)) == 0
  }

  function EchoIds(p: Payload): ObjectIds {
    ObjectIds(1, 1, seq(|p.creatives|, i requires 0 <= i < |p.creatives| => i + 1))
  }

  function EchoCampaign(c: CampaignSpec): CampaignRow {
    CampaignRow(Numeric(1), c.name, c.marketingTarget, c.placement, c.biddingStrategy, c.dayBudget, None, Some(0))
  }

  function EchoUnit(u: UnitSpec): UnitRow {
    UnitRow(Numeric(1), u.name, u.name, u.targetType, u.eventBid, u.target, u.keywords, Some(0), None)
  }

  function EchoCreatives(specs: seq<CreativeSpec>): seq<CreativeRow> {
    seq(|specs|,
        i requires 0 <= i < |specs| => CreativeRow(Numeric(i + 1), specs[i].note, specs[i].conversion, Some(0), None))
  }

  /** A platform that creates what it is asked to, pauses it, and reads it back faithfully. */
  function Echo(p: Payload): Attempt {
    PausedThen(ResponseFor(EchoIds(p)), [1],
               Probed([EchoCampaign(p.campaign)], [EchoUnit(p.group)], EchoCreatives(p.creatives)))
  }

  lemma {:induction false} EchoLookup(specs: seq<CreativeSpec>, n: nat, i: nat)
    requires i < n <= |specs|
    ensures Lookup(EchoCreatives(specs)[..n], i + 1) == Some(EchoCreatives(specs)[i])
    decreases n
  {
    var rows := EchoCreatives(specs)[..n];
    assert rows[|rows| - 1] == EchoCreatives(specs)[n - 1];
    if i < n - 1 {
      EchoLookup(specs, n - 1, i);
      assert rows[..n - 1] == EchoCreatives(specs)[..n - 1];
    }
  }

  lemma EchoMatches(p: Payload, i: nat)
    requires i < |p.creatives|
    ensures CreativeMatches(p, EchoIds(p).creativities, EchoCreatives(p.creatives), i)
  {
    EchoLookup(p.creatives, |p.creatives|, i);
    assert EchoCreatives(p.creatives)[..|p.creatives|] == EchoCreatives(p.creatives);
  }

  lemma EchoIsClean(p: Payload)
    requires Confirmable(p)
    ensures Clean(p, EchoIds(p), [EchoCampaign(p.campaign)], [EchoUnit(p.group)], EchoCreatives(p.creatives))
  {
    forall i | 0 <= i < |p.creatives|
      ensures CreativeMatches(p, EchoIds(p).creativities, EchoCreatives(p.creatives), i)
    {
      EchoMatches(p, i);
    }
  }

  lemma EchoIsVerified(plan: Plan)
    requires Confirmable(plan.payload)
    ensures Verified(plan, Echo(plan.payload))
  {
    ExtractionIsExact(ResponseFor(EchoIds(plan.payload)), EchoIds(plan.payload));
    EchoIsClean(plan.payload);
  }

  lemma VerifiedIsConfirmable(plan: Plan, a: Attempt)
    requires Verified(plan, a)
    ensures Confirmable(plan.payload)
  {
  }

  function Echoes(plans: seq<Plan>, d: nat): seq<Attempt>
    requires d <= |plans|
  {
    seq(d, i requires 0 <= i < d => Echo(plans[i].payload))
  }

  lemma ExposedIsReached(plans: seq<Plan>, d: nat)
    requires ExposedAt(plans, d)
    ensures SkipsRelock(plans, Echoes(plans, d))
  {
    var attempts := Echoes(plans, d);
    forall i | 0 <= i < d ensures Intact(plans[i]) && Verified(plans[i], attempts[i]) {
      EchoIsVerified(plans[i]);
    }
    TraceCounts(plans, attempts, None);
  }

  lemma SkippingIsExposed(plans: seq<Plan>, attempts: seq<Attempt>)
    requires SkipsRelock(plans, attempts)
    ensures Exposed(plans)
  {
    TraceCounts(plans, attempts, None);
    forall i | 0 <= i < |attempts| ensures Intact(plans[i]) && Confirmable(plans[i].payload) {
      VerifiedIsConfirmable(plans[i], attempts[i]);
    }
    assert ExposedAt(plans, |attempts|);
  }

  /** Some platform makes execute create something and then raise without relocking, exactly when the batch
      is exposed: which a caller can check before the call. */
  lemma RelockCanBeSkippedExactly(plans: seq<Plan>)
    ensures (exists attempts: seq<Attempt> :: SkipsRelock(plans, attempts)) <==> Exposed(plans)
  {
    if Exposed(plans) {
      var d :| 0 < d < |plans| && ExposedAt(plans, d);
      ExposedIsReached(plans, d);
    }
    if attempts: seq<Attempt> :| SkipsRelock(plans, attempts) {
      SkippingIsExposed(plans, attempts);
    }
  }

  lemma EarlierTurnsGood(plans: seq<Plan>, attempts: seq<Attempt>, lock: Option<LockRun>, outcome: Outcome, i: nat)
    requires ExecuteShape(plans, attempts, lock, outcome)
    requires i < |attempts| - 1
    ensures Intact(plans[i]) && Verified(plans[i], attempts[i])
  {
    if outcome.Returned? {
      assert GoodTurn(plans[i], attempts[i], outcome.receipt.receipts[i]);
    }
  }

  /** When plan j is created, every earlier plan i has already been created with usable ids, had its
      campaign's pause acknowledged and been read back clean: all of plan i's calls lie before. */
  lemma EarlierPlansVerifiedFirst(plans: seq<Plan>, attempts: seq<Attempt>, lock: Option<LockRun>, outcome: Outcome,
                                  i: nat, j: nat)
    requires ExecuteShape(plans, attempts, lock, outcome)
    requires i < j < |attempts| <= |plans|
    ensures Verified(plans[i], attempts[i])
    ensures CreatedAfter(ExecuteTrace(plans, attempts, lock), CreateAt(plans, attempts, i),
                         AttemptCalls(plans[i], attempts[i]),
                         CreateAt(plans, attempts, j), plans[j])
  {
    EarlierTurnsGood(plans, attempts, lock, outcome, i);
    AttemptsInOrder(plans, attempts, lock, i, j);
  }

  /** The position of attempt i's create. */
  function CreateAt(plans: seq<Plan>, attempts: seq<Attempt>, i: nat): nat
    requires i <= |attempts| <= |plans|
  {
    1 + Start(Blocks(plans, attempts), i)
  }

  /** The create of `plan` stands in t at position `at`, after all the calls of `block`. */
  predicate CreatedAfter(t: seq<Call>, from: nat, block: Block, at: nat, plan: Plan) {
    Before(t, from, block, at) && t[at].Create? && t[at].payload == plan.payload
  }

  lemma BlockIs(plans: seq<Plan>, attempts: seq<Attempt>, i: nat)
    requires i < |attempts| <= |plans|
    ensures Blocks(plans, attempts)[i] == AttemptCalls(plans[i], attempts[i])
    ensures Opens(Blocks(plans, attempts)[i], plans[i])
  {
  }

  predicate Opens(block: Block, plan: Plan) {
    block != [] && block[0].Create? && block[0].payload == plan.payload
  }

  lemma AttemptInPlace(plans: seq<Plan>, attempts: seq<Attempt>, lock: Option<LockRun>, i: nat)
    requires i < |attempts| <= |plans|
    ensures InPlace(ExecuteTrace(plans, attempts, lock), Blocks(plans, attempts), 1, i)
  {
    BlockInTrace([Preflight(true)], Blocks(plans, attempts), LockBlock(lock), i);
  }

  /** Among blocks at their places, one that opens with the create of `plan` opens after all the calls of an
      earlier one. */
  lemma BlockCreatesAfter(t: seq<Call>, blocks: seq<Block>, i: nat, j: nat, plan: Plan)
    requires i < j < |blocks| && Opens(blocks[j], plan) && InPlace(t, blocks, 1, i) && InPlace(t, blocks, 1, j)
    ensures CreatedAfter(t, 1 + Start(blocks, i), blocks[i], 1 + Start(blocks, j), plan)
  {
    StartsGrow(blocks, i + 1, j);
    PlacesInOrder(t, blocks, 1, i, j);
  }

  lemma AttemptsInOrder(plans: seq<Plan>, attempts: seq<Attempt>, lock: Option<LockRun>, i: nat, j: nat)
    requires i < j < |attempts| <= |plans|
    ensures CreatedAfter(ExecuteTrace(plans, attempts, lock), CreateAt(plans, attempts, i),
                         AttemptCalls(plans[i], attempts[i]), CreateAt(plans, attempts, j), plans[j])
  {
    BlockIs(plans, attempts, i);
    BlockIs(plans, attempts, j);
    AttemptInPlace(plans, attempts, lock, i);
    AttemptInPlace(plans, attempts, lock, j);
    BlockCreatesAfter(ExecuteTrace(plans, attempts, lock), Blocks(plans, attempts), i, j, plans[j]);
  }

  lemma TurnsAreVerified(plans: seq<Plan>, attempts: seq<Attempt>, receipts: seq<PlanReceipt>, good: nat)
    requires good <= |attempts| <= |plans| && |receipts| == |attempts| && Turns(plans, attempts, receipts, good)
    ensures forall i :: 0 <= i < good ==> Verified(plans[i], attempts[i])
    ensures good < |attempts| ==> !Verified(plans[good], attempts[good]) && !receipts[good].readbackVerified
    ensures forall i :: 0 <= i < good ==>
              receipts[i].revision == plans[i].revision && receipts[i].pauseVerified && receipts[i].readbackVerified
  {
    forall i | 0 <= i < good
      ensures Verified(plans[i], attempts[i])
      ensures receipts[i].revision == plans[i].revision && receipts[i].pauseVerified && receipts[i].readbackVerified
    {
      assert GoodTurn(plans[i], attempts[i], receipts[i]);
    }
    if good < |attempts| {
      assert BadTurn(plans[good], attempts[good], receipts[good]);
    }
  }

  lemma FailureIsNotSuccess(plan: Plan, a: Attempt)
    ensures FailureStatus(plan, a) !in {VerifiedPaused, ReconciledNotCreated, ReconciledVerifiedPaused}
  {
  }

  /** VERIFIED_PAUSED means exactly that every plan was verified and the account lock was, and exactly
      then the receipt is what a stored success promises. */
  lemma VerifiedPausedIsExact(plans: seq<Plan>, attempts: seq<Attempt>, lock: Option<LockRun>, r: BatchReceipt)
    requires ExecuteShape(plans, attempts, lock, Returned(r))
    ensures r.status == VerifiedPaused <==>
              lock.Some? && Locked(lock.value) && |attempts| == |plans|
              && forall i :: 0 <= i < |plans| ==> Verified(plans[i], attempts[i])
    ensures r.status == VerifiedPaused <==> FullyVerified(plans, r)
    ensures r.status != ReconciledNotCreated && r.status != ReconciledVerifiedPaused
  {
    var good := GoodTurns(plans, attempts);
    TurnsAreVerified(plans, attempts, r.receipts, good);
    if good < |attempts| {
      FailureIsNotSuccess(plans[good], attempts[good]);
    }
  }

  // ----- the code -----

  lemma TurnsNext(plans: seq<Plan>, attempts: seq<Attempt>, receipts: seq<PlanReceipt>, a: Attempt,
                  receipt: PlanReceipt)
    requires |attempts| == |receipts| < |plans| && Turns(plans, attempts, receipts, |attempts|)
    requires GoodTurn(plans[|attempts|], a, receipt) || BadTurn(plans[|attempts|], a, receipt)
    ensures Turns(plans, attempts + [a], receipts + [receipt],
                  |attempts| + if Verified(plans[|attempts|], a) then 1 else 0)
  {
    var more, moreReceipts := attempts + [a], receipts + [receipt];
    forall i | 0 <= i < |attempts| ensures GoodTurn(plans[i], more[i], moreReceipts[i]) {
      assert GoodTurn(plans[i], attempts[i], receipts[i]);
    }
  }

  lemma BlocksNext(plans: seq<Plan>, attempts: seq<Attempt>, a: Attempt)
    requires |attempts| < |plans|
    ensures Flatten(Blocks(plans, attempts + [a]))
            == Flatten(Blocks(plans, attempts)) + AttemptCalls(plans[|attempts|], a)
  {
    var longer, grown := Blocks(plans, attempts + [a]), Blocks(plans, attempts) + [AttemptCalls(plans[|attempts|], a)];
    forall i | 0 <= i < |longer| ensures longer[i] == grown[i] {
      assert (attempts + [a])[i] == if i < |attempts| then attempts[i] else a;
    }
    assert longer == grown;
    FlattenNext(Blocks(plans, attempts), AttemptCalls(plans[|attempts|], a));
  }

  class TestExecutionEngine {
    const world: World

    constructor (world: World)
      ensures this.world == world
    {
      this.world := world;
    }

    /** _readback: three queries, then the comparison. A refused query becomes an error receipt;
        anything else raises. */
    method ReadBack(plan: Plan, ids: ObjectIds) returns (raised: bool, receipt: PlanReceipt, ghost probe: Probe)
      modifies world
      ensures ProbeWellFormed(probe)
      ensures world.calls == old(world.calls) + ProbeCalls(ids, probe)
      ensures raised <==> ProbeRaises(plan.payload, ids, probe)
      ensures receipt.revision == plan.revision && receipt.ids == Some(ids)
      ensures !raised ==> receipt == ProbeReceipt(plan, ids, probe)
      ensures !raised ==> (receipt.readbackVerified <==> ProbeClean(plan.payload, ids, probe))
      ensures !raised && receipt.readbackVerified ==> receipt.pauseVerified && receipt.diff == []
    {
      raised, receipt := false, ErrorReceipt(plan, Some(ids), InternalError);
      var campaigns := world.DoListCampaigns([ids.campaign], None);
      if !campaigns.Answer? {
        raised, probe := campaigns.Broken?, CampaignsSilent(campaigns);
        if campaigns.Refused? {
          receipt := ErrorReceipt(plan, Some(ids), campaigns.code);
        }
        return;
      }
      var units := world.DoListUnits([ids.group], None);
      if !units.Answer? {
        raised, probe := units.Broken?, UnitsSilent(campaigns.value, units);
        if units.Refused? {
          receipt := ErrorReceipt(plan, Some(ids), units.code);
        }
        return;
      }
      var creatives := world.DoSearchCreatives(ids.creativities, None);
      if !creatives.Answer? {
        raised, probe := creatives.Broken?, CreativesSilent(campaigns.value, units.value, creatives);
        if creatives.Refused? {
          receipt := ErrorReceipt(plan, Some(ids), creatives.code);
        }
        return;
      }
      probe := Probed(campaigns.value, units.value, creatives.value);
      var diff, paused;
      raised, diff, paused := Compare(plan.payload, ids, campaigns.value, units.value, creatives.value);
      receipt := PlanReceipt(plan.revision, Some(ids), paused, diff == [], diff);
    }

    /** One turn of the loop after the hash check. */
    method AttemptPlan(plan: Plan) returns (verified: bool, status: BatchStatus, receipt: PlanReceipt, ghost a: Attempt)
      requires Intact(plan)
      modifies world
      ensures world.calls == old(world.calls) + AttemptCalls(plan, a)
      ensures verified <==> Verified(plan, a)
      ensures verified ==> GoodTurn(plan, a, receipt)
      ensures !verified ==> BadTurn(plan, a, receipt) && status == FailureStatus(plan, a)
    {
      verified, status := false, BatchRecoveryRequired;
      var created := world.DoCreate(plan.payload);
      a := CreateFailed(created);
      if created.Refused? {
        status := if created.code == TransportError then BatchReconcileRequired else BatchFailedTerminal;
        receipt := ErrorReceipt(plan, None, created.code);
        return;
      }
      if created.Broken? {
        receipt := ErrorReceipt(plan, None, UnexpectedCreateError);
        return;
      }
      var extraction := ExtractIds(created.value);
      if extraction.Ambiguous? {
        status := BatchReconcileRequired;
        receipt := ErrorReceipt(plan, None, CreateResponseAmbiguous);
        return;
      }
      if extraction.Malformed? {
        receipt := ErrorReceipt(plan, None, UnexpectedCreateResponse);
        return;
      }
      var ids := extraction.ids;
      var paused := world.DoSetStatus([ids.campaign], false);
      a := PauseFailed(created.value, paused);
      if !paused.Answer? {
        status := BatchPauseFailed;
        receipt := ErrorReceipt(plan, Some(ids), if paused.Refused? then paused.code else UnexpectedPauseError);
        return;
      }
      if ids.campaign !in paused.value {
        status := BatchPauseFailed;
        receipt := ErrorReceipt(plan, Some(ids), PauseResponseMissingObject);
        return;
      }
      var raised; ghost var probe;
      raised, receipt, probe := ReadBack(plan, ids);
      a := PausedThen(created.value, paused.value, probe);
      if raised {
        receipt := ErrorReceipt(plan, Some(ids), UnexpectedReadbackError);
        RaisingIsNotClean(plan.payload, ids, probe);
      } else if !receipt.readbackVerified {
        status := BatchReadbackMismatch;
      } else {
        verified := true;
      }
    }

    /** Ask for the relock, then for its verification; either may fail. */
    method CloseLock() returns (receipt: Option<int>, locked: bool, ghost lock: LockRun)
      modifies world
      ensures LockWellFormed(lock)
      ensures world.calls == old(world.calls) + LockCalls(lock)
      ensures receipt == LockReceipt(lock) && locked == Locked(lock)
    {
      receipt, locked := None, false;
      var relock := world.DoRelock();
      lock := RelockSilent(relock);
      if relock.Answer? {
        receipt := Some(relock.value);
        var verified := world.DoVerifyLocked();
        lock := RelockAnswered(relock.value, verified);
        locked := verified == Answer(true);
      }
    }

    /** The loop over the plans: it leaves by a hash mismatch, by a failed attempt, or at the end. */
    method RunLoop(plans: seq<Plan>)
      returns (mismatch: bool, receipts: seq<PlanReceipt>, status: BatchStatus, writeAttempted: bool,
               ghost attempts: seq<Attempt>, ghost good: nat)
      modifies world
      ensures good <= |attempts| == |receipts| <= |plans| && Turns(plans, attempts, receipts, good)
      ensures world.calls == old(world.calls) + Flatten(Blocks(plans, attempts))
      ensures writeAttempted <==> attempts != []
      ensures mismatch ==> |attempts| == good < |plans| && !Intact(plans[good])
      ensures !mismatch && good == |attempts| ==> good == |plans| && status == VerifiedPaused
      ensures !mismatch && good < |attempts| ==> status == FailureStatus(plans[good], attempts[good])
    {
      mismatch, receipts, status, writeAttempted := false, [], VerifiedPaused, false;
      attempts, good := [], 0;
      for n := 0 to |plans|
        invariant |attempts| == |receipts| == good == n
        invariant world.calls == old(world.calls) + Flatten(Blocks(plans, attempts))
        invariant Turns(plans, attempts, receipts, good)
        invariant status == VerifiedPaused && (writeAttempted <==> n > 0) && !mismatch
      {
        if Sha(plans[n].payload) != plans[n].payloadSha {
          mismatch := true;
          return;
        }
        writeAttempted := true;
        ghost var a;
        var verified, failure, receipt;
        verified, failure, receipt, a := AttemptPlan(plans[n]);
        TurnsNext(plans, attempts, receipts, a, receipt);
        BlocksNext(plans, attempts, a);
        Regroup(old(world.calls), Flatten(Blocks(plans, attempts)), AttemptCalls(plans[n], a));
        attempts, receipts := attempts + [a], receipts + [receipt];
        if !verified {
          status := failure;
          return;
        }
        good := good + 1;
      }
    }

    /** The loop over the plans and the closing relock. */
    method RunBatch(plans: seq<Plan>)
      returns (outcome: Outcome, ghost attempts: seq<Attempt>, ghost lock: Option<LockRun>)
      requires plans != []
      modifies world
      ensures ExecuteShape(plans, attempts, lock, outcome) && |attempts| <= |plans|
      ensures world.calls == old(world.calls) + Flatten(Blocks(plans, attempts)) + LockBlock(lock)
    {
      var mismatch, receipts, status, writeAttempted;
      ghost var good;
      mismatch, receipts, status, writeAttempted, attempts, good := RunLoop(plans);
      lock := None;
      if mismatch {
        Regroup(old(world.calls), Flatten(Blocks(plans, attempts)), []);
        MismatchShape(plans, attempts, receipts);
        return Raised(HashMismatch), attempts, lock;
      }
      ghost var loopStatus := status;
      var relockReceipt, lockVerified := None, false;
      if writeAttempted {
        ghost var run;
        relockReceipt, lockVerified, run := CloseLock();
        lock := Some(run);
        if !lockVerified {
          status := BatchRelockFailed;
        }
      }
      outcome := Returned(BatchReceipt(status, receipts, relockReceipt, lockVerified));
      ClosedShape(plans, attempts, receipts, good, lock.value, loopStatus, outcome.receipt);
    }

    method Execute(plans: seq<Plan>)
      returns (outcome: Outcome, ghost attempts: seq<Attempt>, ghost lock: Option<LockRun>)
      modifies world
      ensures plans == [] ==> outcome == Raised(EmptyBatch) && world.calls == old(world.calls)
      ensures plans != [] ==> outcome != Raised(EmptyBatch)
      ensures outcome == Raised(PreflightRefused) ==> world.calls == old(world.calls) + [Preflight(false)]
      ensures Proceeded(outcome) ==>
                && ExecuteShape(plans, attempts, lock, outcome)
                && |attempts| <= |plans|
                && world.calls == old(world.calls) + ExecuteTrace(plans, attempts, lock)
    {
      attempts, lock := [], None;
      if plans == [] {
        return Raised(EmptyBatch), attempts, lock;
      }
      var ok := world.DoPreflight();
      if !ok {
        return Raised(PreflightRefused), attempts, lock;
      }
      outcome, attempts, lock := RunBatch(plans);
      Glue(old(world.calls), [Preflight(true)], Flatten(Blocks(plans, attempts)), LockBlock(lock));
    }
  }

  /** The run got past its guards and its preflight. */
  predicate Proceeded(outcome: Outcome) {
    outcome != Raised(EmptyBatch) && outcome != Raised(PreflightRefused)
  }

  lemma RaisingIsNotClean(p: Payload, ids: ObjectIds, probe: Probe)
    ensures ProbeRaises(p, ids, probe) ==> !ProbeClean(p, ids, probe)
  {
    if probe.Probed? {
      VerdictIsExact(p, ids, probe.campaigns, probe.units, probe.creatives);
    }
  }

  lemma MismatchShape(plans: seq<Plan>, attempts: seq<Attempt>, receipts: seq<PlanReceipt>)
    requires |attempts| == |receipts| < |plans| && Turns(plans, attempts, receipts, |attempts|)
    requires !Intact(plans[|attempts|])
    ensures ExecuteShape(plans, attempts, None, Raised(HashMismatch))
  {
    forall i | 0 <= i < |attempts| ensures Intact(plans[i]) && Verified(plans[i], attempts[i]) {
      assert GoodTurn(plans[i], attempts[i], receipts[i]);
    }
  }

  lemma GoodTurnsCounted(plans: seq<Plan>, attempts: seq<Attempt>, receipts: seq<PlanReceipt>, good: nat)
    requires good <= |attempts| <= |plans| && |receipts| == |attempts| && Turns(plans, attempts, receipts, good)
    ensures GoodTurns(plans, attempts) == good
  {
    if good < |attempts| {
      assert BadTurn(plans[good], attempts[good], receipts[good]);
    } else if good > 0 {
      assert GoodTurn(plans[good - 1], attempts[good - 1], receipts[good - 1]);
    }
  }

  lemma ClosedShape(plans: seq<Plan>, attempts: seq<Attempt>, receipts: seq<PlanReceipt>, good: nat, lock: LockRun,
                    loopStatus: BatchStatus, r: BatchReceipt)
    requires good <= |attempts| <= |plans| && |receipts| == |attempts| > 0 && Turns(plans, attempts, receipts, good)
    requires good == |attempts| ==> |attempts| == |plans| && loopStatus == VerifiedPaused
    requires good < |attempts| ==> loopStatus == FailureStatus(plans[good], attempts[good])
    requires LockWellFormed(lock)
    requires r == BatchReceipt(if Locked(lock) then loopStatus else BatchRelockFailed, receipts,
                               LockReceipt(lock), Locked(lock))
    ensures ExecuteShape(plans, attempts, Some(lock), Returned(r))
  {
    GoodTurnsCounted(plans, attempts, receipts, good);
  }
}
