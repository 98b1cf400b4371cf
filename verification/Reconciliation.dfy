/** TestExecutionEngine.reconcile: resolve an indeterminate create by discovery, pause and readback,
    without ever issuing another create. */
module Reconciliation {
  import opened Common
  import opened Payloads
  import opened Platform
  import opened Readback
  import opened Sorting
  import opened Traces
  import opened Execution

  // ----- discovery -----

  /** The rows carrying exactly the expected campaign name. */
  function NamedCampaigns(rows: seq<CampaignRow>, name: Field): (r: seq<CampaignRow>)
    ensures forall i :: 0 <= i < |r| ==> r[i] in rows && r[i].name == name
    ensures r == [] <==> forall i :: 0 <= i < |rows| ==> rows[i].name != name
  {
    if rows == [] then []
    else
      var rest := NamedCampaigns(rows[..|rows| - 1], name);
      if rows[|rows| - 1].name == name then rest + [rows[|rows| - 1]] else rest
  }

  /** `row.get("name") or row.get("unit_name")`; 0 stands for the empty string. */
  function UnitTitle(u: UnitRow): Field {
    if u.name == None || u.name == Some(0) then u.unitName else u.name
  }

  /** The rows that go by the expected unit name. */
  function NamedUnits(rows: seq<UnitRow>, name: Field): (r: seq<UnitRow>)
    ensures forall i :: 0 <= i < |r| ==> r[i] in rows && UnitTitle(r[i]) == name
    ensures r == [] <==> forall i :: 0 <= i < |rows| ==> UnitTitle(rows[i]) != name
  {
    if rows == [] then []
    else
      var rest := NamedUnits(rows[..|rows| - 1], name);
      if UnitTitle(rows[|rows| - 1]) == name then rest + [rows[|rows| - 1]] else rest
  }

  function NotesOf(creatives: seq<CreativeSpec>): set<Field> {
    set i | 0 <= i < |creatives| :: creatives[i].note
  }

  function NotedCreatives(rows: seq<CreativeRow>, notes: set<Field>): seq<CreativeRow> {
    if rows == [] then []
    else
      var rest := NotedCreatives(rows[..|rows| - 1], notes);
      if rows[|rows| - 1].note in notes then rest + [rows[|rows| - 1]] else rest
  }

  /** int(row.get(key, 0)) with conversion errors caught as 0. */
  function IntOrZero(f: IdField): int {
    if ToInt(f).Some? then ToInt(f).value else 0
  }

  function IdFields(rows: seq<CreativeRow>): seq<IdField> {
    seq(|rows|, i requires 0 <= i < |rows| => rows[i].id)
  }

  function IdsOrNone(rows: seq<CreativeRow>): seq<int> {
    var ids := Ints(IdFields(rows));
    if ids.Some? then ids.value else []
  }

  function FoundCampaign(p: Payload, rows: seq<CampaignRow>): int {
    var exact := NamedCampaigns(rows, p.campaign.name);
    if |exact| == 1 then IntOrZero(exact[0].id) else 0
  }

  function FoundUnit(p: Payload, rows: seq<UnitRow>): int {
    var exact := NamedUnits(rows, p.group.name);
    if |exact| == 1 then IntOrZero(exact[0].id) else 0
  }

  function FoundCreatives(p: Payload, rows: seq<CreativeRow>): seq<int> {
    IdsOrNone(NotedCreatives(rows, NotesOf(p.creatives)))
  }

  predicate CreativesFit(p: Payload, group: int, ids: seq<int>) {
    group > 0 && |ids| == |p.creatives| && AllPositive(ids)
  }

  /** The campaign, unit and creatives a complete discovery settles on. */
  function FoundIds(p: Payload, cs: seq<CampaignRow>, us: seq<UnitRow>, rs: seq<CreativeRow>): ObjectIds {
    ObjectIds(FoundCampaign(p, cs), FoundUnit(p, us), FoundCreatives(p, rs))
  }

  predicate UniquelyFound(p: Payload, cs: seq<CampaignRow>, us: seq<UnitRow>, rs: seq<CreativeRow>) {
    && |NamedCampaigns(cs, p.campaign.name)| == 1 && FoundCampaign(p, cs) > 0
    && |NamedUnits(us, p.group.name)| == 1
    && CreativesFit(p, FoundUnit(p, us), FoundCreatives(p, rs))
  }

  // ----- what one plan's turn can do -----

  datatype Finding =
    | DiscoveryFailed(campaignReply: Reply<seq<CampaignRow>>)
    | Absent(cs: seq<CampaignRow>)
    | CampaignUnclear(cs: seq<CampaignRow>)
    | UnitsUnknown(cs: seq<CampaignRow>, unitReply: Reply<seq<UnitRow>>)
    | UnitUnclear(cs: seq<CampaignRow>, us: seq<UnitRow>)
    | CreativesUnknown(cs: seq<CampaignRow>, us: seq<UnitRow>, creativeReply: Reply<seq<CreativeRow>>)
    | CreativesUnclear(cs: seq<CampaignRow>, us: seq<UnitRow>, rs: seq<CreativeRow>)
    | PauseRefused(cs: seq<CampaignRow>, us: seq<UnitRow>, rs: seq<CreativeRow>, pauseReply: Reply<seq<int>>)
    | FoundThen(cs: seq<CampaignRow>, us: seq<UnitRow>, rs: seq<CreativeRow>, acknowledged: seq<int>, probe: Probe)

  /** The finding says what the replies mean for this plan. */
  predicate FindingWellFormed(p: Payload, f: Finding) {
    match f
    case DiscoveryFailed(r) => !r.Answer?
    case Absent(cs) => NamedCampaigns(cs, p.campaign.name) == []
    case CampaignUnclear(cs) =>
      |NamedCampaigns(cs, p.campaign.name)| > 1
      || (|NamedCampaigns(cs, p.campaign.name)| == 1 && FoundCampaign(p, cs) <= 0)
    case UnitsUnknown(cs, r) => FoundCampaign(p, cs) > 0 && !r.Answer?
    case UnitUnclear(cs, us) => FoundCampaign(p, cs) > 0 && |NamedUnits(us, p.group.name)| != 1
    case CreativesUnknown(cs, us, r) => FoundCampaign(p, cs) > 0 && |NamedUnits(us, p.group.name)| == 1 && !r.Answer?
    case CreativesUnclear(cs, us, rs) =>
      && FoundCampaign(p, cs) > 0 && |NamedUnits(us, p.group.name)| == 1
      && !CreativesFit(p, FoundUnit(p, us), FoundCreatives(p, rs))
    case PauseRefused(cs, us, rs, r) => UniquelyFound(p, cs, us, rs) && !PauseTaken(FoundIds(p, cs, us, rs), r)
    case FoundThen(cs, us, rs, ack, probe) =>
      UniquelyFound(p, cs, us, rs) && FoundCampaign(p, cs) in ack && ProbeWellFormed(probe)
  }

  function Discovery(p: Payload, r: Reply<seq<CampaignRow>>): Call {
    ListCampaigns([], p.campaign.name, r)
  }

  function UnitQuery(p: Payload, cs: seq<CampaignRow>, r: Reply<seq<UnitRow>>): Call {
    ListUnits([], Some(FoundCampaign(p, cs)), r)
  }

  function CreativeQuery(p: Payload, us: seq<UnitRow>, r: Reply<seq<CreativeRow>>): Call {
    SearchCreatives([], Some(FoundUnit(p, us)), r)
  }

  /** The calls after the unit query. */
  function CreativeCalls(p: Payload, f: Finding): (calls: seq<Call>)
    ensures Passive(calls) && !Enables(calls)
  {
    match f
    case CreativesUnknown(_, us, r) => [CreativeQuery(p, us, r)]
    case CreativesUnclear(_, us, rs) => [CreativeQuery(p, us, Answer(rs))]
    case PauseRefused(_, us, rs, _) => [CreativeQuery(p, us, Answer(rs))] + ClosingCalls(p, f)
    case FoundThen(_, us, rs, _, _) => [CreativeQuery(p, us, Answer(rs))] + ClosingCalls(p, f)
    case _ => []
  }

  /** The calls after the campaign discovery. */
  function DeepCalls(p: Payload, f: Finding): (calls: seq<Call>)
    ensures Passive(calls) && !Enables(calls)
  {
    match f
    case DiscoveryFailed(_) => []
    case Absent(_) => []
    case CampaignUnclear(_) => []
    case UnitsUnknown(cs, r) => [UnitQuery(p, cs, r)]
    case _ => [UnitQuery(p, f.cs, Answer(f.us))] + CreativeCalls(p, f)
  }

  /** The calls of the turn; none of them creates, relocks or enables. */
  function FindingCalls(p: Payload, f: Finding): (calls: seq<Call>)
    ensures Passive(calls) && !Enables(calls)
  {
    if f.DiscoveryFailed? then [Discovery(p, f.campaignReply)]
    else [Discovery(p, Answer(f.cs))] + DeepCalls(p, f)
  }

  /** What follows a complete discovery: the pause, then the readback. */
  function ClosingCalls(p: Payload, f: Finding): (calls: seq<Call>)
    ensures Passive(calls) && !Enables(calls)
  {
    match f
    case PauseRefused(cs, _, _, r) => [SetStatus([FoundCampaign(p, cs)], false, r)]
    case FoundThen(cs, us, rs, ack, probe) =>
      [SetStatus([FoundCampaign(p, cs)], false, Answer(ack))] + ProbeCalls(FoundIds(p, cs, us, rs), probe)
    case _ => []
  }

  /** Uniquely found, its pause acknowledged, and read back clean. */
  ghost predicate FoundClean(p: Payload, f: Finding) {
    match f
    case FoundThen(cs, us, rs, _, probe) => FindingWellFormed(p, f) && ProbeClean(p, FoundIds(p, cs, us, rs), probe)
    case _ => false
  }

  ghost predicate Settled(p: Payload, f: Finding) {
    match f
    case Absent(_) => FindingWellFormed(p, f)
    case _ => FoundClean(p, f)
  }

  function UnsettledStatus(p: Payload, f: Finding): BatchStatus {
    match f
    case DiscoveryFailed(r) => if r.Refused? then BatchReconcileRequired else BatchRecoveryRequired
    case Absent(_) => ReconciledNotCreated
    case CampaignUnclear(_) => BatchRecoveryRequired
    case UnitsUnknown(_, r) => if r.Refused? then BatchReconcileRequired else BatchRecoveryRequired
    case UnitUnclear(_, _) => BatchRecoveryRequired
    case CreativesUnknown(_, _, r) => if r.Refused? then BatchReconcileRequired else BatchRecoveryRequired
    case CreativesUnclear(_, _, _) => BatchRecoveryRequired
    case PauseRefused(_, _, _, _) => BatchPauseFailed
    case FoundThen(cs, us, rs, _, probe) =>
      if ProbeRaises(p, FoundIds(p, cs, us, rs), probe) then BatchRecoveryRequired else BatchReadbackMismatch
  }

  /** The receipt an unsettled turn leaves behind. */
  function UnsettledReceipt(plan: Plan, f: Finding): PlanReceipt {
    match f
    case DiscoveryFailed(r) => ErrorReceipt(plan, None, if r.Refused? then r.code else UnexpectedCampaignDiscovery)
    case CampaignUnclear(cs) =>
      ErrorReceipt(plan, None,
                   if |NamedCampaigns(cs, plan.payload.campaign.name)| != 1 then CampaignAmbiguous
                   else CampaignIdMissing)
    case UnitsUnknown(_, r) => ErrorReceipt(plan, None, if r.Refused? then r.code else UnexpectedUnitDiscovery)
    case UnitUnclear(_, _) => ErrorReceipt(plan, None, UnitAmbiguous)
    case CreativesUnknown(_, _, r) =>
      ErrorReceipt(plan, None, if r.Refused? then r.code else UnexpectedCreativityDiscovery)
    case CreativesUnclear(_, _, _) => ErrorReceipt(plan, None, CreativityAmbiguous)
    case PauseRefused(cs, us, rs, r) => ErrorReceipt(plan, Some(FoundIds(plan.payload, cs, us, rs)), PauseCode(r))
    case FoundThen(cs, us, rs, _, probe) =>
      var ids := FoundIds(plan.payload, cs, us, rs);
      if ProbeRaises(plan.payload, ids, probe) then ErrorReceipt(plan, Some(ids), UnexpectedReadbackError)
      else ProbeReceipt(plan, ids, probe)
    case Absent(_) => PlanReceipt(plan.revision, None, true, true, [ObjectNotCreated])
  }

  // ----- the shape of a whole run -----

  ghost predicate SettledTurn(plan: Plan, f: Finding, r: PlanReceipt) {
    match f
    case Absent(_) =>
      && Intact(plan) && FindingWellFormed(plan.payload, f)
      && r == PlanReceipt(plan.revision, None, true, true, [ObjectNotCreated])
    case FoundThen(cs, us, rs, _, _) =>
      && Intact(plan) && FoundClean(plan.payload, f)
      && r == PlanReceipt(plan.revision, Some(FoundIds(plan.payload, cs, us, rs)), true, true, [])
    case _ => false
  }

  ghost predicate UnsettledTurn(plan: Plan, f: Finding, r: PlanReceipt) {
    && Intact(plan) && FindingWellFormed(plan.payload, f) && !Settled(plan.payload, f)
    && r == UnsettledReceipt(plan, f) && r.revision == plan.revision && !r.readbackVerified
  }

  ghost predicate ReconcileTurns(plans: seq<Plan>, fs: seq<Finding>, receipts: seq<PlanReceipt>, good: nat)
    requires good <= |fs| <= |plans| && |receipts| == |fs|
  {
    && good <= |fs| <= good + 1
    && (forall i :: 0 <= i < good ==> SettledTurn(plans[i], fs[i], receipts[i]))
    && (good < |fs| ==> UnsettledTurn(plans[good], fs[good], receipts[good]))
  }

  predicate AnyFound(fs: seq<Finding>) {
    exists i :: 0 <= i < |fs| && fs[i].FoundThen?
  }

  ghost predicate AllSettled(plans: seq<Plan>, fs: seq<Finding>) {
    |fs| == |plans| && forall i :: 0 <= i < |fs| ==> Settled(plans[i].payload, fs[i])
  }

  ghost function SettledTurns(plans: seq<Plan>, fs: seq<Finding>): (n: nat)
    requires |fs| <= |plans|
    ensures n <= |fs|
  {
    if fs != [] && Settled(plans[|fs| - 1].payload, fs[|fs| - 1]) then |fs|
    else if fs != [] then |fs| - 1
    else 0
  }

  /** A run over nonempty plans after an accepted preflight. */
  ghost predicate ReconcileShape(plans: seq<Plan>, fs: seq<Finding>, lock: Option<LockRun>, outcome: Outcome) {
    match outcome
    case Raised(cause) =>
      && cause == HashMismatch && lock == None
      && |fs| < |plans| && !Intact(plans[|fs|])
      && forall i :: 0 <= i < |fs| ==> Intact(plans[i]) && Settled(plans[i].payload, fs[i])
    case Returned(r) =>
      && lock.Some? && LockWellFormed(lock.value)
      && r.lockVerified == Locked(lock.value) && r.relockReceipt == LockReceipt(lock.value)
      && 0 < |fs| == |r.receipts| <= |plans|
      && var good := SettledTurns(plans, fs);
         && ReconcileTurns(plans, fs, r.receipts, good)
         && (good == |fs| ==> |fs| == |plans|)
         && r.status == (if !r.lockVerified then BatchRelockFailed
                         else if good < |fs| then UnsettledStatus(plans[good].payload, fs[good])
                         else if AnyFound(fs) then ReconciledVerifiedPaused
                         else ReconciledNotCreated)
  }

  function FindingBlocks(plans: seq<Plan>, fs: seq<Finding>): (blocks: seq<Block>)
    requires |fs| <= |plans|
    ensures |blocks| == |fs|
    ensures forall i :: 0 <= i < |blocks| ==> Passive(blocks[i]) && !Enables(blocks[i])
  {
    if fs == [] then []
    else
      var n := |fs| - 1;
      FindingBlocks(plans, fs[..n]) + [FindingCalls(plans[n].payload, fs[n])]
  }

  function ReconcileTrace(plans: seq<Plan>, fs: seq<Finding>, lock: Option<LockRun>): seq<Call>
    requires |fs| <= |plans|
  {
    [Preflight(true)] + Flatten(FindingBlocks(plans, fs)) + LockBlock(lock)
  }

  // ----- theorems about every run -----

  /** No run of reconcile creates or enables anything, and one that returns relocks exactly once. */
  lemma NeverCreates(plans: seq<Plan>, fs: seq<Finding>, lock: Option<LockRun>)
    requires |fs| <= |plans|
    ensures Creates(ReconcileTrace(plans, fs, lock)) == []
    ensures !Enables(ReconcileTrace(plans, fs, lock))
    ensures Relocks(ReconcileTrace(plans, fs, lock)) == if lock.Some? then 1 else 0
  {
    var head, body := [Preflight(true)], Flatten(FindingBlocks(plans, fs));
    FlattenPassive(FindingBlocks(plans, fs));
    FlattenNever(FindingBlocks(plans, fs));
    CountsNothing(head + body);
    CountsConcat(head + body, LockBlock(lock));
    if lock.Some? {
      CountsFirst(LockCalls(lock.value), LockCalls(lock.value)[0]);
    }
  }

  lemma UnsettledIsNotSuccess(p: Payload, f: Finding)
    requires FindingWellFormed(p, f) && !Settled(p, f)
    ensures UnsettledStatus(p, f) !in {ReconciledNotCreated, ReconciledVerifiedPaused, VerifiedPaused}
  {
  }

  lemma TurnsAreSettled(plans: seq<Plan>, fs: seq<Finding>, receipts: seq<PlanReceipt>, good: nat)
    requires good <= |fs| <= |plans| && |receipts| == |fs| && ReconcileTurns(plans, fs, receipts, good)
    ensures forall i :: 0 <= i < good ==> Settled(plans[i].payload, fs[i])
    ensures good < |fs| ==> !Settled(plans[good].payload, fs[good]) && FindingWellFormed(plans[good].payload, fs[good])
    ensures forall i :: 0 <= i < good ==>
              receipts[i].revision == plans[i].revision && receipts[i].pauseVerified && receipts[i].readbackVerified
    ensures good < |fs| ==> !receipts[good].readbackVerified
  {
    forall i | 0 <= i < good
      ensures Settled(plans[i].payload, fs[i])
      ensures receipts[i].revision == plans[i].revision && receipts[i].pauseVerified && receipts[i].readbackVerified
    {
      assert SettledTurn(plans[i], fs[i], receipts[i]);
    }
    if good < |fs| {
      assert UnsettledTurn(plans[good], fs[good], receipts[good]);
    }
  }

  /** The two success statuses are exact. NOT_CREATED: the lock is verified and every plan's campaign is
      absent. VERIFIED_PAUSED: the lock is verified, every plan is absent or uniquely found, paused and
      clean, and at least one was found. Either way the receipt is what a stored success promises. */
  lemma ReconcileStatusIsExact(plans: seq<Plan>, fs: seq<Finding>, lock: Option<LockRun>, r: BatchReceipt)
    requires ReconcileShape(plans, fs, lock, Returned(r))
    ensures r.status == ReconciledNotCreated <==>
              lock.Some? && Locked(lock.value) && AllSettled(plans, fs) && !AnyFound(fs)
    ensures r.status == ReconciledVerifiedPaused <==>
              lock.Some? && Locked(lock.value) && AllSettled(plans, fs) && AnyFound(fs)
    ensures r.status in {ReconciledNotCreated, ReconciledVerifiedPaused} <==> FullyVerified(plans, r)
    ensures r.status != VerifiedPaused
  {
    var good := SettledTurns(plans, fs);
    TurnsAreSettled(plans, fs, r.receipts, good);
    if good < |fs| {
      UnsettledIsNotSuccess(plans[good].payload, fs[good]);
    }
  }

  /** With intact plans a reconcile never raises past its relock. */
  lemma ReconcileAlwaysRelocks(plans: seq<Plan>, fs: seq<Finding>, lock: Option<LockRun>, outcome: Outcome)
    requires ReconcileShape(plans, fs, lock, outcome)
    ensures outcome.Raised? <==> lock == None
    ensures outcome.Raised? ==> |fs| < |plans| && !Intact(plans[|fs|])
    ensures AllIntact(plans) ==> outcome.Returned?
  {
  }

  // ----- the order in which discovery lists the creatives -----

  /** A discovery that goes through, and a readback that lists the same creative rows again. */
  function FoundAgain(cs: seq<CampaignRow>, us: seq<UnitRow>, rs: seq<CreativeRow>, ack: seq<int>,
                      campaigns: seq<CampaignRow>, units: seq<UnitRow>): Finding {
    FoundThen(cs, us, rs, ack, Probed(campaigns, units, rs))
  }

  predicate Carries(row: CreativeRow, spec: CreativeSpec) {
    row.note == spec.note && row.conversion == spec.conversion
  }

  /** Row by row, what discovery lists is what the plan lists. */
  predicate ListedAsPlanned(p: Payload, rs: seq<CreativeRow>) {
    |rs| == |p.creatives| && forall i :: 0 <= i < |rs| ==> Carries(rs[i], p.creatives[i])
  }

  predicate AllNoted(rs: seq<CreativeRow>, notes: set<Field>) {
    forall i :: 0 <= i < |rs| ==> rs[i].note in notes
  }

  lemma {:induction false} NotedAreFewer(rs: seq<CreativeRow>, notes: set<Field>)
    ensures |NotedCreatives(rs, notes)| <= |rs|
    ensures |NotedCreatives(rs, notes)| == |rs| <==> AllNoted(rs, notes)
    ensures AllNoted(rs, notes) ==> NotedCreatives(rs, notes) == rs
  {
    if rs != [] {
      var n := |rs| - 1;
      NotedAreFewer(rs[..n], notes);
      assert rs == rs[..n] + [rs[n]];
      assert AllNoted(rs, notes) <==> AllNoted(rs[..n], notes) && rs[n].note in notes;
    }
  }

  predicate NumberedBy(rs: seq<CreativeRow>, ids: seq<int>) {
    |ids| == |rs| && forall i :: 0 <= i < |rs| ==> ToInt(rs[i].id) == Some(ids[i])
  }

  lemma {:induction false} IntsAreNumbers(rs: seq<CreativeRow>, ids: seq<int>)
    ensures Ints(IdFields(rs)) == Some(ids) <==> NumberedBy(rs, ids)
  {
    if rs != [] {
      assert IdFields(rs)[1..] == IdFields(rs[1..]);
      if ids != [] {
        IntsAreNumbers(rs[1..], ids[1..]);
        assert ids == [ids[0]] + ids[1..];
        HeadNumbered(rs, ids);
      }
    }
  }

  lemma HeadNumbered(rs: seq<CreativeRow>, ids: seq<int>)
    requires rs != [] && ids != []
    ensures NumberedBy(rs, ids) <==> ToInt(rs[0].id) == Some(ids[0]) && NumberedBy(rs[1..], ids[1..])
  {
    if ToInt(rs[0].id) == Some(ids[0]) && NumberedBy(rs[1..], ids[1..]) {
      forall i | 0 <= i < |rs| ensures ToInt(rs[i].id) == Some(ids[i]) {
        if i > 0 {
          assert ToInt(rs[1..][i - 1].id) == Some(ids[1..][i - 1]);
        }
      }
    }
  }

  /** Rows of distinct positive ids, all carrying notes of the plan: their ids are found in row order, and
      each creative is confirmed exactly if the row at its own place carries it. */
  lemma FoundInRowOrder(p: Payload, rs: seq<CreativeRow>, ids: seq<int>)
    requires AllNoted(rs, NotesOf(p.creatives)) && NumberedBy(rs, ids) && DistinctIds(rs) && |rs| == |p.creatives|
    ensures FoundCreatives(p, rs) == ids
    ensures (forall i :: 0 <= i < |ids| ==> CreativeMatches(p, ids, rs, i)) <==> ListedAsPlanned(p, rs)
  {
    NotedAreFewer(rs, NotesOf(p.creatives));
    IntsAreNumbers(rs, ids);
    forall i | 0 <= i < |ids| ensures CreativeMatches(p, ids, rs, i) <==> Carries(rs[i], p.creatives[i]) {
      LookupIsMember(rs, ids[i], rs[i]);
    }
  }

  lemma CleanRowsAreNumbered(p: Payload, cs: seq<CampaignRow>, us: seq<UnitRow>, rs: seq<CreativeRow>, ack: seq<int>,
                             campaigns: seq<CampaignRow>, units: seq<UnitRow>)
    requires FoundClean(p, FoundAgain(cs, us, rs, ack, campaigns, units)) && DistinctIds(rs)
    ensures AllNoted(rs, NotesOf(p.creatives)) && NumberedBy(rs, FoundCreatives(p, rs))
    ensures AllPositive(FoundCreatives(p, rs))
    ensures ListedAsPlanned(p, rs)
  {
    NotedAreFewer(rs, NotesOf(p.creatives));
    IntsAreNumbers(rs, FoundCreatives(p, rs));
    FoundInRowOrder(p, rs, FoundCreatives(p, rs));
  }

  function NumbersOf(rs: seq<CreativeRow>): seq<int>
    requires forall i :: 0 <= i < |rs| ==> ToInt(rs[i].id).Some?
  {
    seq(|rs|, i requires 0 <= i < |rs| => ToInt(rs[i].id).value)
  }

  /** What a clean finding says about its creative rows. */
  predicate RowsClean(p: Payload, rs: seq<CreativeRow>) {
    var ids := FoundCreatives(p, rs);
    && |rs| == |p.creatives| == |ids| && AllPositive(ids) && Numbered(rs)
    && (forall i :: 0 <= i < |ids| ==> CreativeMatches(p, ids, rs, i))
    && forall i :: 0 <= i < |rs| ==> CreativePaused(rs[i])
  }

  /** A clean finding stays clean exactly if the rows it is given instead are. */
  lemma OtherRowsClean(p: Payload, cs: seq<CampaignRow>, us: seq<UnitRow>, rs: seq<CreativeRow>, ack: seq<int>,
                       campaigns: seq<CampaignRow>, units: seq<UnitRow>, others: seq<CreativeRow>)
    requires FoundClean(p, FoundAgain(cs, us, rs, ack, campaigns, units))
    ensures FoundClean(p, FoundAgain(cs, us, others, ack, campaigns, units)) <==> RowsClean(p, others)
  {
  }

  /** The same rows in another order are confirmed exactly if they are listed as planned. */
  lemma PermutedIsCleanExactly(p: Payload, rs: seq<CreativeRow>, others: seq<CreativeRow>)
    requires RowsClean(p, rs) && AllNoted(rs, NotesOf(p.creatives)) && NumberedBy(rs, FoundCreatives(p, rs))
    requires DistinctIds(rs)
    requires multiset(others) == multiset(rs)
    ensures RowsClean(p, others) <==> ListedAsPlanned(p, others)
  {
    SameSize(others, rs);
    PermutedIdsDistinct(rs, others);
    forall i | 0 <= i < |others|
      ensures others[i].note in NotesOf(p.creatives) && CreativePaused(others[i])
      ensures ToInt(others[i].id).Some? && ToInt(others[i].id).value > 0
    {
      RowIsKept(p, rs, others, i);
    }
    FoundInRowOrder(p, others, NumbersOf(others));
  }

  lemma RowIsKept(p: Payload, rs: seq<CreativeRow>, others: seq<CreativeRow>, i: nat)
    requires RowsClean(p, rs) && AllNoted(rs, NotesOf(p.creatives)) && NumberedBy(rs, FoundCreatives(p, rs))
    requires multiset(others) == multiset(rs) && i < |others|
    ensures others[i].note in NotesOf(p.creatives) && CreativePaused(others[i])
    ensures ToInt(others[i].id).Some? && ToInt(others[i].id).value > 0
  {
    SameMembers(others, rs, others[i]);
    var k :| 0 <= k < |rs| && rs[k] == others[i];
  }

  predicate AllAlike(specs: seq<CreativeSpec>) {
    forall i, j :: 0 <= i < |specs| && 0 <= j < |specs| ==> specs[i] == specs[j]
  }

  /** Every order of the rows is found clean. */
  ghost predicate CleanInAnyOrder(p: Payload, cs: seq<CampaignRow>, us: seq<UnitRow>, rs: seq<CreativeRow>,
                                  ack: seq<int>, campaigns: seq<CampaignRow>, units: seq<UnitRow>)
  {
    forall others :: multiset(others) == multiset(rs) ==>
      FoundClean(p, FoundAgain(cs, us, others, ack, campaigns, units))
  }

  lemma AlikeIsClean(p: Payload, cs: seq<CampaignRow>, us: seq<UnitRow>, rs: seq<CreativeRow>, ack: seq<int>,
                     campaigns: seq<CampaignRow>, units: seq<UnitRow>)
    requires FoundClean(p, FoundAgain(cs, us, rs, ack, campaigns, units)) && DistinctIds(rs) && AllAlike(p.creatives)
    ensures CleanInAnyOrder(p, cs, us, rs, ack, campaigns, units)
  {
    CleanRowsAreNumbered(p, cs, us, rs, ack, campaigns, units);
    OtherRowsClean(p, cs, us, rs, ack, campaigns, units, rs);
    forall others | multiset(others) == multiset(rs)
      ensures FoundClean(p, FoundAgain(cs, us, others, ack, campaigns, units))
    {
      AlikeInAnyOrder(p, rs, others);
      PermutedIsCleanExactly(p, rs, others);
      OtherRowsClean(p, cs, us, rs, ack, campaigns, units, others);
    }
  }

  lemma UnlikeIsNotClean(p: Payload, cs: seq<CampaignRow>, us: seq<UnitRow>, rs: seq<CreativeRow>, ack: seq<int>,
                         campaigns: seq<CampaignRow>, units: seq<UnitRow>)
    requires FoundClean(p, FoundAgain(cs, us, rs, ack, campaigns, units)) && DistinctIds(rs) && !AllAlike(p.creatives)
    ensures !CleanInAnyOrder(p, cs, us, rs, ack, campaigns, units)
  {
    CleanRowsAreNumbered(p, cs, us, rs, ack, campaigns, units);
    OtherRowsClean(p, cs, us, rs, ack, campaigns, units, rs);
    var i, j :| 0 <= i < |p.creatives| && 0 <= j < |p.creatives| && p.creatives[i] != p.creatives[j];
    var others := rs[i := rs[j]][j := rs[i]];
    SwapIsPermutation(rs, i, j);
    PermutedIsCleanExactly(p, rs, others);
    OtherRowsClean(p, cs, us, rs, ack, campaigns, units, others);
    assert Carries(rs[j], p.creatives[j]) && others[i] == rs[j];
  }

  /** Unlike in the readback, the order in which discovery lists the creatives decides the verdict, because ids
      are taken in that order and compared with the plan's creatives place by place. Given one order that is
      found clean, every order is, exactly if the plan's creatives all carry the same note and conversion. */
  lemma CreativeOrderIsIrrelevantExactly(p: Payload, cs: seq<CampaignRow>, us: seq<UnitRow>, rs: seq<CreativeRow>,
                                         ack: seq<int>, campaigns: seq<CampaignRow>, units: seq<UnitRow>)
    requires FoundClean(p, FoundAgain(cs, us, rs, ack, campaigns, units)) && DistinctIds(rs)
    ensures CleanInAnyOrder(p, cs, us, rs, ack, campaigns, units) <==> AllAlike(p.creatives)
  {
    if AllAlike(p.creatives) {
      AlikeIsClean(p, cs, us, rs, ack, campaigns, units);
    } else {
      UnlikeIsNotClean(p, cs, us, rs, ack, campaigns, units);
    }
  }

  lemma AlikeInAnyOrder(p: Payload, rs: seq<CreativeRow>, others: seq<CreativeRow>)
    requires AllAlike(p.creatives) && ListedAsPlanned(p, rs) && multiset(others) == multiset(rs)
    ensures ListedAsPlanned(p, others)
  {
    SameSize(others, rs);
    forall i | 0 <= i < |others| ensures Carries(others[i], p.creatives[i]) {
      SameMembers(others, rs, others[i]);
      var k :| 0 <= k < |rs| && rs[k] == others[i];
      assert Carries(rs[k], p.creatives[k]);
    }
  }

  lemma SwapIsPermutation<T>(s: seq<T>, i: nat, j: nat)
    requires i < |s| && j < |s|
    ensures multiset(s[i := s[j]][j := s[i]]) == multiset(s)
  {
  }

  // ----- the code -----

  lemma ReconcileTurnsNext(plans: seq<Plan>, fs: seq<Finding>, receipts: seq<PlanReceipt>, f: Finding,
                           receipt: PlanReceipt)
    requires |fs| == |receipts| < |plans| && ReconcileTurns(plans, fs, receipts, |fs|)
    requires SettledTurn(plans[|fs|], f, receipt) || UnsettledTurn(plans[|fs|], f, receipt)
    ensures ReconcileTurns(plans, fs + [f], receipts + [receipt],
                           |fs| + if Settled(plans[|fs|].payload, f) then 1 else 0)
  {
    var more, moreReceipts := fs + [f], receipts + [receipt];
    forall i | 0 <= i < |fs| ensures SettledTurn(plans[i], more[i], moreReceipts[i]) {
      assert SettledTurn(plans[i], fs[i], receipts[i]);
    }
  }

  lemma FindingBlocksNext(plans: seq<Plan>, fs: seq<Finding>, f: Finding)
    requires |fs| < |plans|
    ensures Flatten(FindingBlocks(plans, fs + [f]))
            == Flatten(FindingBlocks(plans, fs)) + FindingCalls(plans[|fs|].payload, f)
  {
    assert (fs + [f])[..|fs|] == fs;
    FlattenNext(FindingBlocks(plans, fs), FindingCalls(plans[|fs|].payload, f));
  }

  lemma SettledTurnsCounted(plans: seq<Plan>, fs: seq<Finding>, receipts: seq<PlanReceipt>, good: nat)
    requires good <= |fs| <= |plans| && |receipts| == |fs| && ReconcileTurns(plans, fs, receipts, good)
    ensures SettledTurns(plans, fs) == good
  {
    TurnsAreSettled(plans, fs, receipts, good);
  }

  class Reconciler {
    const engine: TestExecutionEngine

    constructor (engine: TestExecutionEngine)
      ensures this.engine == engine
    {
      this.engine := engine;
    }

    /** One turn after the hash check: discover, then pause and read back what was found. */
    method ReconcilePlan(plan: Plan)
      returns (settled: bool, found: bool, status: BatchStatus, receipt: PlanReceipt, ghost f: Finding)
      requires Intact(plan)
      modifies engine.world
      ensures engine.world.calls == old(engine.world.calls) + FindingCalls(plan.payload, f)
      ensures settled <==> Settled(plan.payload, f)
      ensures settled ==> SettledTurn(plan, f, receipt) && found == f.FoundThen?
      ensures !settled ==> UnsettledTurn(plan, f, receipt) && status == UnsettledStatus(plan.payload, f)
    {
      var world, p := engine.world, plan.payload;
      settled, found, status := false, false, BatchRecoveryRequired;
      var campaigns := world.DoListCampaigns([], p.campaign.name);
      if !campaigns.Answer? {
        f := DiscoveryFailed(campaigns);
        status := if campaigns.Refused? then BatchReconcileRequired else BatchRecoveryRequired;
        receipt := ErrorReceipt(plan, None, if campaigns.Refused? then campaigns.code else UnexpectedCampaignDiscovery);
        return;
      }
      var cs := campaigns.value;
      var exact := NamedCampaigns(cs, p.campaign.name);
      if exact == [] {
        f := Absent(cs);
        receipt := PlanReceipt(plan.revision, None, true, true, [ObjectNotCreated]);
        settled := true;
        return;
      }
      if |exact| != 1 {
        f := CampaignUnclear(cs);
        receipt := ErrorReceipt(plan, None, CampaignAmbiguous);
        return;
      }
      var campaign := IntOrZero(exact[0].id);
      if campaign <= 0 {
        f := CampaignUnclear(cs);
        receipt := ErrorReceipt(plan, None, CampaignIdMissing);
        return;
      }
      settled, found, status, receipt, f := ReconcileFound(plan, cs);
      Regroup(old(engine.world.calls), [Discovery(p, campaigns)], DeepCalls(p, f));
    }

    /** The rest of the turn, once exactly one campaign with a usable id is known. */
    method ReconcileFound(plan: Plan, cs: seq<CampaignRow>)
      returns (settled: bool, found: bool, status: BatchStatus, receipt: PlanReceipt, ghost f: Finding)
      requires Intact(plan)
      requires |NamedCampaigns(cs, plan.payload.campaign.name)| == 1 && FoundCampaign(plan.payload, cs) > 0
      modifies engine.world
      ensures engine.world.calls == old(engine.world.calls) + DeepCalls(plan.payload, f)
      ensures !f.DiscoveryFailed? && f.cs == cs
      ensures settled <==> Settled(plan.payload, f)
      ensures settled ==> SettledTurn(plan, f, receipt) && found == f.FoundThen?
      ensures !settled ==> UnsettledTurn(plan, f, receipt) && status == UnsettledStatus(plan.payload, f)
    {
      settled, found, status := false, false, BatchRecoveryRequired;
      var units := engine.world.DoListUnits([], Some(FoundCampaign(plan.payload, cs)));
      if !units.Answer? {
        f := UnitsUnknown(cs, units);
        status := if units.Refused? then BatchReconcileRequired else BatchRecoveryRequired;
        receipt := ErrorReceipt(plan, None, if units.Refused? then units.code else UnexpectedUnitDiscovery);
        return;
      }
      if |NamedUnits(units.value, plan.payload.group.name)| != 1 {
        f := UnitUnclear(cs, units.value);
        receipt := ErrorReceipt(plan, None, UnitAmbiguous);
        return;
      }
      settled, found, status, receipt, f := ReconcileUnit(plan, cs, units.value);
      Regroup(old(engine.world.calls), [UnitQuery(plan.payload, cs, units)], CreativeCalls(plan.payload, f));
    }

    /** The rest of the turn, once exactly one unit of that campaign is known too. */
    method ReconcileUnit(plan: Plan, cs: seq<CampaignRow>, us: seq<UnitRow>)
      returns (settled: bool, found: bool, status: BatchStatus, receipt: PlanReceipt, ghost f: Finding)
      requires Intact(plan)
      requires |NamedCampaigns(cs, plan.payload.campaign.name)| == 1 && FoundCampaign(plan.payload, cs) > 0
      requires |NamedUnits(us, plan.payload.group.name)| == 1
      modifies engine.world
      ensures engine.world.calls == old(engine.world.calls) + CreativeCalls(plan.payload, f)
      ensures (f.CreativesUnknown? || f.CreativesUnclear? || f.PauseRefused? || f.FoundThen?) && f.cs == cs
      ensures f.us == us
      ensures settled <==> Settled(plan.payload, f)
      ensures settled ==> SettledTurn(plan, f, receipt) && found == f.FoundThen?
      ensures !settled ==> UnsettledTurn(plan, f, receipt) && status == UnsettledStatus(plan.payload, f)
    {
      var p := plan.payload;
      settled, found, status := false, false, BatchRecoveryRequired;
      var creatives := engine.world.DoSearchCreatives([], Some(FoundUnit(p, us)));
      if !creatives.Answer? {
        f := CreativesUnknown(cs, us, creatives);
        status := if creatives.Refused? then BatchReconcileRequired else BatchRecoveryRequired;
        receipt :=
          ErrorReceipt(plan, None, if creatives.Refused? then creatives.code else UnexpectedCreativityDiscovery);
        return;
      }
      if !CreativesFit(p, FoundUnit(p, us), FoundCreatives(p, creatives.value)) {
        f := CreativesUnclear(cs, us, creatives.value);
        receipt := ErrorReceipt(plan, None, CreativityAmbiguous);
        return;
      }
      found := true;
      settled, status, receipt, f := CloseFound(plan, cs, us, creatives.value);
      Regroup(old(engine.world.calls), [CreativeQuery(p, us, creatives)], ClosingCalls(p, f));
    }

    /** The end of the turn, once campaign, unit and creatives are all known: pause, then read back. */
    method CloseFound(plan: Plan, cs: seq<CampaignRow>, us: seq<UnitRow>, rs: seq<CreativeRow>)
      returns (settled: bool, status: BatchStatus, receipt: PlanReceipt, ghost f: Finding)
      requires Intact(plan) && UniquelyFound(plan.payload, cs, us, rs)
      modifies engine.world
      ensures engine.world.calls == old(engine.world.calls) + ClosingCalls(plan.payload, f)
      ensures (f.PauseRefused? || f.FoundThen?) && f.cs == cs && f.us == us && f.rs == rs
      ensures settled <==> Settled(plan.payload, f)
      ensures settled ==> SettledTurn(plan, f, receipt) && f.FoundThen?
      ensures !settled ==> UnsettledTurn(plan, f, receipt) && status == UnsettledStatus(plan.payload, f)
    {
      var ids := FoundIds(plan.payload, cs, us, rs);
      settled, status := false, BatchRecoveryRequired;
      var paused := engine.world.DoSetStatus([ids.campaign], false);
      if !paused.Answer? || ids.campaign !in paused.value {
        f := PauseRefused(cs, us, rs, paused);
        status := BatchPauseFailed;
        receipt := ErrorReceipt(plan, Some(ids),
                                if paused.Refused? then paused.code
                                else if paused.Broken? then UnexpectedPauseError else PauseResponseMissingObject);
        return;
      }
      var raised; ghost var probe;
      raised, receipt, probe := engine.ReadBack(plan, ids);
      f := FoundThen(cs, us, rs, paused.value, probe);
      if raised {
        receipt := ErrorReceipt(plan, Some(ids), UnexpectedReadbackError);
        RaisingIsNotClean(plan.payload, ids, probe);
      } else if !receipt.readbackVerified {
        status := BatchReadbackMismatch;
      } else {
        settled := true;
      }
    }

    method RunLoop(plans: seq<Plan>)
      returns (mismatch: bool, receipts: seq<PlanReceipt>, status: BatchStatus, foundAny: bool,
               ghost fs: seq<Finding>, ghost good: nat)
      modifies engine.world
      ensures good <= |fs| == |receipts| <= |plans| && ReconcileTurns(plans, fs, receipts, good)
      ensures engine.world.calls == old(engine.world.calls) + Flatten(FindingBlocks(plans, fs))
      ensures mismatch ==> |fs| == good < |plans| && !Intact(plans[good])
      ensures !mismatch && good == |fs| ==>
                good == |plans| && status == ReconciledNotCreated && foundAny == AnyFound(fs)
      ensures !mismatch && good < |fs| ==> status == UnsettledStatus(plans[good].payload, fs[good])
    {
      mismatch, receipts, status, foundAny := false, [], ReconciledNotCreated, false;
      fs, good := [], 0;
      for n := 0 to |plans|
        invariant |fs| == |receipts| == good == n
        invariant engine.world.calls == old(engine.world.calls) + Flatten(FindingBlocks(plans, fs))
        invariant ReconcileTurns(plans, fs, receipts, good)
        invariant status == ReconciledNotCreated && foundAny == AnyFound(fs) && !mismatch
      {
        if Sha(plans[n].payload) != plans[n].payloadSha {
          mismatch := true;
          return;
        }
        ghost var f;
        var settled, found, failure, receipt;
        settled, found, failure, receipt, f := ReconcilePlan(plans[n]);
        ReconcileTurnsNext(plans, fs, receipts, f, receipt);
        FindingBlocksNext(plans, fs, f);
        Regroup(old(engine.world.calls), Flatten(FindingBlocks(plans, fs)), FindingCalls(plans[n].payload, f));
        AnyFoundNext(fs, f);
        fs, receipts := fs + [f], receipts + [receipt];
        if found {
          foundAny := true;
        }
        if !settled {
          status := failure;
          return;
        }
        good := good + 1;
      }
    }

    method RunBatch(plans: seq<Plan>) returns (outcome: Outcome, ghost fs: seq<Finding>, ghost lock: Option<LockRun>)
      requires plans != []
      modifies engine.world
      ensures ReconcileShape(plans, fs, lock, outcome) && |fs| <= |plans|
      ensures engine.world.calls == old(engine.world.calls) + Flatten(FindingBlocks(plans, fs)) + LockBlock(lock)
    {
      var mismatch, receipts, status, foundAny;
      ghost var good;
      mismatch, receipts, status, foundAny, fs, good := RunLoop(plans);
      lock := None;
      SettledTurnsCounted(plans, fs, receipts, good);
      if mismatch {
        Regroup(old(engine.world.calls), Flatten(FindingBlocks(plans, fs)), []);
        SettledAreIntact(plans, fs, receipts);
        return Raised(HashMismatch), fs, lock;
      }
      if foundAny && status == ReconciledNotCreated {
        status := ReconciledVerifiedPaused;
      }
      if good < |fs| {
        TurnsAreSettled(plans, fs, receipts, good);
        UnsettledIsNotSuccess(plans[good].payload, fs[good]);
      }
      var relockReceipt, lockVerified;
      ghost var run;
      relockReceipt, lockVerified, run := engine.CloseLock();
      lock := Some(run);
      if !lockVerified {
        status := BatchRelockFailed;
      }
      outcome := Returned(BatchReceipt(status, receipts, relockReceipt, lockVerified));
    }

    method Reconcile(plans: seq<Plan>) returns (outcome: Outcome, ghost fs: seq<Finding>, ghost lock: Option<LockRun>)
      modifies engine.world
      ensures plans == [] ==> outcome == Raised(EmptyBatch) && engine.world.calls == old(engine.world.calls)
      ensures plans != [] ==> outcome != Raised(EmptyBatch)
      ensures outcome == Raised(PreflightRefused) ==> engine.world.calls == old(engine.world.calls) + [Preflight(false)]
      ensures Proceeded(outcome) ==>
                && ReconcileShape(plans, fs, lock, outcome)
                && |fs| <= |plans|
                && engine.world.calls == old(engine.world.calls) + ReconcileTrace(plans, fs, lock)
    {
      fs, lock := [], None;
      if plans == [] {
        return Raised(EmptyBatch), fs, lock;
      }
      var ok := engine.world.DoPreflight();
      if !ok {
        return Raised(PreflightRefused), fs, lock;
      }
      outcome, fs, lock := RunBatch(plans);
      Glue(old(engine.world.calls), [Preflight(true)], Flatten(FindingBlocks(plans, fs)), LockBlock(lock));
    }
  }

  lemma AnyFoundNext(fs: seq<Finding>, f: Finding)
    ensures AnyFound(fs + [f]) <==> AnyFound(fs) || f.FoundThen?
  {
    var more := fs + [f];
    if AnyFound(fs) {
      var i :| 0 <= i < |fs| && fs[i].FoundThen?;
      assert more[i].FoundThen?;
    }
    if f.FoundThen? {
      assert more[|fs|].FoundThen?;
    }
  }

  lemma SettledAreIntact(plans: seq<Plan>, fs: seq<Finding>, receipts: seq<PlanReceipt>)
    requires |fs| == |receipts| < |plans| && ReconcileTurns(plans, fs, receipts, |fs|)
    ensures forall i :: 0 <= i < |fs| ==> Intact(plans[i]) && Settled(plans[i].payload, fs[i])
  {
    forall i | 0 <= i < |fs| ensures Intact(plans[i]) && Settled(plans[i].payload, fs[i]) {
      assert SettledTurn(plans[i], fs[i], receipts[i]);
    }
  }
}
