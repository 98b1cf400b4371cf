/** ProductionReleaseEngine: enable only behind an armed spend cap, and fall back to pause and relock.
    The trace of every run, against any platform and any safety adapter, is pinned down call by call. */
module Release {
  import opened Common
  import opened Payloads
  import opened Platform
  import opened Traces

  // ----- pause and relock -----

  datatype LockAttempt =
    | RelockFailed(relockReply: Reply<int>)
    | LockUnchecked(receipt: int)
    | LockChecked(receipt: int, verifyReply: Reply<bool>)

  /** One pause_and_relock: the reply to the pause, then how the relock went. */
  datatype PauseRun = PauseRun(pauseReply: Reply<seq<int>>, lock: LockAttempt)

  function SetOf(ids: seq<int>): set<int> {
    set i | 0 <= i < |ids| :: ids[i]
  }

  /** The reply names exactly these ids, in any order and with any repetition. */
  predicate AcknowledgesExactly(ids: seq<int>, r: Reply<seq<int>>) {
    r.Answer? && SetOf(r.value) == SetOf(ids)
  }

  /** The lock is only asked about when the pause was fully acknowledged. */
  predicate PauseWellFormed(ids: seq<int>, run: PauseRun) {
    match run.lock
    case RelockFailed(r) => !r.Answer?
    case LockUnchecked(_) => !AcknowledgesExactly(ids, run.pauseReply)
    case LockChecked(_, _) => AcknowledgesExactly(ids, run.pauseReply)
  }

  function RelockCalls(ids: seq<int>, lock: LockAttempt): seq<Call> {
    match lock
    case RelockFailed(r) => [EmergencyRelock(ids, r)]
    case LockUnchecked(receipt) => [EmergencyRelock(ids, Answer(receipt))]
    case LockChecked(receipt, r) => [EmergencyRelock(ids, Answer(receipt)), VerifyRelocked(receipt, r)]
  }

  function PauseCalls(ids: seq<int>, run: PauseRun): seq<Call> {
    [SetStatus(ids, false, run.pauseReply)] + RelockCalls(ids, run.lock)
  }

  predicate Safe(ids: seq<int>, run: PauseRun) {
    AcknowledgesExactly(ids, run.pauseReply) && run.lock.LockChecked? && run.lock.verifyReply == Answer(true)
  }

  /** The receipt id survives unless the relock or its verification raised. */
  function PauseReceipt(run: PauseRun): Option<int> {
    match run.lock
    case RelockFailed(_) => None
    case LockUnchecked(receipt) => Some(receipt)
    case LockChecked(receipt, r) => if r.Answer? then Some(receipt) else None
  }

  // ----- what an enable request can lead to -----

  /** The dict keyed by campaign id: the last row with an id wins. */
  function LookupCampaign(rows: seq<CampaignRow>, id: int): Option<CampaignRow> {
    if rows == [] then None
    else if ToInt(rows[|rows| - 1].id) == Some(id) then Some(rows[|rows| - 1])
    else LookupCampaign(rows[..|rows| - 1], id)
  }

  predicate RowsNumbered(rows: seq<CampaignRow>) {
    forall i :: 0 <= i < |rows| ==> rows[i].id != NotNumeric
  }

  predicate ReadsEnabled(row: CampaignRow) {
    row.enable == Some(1) && row.filterState != Some(2)
  }

  predicate LookedUpEnabled(rows: seq<CampaignRow>, id: int) {
    LookupCampaign(rows, id).Some? && ReadsEnabled(LookupCampaign(rows, id).value)
  }

  predicate LastRowFor(rows: seq<CampaignRow>, id: int, i: nat)
    requires i < |rows|
  {
    ToInt(rows[i].id) == Some(id) && forall k :: i < k < |rows| ==> ToInt(rows[k].id) != Some(id)
  }

  /** The last row the platform returned for this campaign says it is enabled. */
  ghost predicate LastRowEnabled(rows: seq<CampaignRow>, id: int) {
    exists i :: 0 <= i < |rows| && LastRowFor(rows, id, i) && ReadsEnabled(rows[i])
  }

  lemma {:induction false} LookupIsLastRow(rows: seq<CampaignRow>, id: int)
    ensures LookedUpEnabled(rows, id) <==> LastRowEnabled(rows, id)
  {
    if rows != [] {
      var n := |rows| - 1;
      if ToInt(rows[n].id) == Some(id) {
        assert LastRowFor(rows, id, n);
      } else {
        LookupIsLastRow(rows[..n], id);
        forall i | 0 <= i < n ensures LastRowFor(rows, id, i) <==> LastRowFor(rows[..n], id, i) {
        }
        if LastRowEnabled(rows, id) {
          var i :| 0 <= i < |rows| && LastRowFor(rows, id, i) && ReadsEnabled(rows[i]);
          assert LastRowFor(rows[..n], id, i);
        }
        if LastRowEnabled(rows[..n], id) {
          var i :| 0 <= i < n && LastRowFor(rows[..n], id, i) && ReadsEnabled(rows[..n][i]);
          assert LastRowFor(rows, id, i);
        }
      }
    }
  }

  predicate EnabledReadback(rows: seq<CampaignRow>, ids: seq<int>) {
    RowsNumbered(rows) && forall i :: 0 <= i < |ids| ==> LookedUpEnabled(rows, ids[i])
  }

  /** The calls between the verified cap and the verdict. */
  datatype Activation =
    | EnableUnclear(enableReply: Reply<seq<int>>)
    | ReadbackSilent(enabled: seq<int>, listReply: Reply<seq<CampaignRow>>)
    | ReadbackGiven(enabled: seq<int>, rows: seq<CampaignRow>)

  predicate ActivationWellFormed(ids: seq<int>, a: Activation) {
    match a
    case EnableUnclear(r) => !AcknowledgesExactly(ids, r)
    case ReadbackSilent(enabled, r) => SetOf(enabled) == SetOf(ids) && !r.Answer?
    case ReadbackGiven(enabled, _) => SetOf(enabled) == SetOf(ids)
  }

  function ActivationCalls(ids: seq<int>, a: Activation): seq<Call> {
    match a
    case EnableUnclear(r) => [SetStatus(ids, true, r)]
    case ReadbackSilent(enabled, r) => [SetStatus(ids, true, Answer(enabled)), ListCampaigns(ids, None, r)]
    case ReadbackGiven(enabled, rows) => [SetStatus(ids, true, Answer(enabled)), ListCampaigns(ids, None, Answer(rows))]
  }

  predicate Active(ids: seq<int>, a: Activation) {
    a.ReadbackGiven? && EnabledReadback(a.rows, ids)
  }

  function FailureCode(a: Activation): ErrorCode {
    match a
    case EnableUnclear(Answer(_)) => EnableResponseMissingObject
    case EnableUnclear(Refused(code)) => code
    case EnableUnclear(Broken) => InternalError
    case ReadbackSilent(_, Refused(code)) => code
    case ReadbackSilent(_, _) => InternalError
    case ReadbackGiven(_, rows) => if RowsNumbered(rows) then ReleaseReadbackMismatch else InternalError
  }

  // ----- whole runs of activate -----

  datatype ReleaseCause = IdsRefused | SafetyRefused | ArmRaised | ArmCheckRaised | CapNotArmed

  datatype ReleaseOutcome = NoRelease(cause: ReleaseCause) | Released(receipt: ReleaseReceipt)

  datatype ReleaseRun =
    | BadIds
    | PreflightRefused
    | ArmFailed(armReply: Reply<int>)
    | CapUnverified(armed: int, checkReply: Reply<bool>)
    | WentActive(armed: int, activation: Activation)
    | FellBack(armed: int, activation: Activation, pause: PauseRun)

  predicate UsableIds(ids: seq<int>) {
    ids != [] && forall i :: 0 <= i < |ids| ==> ids[i] > 0
  }

  predicate ReleaseWellFormed(terms: ReleaseTerms, run: ReleaseRun) {
    match run
    case BadIds => !UsableIds(terms.campaigns)
    case PreflightRefused => UsableIds(terms.campaigns)
    case ArmFailed(r) => UsableIds(terms.campaigns) && !r.Answer?
    case CapUnverified(_, r) => UsableIds(terms.campaigns) && r != Answer(true)
    case WentActive(_, a) =>
      UsableIds(terms.campaigns) && ActivationWellFormed(terms.campaigns, a) && Active(terms.campaigns, a)
    case FellBack(_, a, pause) =>
      UsableIds(terms.campaigns) && ActivationWellFormed(terms.campaigns, a) && !Active(terms.campaigns, a)
      && PauseWellFormed(terms.campaigns, pause)
  }

  /** The safety adapter's preflight, for exactly these terms. */
  function Cleared(terms: ReleaseTerms, ok: bool): Call {
    SafetyPreflight(terms.campaigns, terms.cap, terms.monitor, ok)
  }

  /** The guard calls before anything is enabled: the adapter clears the campaigns, cap and monitor, that cap
      is armed for those campaigns, and its receipt is verified as armed. */
  function Armed(terms: ReleaseTerms, receipt: int): seq<Call> {
    [Cleared(terms, true), ArmCap(terms.campaigns, terms.cap, Answer(receipt)), VerifyArmed(receipt, Answer(true))]
  }

  function ReleaseTrace(terms: ReleaseTerms, run: ReleaseRun): seq<Call> {
    match run
    case BadIds => []
    case PreflightRefused => [Cleared(terms, false)]
    case ArmFailed(r) => [Cleared(terms, true), ArmCap(terms.campaigns, terms.cap, r)]
    case CapUnverified(armed, r) =>
      [Cleared(terms, true), ArmCap(terms.campaigns, terms.cap, Answer(armed)), VerifyArmed(armed, r)]
    case WentActive(armed, a) => Armed(terms, armed) + ActivationCalls(terms.campaigns, a)
    case FellBack(armed, a, pause) =>
      Armed(terms, armed) + ActivationCalls(terms.campaigns, a) + PauseCalls(terms.campaigns, pause)
  }

  function ReleaseOutcomeOf(terms: ReleaseTerms, run: ReleaseRun): ReleaseOutcome {
    match run
    case BadIds => NoRelease(IdsRefused)
    case PreflightRefused => NoRelease(SafetyRefused)
    case ArmFailed(_) => NoRelease(ArmRaised)
    case CapUnverified(_, r) => NoRelease(if r.Answer? then CapNotArmed else ArmCheckRaised)
    case WentActive(armed, a) =>
      Released(ReleaseReceipt(ReleaseActive, terms.campaigns, terms.cap, armed,
                              if a.EnableUnclear? then [] else a.enabled, true, None, None))
    case FellBack(armed, a, pause) =>
      Released(ReleaseReceipt(if Safe(terms.campaigns, pause) then ReleaseFailedSafe else ReleaseEmergency,
                              terms.campaigns, terms.cap, armed, [], false,
                              PauseReceipt(pause), Some(FailureCode(a))))
  }

  // ----- theorems about every run -----

  predicate IsEnable(c: Call) {
    c.SetStatus? && c.enable
  }

  /** An enable is sent at most once, for exactly the requested campaigns, and only directly after the
      preflight passed for the given cap and monitor, exactly that cap was armed for exactly those
      campaigns, and its receipt was verified as armed. */
  lemma EnableOnlyBehindArmedCap(terms: ReleaseTerms, run: ReleaseRun, i: nat)
    requires ReleaseWellFormed(terms, run) && i < |ReleaseTrace(terms, run)| && IsEnable(ReleaseTrace(terms, run)[i])
    ensures i == 3 && UsableIds(terms.campaigns)
    ensures ReleaseTrace(terms, run)[i].ids == terms.campaigns
    ensures exists receipt :: ReleaseTrace(terms, run)[..3] == Armed(terms, receipt)
  {
    if run.WentActive? || run.FellBack? {
      assert ReleaseTrace(terms, run)[..3] == Armed(terms, run.armed);
    }
  }

  /** Somewhere in t, after position `from`, a pause of exactly these ids is followed at once by a relock of
      exactly these ids. */
  predicate PausesThenRelocks(t: seq<Call>, ids: seq<int>, from: nat) {
    exists k :: from < k < |t| - 1 && PauseAt(t, ids, k) && RelockAt(t, ids, k + 1)
  }

  predicate RelockAt(t: seq<Call>, ids: seq<int>, k: nat) {
    k < |t| && t[k].EmergencyRelock? && t[k].ids == ids
  }

  predicate PauseAt(t: seq<Call>, ids: seq<int>, k: nat) {
    k < |t| && t[k].SetStatus? && !t[k].enable && t[k].ids == ids
  }

  /** The pause at k was acknowledged for exactly the ids, those ids were then relocked, and the receipt of that
      very relock was verified. */
  predicate MadeSafeAt(t: seq<Call>, ids: seq<int>, k: nat) {
    && k + 2 < |t| && PauseAt(t, ids, k) && AcknowledgesExactly(ids, t[k].acknowledged)
    && RelockAt(t, ids, k + 1) && t[k + 1].relocked.Answer?
    && t[k + 2] == VerifyRelocked(t[k + 1].relocked.value, Answer(true))
  }

  predicate MadeSafe(t: seq<Call>, ids: seq<int>) {
    exists k :: 3 < k < |t| && MadeSafeAt(t, ids, k)
  }

  /** The enable was acknowledged for exactly the ids, and the rows then listed read every one enabled. */
  predicate MadeActive(t: seq<Call>, ids: seq<int>) {
    && |t| == 5 && IsEnable(t[3]) && AcknowledgesExactly(ids, t[3].acknowledged)
    && t[4].ListCampaigns? && t[4].campaigns.Answer? && EnabledReadback(t[4].campaigns.value, ids)
  }

  /** Once an enable has been requested the run does return, and its status is exact: ACTIVE when every
      campaign was acknowledged and read back enabled; otherwise pause and relock were both attempted
      afterwards, and the status is FAILED_SAFE exactly when the pause acknowledged exactly those
      campaigns and the lock was verified. */
  lemma EnabledRunsEndActiveOrPaused(terms: ReleaseTerms, run: ReleaseRun)
    requires ReleaseWellFormed(terms, run) && Enables(ReleaseTrace(terms, run))
    ensures ReleaseOutcomeOf(terms, run).Released?
    ensures var t, status := ReleaseTrace(terms, run), ReleaseOutcomeOf(terms, run).receipt.status;
            && (status == ReleaseActive <==> MadeActive(t, terms.campaigns))
            && (status != ReleaseActive ==> PausesThenRelocks(t, terms.campaigns, 3))
            && (status == ReleaseFailedSafe <==> status != ReleaseActive && MadeSafe(t, terms.campaigns))
  {
    var t := ReleaseTrace(terms, run);
    if run.FellBack? {
      FallbackTrace(terms, run);
    }
  }

  lemma FallbackTrace(terms: ReleaseTerms, run: ReleaseRun)
    requires run.FellBack? && ReleaseWellFormed(terms, run)
    ensures var t := ReleaseTrace(terms, run);
            && !MadeActive(t, terms.campaigns) && PausesThenRelocks(t, terms.campaigns, 3)
            && (Safe(terms.campaigns, run.pause) <==> MadeSafe(t, terms.campaigns))
  {
    var t := ReleaseTrace(terms, run);
    var k := 3 + |ActivationCalls(terms.campaigns, run.activation)|;
    assert t[k..] == PauseCalls(terms.campaigns, run.pause);
    assert t[k] == t[k..][0] && t[k + 1] == t[k..][1];
    assert PauseAt(t, terms.campaigns, k);
    if run.pause.lock.LockChecked? {
      assert t[k + 2] == t[k..][2];
    }
    if Safe(terms.campaigns, run.pause) {
      assert MadeSafeAt(t, terms.campaigns, k);
    }
  }

  /** An ACTIVE receipt speaks about the platform: the last row listed for each campaign is enabled. */
  lemma ActiveMeansReadEnabled(terms: ReleaseTerms, run: ReleaseRun, i: nat)
    requires ReleaseWellFormed(terms, run) && run.WentActive? && i < |terms.campaigns|
    ensures ReleaseOutcomeOf(terms, run).receipt.campaigns == terms.campaigns
    ensures run.activation.ReadbackGiven? && LastRowEnabled(run.activation.rows, terms.campaigns[i])
    ensures SetOf(ReleaseOutcomeOf(terms, run).receipt.enabledIds) == SetOf(terms.campaigns)
  {
    LookupIsLastRow(run.activation.rows, terms.campaigns[i]);
  }

  // ----- spend evaluation -----

  datatype SpendRun =
    | SpendUnknown(spendReply: Reply<int>)
    | Within(observed: int)
    | Exceeded(observed: int, pause: PauseRun)

  predicate SpendWellFormed(ids: seq<int>, cap: SpendCap, run: SpendRun) {
    match run
    case SpendUnknown(r) => !r.Answer?
    case Within(observed) => observed <= cap.fen
    case Exceeded(observed, pause) => observed > cap.fen && PauseWellFormed(ids, pause)
  }

  function SpendTrace(ids: seq<int>, cap: SpendCap, run: SpendRun): seq<Call> {
    match run
    case SpendUnknown(r) => [CurrentSpend(ids, cap.period, r)]
    case Within(observed) => [CurrentSpend(ids, cap.period, Answer(observed))]
    case Exceeded(observed, pause) => [CurrentSpend(ids, cap.period, Answer(observed))] + PauseCalls(ids, pause)
  }

  function SpendOutcomeOf(ids: seq<int>, cap: SpendCap, run: SpendRun): Option<SpendReceipt> {
    match run
    case SpendUnknown(_) => None
    case Within(observed) => Some(SpendReceipt(WithinCap, ids, observed, cap.fen, None))
    case Exceeded(observed, pause) =>
      Some(SpendReceipt(if Safe(ids, pause) then CapExceededPaused else CapExceededRelockFailed, ids, observed, cap.fen,
                        PauseReceipt(pause)))
  }

  /** An evaluation never enables anything; it pauses exactly when the spend it read exceeds the cap, and
      reports PAUSED exactly when that pause and its lock were both confirmed. */
  lemma SpendVerdictIsExact(ids: seq<int>, cap: SpendCap, run: SpendRun)
    requires SpendWellFormed(ids, cap, run)
    ensures var t := SpendTrace(ids, cap, run);
            && !Enables(t)
            && t[0].CurrentSpend? && t[0].ids == ids && t[0].period == cap.period
            && (SpendOutcomeOf(ids, cap, run).Some? <==> t[0].spent.Answer?)
            && (PausesThenRelocks(t, ids, 0) <==> t[0].spent.Answer? && t[0].spent.value > cap.fen)
            && (SpendOutcomeOf(ids, cap, run).Some? ==>
                  && (SpendOutcomeOf(ids, cap, run).value.status == WithinCap <==> t[0].spent.value <= cap.fen)
                  && (SpendOutcomeOf(ids, cap, run).value.status == CapExceededPaused <==> MadeSafeAt(t, ids, 1)))
  {
    if run.Exceeded? {
      assert PauseAt(SpendTrace(ids, cap, run), ids, 1);
    }
  }

  // ----- the code -----

  class ProductionReleaseEngine {
    const world: World

    constructor (world: World)
      ensures this.world == world
    {
      this.world := world;
    }

    method PauseAndRelock(ids: seq<int>) returns (receipt: Option<int>, safe: bool, ghost run: PauseRun)
      modifies world
      ensures PauseWellFormed(ids, run)
      ensures world.calls == old(world.calls) + PauseCalls(ids, run)
      ensures receipt == PauseReceipt(run) && safe == Safe(ids, run)
    {
      var pausedOk := false;
      var paused := world.DoSetStatus(ids, false);
      if paused.Answer? {
        pausedOk := SetOf(paused.value) == SetOf(ids);
      }
      receipt, safe := None, false;
      var relock := world.DoEmergencyRelock(ids);
      run := PauseRun(paused, RelockFailed(relock));
      if relock.Answer? {
        run := PauseRun(paused, LockUnchecked(relock.value));
        receipt := Some(relock.value);
        if pausedOk {
          var verified := world.DoVerifyRelocked(relock.value);
          run := PauseRun(paused, LockChecked(relock.value, verified));
          if verified.Answer? {
            safe := verified.value;
          } else {
            receipt := None;
          }
        }
      }
    }

    /** Index the listed rows by id, then require every campaign enabled; int() may raise. */
    method ConfirmEnabled(ids: seq<int>, rows: seq<CampaignRow>) returns (raised: bool, confirmed: bool)
      ensures raised <==> !RowsNumbered(rows)
      ensures !raised ==> (confirmed <==> EnabledReadback(rows, ids))
    {
      raised, confirmed := false, true;
      var actual: map<int, CampaignRow> := map[];
      for n := 0 to |rows|
        invariant RowsNumbered(rows[..n])
        invariant forall id :: LookupCampaign(rows[..n], id) == if id in actual then Some(actual[id]) else None
      {
        TakeNext(rows, n);
        var id := ToInt(rows[n].id);
        if id.None? {
          assert rows[n].id == NotNumeric;
          return true, false;
        }
        actual := actual[id.value := rows[n]];
      }
      assert rows[..|rows|] == rows;
      for n := 0 to |ids|
        invariant confirmed <==> forall i :: 0 <= i < n ==> LookedUpEnabled(rows, ids[i])
      {
        if !(ids[n] in actual && ReadsEnabled(actual[ids[n]])) {
          confirmed := false;
        }
      }
    }

    /** Enable and read back; every failure becomes a code. */
    method TryEnable(ids: seq<int>)
      returns (active: bool, enabled: seq<int>, code: ErrorCode, ghost a: Activation)
      modifies world
      ensures ActivationWellFormed(ids, a)
      ensures world.calls == old(world.calls) + ActivationCalls(ids, a)
      ensures active <==> Active(ids, a)
      ensures active ==> enabled == a.enabled
      ensures !active ==> code == FailureCode(a)
    {
      active, enabled, code := false, [], InternalError;
      var acknowledged := world.DoSetStatus(ids, true);
      a := EnableUnclear(acknowledged);
      if !acknowledged.Answer? {
        code := if acknowledged.Refused? then acknowledged.code else InternalError;
        return;
      }
      enabled := acknowledged.value;
      if SetOf(enabled) != SetOf(ids) {
        code := EnableResponseMissingObject;
        return;
      }
      var listed := world.DoListCampaigns(ids, None);
      if !listed.Answer? {
        a := ReadbackSilent(enabled, listed);
        code := if listed.Refused? then listed.code else InternalError;
        return;
      }
      a := ReadbackGiven(enabled, listed.value);
      var raised;
      raised, active := ConfirmEnabled(ids, listed.value);
      if raised {
        active := false;
      } else if !active {
        code := ReleaseReadbackMismatch;
      }
    }

    method Activate(terms: ReleaseTerms) returns (outcome: ReleaseOutcome, ghost run: ReleaseRun)
      modifies world
      ensures ReleaseWellFormed(terms, run)
      ensures world.calls == old(world.calls) + ReleaseTrace(terms, run)
      ensures outcome == ReleaseOutcomeOf(terms, run)
    {
      if terms.campaigns == [] || exists i :: 0 <= i < |terms.campaigns| && terms.campaigns[i] <= 0 {
        return NoRelease(IdsRefused), BadIds;
      }
      var ok := world.DoSafetyPreflight(terms.campaigns, terms.cap, terms.monitor);
      if !ok {
        return NoRelease(SafetyRefused), PreflightRefused;
      }
      var armed := world.DoArmCap(terms.campaigns, terms.cap);
      if !armed.Answer? {
        return NoRelease(ArmRaised), ArmFailed(armed);
      }
      var verified := world.DoVerifyArmed(armed.value);
      if verified != Answer(true) {
        return NoRelease(if verified.Answer? then CapNotArmed else ArmCheckRaised),
               CapUnverified(armed.value, verified);
      }
      assert world.calls == old(world.calls) + Armed(terms, armed.value);
      outcome, run := EnableOrFallBack(terms, armed.value);
      Regroup(old(world.calls), Armed(terms, armed.value), Tail(terms, run));
    }

    /** The guarded part of activate, once the cap is armed and verified. */
    method EnableOrFallBack(terms: ReleaseTerms, armed: int) returns (outcome: ReleaseOutcome, ghost run: ReleaseRun)
      requires UsableIds(terms.campaigns)
      modifies world
      ensures (run.WentActive? || run.FellBack?) && run.armed == armed
      ensures ReleaseWellFormed(terms, run)
      ensures world.calls == old(world.calls) + Tail(terms, run)
      ensures ReleaseTrace(terms, run) == Armed(terms, armed) + Tail(terms, run)
      ensures outcome == ReleaseOutcomeOf(terms, run)
    {
      var active, enabled, code; ghost var a;
      active, enabled, code, a := TryEnable(terms.campaigns);
      if active {
        run := WentActive(armed, a);
        outcome :=
          Released(ReleaseReceipt(ReleaseActive, terms.campaigns, terms.cap, armed, enabled, true, None, None));
        return;
      }
      var receipt, safe; ghost var pause;
      receipt, safe, pause := PauseAndRelock(terms.campaigns);
      run := FellBack(armed, a, pause);
      outcome :=
        Released(ReleaseReceipt(if safe then ReleaseFailedSafe else ReleaseEmergency, terms.campaigns, terms.cap, armed,
                                [], false,
                                         receipt, Some(code)));
      Regroup(old(world.calls), ActivationCalls(terms.campaigns, a), PauseCalls(terms.campaigns, pause));
      Regroup(Armed(terms, armed), ActivationCalls(terms.campaigns, a), PauseCalls(terms.campaigns, pause));
    }

    method EvaluateSpend(ids: seq<int>, cap: SpendCap) returns (outcome: Option<SpendReceipt>, ghost run: SpendRun)
      modifies world
      ensures SpendWellFormed(ids, cap, run)
      ensures world.calls == old(world.calls) + SpendTrace(ids, cap, run)
      ensures outcome == SpendOutcomeOf(ids, cap, run)
    {
      var spent := world.DoCurrentSpend(ids, cap.period);
      if !spent.Answer? {
        return None, SpendUnknown(spent);
      }
      if spent.value <= cap.fen {
        return Some(SpendReceipt(WithinCap, ids, spent.value, cap.fen, None)), Within(spent.value);
      }
      var receipt, safe; ghost var pause;
      receipt, safe, pause := PauseAndRelock(ids);
      run := Exceeded(spent.value, pause);
      outcome :=
        Some(SpendReceipt(if safe then CapExceededPaused else CapExceededRelockFailed, ids, spent.value, cap.fen,
                          receipt));
      Regroup(old(world.calls), [CurrentSpend(ids, cap.period, spent)], PauseCalls(ids, pause));
    }
  }

  /** The calls of a run after its guards. */
  function Tail(terms: ReleaseTerms, run: ReleaseRun): seq<Call> {
    match run
    case WentActive(_, a) => ActivationCalls(terms.campaigns, a)
    case FellBack(_, a, pause) => ActivationCalls(terms.campaigns, a) + PauseCalls(terms.campaigns, pause)
    case _ => []
  }
}
