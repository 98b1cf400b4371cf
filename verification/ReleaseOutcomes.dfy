/** What a release, a spend evaluation or a recovery does and reports, read off the trace of its calls alone. */
module ReleaseOutcomes {
  import opened Common
  import opened Payloads
  import opened Platform
  import opened Readback
  import opened ReadbackOutcomes
  import opened Release

  // ----- replies -----

  /** The reply names all of the ids and nothing else. */
  ghost predicate NamesExactly(r: Reply<seq<int>>, ids: seq<int>) {
    r.Answer? && forall id: int :: id in r.value <==> id in ids
  }

  lemma InSetOf(ids: seq<int>, id: int)
    ensures id in SetOf(ids) <==> id in ids
  {
  }

  lemma AcknowledgementIsExact(ids: seq<int>, r: Reply<seq<int>>)
    ensures AcknowledgesExactly(ids, r) <==> NamesExactly(r, ids)
  {
    if r.Answer? {
      forall id: int ensures id in SetOf(r.value) <==> id in r.value {
        InSetOf(r.value, id);
      }
      forall id: int ensures id in SetOf(ids) <==> id in ids {
        InSetOf(ids, id);
      }
      if NamesExactly(r, ids) {
        forall id: int ensures id in SetOf(r.value) <==> id in SetOf(ids) {
          assert id in r.value <==> id in ids;
        }
      }
    }
  }

  /** The last row listed for the campaign stands at k, and reads enabled. */
  predicate LastEnabled(rows: seq<CampaignRow>, id: int, k: nat) {
    && k < |rows| && rows[k].id == Numeric(id) && (forall m :: k < m < |rows| ==> rows[m].id != Numeric(id))
    && rows[k].enable == Some(1) && rows[k].filterState != Some(2)
  }

  ghost predicate SomeLastEnabled(rows: seq<CampaignRow>, id: int) {
    exists k: nat :: LastEnabled(rows, id, k)
  }

  /** Every listed id is a number, and every one of the campaigns reads enabled. */
  ghost predicate ReadEnabled(rows: seq<CampaignRow>, ids: seq<int>) {
    && (forall k :: 0 <= k < |rows| ==> rows[k].id != NotNumeric)
    && forall id: int :: id in ids ==> SomeLastEnabled(rows, id)
  }

  lemma LookupIsExact(rows: seq<CampaignRow>, id: int)
    requires id > 0
    ensures LookedUpEnabled(rows, id) <==> SomeLastEnabled(rows, id)
  {
    LookupIsLastRow(rows, id);
    forall k: nat ensures LastEnabled(rows, id, k) <==> k < |rows| && LastRowFor(rows, id, k) && ReadsEnabled(rows[k]) {
    }
    if LastRowEnabled(rows, id) {
      var k :| 0 <= k < |rows| && LastRowFor(rows, id, k) && ReadsEnabled(rows[k]);
      assert LastEnabled(rows, id, k);
    }
  }

  lemma ReadbackIsExact(rows: seq<CampaignRow>, ids: seq<int>)
    requires UsableIds(ids)
    ensures EnabledReadback(rows, ids) <==> ReadEnabled(rows, ids)
  {
    forall i | 0 <= i < |ids| ensures LookedUpEnabled(rows, ids[i]) <==> SomeLastEnabled(rows, ids[i]) {
      LookupIsExact(rows, ids[i]);
    }
    if ReadEnabled(rows, ids) {
      forall i | 0 <= i < |ids| ensures LookedUpEnabled(rows, ids[i]) {
        assert ids[i] in ids;
      }
    }
  }

  /** A campaign that the release would read as enabled is never part of a clean readback, nor is a unit or
      creative that is not switched off. */
  lemma CleanIsNotEnabled(p: Payload, ids: ObjectIds, cs: seq<CampaignRow>, us: seq<UnitRow>, rs: seq<CreativeRow>)
    requires Clean(p, ids, cs, us, rs)
    ensures forall c: CampaignRow :: c in cs ==> !(c.enable == Some(1) && c.filterState != Some(2)) && !ReadsEnabled(c)
    ensures forall u: UnitRow :: u in us ==> u.enable == Some(0) || u.filterState in {Some(4), Some(6)}
    ensures forall r: CreativeRow :: r in rs ==> r.enable == Some(0) || r.filterState in {Some(3), Some(4), Some(5)}
  {
    PausedIsExact(cs, us, rs);
  }

  // ----- pause and relock -----

  /** From position k on: a pause of exactly these campaigns, a relock of exactly them, and, only if the pause was
      fully acknowledged and the relock answered, the verification of its receipt. It ends safe exactly if that
      was confirmed. */
  ghost predicate PausesAt(t: seq<Call>, k: nat, ids: seq<int>, receipt: Option<int>, safe: bool) {
    && k + 1 < |t|
    && t[k].SetStatus? && t[k].ids == ids && !t[k].enable
    && t[k + 1].EmergencyRelock? && t[k + 1].ids == ids
    && if NamesExactly(t[k].acknowledged, ids) && t[k + 1].relocked.Answer? then
         && |t| == k + 3 && t[k + 2].VerifyRelocked? && t[k + 2].relockId == t[k + 1].relocked.value
         && (safe <==> t[k + 2].confirmed == Answer(true))
         && receipt == (if t[k + 2].confirmed.Answer? then Some(t[k + 1].relocked.value) else None)
       else
         && |t| == k + 2 && !safe
         && receipt == if t[k + 1].relocked.Answer? then Some(t[k + 1].relocked.value) else None
  }

  lemma PauseIsTold(head: seq<Call>, ids: seq<int>, run: PauseRun)
    requires PauseWellFormed(ids, run)
    ensures PausesAt(head + PauseCalls(ids, run), |head|, ids, PauseReceipt(run), Safe(ids, run))
  {
    AcknowledgementIsExact(ids, run.pauseReply);
  }

  // ----- activations -----

  /** The calls that clear, arm and verify exactly the cap of these terms; `upto` of them were made. */
  predicate Guards(t: seq<Call>, terms: ReleaseTerms, upto: nat) {
    && upto <= |t|
    && (upto > 0 ==> t[0] == SafetyPreflight(terms.campaigns, terms.cap, terms.monitor, upto > 1))
    && (upto > 1 ==> t[1].ArmCap? && t[1].ids == terms.campaigns && t[1].cap == terms.cap)
    && (upto > 2 ==> t[1].armed.Answer? && t[2].VerifyArmed? && t[2].receiptId == t[1].armed.value)
  }

  predicate GoodIds(ids: seq<int>) {
    ids != [] && forall i :: 0 <= i < |ids| ==> ids[i] > 0
  }

  /** Without a receipt nothing was enabled, and the cause says which guard stopped the run. */
  predicate StoppedFor(cause: ReleaseCause, t: seq<Call>, terms: ReleaseTerms) {
    match cause
    case IdsRefused => t == [] && !GoodIds(terms.campaigns)
    case SafetyRefused => GoodIds(terms.campaigns) && |t| == 1 && Guards(t, terms, 1)
    case ArmRaised => GoodIds(terms.campaigns) && |t| == 2 && Guards(t, terms, 2) && !t[1].armed.Answer?
    case ArmCheckRaised => GoodIds(terms.campaigns) && |t| == 3 && Guards(t, terms, 3) && !t[2].verified.Answer?
    case CapNotArmed => GoodIds(terms.campaigns) && |t| == 3 && Guards(t, terms, 3) && t[2].verified == Answer(false)
  }

  /** The cap was verified as armed, and exactly the campaigns of the terms were then switched on. */
  predicate EnablesBehindCap(t: seq<Call>, terms: ReleaseTerms) {
    && GoodIds(terms.campaigns) && |t| > 3 && Guards(t, terms, 3) && t[2].verified == Answer(true)
    && t[3].SetStatus? && t[3].enable && t[3].ids == terms.campaigns
  }

  /** The enable was acknowledged for exactly the campaigns, so they were listed. */
  ghost predicate ListsEnabled(t: seq<Call>, terms: ReleaseTerms) {
    && EnablesBehindCap(t, terms) && NamesExactly(t[3].acknowledged, terms.campaigns)
    && |t| > 4 && t[4].ListCampaigns? && t[4].ids == terms.campaigns && t[4].name == None
  }

  ghost predicate AllEnabled(t: seq<Call>, terms: ReleaseTerms) {
    ListsEnabled(t, terms) && t[4].campaigns.Answer? && ReadEnabled(t[4].campaigns.value, terms.campaigns)
  }

  /** Why the campaigns did not read enabled. */
  ghost predicate EnableError(t: seq<Call>, terms: ReleaseTerms, code: ErrorCode)
    requires EnablesBehindCap(t, terms)
  {
    || t[3].acknowledged == Refused(code)
    || (t[3].acknowledged.Broken? && code == InternalError)
    || (t[3].acknowledged.Answer? && !NamesExactly(t[3].acknowledged, terms.campaigns)
        && code == EnableResponseMissingObject)
    || (ListsEnabled(t, terms) && t[4].campaigns == Refused(code))
    || (ListsEnabled(t, terms) && t[4].campaigns.Broken? && code == InternalError)
    || (ListsEnabled(t, terms) && t[4].campaigns.Answer? && !ReadEnabled(t[4].campaigns.value, terms.campaigns)
        && code == if exists k :: 0 <= k < |t[4].campaigns.value| && t[4].campaigns.value[k].id == NotNumeric
                   then InternalError else ReleaseReadbackMismatch)
  }

  /** The receipt of a run that enabled: ACTIVE exactly if every campaign then read enabled, and otherwise, after a
      pause and a relock of exactly the campaigns, FAILED_SAFE exactly if both were confirmed. */
  ghost predicate ReceiptFor(t: seq<Call>, terms: ReleaseTerms, r: ReleaseReceipt) {
    && EnablesBehindCap(t, terms)
    && r.campaigns == terms.campaigns && r.cap == terms.cap && r.safetyReceipt == t[1].armed.value
    && if AllEnabled(t, terms) then
         |t| == 5 && r.status == ReleaseActive && r.readbackEnabled && r.relockReceipt == None && r.error == None
         && r.enabledIds == t[3].acknowledged.value
       else
         && PausesAt(t, if NamesExactly(t[3].acknowledged, terms.campaigns) then 5 else 4, terms.campaigns,
                     r.relockReceipt, r.status == ReleaseFailedSafe)
         && r.status != ReleaseActive && !r.readbackEnabled && r.enabledIds == []
         && r.error.Some? && EnableError(t, terms, r.error.value)
  }

  lemma StopIsTold(terms: ReleaseTerms, run: ReleaseRun)
    requires ReleaseWellFormed(terms, run) && ReleaseOutcomeOf(terms, run).NoRelease?
    ensures StoppedFor(ReleaseOutcomeOf(terms, run).cause, ReleaseTrace(terms, run), terms)
  {
    match run
    case CapUnverified(_, r) => assert r.Answer? ==> !r.value;
    case _ =>
  }

  lemma EnableStands(terms: ReleaseTerms, armed: int, a: Activation, tail: seq<Call>)
    requires UsableIds(terms.campaigns) && ActivationWellFormed(terms.campaigns, a)
    ensures var t := Armed(terms, armed) + ActivationCalls(terms.campaigns, a) + tail;
            && EnablesBehindCap(t, terms) && t[1].armed == Answer(armed)
            && t[3].acknowledged == (if a.EnableUnclear? then a.enableReply else Answer(a.enabled))
            && (NamesExactly(t[3].acknowledged, terms.campaigns) <==> !a.EnableUnclear?)
            && (ListsEnabled(t, terms) <==> !a.EnableUnclear?)
            && (!a.EnableUnclear? ==>
                  t[4].campaigns == if a.ReadbackSilent? then a.listReply else Answer(a.rows))
            && |Armed(terms, armed) + ActivationCalls(terms.campaigns, a)| == if a.EnableUnclear? then 4 else 5
  {
    AcknowledgementIsExact(terms.campaigns, if a.EnableUnclear? then a.enableReply else Answer(a.enabled));
  }

  lemma ActiveIsExact(terms: ReleaseTerms, armed: int, a: Activation, tail: seq<Call>)
    requires UsableIds(terms.campaigns) && ActivationWellFormed(terms.campaigns, a)
    ensures var t := Armed(terms, armed) + ActivationCalls(terms.campaigns, a) + tail;
            && EnablesBehindCap(t, terms)
            && (Active(terms.campaigns, a) <==> AllEnabled(t, terms))
            && (!Active(terms.campaigns, a) ==> EnableError(t, terms, FailureCode(a)))
  {
    EnableStands(terms, armed, a, tail);
    if a.ReadbackGiven? {
      ReadbackIsExact(a.rows, terms.campaigns);
    }
  }

  /** Every outcome of an activation is exact, read off its calls. */
  lemma ActivationIsTold(terms: ReleaseTerms, run: ReleaseRun)
    requires ReleaseWellFormed(terms, run)
    ensures match ReleaseOutcomeOf(terms, run)
            case NoRelease(cause) => StoppedFor(cause, ReleaseTrace(terms, run), terms)
            case Released(r) => ReceiptFor(ReleaseTrace(terms, run), terms, r)
  {
    match run
    case WentActive(armed, a) =>
      assert ReleaseTrace(terms, run) == Armed(terms, armed) + ActivationCalls(terms.campaigns, a) + [];
      EnableStands(terms, armed, a, []);
      ActiveIsExact(terms, armed, a, []);
    case FellBack(armed, a, pause) =>
      EnableStands(terms, armed, a, PauseCalls(terms.campaigns, pause));
      ActiveIsExact(terms, armed, a, PauseCalls(terms.campaigns, pause));
      PauseIsTold(Armed(terms, armed) + ActivationCalls(terms.campaigns, a), terms.campaigns, pause);
    case _ => StopIsTold(terms, run);
  }

  // ----- spend evaluations -----

  /** Every outcome of an evaluation is exact: the spend of these campaigns over the cap's period was read, and they
      were paused and relocked exactly if it exceeds the cap. */
  lemma EvaluationIsTold(ids: seq<int>, cap: SpendCap, run: SpendRun)
    requires SpendWellFormed(ids, cap, run)
    ensures var t, r := SpendTrace(ids, cap, run), SpendOutcomeOf(ids, cap, run);
            && t != [] && t[0].CurrentSpend? && t[0].ids == ids && t[0].period == cap.period
            && (r == None <==> !t[0].spent.Answer?)
            && (r.Some? ==> r.value.campaigns == ids && r.value.observed == t[0].spent.value && r.value.cap == cap.fen)
            && (if r.None? then |t| == 1
                else if t[0].spent.value <= cap.fen then
                  |t| == 1 && r.value.status == WithinCap && r.value.relockReceipt == None
                else
                  && PausesAt(t, 1, ids, r.value.relockReceipt, r.value.status == CapExceededPaused)
                  && r.value.status != WithinCap)
  {
    if run.Exceeded? {
      PauseIsTold([CurrentSpend(ids, cap.period, Answer(run.observed))], ids, run.pause);
    }
  }

  /** A recovery pauses and relocks exactly the granted campaigns, and is safe exactly if both were confirmed. */
  lemma RecoveryIsTold(ids: seq<int>, run: PauseRun)
    requires PauseWellFormed(ids, run)
    ensures PausesAt(PauseCalls(ids, run), 0, ids, PauseReceipt(run), Safe(ids, run))
  {
    PauseIsTold([], ids, run);
    assert [] + PauseCalls(ids, run) == PauseCalls(ids, run);
  }
}
