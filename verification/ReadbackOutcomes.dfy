/** What a readback reports, difference by difference, and when it raises, read off the expected and the listed
    rows alone. */
module ReadbackOutcomes {
  import opened Common
  import opened Payloads
  import opened Platform
  import opened Sorting
  import opened Readback

  // ----- the row listed for a creative -----

  predicate HasId(row: CreativeRow, id: int) {
    row.id == Numeric(id)
  }

  predicate LastWith(rs: seq<CreativeRow>, id: int, k: nat) {
    k < |rs| && HasId(rs[k], id) && forall m :: k < m < |rs| ==> !HasId(rs[m], id)
  }

  predicate Lists(rs: seq<CreativeRow>, id: int) {
    exists k :: 0 <= k < |rs| && HasId(rs[k], id)
  }

  lemma {:induction false} LookupIsLast(rs: seq<CreativeRow>, id: int)
    requires id > 0
    ensures Lookup(rs, id).Some? <==> Lists(rs, id)
    ensures Lists(rs, id) ==> exists k: nat :: LastWith(rs, id, k)
    ensures forall k: nat :: LastWith(rs, id, k) ==> Lookup(rs, id) == Some(rs[k])
  {
    if rs != [] {
      var n := |rs| - 1;
      if HasId(rs[n], id) {
        assert LastWith(rs, id, n);
      } else {
        LookupIsLast(rs[..n], id);
        forall k: nat ensures LastWith(rs, id, k) <==> LastWith(rs[..n], id, k) {
          if k < n {
            assert rs[..n][k] == rs[k];
          }
        }
        if k: nat :| LastWith(rs[..n], id, k) {
          assert LastWith(rs, id, k);
        }
      }
    }
  }

  // ----- when the comparison raises -----

  /** Comparing the two (keyword, bid, match type) tuples compares an absent field with a present one. */
  predicate Incomparable(a: KeywordRow, b: KeywordRow) {
    || (a.keyword != b.keyword && (a.keyword == None || b.keyword == None))
    || (a.keyword == b.keyword && a.bid != b.bid && (a.bid == None || b.bid == None))
    || (a.keyword == b.keyword && a.bid == b.bid && a.matchType != b.matchType
        && (a.matchType == None || b.matchType == None))
  }

  predicate Clashing(rows: seq<KeywordRow>) {
    exists a, b :: a in rows && b in rows && Incomparable(a, b)
  }

  lemma ClashingIsUnsortable(rows: seq<KeywordRow>)
    ensures Clashing(rows) <==> !Sortable(rows)
  {
    if !Sortable(rows) {
      var a, b :| a in rows && b in rows && !Comparable(a, b);
      assert Incomparable(a, b);
    }
    if a, b :| a in rows && b in rows && Incomparable(a, b) {
      assert !Comparable(a, b);
    }
  }

  /** A created id beyond the expected creatives that the platform does list. */
  predicate Surplus(p: Payload, ids: seq<int>, rs: seq<CreativeRow>, n: nat) {
    |p.creatives| <= n < |ids| && Lists(rs, ids[n])
  }

  predicate Raises(p: Payload, ids: ObjectIds, us: seq<UnitRow>, rs: seq<CreativeRow>) {
    || Clashing(p.group.keywords) || (|us| == 1 && Clashing(us[0].keywords))
    || (exists k :: 0 <= k < |rs| && rs[k].id == NotNumeric)
    || exists n: nat :: n < |ids.creativities| && Surplus(p, ids.creativities, rs, n)
  }

  lemma {:induction false} CreativesRaiseExactly(p: Payload, ids: seq<int>, rs: seq<CreativeRow>, n: nat)
    requires n <= |ids| && AllPositive(ids)
    ensures CreativeDifferences(p, ids, rs, n).None? <==> exists m: nat :: m < n && Surplus(p, ids, rs, m)
  {
    if n > 0 {
      CreativesRaiseExactly(p, ids, rs, n - 1);
      LookupIsLast(rs, ids[n - 1]);
      assert CreativeDifferences(p, ids, rs, n).None?
        <==> CreativeDifferences(p, ids, rs, n - 1).None? || Surplus(p, ids, rs, n - 1);
    }
  }

  /** A readback whose three queries were answered raises exactly when two keyword rows cannot be compared, a
      creative's id is not a number, or a creative beyond the expected ones is listed. */
  lemma RaisesExactly(p: Payload, ids: ObjectIds, cs: seq<CampaignRow>, us: seq<UnitRow>, rs: seq<CreativeRow>)
    requires AllPositive(ids.creativities)
    ensures Differences(p, ids, cs, us, rs).None? <==> Raises(p, ids, us, rs)
  {
    CreativesRaiseExactly(p, ids.creativities, rs, |ids.creativities|);
    ClashingIsUnsortable(p.group.keywords);
    ClashingIsUnsortable(TheUnit(us).keywords);
  }

  // ----- what each difference means -----

  predicate PausedRows(cs: seq<CampaignRow>, us: seq<UnitRow>, rs: seq<CreativeRow>) {
    && |cs| == 1 && (cs[0].filterState == Some(2) || cs[0].enable == Some(0))
    && |us| == 1 && (us[0].enable == Some(0) || us[0].filterState in {Some(4), Some(6)})
    && forall k :: 0 <= k < |rs| ==> rs[k].enable == Some(0) || rs[k].filterState in {Some(3), Some(4), Some(5)}
  }

  /** The n-th created creative is listed, last by the row at k, and d says how that row differs. */
  predicate Differs(d: Difference, p: Payload, ids: seq<int>, rs: seq<CreativeRow>, n: nat, k: nat) {
    && n < |ids| && n < |p.creatives| && LastWith(rs, ids[n], k)
    && (|| (d == CreativityNote(ids[n]) && p.creatives[n].note != rs[k].note)
        || (d == CreativityConversion(ids[n]) && p.creatives[n].conversion != rs[k].conversion))
  }

  predicate Missing(d: Difference, ids: seq<int>, rs: seq<CreativeRow>, n: nat) {
    n < |ids| && d == CreativityMissing(ids[n]) && !Lists(rs, ids[n])
  }

  /** d is about the creative created n-th. */
  ghost predicate CreativeReports(d: Difference, p: Payload, ids: seq<int>, rs: seq<CreativeRow>, n: nat) {
    Missing(d, ids, rs, n) || exists k: nat :: Differs(d, p, ids, rs, n, k)
  }

  predicate CountReports(d: Difference, p: Payload, cs: seq<CampaignRow>, us: seq<UnitRow>, rs: seq<CreativeRow>) {
    || (d == CampaignCount && |cs| != 1) || (d == UnitCount && |us| != 1)
    || (d == CreativityCount && |rs| != |p.creatives|)
  }

  predicate CampaignReports(d: Difference, expected: CampaignSpec, c: CampaignRow) {
    || (d == CampaignName && expected.name != c.name)
    || (d == MarketingTarget && expected.marketingTarget != c.marketingTarget)
    || (d == Placement && expected.placement != c.placement)
    || (d == BiddingStrategy && expected.biddingStrategy != c.biddingStrategy)
    || (d == CampaignBudget && expected.dayBudget != c.dayBudget)
  }

  /** Some package is in one list of crowds and not in the other. */
  ghost predicate CrowdsDiffer(a: seq<Field>, b: seq<Field>) {
    exists f: Field :: f in a <==> f !in b
  }

  ghost predicate TargetReports(d: Difference, expected: TargetInfo, actual: TargetInfo) {
    || (d == TargetGender && expected.gender != actual.gender)
    || (d == TargetArea && expected.area != actual.area)
    || (d == TargetAge && expected.age != actual.age)
    || (d == TargetDevice && expected.device != actual.device)
    || (d == TargetCrowds && CrowdsDiffer(expected.crowds, actual.crowds))
    || (d == TargetBehaviorKeywords && expected.keywords != actual.keywords)
  }

  ghost predicate UnitReports(d: Difference, expected: UnitSpec, u: UnitRow) {
    || (d == UnitName && expected.name != u.name)
    || (d == TargetType && expected.targetType != u.targetType)
    || (d == EventBid && expected.eventBid != u.eventBid)
    || TargetReports(d, expected.target, u.target)
    || (d == KeywordsWithBid && multiset(expected.keywords) != multiset(u.keywords))
  }

  const NOTHING := TargetInfo(None, None, None, None, [], [])

  /** The fields a listing of other than one row is compared with are all absent. */
  function OnlyCampaign(cs: seq<CampaignRow>): CampaignRow {
    if |cs| == 1 then cs[0] else CampaignRow(NoId, None, None, None, None, None, None, None)
  }

  function OnlyUnit(us: seq<UnitRow>): UnitRow {
    if |us| == 1 then us[0] else UnitRow(NoId, None, None, None, None, NOTHING, [], None, None)
  }

  ghost predicate Reported(d: Difference, p: Payload, ids: ObjectIds, cs: seq<CampaignRow>, us: seq<UnitRow>,
                           rs: seq<CreativeRow>)
  {
    || CountReports(d, p, cs, us, rs)
    || CampaignReports(d, p.campaign, OnlyCampaign(cs))
    || UnitReports(d, p.group, OnlyUnit(us))
    || (exists n: nat :: n < |ids.creativities| && CreativeReports(d, p, ids.creativities, rs, n))
    || (d == PauseNotVerified && !PausedRows(cs, us, rs))
  }

  lemma CountsAreReported(d: Difference, p: Payload, cs: seq<CampaignRow>, us: seq<UnitRow>, rs: seq<CreativeRow>)
    ensures d in AddCounts([], p, cs, us, rs) <==> CountReports(d, p, cs, us, rs)
  {
  }

  lemma CampaignIsReported(d: Difference, before: seq<Difference>, expected: CampaignSpec, c: CampaignRow)
    ensures d in AddCampaign(before, expected, c) <==> d in before || CampaignReports(d, expected, c)
  {
  }

  lemma CrowdSetsDiffer(a: seq<Field>, b: seq<Field>)
    ensures CrowdSet(a) != CrowdSet(b) <==> CrowdsDiffer(a, b)
  {
    forall f: Field ensures (f in CrowdSet(a) <==> f in a) && (f in CrowdSet(b) <==> f in b) {
    }
    if CrowdSet(a) != CrowdSet(b) {
      var f: Field :| f in CrowdSet(a) <==> f !in CrowdSet(b);
      assert f in a <==> f !in b;
    }
  }

  lemma TargetIsReported(d: Difference, before: seq<Difference>, expected: TargetInfo, actual: TargetInfo)
    ensures d in AddTarget(before, expected, actual) <==> d in before || TargetReports(d, expected, actual)
  {
    CrowdSetsDiffer(expected.crowds, actual.crowds);
  }

  lemma KeywordsDiffer(expected: seq<KeywordRow>, actual: seq<KeywordRow>)
    ensures SortBy(expected, KeywordLe) != SortBy(actual, KeywordLe) <==> multiset(expected) != multiset(actual)
  {
    KeywordOrder();
    SortsAgree(expected, actual, KeywordLe);
  }

  lemma InSum(d: Difference, a: seq<Difference>, b: seq<Difference>)
    ensures d in a + b <==> d in a || d in b
  {
  }

  lemma FieldsAreReported(d: Difference, before: seq<Difference>, expected: UnitSpec, u: UnitRow)
    ensures d in before + When(expected.name != u.name, UnitName)
              + When(expected.targetType != u.targetType, TargetType)
                 + When(expected.eventBid != u.eventBid, EventBid)
            <==> || d in before || (d == UnitName && expected.name != u.name)
                 || (d == TargetType && expected.targetType != u.targetType)
                 || (d == EventBid && expected.eventBid != u.eventBid)
  {
  }

  lemma UnitIsReported(d: Difference, before: seq<Difference>, expected: UnitSpec, u: UnitRow)
    ensures d in AddUnit(before, expected, u) <==> d in before || UnitReports(d, expected, u)
  {
    var fields := before + When(expected.name != u.name, UnitName)
                  + When(expected.targetType != u.targetType, TargetType)
                  + When(expected.eventBid != u.eventBid, EventBid);
    FieldsAreReported(d, before, expected, u);
    var aimed := AddTarget(fields, expected.target, u.target);
    TargetIsReported(d, fields, expected.target, u.target);
    KeywordsDiffer(expected.keywords, u.keywords);
    var last := When(SortBy(expected.keywords, KeywordLe) != SortBy(u.keywords, KeywordLe), KeywordsWithBid);
    InSum(d, aimed, last);
    assert AddUnit(before, expected, u) == aimed + last;
  }

  lemma OneIsReported(d: Difference, p: Payload, ids: seq<int>, rs: seq<CreativeRow>, n: nat)
    requires n < |ids| && n < |p.creatives| && AllPositive(ids) && Lists(rs, ids[n])
    ensures Lookup(rs, ids[n]).Some?
    ensures d in OneCreative(p.creatives[n], ids[n], Lookup(rs, ids[n]).value) <==> CreativeReports(d, p, ids, rs, n)
  {
    LookupIsLast(rs, ids[n]);
    var k: nat :| LastWith(rs, ids[n], k);
    if d in OneCreative(p.creatives[n], ids[n], rs[k]) {
      assert Differs(d, p, ids, rs, n, k);
    }
  }

  lemma LastIsReported(d: Difference, p: Payload, ids: seq<int>, rs: seq<CreativeRow>, n: nat)
    requires 0 < n <= |ids| && AllPositive(ids) && CreativeDifferences(p, ids, rs, n).Some?
    ensures CreativeDifferences(p, ids, rs, n - 1).Some?
    ensures d in CreativeDifferences(p, ids, rs, n).value
            <==> d in CreativeDifferences(p, ids, rs, n - 1).value || CreativeReports(d, p, ids, rs, n - 1)
  {
    LookupIsLast(rs, ids[n - 1]);
    if Lists(rs, ids[n - 1]) {
      OneIsReported(d, p, ids, rs, n - 1);
    } else {
      NothingDiffers(d, p, ids, rs, n - 1);
    }
  }

  lemma {:induction false} CreativesAreReported(d: Difference, p: Payload, ids: seq<int>, rs: seq<CreativeRow>, n: nat)
    requires n <= |ids| && AllPositive(ids) && CreativeDifferences(p, ids, rs, n).Some?
    ensures d in CreativeDifferences(p, ids, rs, n).value
            <==> exists m: nat :: m < n && CreativeReports(d, p, ids, rs, m)
  {
    if n > 0 {
      LastIsReported(d, p, ids, rs, n);
      CreativesAreReported(d, p, ids, rs, n - 1);
    }
  }

  lemma NothingDiffers(d: Difference, p: Payload, ids: seq<int>, rs: seq<CreativeRow>, n: nat)
    requires n < |ids| && !Lists(rs, ids[n])
    ensures CreativeReports(d, p, ids, rs, n) <==> d == CreativityMissing(ids[n])
  {
  }

  /** A difference is in the diff exactly when the rows it is about differ. */
  lemma DiffIsExact(d: Difference, p: Payload, ids: ObjectIds, cs: seq<CampaignRow>, us: seq<UnitRow>,
                    rs: seq<CreativeRow>, diff: seq<Difference>)
    requires AllPositive(ids.creativities) && Differences(p, ids, cs, us, rs) == Some(diff)
    ensures d in diff <==> Reported(d, p, ids, cs, us, rs)
  {
    CountsAreReported(d, p, cs, us, rs);
    CampaignIsReported(d, AddCounts([], p, cs, us, rs), p.campaign, OnlyCampaign(cs));
    UnitIsReported(d, AddCampaign(AddCounts([], p, cs, us, rs), p.campaign, OnlyCampaign(cs)), p.group, OnlyUnit(us));
    CreativesAreReported(d, p, ids.creativities, rs, |ids.creativities|);
    PausedIsExact(cs, us, rs);
  }

  lemma PausedIsExact(cs: seq<CampaignRow>, us: seq<UnitRow>, rs: seq<CreativeRow>)
    ensures PauseConfirmed(cs, us, rs) <==> PausedRows(cs, us, rs)
  {
  }
}
