/** Exact readback of one created plan: what is compared, and when the verdict is clean. */
module Readback {
  import opened Common
  import opened Payloads
  import opened Platform
  import opened Sorting

  // ----- object ids out of a create response -----

  datatype Extraction = Extracted(ids: ObjectIds) | Ambiguous | Malformed

  /** int() over a list of id fields; None when any of them raises. */
  function Ints(fields: seq<IdField>): (r: Option<seq<int>>)
    ensures r.Some? ==> |r.value| == |fields|
  {
    if fields == [] then Some([])
    else
      var first, rest := ToInt(fields[0]), Ints(fields[1..]);
      if first.None? || rest.None? then None else Some([first.value] + rest.value)
  }

  predicate AllPositive(ids: seq<int>) {
    forall i :: 0 <= i < |ids| ==> ids[i] > 0
  }

  /** A response is usable only if it names exactly one campaign, one group and its creatives, all
      with positive ids. */
  function ExtractIds(rows: seq<CascadeRow>): (r: Extraction)
    ensures r.Extracted? ==>
              && |rows| == 1 && |rows[0].units| == 1
              && r.ids.campaign > 0 && r.ids.group > 0
              && r.ids.creativities != [] && AllPositive(r.ids.creativities)
              && |r.ids.creativities| == |rows[0].units[0].creativities|
  {
    if |rows| != 1 then Ambiguous
    else
      var campaign := ToInt(rows[0].campaign);
      if campaign.None? then Malformed
      else if campaign.value <= 0 || |rows[0].units| != 1 then Ambiguous
      else
        var unit := rows[0].units[0];
        var unitId, creativities := ToInt(unit.id), Ints(unit.creativities);
        if unitId.None? || creativities.None? then Malformed
        else if unitId.value <= 0 || creativities.value == [] || !AllPositive(creativities.value) then Ambiguous
        else Extracted(ObjectIds(campaign.value, unitId.value, creativities.value))
  }

  function Numerics(ids: seq<int>): seq<IdField> {
    seq(|ids|, i requires 0 <= i < |ids| => Numeric(ids[i]))
  }

  /** The create response that names exactly these objects. */
  function ResponseFor(ids: ObjectIds): seq<CascadeRow> {
    [CascadeRow(Numeric(ids.campaign), [CascadeUnit(Numeric(ids.group), Numerics(ids.creativities))])]
  }

  predicate PositiveIds(ids: ObjectIds) {
    ids.campaign > 0 && ids.group > 0 && ids.creativities != [] && AllPositive(ids.creativities)
  }

  lemma {:induction false} IntsOfNumerics(fields: seq<IdField>, ids: seq<int>)
    requires AllPositive(ids)
    ensures Ints(fields) == Some(ids) <==> fields == Numerics(ids)
    decreases |fields|
  {
    if fields != [] && ids != [] {
      IntsOfNumerics(fields[1..], ids[1..]);
      assert fields == [fields[0]] + fields[1..] && ids == [ids[0]] + ids[1..];
      assert Numerics(ids) == [Numeric(ids[0])] + Numerics(ids[1..]);
      if Ints(fields) == Some(ids) {
        assert Ints(fields[1..]).value == ids[1..];
      }
    } else {
      assert Ints(fields).Some? ==> |Ints(fields).value| == |fields|;
      assert |Numerics(ids)| == |ids|;
    }
  }

  /** The ids taken from a response are exactly those it names: extraction accepts a response just when it is
      the one naming these objects, all with positive ids, and every such response is accepted. */
  lemma ExtractionIsExact(rows: seq<CascadeRow>, ids: ObjectIds)
    ensures ExtractIds(rows) == Extracted(ids) <==> PositiveIds(ids) && rows == ResponseFor(ids)
  {
    if PositiveIds(ids) && |rows| == 1 && |rows[0].units| == 1 {
      IntsOfNumerics(rows[0].units[0].creativities, ids.creativities);
      assert rows == [rows[0]] && rows[0].units == [rows[0].units[0]];
      assert rows == ResponseFor(ids) <==>
          rows[0].campaign == Numeric(ids.campaign)
          && rows[0].units[0] == CascadeUnit(Numeric(ids.group), Numerics(ids.creativities));
    }
  }

  // ----- the comparison -----

  const NO_TARGET := TargetInfo(None, None, None, None, [], [])
  const NO_CAMPAIGN := CampaignRow(NoId, None, None, None, None, None, None, None)
  const NO_UNIT := UnitRow(NoId, None, None, None, None, NO_TARGET, [], None, None)

  predicate FieldLe(a: Field, b: Field) {
    a.None? || (b.Some? && a.value <= b.value)
  }

  /** Python's tuple order on (keyword, bid, phrase_match_type), with absent fields first. */
  predicate KeywordLe(a: KeywordRow, b: KeywordRow) {
    if a.keyword != b.keyword then FieldLe(a.keyword, b.keyword)
    else if a.bid != b.bid then FieldLe(a.bid, b.bid)
    else FieldLe(a.matchType, b.matchType)
  }

  lemma KeywordOrder()
    ensures TotalOrder(KeywordLe)
  {
  }

  /** Comparing the two tuples does not raise: where they first differ, both fields are present. */
  predicate Comparable(a: KeywordRow, b: KeywordRow) {
    if a.keyword != b.keyword then a.keyword.Some? && b.keyword.Some?
    else if a.bid != b.bid then a.bid.Some? && b.bid.Some?
    else a.matchType == b.matchType || (a.matchType.Some? && b.matchType.Some?)
  }

  /** sorted() does not raise. Rows that agree so far stand together in any sorted order, and neighbours in
      it must have been compared; so two incomparable rows make every comparison sort raise. */
  predicate Sortable(rows: seq<KeywordRow>) {
    forall a, b :: a in rows && b in rows ==> Comparable(a, b)
  }

  lemma SortableOfMultiset(rows: seq<KeywordRow>, others: seq<KeywordRow>)
    requires multiset(rows) == multiset(others)
    ensures Sortable(rows) <==> Sortable(others)
  {
    forall row ensures row in rows <==> row in others {
      SameMembers(rows, others, row);
    }
  }

  function CrowdSet(crowds: seq<Field>): set<Field> {
    set i | 0 <= i < |crowds| :: crowds[i]
  }

  function When(c: bool, d: Difference): seq<Difference> {
    if c then [d] else []
  }

  function TheCampaign(campaigns: seq<CampaignRow>): CampaignRow {
    if |campaigns| == 1 then campaigns[0] else NO_CAMPAIGN
  }

  function TheUnit(units: seq<UnitRow>): UnitRow {
    if |units| == 1 then units[0] else NO_UNIT
  }

  function AddTarget(diff: seq<Difference>, expected: TargetInfo, actual: TargetInfo): seq<Difference> {
    diff
    + When(expected.gender != actual.gender, TargetGender)
    + When(expected.area != actual.area, TargetArea)
    + When(expected.age != actual.age, TargetAge)
    + When(expected.device != actual.device, TargetDevice)
    + When(CrowdSet(expected.crowds) != CrowdSet(actual.crowds), TargetCrowds)
    + When(expected.keywords != actual.keywords, TargetBehaviorKeywords)
  }

  function AddCounts(diff: seq<Difference>, p: Payload, campaigns: seq<CampaignRow>, units: seq<UnitRow>,
                     creatives: seq<CreativeRow>): seq<Difference>
  {
    diff
    + When(|campaigns| != 1, CampaignCount)
    + When(|units| != 1, UnitCount)
    + When(|creatives| != |p.creatives|, CreativityCount)
  }

  function AddCampaign(diff: seq<Difference>, expected: CampaignSpec, c: CampaignRow): seq<Difference> {
    diff
    + When(expected.name != c.name, CampaignName)
    + When(expected.marketingTarget != c.marketingTarget, MarketingTarget)
    + When(expected.placement != c.placement, Placement)
    + When(expected.biddingStrategy != c.biddingStrategy, BiddingStrategy)
    + When(expected.dayBudget != c.dayBudget, CampaignBudget)
  }

  function AddUnit(diff: seq<Difference>, expected: UnitSpec, u: UnitRow): seq<Difference> {
    AddTarget(diff
              + When(expected.name != u.name, UnitName)
              + When(expected.targetType != u.targetType, TargetType)
              + When(expected.eventBid != u.eventBid, EventBid),
              expected.target, u.target)
    + When(SortBy(expected.keywords, KeywordLe) != SortBy(u.keywords, KeywordLe), KeywordsWithBid)
  }

  /** The checks before creatives are looked at, in the order they append. */
  function ObjectDifferences(p: Payload, campaigns: seq<CampaignRow>, units: seq<UnitRow>, creatives: seq<CreativeRow>)
    : seq<Difference>
  {
    AddUnit(AddCampaign(AddCounts([], p, campaigns, units, creatives), p.campaign, TheCampaign(campaigns)),
            p.group, TheUnit(units))
  }

  predicate Numbered(creatives: seq<CreativeRow>) {
    forall i :: 0 <= i < |creatives| ==> creatives[i].id != NotNumeric
  }

  /** The dict keyed by creativity id: the last row with an id wins. */
  function Lookup(creatives: seq<CreativeRow>, id: int): Option<CreativeRow> {
    if creatives == [] then None
    else if ToInt(creatives[|creatives| - 1].id) == Some(id) then Some(creatives[|creatives| - 1])
    else Lookup(creatives[..|creatives| - 1], id)
  }

  function OneCreative(expected: CreativeSpec, id: int, actual: CreativeRow): seq<Difference> {
    When(expected.note != actual.note, CreativityNote(id))
    + When(expected.conversion != actual.conversion, CreativityConversion(id))
  }

  /** The differences the loop over the first n created ids finds; None when it indexes past the
      expected creatives and raises. */
  function CreativeDifferences(p: Payload, ids: seq<int>, creatives: seq<CreativeRow>, n: nat): Option<seq<Difference>>
    requires n <= |ids|
  {
    if n == 0 then Some([])
    else
      var before := CreativeDifferences(p, ids, creatives, n - 1);
      var actual := Lookup(creatives, ids[n - 1]);
      if before.None? then None
      else if actual.None? then Some(before.value + [CreativityMissing(ids[n - 1])])
      else if n > |p.creatives| then None
      else Some(before.value + OneCreative(p.creatives[n - 1], ids[n - 1], actual.value))
  }

  predicate CampaignPaused(c: CampaignRow) {
    c.filterState == Some(2) || c.enable == Some(0)
  }

  predicate UnitPaused(u: UnitRow) {
    u.enable == Some(0) || u.filterState == Some(4) || u.filterState == Some(6)
  }

  predicate CreativePaused(c: CreativeRow) {
    c.enable == Some(0) || c.filterState == Some(3) || c.filterState == Some(4) || c.filterState == Some(5)
  }

  predicate PauseConfirmed(campaigns: seq<CampaignRow>, units: seq<UnitRow>, creatives: seq<CreativeRow>) {
    && CampaignPaused(TheCampaign(campaigns))
    && UnitPaused(TheUnit(units))
    && forall i :: 0 <= i < |creatives| ==> CreativePaused(creatives[i])
  }

  /** The whole diff; None when the comparison raises. */
  function Differences(p: Payload, ids: ObjectIds, campaigns: seq<CampaignRow>, units: seq<UnitRow>,
                       creatives: seq<CreativeRow>)
    : Option<seq<Difference>>
  {
    var found := CreativeDifferences(p, ids.creativities, creatives, |ids.creativities|);
    if !Sortable(p.group.keywords) || !Sortable(TheUnit(units).keywords) || !Numbered(creatives) || found.None? then
      None
    else Some(ObjectDifferences(p, campaigns, units, creatives) + found.value
              + When(!PauseConfirmed(campaigns, units, creatives), PauseNotVerified))
  }

  /** What an operator means by a clean readback: one campaign and one unit carrying exactly the
      expected fields, the same keyword bids as a multiset, the same crowd packages as a set, every
      created creative present with its note and conversion, and everything paused. */
  ghost predicate Clean(p: Payload, ids: ObjectIds, campaigns: seq<CampaignRow>, units: seq<UnitRow>,
                        creatives: seq<CreativeRow>)
  {
    && |campaigns| == 1 && |units| == 1 && |creatives| == |p.creatives|
    && p.campaign == CampaignSpec(campaigns[0].name, campaigns[0].marketingTarget, campaigns[0].placement,
                                  campaigns[0].biddingStrategy, campaigns[0].dayBudget)
    && p.group.name == units[0].name && p.group.targetType == units[0].targetType
    && p.group.eventBid == units[0].eventBid
    && p.group.target.(crowds := []) == units[0].target.(crowds := [])
    && CrowdSet(p.group.target.crowds) == CrowdSet(units[0].target.crowds)
    && Sortable(p.group.keywords) && multiset(p.group.keywords) == multiset(units[0].keywords)
    && Numbered(creatives)
    && |ids.creativities| <= |p.creatives|
    && (forall i :: 0 <= i < |ids.creativities| ==> CreativeMatches(p, ids.creativities, creatives, i))
    && PauseConfirmed(campaigns, units, creatives)
  }

  predicate CreativeMatches(p: Payload, ids: seq<int>, creatives: seq<CreativeRow>, i: nat)
    requires i < |ids|
  {
    var actual := Lookup(creatives, ids[i]);
    && i < |p.creatives| && actual.Some?
    && actual.value.note == p.creatives[i].note && actual.value.conversion == p.creatives[i].conversion
  }

  lemma AppendClean(before: seq<Difference>, found: seq<Difference>)
    ensures before + found == [] <==> before == [] && found == []
  {
    assert |before + found| == |before| + |found|;
  }

  /** One more created id leaves the diff empty exactly when it was empty and the creative agrees. */
  lemma NextCreativeClean(p: Payload, ids: seq<int>, creatives: seq<CreativeRow>, n: nat)
    requires 0 < n <= |ids|
    ensures CreativeDifferences(p, ids, creatives, n) == Some([])
            <==> CreativeDifferences(p, ids, creatives, n - 1) == Some([]) && CreativeMatches(p, ids, creatives, n - 1)
  {
    var actual, before := Lookup(creatives, ids[n - 1]), CreativeDifferences(p, ids, creatives, n - 1);
    if before.Some? && actual.None? {
      AppendClean(before.value, [CreativityMissing(ids[n - 1])]);
    } else if before.Some? && n <= |p.creatives| {
      AppendClean(before.value, OneCreative(p.creatives[n - 1], ids[n - 1], actual.value));
    }
  }

  lemma MatchesNext(p: Payload, ids: seq<int>, creatives: seq<CreativeRow>, n: nat)
    requires 0 < n <= |ids|
    ensures (forall i :: 0 <= i < n ==> CreativeMatches(p, ids, creatives, i))
            <==> (forall i :: 0 <= i < n - 1 ==> CreativeMatches(p, ids, creatives, i))
                 && CreativeMatches(p, ids, creatives, n - 1)
  {
  }

  lemma {:induction false} CreativesClean(p: Payload, ids: seq<int>, creatives: seq<CreativeRow>, n: nat)
    requires n <= |ids|
    ensures CreativeDifferences(p, ids, creatives, n) == Some([])
            <==> forall i :: 0 <= i < n ==> CreativeMatches(p, ids, creatives, i)
  {
    if n > 0 {
      CreativesClean(p, ids, creatives, n - 1);
      NextCreativeClean(p, ids, creatives, n);
      MatchesNext(p, ids, creatives, n);
    }
  }

  lemma CampaignClean(diff: seq<Difference>, expected: CampaignSpec, c: CampaignRow)
    ensures AddCampaign(diff, expected, c) == [] <==>
              diff == []
              && expected == CampaignSpec(c.name, c.marketingTarget, c.placement, c.biddingStrategy, c.dayBudget)
  {
    assert |AddCampaign(diff, expected, c)| >= |diff|;
  }

  lemma TargetClean(diff: seq<Difference>, expected: TargetInfo, actual: TargetInfo)
    ensures AddTarget(diff, expected, actual) == [] <==>
              diff == [] && expected.(crowds := []) == actual.(crowds := [])
              && CrowdSet(expected.crowds) == CrowdSet(actual.crowds)
  {
    assert |AddTarget(diff, expected, actual)| >= |diff|;
  }

  lemma UnitClean(diff: seq<Difference>, expected: UnitSpec, u: UnitRow)
    ensures AddUnit(diff, expected, u) == [] <==>
              && diff == []
              && expected.name == u.name && expected.targetType == u.targetType && expected.eventBid == u.eventBid
              && expected.target.(crowds := []) == u.target.(crowds := [])
              && CrowdSet(expected.target.crowds) == CrowdSet(u.target.crowds)
              && multiset(expected.keywords) == multiset(u.keywords)
  {
    var before := diff + When(expected.name != u.name, UnitName)
                  + When(expected.targetType != u.targetType, TargetType)
                  + When(expected.eventBid != u.eventBid, EventBid);
    assert |before| >= |diff|;
    TargetClean(before, expected.target, u.target);
    KeywordOrder();
    SortsAgree(expected.keywords, u.keywords, KeywordLe);
  }

  lemma SortablesAgree(rows: seq<KeywordRow>, others: seq<KeywordRow>)
    ensures multiset(rows) == multiset(others) ==> (Sortable(rows) <==> Sortable(others))
  {
    if multiset(rows) == multiset(others) {
      SortableOfMultiset(rows, others);
    }
  }

  /** The readback verdict is clean exactly when every compared field, count and pause flag agrees. */
  lemma VerdictIsExact(p: Payload, ids: ObjectIds, campaigns: seq<CampaignRow>, units: seq<UnitRow>,
                       creatives: seq<CreativeRow>)
    ensures Differences(p, ids, campaigns, units, creatives) == Some([])
            <==> Clean(p, ids, campaigns, units, creatives)
  {
    CreativesClean(p, ids.creativities, creatives, |ids.creativities|);
    var counts := AddCounts([], p, campaigns, units, creatives);
    CampaignClean(counts, p.campaign, TheCampaign(campaigns));
    UnitClean(AddCampaign(counts, p.campaign, TheCampaign(campaigns)), p.group, TheUnit(units));
    SortablesAgree(p.group.keywords, TheUnit(units).keywords);
    if |ids.creativities| > |p.creatives| {
      assert !CreativeMatches(p, ids.creativities, creatives, |p.creatives|);
    }
  }

  lemma UnitRowOrder(diff: seq<Difference>, expected: UnitSpec, u: UnitRow, keywords: seq<KeywordRow>,
                     crowds: seq<Field>)
    requires multiset(keywords) == multiset(u.keywords) && CrowdSet(crowds) == CrowdSet(u.target.crowds)
    ensures AddUnit(diff, expected, u.(keywords := keywords, target := u.target.(crowds := crowds)))
            == AddUnit(diff, expected, u)
  {
    KeywordOrder();
    SortsAgree(keywords, u.keywords, KeywordLe);
  }

  /** Permuting the platform's keyword rows, or permuting or repeating its crowd packages, changes no
      part of the diff, nor whether the comparison raises. */
  lemma RowOrderIsIrrelevant(p: Payload, ids: ObjectIds, campaigns: seq<CampaignRow>, unit: UnitRow,
                             creatives: seq<CreativeRow>, keywords: seq<KeywordRow>, crowds: seq<Field>)
    requires multiset(keywords) == multiset(unit.keywords)
    requires CrowdSet(crowds) == CrowdSet(unit.target.crowds)
    ensures Differences(p, ids, campaigns, [unit.(keywords := keywords, target := unit.target.(crowds := crowds))],
                        creatives)
         == Differences(p, ids, campaigns, [unit], creatives)
  {
    var counts := AddCounts([], p, campaigns, [unit], creatives);
    UnitRowOrder(AddCampaign(counts, p.campaign, TheCampaign(campaigns)), p.group, unit, keywords, crowds);
    SortableOfMultiset(keywords, unit.keywords);
  }

  /** No two rows carry the same number as their id. */
  predicate DistinctIds(creatives: seq<CreativeRow>) {
    forall i, j :: 0 <= i < j < |creatives| ==>
      ToInt(creatives[i].id).None? || ToInt(creatives[i].id) != ToInt(creatives[j].id)
  }

  /** Then the dict answers with the one row of that id, wherever it stands. */
  lemma {:induction false} LookupIsMember(creatives: seq<CreativeRow>, id: int, row: CreativeRow)
    requires DistinctIds(creatives)
    ensures Lookup(creatives, id) == Some(row) <==> row in creatives && ToInt(row.id) == Some(id)
  {
    if creatives != [] {
      var n := |creatives| - 1;
      LookupIsMember(creatives[..n], id, row);
      assert creatives == creatives[..n] + [creatives[n]];
    }
  }

  lemma PermutedIdsDistinct(creatives: seq<CreativeRow>, others: seq<CreativeRow>)
    requires multiset(creatives) == multiset(others) && DistinctIds(creatives) && Numbered(creatives)
    ensures DistinctIds(others) && Numbered(others)
  {
    ArrangementKeepsDistinct(creatives, others);
    forall i | 0 <= i < |others| ensures others[i] in creatives {
      SameMembers(creatives, others, others[i]);
    }
  }

  lemma LookupIgnoresOrder(creatives: seq<CreativeRow>, others: seq<CreativeRow>, id: int)
    requires multiset(creatives) == multiset(others) && DistinctIds(creatives) && DistinctIds(others)
    ensures Lookup(creatives, id) == Lookup(others, id)
  {
    if Lookup(creatives, id).Some? {
      FoundInBoth(creatives, others, id);
    } else if Lookup(others, id).Some? {
      FoundInBoth(others, creatives, id);
    }
  }

  lemma FoundInBoth(creatives: seq<CreativeRow>, others: seq<CreativeRow>, id: int)
    requires multiset(creatives) == multiset(others) && DistinctIds(creatives) && DistinctIds(others)
    requires Lookup(creatives, id).Some?
    ensures Lookup(others, id) == Lookup(creatives, id)
  {
    var row := Lookup(creatives, id).value;
    LookupIsMember(creatives, id, row);
    SameMembers(creatives, others, row);
    LookupIsMember(others, id, row);
  }

  lemma {:induction false} CreativeDifferencesIgnoreOrder(p: Payload, ids: seq<int>, creatives: seq<CreativeRow>,
                                                         others: seq<CreativeRow>, n: nat)
    requires n <= |ids|
    requires multiset(creatives) == multiset(others) && DistinctIds(creatives) && DistinctIds(others)
    ensures CreativeDifferences(p, ids, creatives, n) == CreativeDifferences(p, ids, others, n)
  {
    if n > 0 {
      CreativeDifferencesIgnoreOrder(p, ids, creatives, others, n - 1);
      LookupIgnoresOrder(creatives, others, ids[n - 1]);
    }
  }

  lemma PauseIgnoresOrder(campaigns: seq<CampaignRow>, units: seq<UnitRow>, creatives: seq<CreativeRow>,
                          others: seq<CreativeRow>)
    requires multiset(creatives) == multiset(others)
    ensures PauseConfirmed(campaigns, units, creatives) <==> PauseConfirmed(campaigns, units, others)
    ensures Numbered(creatives) <==> Numbered(others)
  {
    forall row ensures row in creatives <==> row in others {
      SameMembers(creatives, others, row);
    }
    assert (forall i :: 0 <= i < |creatives| ==> CreativePaused(creatives[i]))
      <==> forall row :: row in creatives ==> CreativePaused(row);
    assert (forall i :: 0 <= i < |others| ==> CreativePaused(others[i]))
      <==> forall row :: row in others ==> CreativePaused(row);
    assert Numbered(creatives) <==> forall row :: row in creatives ==> row.id != NotNumeric;
    assert Numbered(others) <==> forall row :: row in others ==> row.id != NotNumeric;
  }

  /** The order in which the platform lists the creatives in a readback changes nothing, as long as their ids
      differ: each is looked up by its id. */
  lemma CreativeRowOrderIsIrrelevant(p: Payload, ids: ObjectIds, campaigns: seq<CampaignRow>, units: seq<UnitRow>,
                                     creatives: seq<CreativeRow>, others: seq<CreativeRow>)
    requires multiset(creatives) == multiset(others) && DistinctIds(creatives)
    ensures Differences(p, ids, campaigns, units, creatives) == Differences(p, ids, campaigns, units, others)
  {
    PauseIgnoresOrder(campaigns, units, creatives, others);
    SameSize(creatives, others);
    if Numbered(creatives) {
      PermutedIdsDistinct(creatives, others);
      CreativeDifferencesIgnoreOrder(p, ids.creativities, creatives, others, |ids.creativities|);
    }
  }

  // ----- the code: three queries, then a diff built step by step -----

  /** Append one difference when the two sides disagree. */
  method Check(diff: seq<Difference>, agree: bool, d: Difference) returns (longer: seq<Difference>)
    ensures longer == diff + When(!agree, d)
  {
    longer := diff;
    if !agree {
      longer := longer + [d];
    }
  }

  method CompareTarget(diff: seq<Difference>, expected: TargetInfo, actual: TargetInfo)
    returns (longer: seq<Difference>)
    ensures longer == AddTarget(diff, expected, actual)
  {
    longer := Check(diff, expected.gender == actual.gender, TargetGender);
    longer := Check(longer, expected.area == actual.area, TargetArea);
    longer := Check(longer, expected.age == actual.age, TargetAge);
    longer := Check(longer, expected.device == actual.device, TargetDevice);
    longer := Check(longer, CrowdSet(expected.crowds) == CrowdSet(actual.crowds), TargetCrowds);
    longer := Check(longer, expected.keywords == actual.keywords, TargetBehaviorKeywords);
  }

  method CompareCampaign(diff: seq<Difference>, expected: CampaignSpec, c: CampaignRow)
    returns (longer: seq<Difference>)
    ensures longer == AddCampaign(diff, expected, c)
  {
    longer := Check(diff, expected.name == c.name, CampaignName);
    longer := Check(longer, expected.marketingTarget == c.marketingTarget, MarketingTarget);
    longer := Check(longer, expected.placement == c.placement, Placement);
    longer := Check(longer, expected.biddingStrategy == c.biddingStrategy, BiddingStrategy);
    longer := Check(longer, expected.dayBudget == c.dayBudget, CampaignBudget);
  }

  method CompareUnit(diff: seq<Difference>, expected: UnitSpec, u: UnitRow)
    returns (raised: bool, longer: seq<Difference>)
    ensures raised <==> !Sortable(expected.keywords) || !Sortable(u.keywords)
    ensures !raised ==> longer == AddUnit(diff, expected, u)
  {
    raised := false;
    longer := Check(diff, expected.name == u.name, UnitName);
    longer := Check(longer, expected.targetType == u.targetType, TargetType);
    longer := Check(longer, expected.eventBid == u.eventBid, EventBid);
    longer := CompareTarget(longer, expected.target, u.target);
    if !Sortable(expected.keywords) || !Sortable(u.keywords) {
      raised := true;
      return;
    }
    longer := Check(longer, SortBy(expected.keywords, KeywordLe) == SortBy(u.keywords, KeywordLe), KeywordsWithBid);
  }

  /** The count, campaign and unit checks, in the program's order. */
  method CompareObjects(p: Payload, campaigns: seq<CampaignRow>, units: seq<UnitRow>, creatives: seq<CreativeRow>)
    returns (raised: bool, diff: seq<Difference>)
    ensures raised <==> !Sortable(p.group.keywords) || !Sortable(TheUnit(units).keywords)
    ensures !raised ==> diff == ObjectDifferences(p, campaigns, units, creatives)
  {
    var c, u := NO_CAMPAIGN, NO_UNIT;
    diff := [];
    diff := Check(diff, |campaigns| == 1, CampaignCount);
    if |campaigns| == 1 {
      c := campaigns[0];
    }
    diff := Check(diff, |units| == 1, UnitCount);
    if |units| == 1 {
      u := units[0];
    }
    diff := Check(diff, |creatives| == |p.creatives|, CreativityCount);
    diff := CompareCampaign(diff, p.campaign, c);
    raised, diff := CompareUnit(diff, p.group, u);
  }

  /** The loop over the created ids; it raises when it indexes past the expected creatives. */
  method CompareCreatives(p: Payload, ids: seq<int>, creatives: seq<CreativeRow>, before: seq<Difference>)
    returns (raised: bool, longer: seq<Difference>)
    ensures raised <==> CreativeDifferences(p, ids, creatives, |ids|).None?
    ensures !raised ==> longer == before + CreativeDifferences(p, ids, creatives, |ids|).value
  {
    raised, longer := false, before;
    for n := 0 to |ids|
      invariant CreativeDifferences(p, ids, creatives, n).Some?
      invariant longer == before + CreativeDifferences(p, ids, creatives, n).value
    {
      var actual := Lookup(creatives, ids[n]);
      if actual.None? {
        longer := longer + [CreativityMissing(ids[n])];
        continue;
      }
      if n >= |p.creatives| {
        CreativesRaise(p, ids, creatives, n + 1, |ids|);
        raised := true;
        return;
      }
      longer := Check(longer, p.creatives[n].note == actual.value.note, CreativityNote(ids[n]));
      longer := Check(longer, p.creatives[n].conversion == actual.value.conversion, CreativityConversion(ids[n]));
    }
  }

  /** Build the diff as the program does, check by check, appending as it goes. */
  method Compare(p: Payload, ids: ObjectIds, campaigns: seq<CampaignRow>, units: seq<UnitRow>,
                 creatives: seq<CreativeRow>)
    returns (raised: bool, diff: seq<Difference>, paused: bool)
    ensures raised <==> Differences(p, ids, campaigns, units, creatives).None?
    ensures !raised ==> Some(diff) == Differences(p, ids, campaigns, units, creatives)
    ensures !raised ==> (diff == [] <==> Clean(p, ids, campaigns, units, creatives))
    ensures !raised ==> paused == PauseConfirmed(campaigns, units, creatives)
    ensures !raised && diff == [] ==> paused
  {
    paused := false;
    raised, diff := CompareObjects(p, campaigns, units, creatives);
    if raised || !Numbered(creatives) {
      raised := true;
      return;
    }
    raised, diff := CompareCreatives(p, ids.creativities, creatives, diff);
    if raised {
      return;
    }
    paused := PauseConfirmed(campaigns, units, creatives);
    diff := Check(diff, paused, PauseNotVerified);
    VerdictIsExact(p, ids, campaigns, units, creatives);
  }

  lemma {:induction false} CreativesRaise(p: Payload, ids: seq<int>, creatives: seq<CreativeRow>, m: nat, n: nat)
    requires m <= n <= |ids| && CreativeDifferences(p, ids, creatives, m).None?
    ensures CreativeDifferences(p, ids, creatives, n).None?
    decreases n
  {
    if m < n {
      CreativesRaise(p, ids, creatives, m, n - 1);
    }
  }
}
