/** What a run of reconcile finds, does and reports, read off the listed rows and the trace of its calls alone. */
module ReconcileOutcomes {
  import opened Common
  import opened Payloads
  import opened Platform
  import opened Readback
  import opened ReadbackOutcomes
  import opened Traces
  import opened Execution
  import opened ExecuteOutcomes
  import opened Reconciliation

  // ----- exactly one row of a name -----

  /** The row at i, and no other, carries the name. */
  predicate OnlyNamed(cs: seq<CampaignRow>, name: Field, i: nat) {
    i < |cs| && cs[i].name == name && forall k :: 0 <= k < |cs| && k != i ==> cs[k].name != name
  }

  predicate NoneNamed(cs: seq<CampaignRow>, name: Field) {
    forall k :: 0 <= k < |cs| ==> cs[k].name != name
  }

  predicate TwoNamed(cs: seq<CampaignRow>, name: Field) {
    exists i, j :: 0 <= i < j < |cs| && cs[i].name == name && cs[j].name == name
  }

  /** A unit goes by its name or, where that is missing or empty, by its unit name. */
  predicate Titled(u: UnitRow, name: Field) {
    if u.name in {None, Some(0)} then u.unitName == name else u.name == name
  }

  predicate OnlyTitled(us: seq<UnitRow>, name: Field, i: nat) {
    i < |us| && Titled(us[i], name) && forall k :: 0 <= k < |us| && k != i ==> !Titled(us[k], name)
  }

  predicate NoneTitled(us: seq<UnitRow>, name: Field) {
    forall k :: 0 <= k < |us| ==> !Titled(us[k], name)
  }

  predicate TwoTitled(us: seq<UnitRow>, name: Field) {
    exists i, j :: 0 <= i < j < |us| && Titled(us[i], name) && Titled(us[j], name)
  }

  // ----- filtering, place by place -----

  /** The marked places, ascending. */
  function Places(marks: seq<bool>): (places: seq<nat>)
    ensures forall i :: 0 <= i < |places| ==> places[i] < |marks| && marks[places[i]]
    ensures forall i, j :: 0 <= i < j < |places| ==> places[i] < places[j]
  {
    if marks == [] then []
    else
      var n := |marks| - 1;
      var rest := Places(marks[..n]);
      assert forall i :: 0 <= i < |rest| ==> marks[..n][rest[i]] == marks[rest[i]];
      if marks[n] then rest + [n] else rest
  }

  lemma {:induction false} MarkedIsPlaced(marks: seq<bool>, k: nat)
    requires k < |marks| && marks[k]
    ensures k in Places(marks)
  {
    var n := |marks| - 1;
    if k < n {
      MarkedIsPlaced(marks[..n], k);
    }
  }

  /** Counting marks. */
  lemma MarksAreCounted(marks: seq<bool>)
    ensures |Places(marks)| == 0 <==> forall k :: 0 <= k < |marks| ==> !marks[k]
    ensures |Places(marks)| > 1 <==> exists i, j :: 0 <= i < j < |marks| && marks[i] && marks[j]
    ensures |Places(marks)| == 1 ==> forall k :: 0 <= k < |marks| && marks[k] ==> k == Places(marks)[0]
  {
    var places := Places(marks);
    forall k | 0 <= k < |marks| && marks[k] ensures k in places {
      MarkedIsPlaced(marks, k);
    }
    if |places| > 1 {
      assert marks[places[0]] && marks[places[1]] && places[0] < places[1];
    }
    if i, j :| 0 <= i < j < |marks| && marks[i] && marks[j] {
      assert i in places && j in places;
    }
  }

  function NameMarks(cs: seq<CampaignRow>, name: Field): seq<bool> {
    seq(|cs|, i requires 0 <= i < |cs| => cs[i].name == name)
  }

  function TitleMarks(us: seq<UnitRow>, name: Field): seq<bool> {
    seq(|us|, i requires 0 <= i < |us| => Titled(us[i], name))
  }

  lemma {:induction false} CampaignsArePlaced(cs: seq<CampaignRow>, name: Field, marks: seq<bool>)
    requires |marks| == |cs| && forall k :: 0 <= k < |cs| ==> (marks[k] <==> cs[k].name == name)
    ensures var found, places := NamedCampaigns(cs, name), Places(marks);
            |found| == |places| && forall i :: 0 <= i < |places| ==> found[i] == cs[places[i]]
  {
    if cs != [] {
      CampaignsArePlaced(cs[..|cs| - 1], name, marks[..|cs| - 1]);
    }
  }

  lemma TitleIsExact(u: UnitRow, name: Field)
    ensures UnitTitle(u) == name <==> Titled(u, name)
  {
  }

  lemma {:induction false} UnitsArePlaced(us: seq<UnitRow>, name: Field, marks: seq<bool>)
    requires |marks| == |us| && forall k :: 0 <= k < |us| ==> (marks[k] <==> UnitTitle(us[k]) == name)
    ensures var found, places := NamedUnits(us, name), Places(marks);
            |found| == |places| && forall i :: 0 <= i < |places| ==> found[i] == us[places[i]]
  {
    if us != [] {
      UnitsArePlaced(us[..|us| - 1], name, marks[..|us| - 1]);
    }
  }

  lemma CampaignsAreCounted(cs: seq<CampaignRow>, name: Field)
    ensures |NamedCampaigns(cs, name)| == 0 <==> NoneNamed(cs, name)
    ensures |NamedCampaigns(cs, name)| > 1 <==> TwoNamed(cs, name)
    ensures |NamedCampaigns(cs, name)| == 1 ==>
              exists i: nat :: OnlyNamed(cs, name, i) && NamedCampaigns(cs, name) == [cs[i]]
  {
    var marks := NameMarks(cs, name);
    CampaignsArePlaced(cs, name, marks);
    MarksAreCounted(marks);
    assert forall k :: 0 <= k < |cs| ==> marks[k] == (cs[k].name == name);
    if |NamedCampaigns(cs, name)| == 1 {
      assert OnlyNamed(cs, name, Places(marks)[0]);
    }
  }

  lemma UnitsAreCounted(us: seq<UnitRow>, name: Field)
    ensures |NamedUnits(us, name)| == 0 <==> NoneTitled(us, name)
    ensures |NamedUnits(us, name)| > 1 <==> TwoTitled(us, name)
    ensures |NamedUnits(us, name)| == 1 ==>
              exists i: nat :: OnlyTitled(us, name, i) && NamedUnits(us, name) == [us[i]]
  {
    var marks := TitleMarks(us, name);
    forall k | 0 <= k < |us| ensures marks[k] <==> UnitTitle(us[k]) == name {
      TitleIsExact(us[k], name);
    }
    UnitsArePlaced(us, name, marks);
    MarksAreCounted(marks);
    assert forall k :: 0 <= k < |us| ==> marks[k] == Titled(us[k], name);
    if |NamedUnits(us, name)| == 1 {
      assert OnlyTitled(us, name, Places(marks)[0]);
    }
  }

  // ----- what discovery finds -----

  /** Exactly one row carries the campaign's name, and its id is positive. */
  ghost predicate CampaignFound(p: Payload, cs: seq<CampaignRow>, id: int) {
    id > 0 && exists i: nat :: OnlyNamed(cs, p.campaign.name, i) && cs[i].id == Numeric(id)
  }

  /** Exactly one row goes by the unit's name; an id that is no number counts as 0. */
  ghost predicate UnitFound(p: Payload, us: seq<UnitRow>, id: int) {
    exists i: nat :: OnlyTitled(us, p.group.name, i) && us[i].id == (if id == 0 && !us[i].id.Numeric? then us[i].id
                                                                    else Numeric(id))
  }

  predicate IsNoted(p: Payload, row: CreativeRow) {
    exists m :: 0 <= m < |p.creatives| && p.creatives[m].note == row.note
  }

  function NoteMarks(p: Payload, rs: seq<CreativeRow>): seq<bool> {
    seq(|rs|, i requires 0 <= i < |rs| => IsNoted(p, rs[i]))
  }

  /** The rows that carry a note of the plan, row by row, have these numbers; as many as the plan lists, all
      positive. */
  predicate CreativesFound(p: Payload, rs: seq<CreativeRow>, ids: seq<int>) {
    var places := Places(NoteMarks(p, rs));
    && |places| == |ids| == |p.creatives|
    && forall i :: 0 <= i < |ids| ==> ids[i] > 0 && rs[places[i]].id == Numeric(ids[i])
  }

  lemma CampaignIsExact(p: Payload, cs: seq<CampaignRow>, id: int)
    ensures CampaignFound(p, cs, id) <==>
              |NamedCampaigns(cs, p.campaign.name)| == 1 && FoundCampaign(p, cs) == id && id > 0
  {
    CampaignsAreCounted(cs, p.campaign.name);
    if i: nat :| OnlyNamed(cs, p.campaign.name, i) {
      assert !NoneNamed(cs, p.campaign.name) && !TwoNamed(cs, p.campaign.name);
      var k: nat :| OnlyNamed(cs, p.campaign.name, k) && NamedCampaigns(cs, p.campaign.name) == [cs[k]];
    }
  }

  lemma UnitIsExact(p: Payload, us: seq<UnitRow>, id: int)
    ensures UnitFound(p, us, id) <==> |NamedUnits(us, p.group.name)| == 1 && FoundUnit(p, us) == id
  {
    UnitsAreCounted(us, p.group.name);
    if i: nat :| OnlyTitled(us, p.group.name, i) {
      assert !NoneTitled(us, p.group.name) && !TwoTitled(us, p.group.name);
      var k: nat :| OnlyTitled(us, p.group.name, k) && NamedUnits(us, p.group.name) == [us[k]];
    }
  }

  lemma NoteIsExact(p: Payload, row: CreativeRow)
    ensures row.note in NotesOf(p.creatives) <==> IsNoted(p, row)
  {
  }

  lemma {:induction false} NotedArePlaced(rs: seq<CreativeRow>, notes: set<Field>, marks: seq<bool>)
    requires |marks| == |rs| && forall k :: 0 <= k < |rs| ==> (marks[k] <==> rs[k].note in notes)
    ensures var found, places := NotedCreatives(rs, notes), Places(marks);
            |found| == |places| && forall i :: 0 <= i < |places| ==> found[i] == rs[places[i]]
  {
    if rs != [] {
      NotedArePlaced(rs[..|rs| - 1], notes, marks[..|rs| - 1]);
    }
  }

  lemma CreativesArePlaced(p: Payload, rs: seq<CreativeRow>)
    ensures var found, places := NotedCreatives(rs, NotesOf(p.creatives)), Places(NoteMarks(p, rs));
            |found| == |places| && forall i :: 0 <= i < |places| ==> found[i] == rs[places[i]]
  {
    forall k | 0 <= k < |rs| ensures NoteMarks(p, rs)[k] <==> rs[k].note in NotesOf(p.creatives) {
      NoteIsExact(p, rs[k]);
    }
    NotedArePlaced(rs, NotesOf(p.creatives), NoteMarks(p, rs));
  }

  lemma CreativesAreExact(p: Payload, rs: seq<CreativeRow>, ids: seq<int>)
    ensures CreativesFound(p, rs, ids) <==>
              FoundCreatives(p, rs) == ids && |ids| == |p.creatives| && AllPositive(ids)
  {
    var found := NotedCreatives(rs, NotesOf(p.creatives));
    CreativesArePlaced(p, rs);
    IntsAreNumbers(found, ids);
    if Ints(IdFields(found)).Some? {
      IntsAreNumbers(found, Ints(IdFields(found)).value);
    } else if p.creatives == [] {
      assert NotesOf(p.creatives) == {};
      NothingNoted(rs);
    }
  }

  lemma {:induction false} NothingNoted(rs: seq<CreativeRow>)
    ensures NotedCreatives(rs, {}) == []
  {
    if rs != [] {
      NothingNoted(rs[..|rs| - 1]);
    }
  }

  ghost predicate SomeCampaign(p: Payload, cs: seq<CampaignRow>) {
    exists id :: CampaignFound(p, cs, id)
  }

  ghost predicate SomeUnit(p: Payload, us: seq<UnitRow>) {
    exists id :: UnitFound(p, us, id)
  }

  ghost predicate AllCreatives(p: Payload, rs: seq<CreativeRow>) {
    exists ids :: CreativesFound(p, rs, ids)
  }

  ghost function CampaignId(p: Payload, cs: seq<CampaignRow>): (id: int)
    requires SomeCampaign(p, cs)
    ensures CampaignFound(p, cs, id)
  {
    var id :| CampaignFound(p, cs, id);
    id
  }

  ghost function UnitId(p: Payload, us: seq<UnitRow>): (id: int)
    requires SomeUnit(p, us)
    ensures UnitFound(p, us, id)
  {
    var id :| UnitFound(p, us, id);
    id
  }

  ghost function CreativeIds(p: Payload, rs: seq<CreativeRow>): (ids: seq<int>)
    requires AllCreatives(p, rs)
    ensures CreativesFound(p, rs, ids)
  {
    var ids :| CreativesFound(p, rs, ids);
    ids
  }

  // ----- what the calls of one turn say -----

  /** A discovery lists by name, not by id. */
  predicate Discovers(call: Call) {
    call.ListCampaigns? && call.ids == []
  }

  predicate DiscoversFor(t: seq<Call>, c: nat, p: Payload) {
    c < |t| && Discovers(t[c]) && t[c].name == p.campaign.name
  }

  predicate Discovered(t: seq<Call>, c: nat, p: Payload) {
    DiscoversFor(t, c, p) && t[c].campaigns.Answer?
  }

  predicate AbsentAt(t: seq<Call>, c: nat, p: Payload) {
    Discovered(t, c, p) && NoneNamed(t[c].campaigns.value, p.campaign.name)
  }

  ghost predicate CampaignAt(t: seq<Call>, c: nat, p: Payload) {
    Discovered(t, c, p) && SomeCampaign(p, t[c].campaigns.value)
  }

  ghost predicate AsksUnits(t: seq<Call>, c: nat, p: Payload) {
    CampaignAt(t, c, p) && c + 1 < |t| && t[c + 1].ListUnits? && t[c + 1].ids == []
    && t[c + 1].campaign == Some(CampaignId(p, t[c].campaigns.value))
  }

  ghost predicate UnitAt(t: seq<Call>, c: nat, p: Payload) {
    AsksUnits(t, c, p) && t[c + 1].units.Answer? && SomeUnit(p, t[c + 1].units.value)
  }

  ghost predicate AsksNotes(t: seq<Call>, c: nat, p: Payload) {
    UnitAt(t, c, p) && c + 2 < |t| && t[c + 2].SearchCreatives? && t[c + 2].ids == []
    && t[c + 2].group == Some(UnitId(p, t[c + 1].units.value))
  }

  ghost predicate FoundAt(t: seq<Call>, c: nat, p: Payload) {
    AsksNotes(t, c, p) && t[c + 2].creatives.Answer? && UnitId(p, t[c + 1].units.value) > 0
    && AllCreatives(p, t[c + 2].creatives.value)
  }

  ghost function ObjectsAt(t: seq<Call>, c: nat, p: Payload): ObjectIds
    requires FoundAt(t, c, p)
  {
    ObjectIds(CampaignId(p, t[c].campaigns.value), UnitId(p, t[c + 1].units.value),
              CreativeIds(p, t[c + 2].creatives.value))
  }

  ghost predicate PausesFound(t: seq<Call>, c: nat, p: Payload) {
    FoundAt(t, c, p) && c + 3 < |t| && t[c + 3].SetStatus? && !t[c + 3].enable
    && t[c + 3].ids == [ObjectsAt(t, c, p).campaign]
  }

  ghost predicate FoundPaused(t: seq<Call>, c: nat, p: Payload) {
    PausesFound(t, c, p) && t[c + 3].acknowledged.Answer?
    && ObjectsAt(t, c, p).campaign in t[c + 3].acknowledged.value
  }

  /** Campaign, unit and creatives each found exactly once, the campaign's pause acknowledged, and what was read
      back is what the plan asks for, paused. */
  ghost predicate FoundCleanAt(t: seq<Call>, c: nat, p: Payload) {
    FoundPaused(t, c, p) && ReadClean(t, c + 4, p, ObjectsAt(t, c, p))
  }

  /** Each call of the turn leads to the next. */
  ghost predicate TurnGoesOn(t: seq<Call>, c: nat, p: Payload) {
    && DiscoversFor(t, c, p)
    && (CampaignAt(t, c, p) ==> AsksUnits(t, c, p))
    && (UnitAt(t, c, p) ==> AsksNotes(t, c, p))
    && (FoundAt(t, c, p) ==> PausesFound(t, c, p))
    && (FoundPaused(t, c, p) ==> AsksOn(t, c + 4, ObjectsAt(t, c, p)))
  }

  ghost predicate DiscoveryRefused(t: seq<Call>, c: nat, p: Payload) {
    || (DiscoversFor(t, c, p) && t[c].campaigns.Refused?)
    || (AsksUnits(t, c, p) && t[c + 1].units.Refused?)
    || (AsksNotes(t, c, p) && t[c + 2].creatives.Refused?)
  }

  /** A discovery broke, or did not find exactly one campaign, one unit and all the creatives. */
  ghost predicate Unresolved(t: seq<Call>, c: nat, p: Payload) {
    || (DiscoversFor(t, c, p) && t[c].campaigns.Broken?)
    || (Discovered(t, c, p) && !AbsentAt(t, c, p) && !CampaignAt(t, c, p))
    || (AsksUnits(t, c, p) && (t[c + 1].units.Broken? || (t[c + 1].units.Answer? && !UnitAt(t, c, p))))
    || (AsksNotes(t, c, p) && (t[c + 2].creatives.Broken? || (t[c + 2].creatives.Answer? && !FoundAt(t, c, p))))
  }

  ghost predicate SettledAt(t: seq<Call>, c: nat, p: Payload) {
    AbsentAt(t, c, p) || FoundCleanAt(t, c, p)
  }

  /** What each status says about the calls of a turn that is not settled. */
  ghost predicate UnsettledSays(status: BatchStatus, t: seq<Call>, c: nat, p: Payload) {
    && (status == BatchReconcileRequired <==> DiscoveryRefused(t, c, p))
    && (status == BatchPauseFailed <==> PausesFound(t, c, p) && !FoundPaused(t, c, p))
    && (status == BatchReadbackMismatch <==> FoundPaused(t, c, p) && ReadMismatch(t, c + 4, p, ObjectsAt(t, c, p)))
    && (status == BatchRecoveryRequired
        <==> Unresolved(t, c, p) || (FoundPaused(t, c, p) && ReadBroken(t, c + 4, p, ObjectsAt(t, c, p))))
    && status in {BatchReconcileRequired, BatchPauseFailed, BatchReadbackMismatch, BatchRecoveryRequired}
  }

  predicate TurnAt(t: seq<Call>, c: nat, p: Payload, f: Finding) {
    c + |FindingCalls(p, f)| <= |t| && t[c..c + |FindingCalls(p, f)|] == FindingCalls(p, f)
  }

  lemma CallAt(t: seq<Call>, c: nat, calls: seq<Call>, k: nat)
    requires c + |calls| <= |t| && t[c..c + |calls|] == calls && k < |calls|
    ensures t[c + k] == calls[k]
  {
    assert t[c..c + |calls|][k] == t[c + k];
  }

  lemma CampaignIdIs(p: Payload, cs: seq<CampaignRow>, id: int)
    requires CampaignFound(p, cs, id)
    ensures CampaignId(p, cs) == id
  {
    CampaignIsExact(p, cs, id);
    CampaignIsExact(p, cs, CampaignId(p, cs));
  }

  lemma UnitIdIs(p: Payload, us: seq<UnitRow>, id: int)
    requires UnitFound(p, us, id)
    ensures UnitId(p, us) == id
  {
    UnitIsExact(p, us, id);
    UnitIsExact(p, us, UnitId(p, us));
  }

  lemma CreativeIdsAre(p: Payload, rs: seq<CreativeRow>, ids: seq<int>)
    requires CreativesFound(p, rs, ids)
    ensures CreativeIds(p, rs) == ids
  {
    CreativesAreExact(p, rs, ids);
    CreativesAreExact(p, rs, CreativeIds(p, rs));
  }

  /** The calls of a turn, place by place. */
  lemma FirstCall(t: seq<Call>, c: nat, p: Payload, f: Finding)
    requires TurnAt(t, c, p, f)
    ensures c < |t| && t[c] == Discovery(p, if f.DiscoveryFailed? then f.campaignReply else Answer(f.cs))
  {
    CallAt(t, c, FindingCalls(p, f), 0);
  }

  lemma SecondCall(t: seq<Call>, c: nat, p: Payload, f: Finding)
    requires TurnAt(t, c, p, f) && !f.DiscoveryFailed? && !f.Absent? && !f.CampaignUnclear?
    ensures c + 1 < |t| && t[c + 1] == UnitQuery(p, f.cs, if f.UnitsUnknown? then f.unitReply else Answer(f.us))
  {
    CallAt(t, c, FindingCalls(p, f), 1);
  }

  lemma ThirdCall(t: seq<Call>, c: nat, p: Payload, f: Finding)
    requires TurnAt(t, c, p, f) && (f.CreativesUnknown? || f.CreativesUnclear? || f.PauseRefused? || f.FoundThen?)
    ensures c + 2 < |t| && t[c + 2] == CreativeQuery(p, f.us, NotesReply(f))
  {
    CallAt(t, c, FindingCalls(p, f), 2);
  }

  lemma FourthCall(t: seq<Call>, c: nat, p: Payload, f: Finding)
    requires TurnAt(t, c, p, f) && (f.PauseRefused? || f.FoundThen?)
    ensures c + 3 < |t|
    ensures t[c + 3]
         == SetStatus([FoundCampaign(p, f.cs)], false, if f.PauseRefused? then f.pauseReply else Answer(f.acknowledged))
  {
    CallAt(t, c, FindingCalls(p, f), 3);
  }

  lemma NoCampaign(t: seq<Call>, c: nat, p: Payload, f: Finding)
    requires TurnAt(t, c, p, f) && FindingWellFormed(p, f) && (f.DiscoveryFailed? || f.Absent? || f.CampaignUnclear?)
    ensures DiscoversFor(t, c, p) && !CampaignAt(t, c, p)
    ensures f.DiscoveryFailed? ==> t[c].campaigns == f.campaignReply
    ensures !f.DiscoveryFailed? ==> t[c].campaigns == Answer(f.cs) && (AbsentAt(t, c, p) <==> f.Absent?)
  {
    FirstCall(t, c, p, f);
    if !f.DiscoveryFailed? {
      CampaignsAreCounted(f.cs, p.campaign.name);
      if id :| CampaignFound(p, f.cs, id) {
        CampaignIsExact(p, f.cs, id);
      }
    }
  }

  lemma OneCampaign(t: seq<Call>, c: nat, p: Payload, f: Finding)
    requires TurnAt(t, c, p, f) && FindingWellFormed(p, f)
    requires !f.DiscoveryFailed? && !f.Absent? && !f.CampaignUnclear?
    ensures Discovered(t, c, p) && t[c].campaigns == Answer(f.cs) && AsksUnits(t, c, p) && !AbsentAt(t, c, p)
    ensures CampaignId(p, f.cs) == FoundCampaign(p, f.cs) > 0
    ensures t[c + 1].units == if f.UnitsUnknown? then f.unitReply else Answer(f.us)
  {
    FirstCall(t, c, p, f);
    SecondCall(t, c, p, f);
    CampaignsAreCounted(f.cs, p.campaign.name);
    CampaignIsExact(p, f.cs, FoundCampaign(p, f.cs));
    CampaignIdIs(p, f.cs, FoundCampaign(p, f.cs));
  }

  lemma NoUnit(t: seq<Call>, c: nat, p: Payload, f: Finding)
    requires TurnAt(t, c, p, f) && FindingWellFormed(p, f) && (f.UnitsUnknown? || f.UnitUnclear?)
    ensures AsksUnits(t, c, p) && !AbsentAt(t, c, p) && !UnitAt(t, c, p)
    ensures t[c + 1].units == if f.UnitsUnknown? then f.unitReply else Answer(f.us)
  {
    OneCampaign(t, c, p, f);
    if f.UnitUnclear? {
      if id :| UnitFound(p, f.us, id) {
        UnitIsExact(p, f.us, id);
      }
    }
  }

  /** The reply to the query for creatives. */
  function NotesReply(f: Finding): Reply<seq<CreativeRow>>
    requires f.CreativesUnknown? || f.CreativesUnclear? || f.PauseRefused? || f.FoundThen?
  {
    if f.CreativesUnknown? then f.creativeReply else Answer(f.rs)
  }

  lemma OneUnit(t: seq<Call>, c: nat, p: Payload, f: Finding)
    requires TurnAt(t, c, p, f) && FindingWellFormed(p, f)
    requires f.CreativesUnknown? || f.CreativesUnclear? || f.PauseRefused? || f.FoundThen?
    ensures AsksUnits(t, c, p) && t[c + 1].units == Answer(f.us) && AsksNotes(t, c, p) && !AbsentAt(t, c, p)
    ensures t[c].campaigns == Answer(f.cs) && CampaignId(p, f.cs) == FoundCampaign(p, f.cs)
    ensures UnitId(p, f.us) == FoundUnit(p, f.us)
    ensures t[c + 2].creatives == NotesReply(f)
  {
    OneCampaign(t, c, p, f);
    ThirdCall(t, c, p, f);
    UnitIsExact(p, f.us, FoundUnit(p, f.us));
    UnitIdIs(p, f.us, FoundUnit(p, f.us));
  }

  lemma NoCreatives(t: seq<Call>, c: nat, p: Payload, f: Finding)
    requires TurnAt(t, c, p, f) && FindingWellFormed(p, f) && (f.CreativesUnknown? || f.CreativesUnclear?)
    ensures AsksNotes(t, c, p) && !AbsentAt(t, c, p) && !FoundAt(t, c, p) && t[c + 2].creatives == NotesReply(f)
  {
    OneUnit(t, c, p, f);
    if f.CreativesUnclear? {
      if ids :| CreativesFound(p, f.rs, ids) {
        CreativesAreExact(p, f.rs, ids);
      }
    }
  }

  lemma AllFound(t: seq<Call>, c: nat, p: Payload, f: Finding)
    requires TurnAt(t, c, p, f) && FindingWellFormed(p, f) && (f.PauseRefused? || f.FoundThen?)
    ensures FoundAt(t, c, p) && !AbsentAt(t, c, p) && PausesFound(t, c, p)
    ensures ObjectsAt(t, c, p) == FoundIds(p, f.cs, f.us, f.rs) && AllPositive(ObjectsAt(t, c, p).creativities)
    ensures t[c + 3].acknowledged == if f.PauseRefused? then f.pauseReply else Answer(f.acknowledged)
  {
    OneUnit(t, c, p, f);
    FourthCall(t, c, p, f);
    CreativesAreExact(p, f.rs, FoundCreatives(p, f.rs));
    CreativeIdsAre(p, f.rs, FoundCreatives(p, f.rs));
  }

  lemma QueriesAt(t: seq<Call>, c: nat, p: Payload, f: Finding, ids: ObjectIds)
    requires TurnAt(t, c, p, f) && f.FoundThen? && ProbeWellFormed(f.probe) && ids == FoundIds(p, f.cs, f.us, f.rs)
    ensures Queries(t, c + 4, ids, f.probe)
  {
    var calls := FindingCalls(p, f);
    assert calls[4..] == ProbeCalls(ids, f.probe);
    assert t[c + 4..c + |calls|] == t[c..c + |calls|][4..];
  }

  lemma FoundIsRead(t: seq<Call>, c: nat, p: Payload, f: Finding)
    requires TurnAt(t, c, p, f) && FindingWellFormed(p, f) && f.FoundThen?
    ensures FoundPaused(t, c, p) && !AbsentAt(t, c, p) && Queries(t, c + 4, ObjectsAt(t, c, p), f.probe)
    ensures ObjectsAt(t, c, p) == FoundIds(p, f.cs, f.us, f.rs) && AllPositive(ObjectsAt(t, c, p).creativities)
    ensures ProbeSaid(t, c + 4, p, ObjectsAt(t, c, p), f.probe) && AsksOn(t, c + 4, ObjectsAt(t, c, p))
  {
    AllFound(t, c, p, f);
    QueriesAt(t, c, p, f, ObjectsAt(t, c, p));
    ProbeSays(t, c + 4, p, ObjectsAt(t, c, p), f.probe);
  }

  /** What the calls of a turn say is what its evidence says. */
  ghost predicate TurnSaid(t: seq<Call>, c: nat, p: Payload, f: Finding) {
    && TurnGoesOn(t, c, p)
    && (Settled(p, f) <==> SettledAt(t, c, p)) && (f.Absent? <==> AbsentAt(t, c, p))
    && (!Settled(p, f) ==> UnsettledSays(UnsettledStatus(p, f), t, c, p))
  }

  lemma NoCampaignSays(t: seq<Call>, c: nat, p: Payload, f: Finding)
    requires TurnAt(t, c, p, f) && FindingWellFormed(p, f) && (f.DiscoveryFailed? || f.Absent? || f.CampaignUnclear?)
    ensures TurnSaid(t, c, p, f)
  {
    NoCampaign(t, c, p, f);
  }

  lemma NoUnitSays(t: seq<Call>, c: nat, p: Payload, f: Finding)
    requires TurnAt(t, c, p, f) && FindingWellFormed(p, f) && (f.UnitsUnknown? || f.UnitUnclear?)
    ensures TurnSaid(t, c, p, f)
  {
    NoUnit(t, c, p, f);
  }

  lemma NoCreativesSays(t: seq<Call>, c: nat, p: Payload, f: Finding)
    requires TurnAt(t, c, p, f) && FindingWellFormed(p, f) && (f.CreativesUnknown? || f.CreativesUnclear?)
    ensures TurnSaid(t, c, p, f)
  {
    NoCreatives(t, c, p, f);
  }

  lemma PauseRefusedSays(t: seq<Call>, c: nat, p: Payload, f: Finding)
    requires TurnAt(t, c, p, f) && FindingWellFormed(p, f) && f.PauseRefused?
    ensures TurnSaid(t, c, p, f)
  {
    AllFound(t, c, p, f);
  }

  lemma FoundSays(t: seq<Call>, c: nat, p: Payload, f: Finding)
    requires TurnAt(t, c, p, f) && FindingWellFormed(p, f) && f.FoundThen?
    ensures TurnSaid(t, c, p, f)
  {
    FoundIsRead(t, c, p, f);
  }

  lemma TurnSays(t: seq<Call>, c: nat, p: Payload, f: Finding)
    requires TurnAt(t, c, p, f) && FindingWellFormed(p, f)
    ensures TurnSaid(t, c, p, f)
  {
    match f
    case DiscoveryFailed(_) => NoCampaignSays(t, c, p, f);
    case Absent(_) => NoCampaignSays(t, c, p, f);
    case CampaignUnclear(_) => NoCampaignSays(t, c, p, f);
    case UnitsUnknown(_, _) => NoUnitSays(t, c, p, f);
    case UnitUnclear(_, _) => NoUnitSays(t, c, p, f);
    case CreativesUnknown(_, _, _) => NoCreativesSays(t, c, p, f);
    case CreativesUnclear(_, _, _) => NoCreativesSays(t, c, p, f);
    case PauseRefused(_, _, _, _) => PauseRefusedSays(t, c, p, f);
    case FoundThen(_, _, _, _, _) => FoundSays(t, c, p, f);
  }

  // ----- where turns stand in a trace -----

  function DiscoverAt(plans: seq<Plan>, fs: seq<Finding>, i: nat): nat
    requires i <= |fs| <= |plans|
  {
    1 + Start(FindingBlocks(plans, fs), i)
  }

  lemma {:induction false} FindingBlockIs(plans: seq<Plan>, fs: seq<Finding>, i: nat)
    requires i < |fs| <= |plans|
    ensures FindingBlocks(plans, fs)[i] == FindingCalls(plans[i].payload, fs[i])
  {
    if i < |fs| - 1 {
      FindingBlockIs(plans, fs[..|fs| - 1], i);
    }
  }

  lemma FindingStands(plans: seq<Plan>, fs: seq<Finding>, lock: Option<LockRun>, i: nat)
    requires i < |fs| <= |plans|
    ensures TurnAt(ReconcileTrace(plans, fs, lock), DiscoverAt(plans, fs, i), plans[i].payload, fs[i])
    ensures DiscoverAt(plans, fs, i) + |FindingCalls(plans[i].payload, fs[i])| == DiscoverAt(plans, fs, i + 1)
  {
    FindingBlockIs(plans, fs, i);
    BlockInTrace([Preflight(true)], FindingBlocks(plans, fs), LockBlock(lock), i);
  }

  predicate DiscoversNothing(calls: seq<Call>) {
    forall k :: 0 <= k < |calls| ==> !Discovers(calls[k])
  }

  lemma ProbeDiscoversNothing(ids: ObjectIds, probe: Probe)
    ensures DiscoversNothing(ProbeCalls(ids, probe))
  {
  }

  lemma ClosingDiscoversNothing(p: Payload, f: Finding)
    ensures DiscoversNothing(ClosingCalls(p, f))
  {
    if f.FoundThen? {
      ProbeDiscoversNothing(FoundIds(p, f.cs, f.us, f.rs), f.probe);
    }
  }

  lemma NotesDiscoverNothing(p: Payload, f: Finding)
    ensures DiscoversNothing(CreativeCalls(p, f))
  {
    ClosingDiscoversNothing(p, f);
  }

  lemma RestDiscoversNothing(p: Payload, f: Finding)
    ensures DiscoversNothing(DeepCalls(p, f))
  {
    NotesDiscoverNothing(p, f);
  }

  /** Its first call discovers, and no other. */
  predicate LedByDiscovery(calls: seq<Call>) {
    calls != [] && Discovers(calls[0]) && forall k :: 0 < k < |calls| ==> !Discovers(calls[k])
  }

  lemma OnlyFirstDiscovers(p: Payload, f: Finding)
    ensures LedByDiscovery(FindingCalls(p, f))
  {
    RestDiscoversNothing(p, f);
    if !f.DiscoveryFailed? {
      assert FindingCalls(p, f)[1..] == DeepCalls(p, f);
    }
  }

  lemma DiscoveryComesFirst(t: seq<Call>, from: nat, calls: seq<Call>, c: nat)
    requires LedByDiscovery(calls) && from <= c < from + |calls| <= |t| && t[from..from + |calls|] == calls
    requires Discovers(t[c])
    ensures c == from
  {
    CallAt(t, from, calls, c - from);
  }

  lemma LockDiscoversNothing(lock: Option<LockRun>)
    ensures forall k :: 0 <= k < |LockBlock(lock)| ==> !Discovers(LockBlock(lock)[k])
  {
  }

  lemma DiscoveryIndex(plans: seq<Plan>, fs: seq<Finding>, lock: Option<LockRun>, c: nat) returns (i: nat)
    requires |fs| <= |plans| && c < |ReconcileTrace(plans, fs, lock)| && Discovers(ReconcileTrace(plans, fs, lock)[c])
    ensures i < |fs| && DiscoverAt(plans, fs, i) <= c < DiscoverAt(plans, fs, i + 1)
  {
    var t, body := ReconcileTrace(plans, fs, lock), Flatten(FindingBlocks(plans, fs));
    LockDiscoversNothing(lock);
    assert 0 < c <= |body|;
    i := InSomeBlock(FindingBlocks(plans, fs), c - 1);
  }

  lemma DiscoveryStandsFirst(t: seq<Call>, from: nat, p: Payload, f: Finding, c: nat)
    requires TurnAt(t, from, p, f) && from <= c < from + |FindingCalls(p, f)| && Discovers(t[c])
    ensures c == from
  {
    OnlyFirstDiscovers(p, f);
    DiscoveryComesFirst(t, from, FindingCalls(p, f), c);
  }

  /** Every discovery opens the turn of one plan. */
  lemma DiscoveryOpensTurn(plans: seq<Plan>, fs: seq<Finding>, lock: Option<LockRun>, c: nat) returns (i: nat)
    requires |fs| <= |plans| && c < |ReconcileTrace(plans, fs, lock)| && Discovers(ReconcileTrace(plans, fs, lock)[c])
    ensures i < |fs| && c == DiscoverAt(plans, fs, i)
    ensures TurnAt(ReconcileTrace(plans, fs, lock), c, plans[i].payload, fs[i])
  {
    i := DiscoveryIndex(plans, fs, lock, c);
    FindingStands(plans, fs, lock, i);
    DiscoveryStandsFirst(ReconcileTrace(plans, fs, lock), DiscoverAt(plans, fs, i), plans[i].payload, fs[i], c);
  }

  lemma TurnOpens(plans: seq<Plan>, fs: seq<Finding>, lock: Option<LockRun>, i: nat)
    requires i < |fs| <= |plans|
    ensures DiscoverAt(plans, fs, i) < |ReconcileTrace(plans, fs, lock)|
    ensures Discovers(ReconcileTrace(plans, fs, lock)[DiscoverAt(plans, fs, i)])
  {
    FindingStands(plans, fs, lock, i);
    OnlyFirstDiscovers(plans[i].payload, fs[i]);
    CallAt(ReconcileTrace(plans, fs, lock), DiscoverAt(plans, fs, i), FindingCalls(plans[i].payload, fs[i]), 0);
  }

  predicate LastDiscovery(t: seq<Call>, c: nat) {
    c < |t| && Discovers(t[c]) && forall k :: c < k < |t| ==> !Discovers(t[k])
  }

  lemma LastFinding(plans: seq<Plan>, fs: seq<Finding>, lock: Option<LockRun>, c: nat)
    requires |fs| <= |plans| && LastDiscovery(ReconcileTrace(plans, fs, lock), c)
    ensures fs != [] && c == DiscoverAt(plans, fs, |fs| - 1)
  {
    var i := DiscoveryOpensTurn(plans, fs, lock, c);
    TurnOpens(plans, fs, lock, |fs| - 1);
    StartsGrow(FindingBlocks(plans, fs), i, |fs| - 1);
  }

  lemma LastDiscoveryExists(plans: seq<Plan>, fs: seq<Finding>, lock: Option<LockRun>) returns (c: nat)
    requires 0 < |fs| <= |plans|
    ensures LastDiscovery(ReconcileTrace(plans, fs, lock), c)
  {
    var t := ReconcileTrace(plans, fs, lock);
    c := DiscoverAt(plans, fs, |fs| - 1);
    TurnOpens(plans, fs, lock, |fs| - 1);
    forall k | c < k < |t| ensures !Discovers(t[k]) {
      if Discovers(t[k]) {
        var i := DiscoveryOpensTurn(plans, fs, lock, k);
        StartsGrow(FindingBlocks(plans, fs), i, |fs| - 1);
      }
    }
  }

  lemma LockStandsLast(plans: seq<Plan>, fs: seq<Finding>, lock: LockRun)
    requires |fs| <= |plans| && LockWellFormed(lock)
    ensures Locked(lock) <==> LockedAtEnd(ReconcileTrace(plans, fs, Some(lock)))
  {
    var t := ReconcileTrace(plans, fs, Some(lock));
    assert t[|t| - 1] == LockCalls(lock)[|LockCalls(lock)| - 1];
    if lock.RelockAnswered? {
      assert t[|t| - 2] == LockCalls(lock)[0];
    }
  }

  // ----- the status of a run -----

  lemma FindingsAreWellFormed(plans: seq<Plan>, fs: seq<Finding>, lock: Option<LockRun>, outcome: Outcome, i: nat)
    requires ReconcileShape(plans, fs, lock, outcome) && i < |fs| <= |plans|
    ensures FindingWellFormed(plans[i].payload, fs[i]) && Intact(plans[i])
    ensures i < |fs| - 1 || outcome.Raised? ==> Settled(plans[i].payload, fs[i])
  {
    if outcome.Returned? {
      var good := SettledTurns(plans, fs);
      if i < good {
        assert SettledTurn(plans[i], fs[i], outcome.receipt.receipts[i]);
      } else {
        assert UnsettledTurn(plans[i], fs[i], outcome.receipt.receipts[i]);
      }
    }
  }

  lemma FindingSays(plans: seq<Plan>, fs: seq<Finding>, lock: Option<LockRun>, outcome: Outcome, i: nat)
    requires ReconcileShape(plans, fs, lock, outcome) && i < |fs| <= |plans|
    ensures var t, c, p := ReconcileTrace(plans, fs, lock), DiscoverAt(plans, fs, i), plans[i].payload;
            && TurnSaid(t, c, p, fs[i]) && Intact(plans[i])
            && (i < |fs| - 1 || outcome.Raised? ==> SettledAt(t, c, p))
  {
    FindingStands(plans, fs, lock, i);
    FindingsAreWellFormed(plans, fs, lock, outcome, i);
    TurnSays(ReconcileTrace(plans, fs, lock), DiscoverAt(plans, fs, i), plans[i].payload, fs[i]);
  }

  /** A discovery that lists a campaign of the name it was asked for. */
  predicate Listed(t: seq<Call>, d: nat) {
    d < |t| && Discovers(t[d]) && t[d].campaigns.Answer? && !NoneNamed(t[d].campaigns.value, t[d].name)
  }

  ghost predicate AnyListed(t: seq<Call>) {
    exists d: nat :: Listed(t, d)
  }

  lemma SettledIsListed(plans: seq<Plan>, fs: seq<Finding>, lock: Option<LockRun>, outcome: Outcome, i: nat)
    requires ReconcileShape(plans, fs, lock, outcome) && i < |fs| <= |plans| && Settled(plans[i].payload, fs[i])
    ensures fs[i].FoundThen? <==> Listed(ReconcileTrace(plans, fs, lock), DiscoverAt(plans, fs, i))
  {
    FindingSays(plans, fs, lock, outcome, i);
    FindingStands(plans, fs, lock, i);
    FirstCall(ReconcileTrace(plans, fs, lock), DiscoverAt(plans, fs, i), plans[i].payload, fs[i]);
  }

  lemma FoundIsListed(plans: seq<Plan>, fs: seq<Finding>, lock: Option<LockRun>, outcome: Outcome)
    requires ReconcileShape(plans, fs, lock, outcome) && |fs| <= |plans|
    requires forall i :: 0 <= i < |fs| ==> Settled(plans[i].payload, fs[i])
    ensures AnyFound(fs) <==> AnyListed(ReconcileTrace(plans, fs, lock))
  {
    forall i | 0 <= i < |fs|
      ensures fs[i].FoundThen? <==> Listed(ReconcileTrace(plans, fs, lock), DiscoverAt(plans, fs, i))
    {
      SettledIsListed(plans, fs, lock, outcome, i);
    }
    if d: nat :| Listed(ReconcileTrace(plans, fs, lock), d) {
      var i := DiscoveryOpensTurn(plans, fs, lock, d);
      assert fs[i].FoundThen?;
    }
  }

  lemma SettledStatus(plans: seq<Plan>, fs: seq<Finding>, lock: Option<LockRun>, r: BatchReceipt)
    requires ReconcileShape(plans, fs, lock, Returned(r)) && 0 < |fs| <= |plans| && r.lockVerified
    requires Settled(plans[|fs| - 1].payload, fs[|fs| - 1])
    ensures |r.receipts| == |plans|
    ensures r.status == if AnyListed(ReconcileTrace(plans, fs, lock)) then ReconciledVerifiedPaused
                        else ReconciledNotCreated
  {
    TurnsAreSettled(plans, fs, r.receipts, |fs|);
    FoundIsListed(plans, fs, lock, Returned(r));
  }

  /** What the status of a run says about its calls and the turn of its last discovery, at c. */
  ghost predicate StatusSays(plans: seq<Plan>, t: seq<Call>, c: nat, r: BatchReceipt) {
    && (r.lockVerified <==> LockedAtEnd(t)) && (r.status == BatchRelockFailed <==> !r.lockVerified)
    && 0 < |r.receipts| <= |plans|
    && var p := plans[|r.receipts| - 1].payload;
       if !r.lockVerified then true
       else if SettledAt(t, c, p) then
         |r.receipts| == |plans| && r.status == if AnyListed(t) then ReconciledVerifiedPaused else ReconciledNotCreated
       else UnsettledSays(r.status, t, c, p)
  }

  lemma LockSays(plans: seq<Plan>, fs: seq<Finding>, lock: Option<LockRun>, r: BatchReceipt)
    requires ReconcileShape(plans, fs, lock, Returned(r)) && |fs| <= |plans|
    ensures 0 < |fs| == |r.receipts|
    ensures r.lockVerified <==> LockedAtEnd(ReconcileTrace(plans, fs, lock))
    ensures !r.lockVerified ==> r.status == BatchRelockFailed
    ensures r.lockVerified && !Settled(plans[|fs| - 1].payload, fs[|fs| - 1]) ==>
              r.status == UnsettledStatus(plans[|fs| - 1].payload, fs[|fs| - 1])
  {
    LockStandsLast(plans, fs, lock.value);
  }

  /** Every status of a run that returns is exact, read off its calls. RELOCK_FAILED says that the lock was not
      confirmed at the end. Otherwise, if the turn of the last discovery is settled, so is every plan, and the
      status says whether any discovery listed a campaign of its name; if not, it says how that turn ended. */
  lemma ReconcileStatusSays(plans: seq<Plan>, fs: seq<Finding>, lock: Option<LockRun>, r: BatchReceipt, c: nat)
    requires ReconcileShape(plans, fs, lock, Returned(r)) && |fs| <= |plans|
    requires LastDiscovery(ReconcileTrace(plans, fs, lock), c)
    ensures StatusSays(plans, ReconcileTrace(plans, fs, lock), c, r)
  {
    LockSays(plans, fs, lock, r);
    LastFinding(plans, fs, lock, c);
    FindingSays(plans, fs, lock, Returned(r), |fs| - 1);
    if r.lockVerified && Settled(plans[|fs| - 1].payload, fs[|fs| - 1]) {
      SettledStatus(plans, fs, lock, r);
    }
  }

  function DiscoveryCount(t: seq<Call>): nat {
    if t == [] then 0
    else DiscoveryCount(t[..|t| - 1]) + if Discovers(t[|t| - 1]) then 1 else 0
  }

  lemma {:induction false} CountsAdd(a: seq<Call>, b: seq<Call>)
    ensures DiscoveryCount(a + b) == DiscoveryCount(a) + DiscoveryCount(b)
  {
    if b == [] {
      assert a + b == a;
    } else {
      assert (a + b)[..|a + b| - 1] == a + b[..|b| - 1];
      CountsAdd(a, b[..|b| - 1]);
    }
  }

  lemma {:induction false} CountsNone(t: seq<Call>)
    requires forall k :: 0 <= k < |t| ==> !Discovers(t[k])
    ensures DiscoveryCount(t) == 0
  {
    if t != [] {
      CountsNone(t[..|t| - 1]);
    }
  }

  lemma TurnCountsOne(p: Payload, f: Finding)
    ensures DiscoveryCount(FindingCalls(p, f)) == 1
  {
    var calls := FindingCalls(p, f);
    OnlyFirstDiscovers(p, f);
    assert calls == [calls[0]] + calls[1..] && [calls[0]][..0] == [];
    CountsAdd([calls[0]], calls[1..]);
    CountsNone(calls[1..]);
  }

  lemma {:induction false} TurnsAreCounted(plans: seq<Plan>, fs: seq<Finding>)
    requires |fs| <= |plans|
    ensures DiscoveryCount(Flatten(FindingBlocks(plans, fs))) == |fs|
  {
    if fs != [] {
      var n := |fs| - 1;
      TurnsAreCounted(plans, fs[..n]);
      FlattenNext(FindingBlocks(plans, fs[..n]), FindingCalls(plans[n].payload, fs[n]));
      CountsAdd(Flatten(FindingBlocks(plans, fs[..n])), FindingCalls(plans[n].payload, fs[n]));
      TurnCountsOne(plans[n].payload, fs[n]);
    }
  }

  lemma {:induction false} BlocksPrefix(plans: seq<Plan>, fs: seq<Finding>, i: nat)
    requires i <= |fs| <= |plans|
    ensures FindingBlocks(plans, fs)[..i] == FindingBlocks(plans, fs[..i])
  {
    if i == |fs| {
      assert fs[..i] == fs;
    } else {
      BlocksPrefix(plans, fs[..|fs| - 1], i);
      assert fs[..|fs| - 1][..i] == fs[..i];
    }
  }

  lemma DiscoveriesBefore(plans: seq<Plan>, fs: seq<Finding>, lock: Option<LockRun>, i: nat)
    requires i < |fs| <= |plans|
    ensures DiscoverAt(plans, fs, i) <= |ReconcileTrace(plans, fs, lock)|
    ensures DiscoveryCount(ReconcileTrace(plans, fs, lock)[..DiscoverAt(plans, fs, i)]) == i
  {
    PrefixIsCounted([Preflight(true)], FindingBlocks(plans, fs), LockBlock(lock), i);
    BlocksPrefix(plans, fs, i);
    TurnsAreCounted(plans, fs[..i]);
  }

  lemma PrefixIsCounted(head: seq<Call>, blocks: seq<Block>, tail: seq<Call>, i: nat)
    requires i <= |blocks| && forall k :: 0 <= k < |head| ==> !Discovers(head[k])
    ensures |head| + Start(blocks, i) <= |head + Flatten(blocks) + tail|
    ensures DiscoveryCount((head + Flatten(blocks) + tail)[..|head| + Start(blocks, i)])
         == DiscoveryCount(Flatten(blocks[..i]))
  {
    PrefixOfTrace(head, blocks, tail, i);
    CountsAdd(head, Flatten(blocks[..i]));
    CountsNone(head);
  }

  /** In every run, returned or raised: the k-th discovery is for the k-th plan, whose payload is the hashed one;
      each call of its turn leads to the next; and a turn that another discovery follows was settled before. */
  lemma DiscoveriesAreSettled(plans: seq<Plan>, fs: seq<Finding>, lock: Option<LockRun>, outcome: Outcome, c: nat)
    requires ReconcileShape(plans, fs, lock, outcome) && |fs| <= |plans|
    requires c < |ReconcileTrace(plans, fs, lock)| && Discovers(ReconcileTrace(plans, fs, lock)[c])
    ensures var t := ReconcileTrace(plans, fs, lock);
            var k := DiscoveryCount(t[..c]);
            && k < |plans| && TurnGoesOn(t, c, plans[k].payload) && plans[k].payloadSha.content == plans[k].payload
            && (!LastDiscovery(t, c) ==> SettledAt(t, c, plans[k].payload))
  {
    var i := DiscoveryOpensTurn(plans, fs, lock, c);
    DiscoveriesBefore(plans, fs, lock, i);
    FindingSays(plans, fs, lock, outcome, i);
    if i == |fs| - 1 {
      var last := LastDiscoveryExists(plans, fs, lock);
      LastFinding(plans, fs, lock, last);
    }
  }

  // ----- the receipts of a run -----

  /** The one row of the name has no positive id. */
  ghost predicate UnnumberedCampaign(p: Payload, cs: seq<CampaignRow>) {
    exists i: nat :: OnlyNamed(cs, p.campaign.name, i) && !Positive(cs[i].id)
  }

  /** What a finding says about the listed rows: a campaign is unclear exactly when two rows carry its name or the
      one that does has no positive id, and one that is found, paused and read back is, with its unit, the only
      one listed. */
  lemma FindingIsUnique(p: Payload, f: Finding)
    requires FindingWellFormed(p, f) && !f.DiscoveryFailed?
    ensures f.Absent? <==> NoneNamed(f.cs, p.campaign.name)
    ensures f.CampaignUnclear? <==> TwoNamed(f.cs, p.campaign.name) || UnnumberedCampaign(p, f.cs)
    ensures !f.Absent? && !f.CampaignUnclear? ==> CampaignFound(p, f.cs, FoundCampaign(p, f.cs))
    ensures f.UnitUnclear? ==> NoneTitled(f.us, p.group.name) || TwoTitled(f.us, p.group.name)
    ensures f.FoundThen? || f.PauseRefused? ==>
              UnitFound(p, f.us, FoundUnit(p, f.us)) && CreativesFound(p, f.rs, FoundCreatives(p, f.rs))
  {
    CampaignsAreCounted(f.cs, p.campaign.name);
    CampaignIsExact(p, f.cs, FoundCampaign(p, f.cs));
    if f.UnitUnclear? {
      UnitsAreCounted(f.us, p.group.name);
    }
    if f.FoundThen? || f.PauseRefused? {
      UnitIsExact(p, f.us, FoundUnit(p, f.us));
      CreativesAreExact(p, f.rs, FoundCreatives(p, f.rs));
    }
  }

  ghost predicate CampaignError(t: seq<Call>, c: nat, p: Payload, code: ErrorCode) {
    && DiscoversFor(t, c, p)
    && (|| t[c].campaigns == Refused(code)
        || (t[c].campaigns.Broken? && code == UnexpectedCampaignDiscovery)
        || (t[c].campaigns.Answer? && TwoNamed(t[c].campaigns.value, p.campaign.name) && code == CampaignAmbiguous)
        || (t[c].campaigns.Answer? && UnnumberedCampaign(p, t[c].campaigns.value) && code == CampaignIdMissing))
  }

  ghost predicate UnitError(t: seq<Call>, c: nat, p: Payload, code: ErrorCode) {
    && AsksUnits(t, c, p)
    && (|| t[c + 1].units == Refused(code)
        || (t[c + 1].units.Broken? && code == UnexpectedUnitDiscovery)
        || (t[c + 1].units.Answer? && !UnitAt(t, c, p) && code == UnitAmbiguous))
  }

  ghost predicate CreativeError(t: seq<Call>, c: nat, p: Payload, code: ErrorCode) {
    && AsksNotes(t, c, p)
    && (|| t[c + 2].creatives == Refused(code)
        || (t[c + 2].creatives.Broken? && code == UnexpectedCreativityDiscovery)
        || (t[c + 2].creatives.Answer? && !FoundAt(t, c, p) && code == CreativityAmbiguous))
  }

  ghost predicate PauseError(t: seq<Call>, c: nat, p: Payload, code: ErrorCode) {
    && PausesFound(t, c, p)
    && (|| t[c + 3].acknowledged == Refused(code)
        || (t[c + 3].acknowledged.Broken? && code == UnexpectedPauseError)
        || (t[c + 3].acknowledged.Answer? && !FoundPaused(t, c, p) && code == PauseResponseMissingObject))
  }

  ghost predicate DiscoveryError(t: seq<Call>, c: nat, p: Payload, code: ErrorCode) {
    CampaignError(t, c, p, code) || UnitError(t, c, p, code) || CreativeError(t, c, p, code)
    || PauseError(t, c, p, code)
  }

  /** The receipt of a turn that found nothing says so; that of one that found and paused its objects is that of
      their readback; any other names the one error that ended the turn. */
  ghost predicate FindingReceipt(t: seq<Call>, c: nat, plan: Plan, receipt: PlanReceipt) {
    var p := plan.payload;
    if AbsentAt(t, c, p) then receipt == PlanReceipt(plan.revision, None, true, true, [ObjectNotCreated])
    else if FoundPaused(t, c, p) then ReadReceipt(t, c + 4, plan, ObjectsAt(t, c, p), receipt)
    else exists code :: DiscoveryError(t, c, p, code)
           && receipt == PlanReceipt(plan.revision, if FoundAt(t, c, p) then Some(ObjectsAt(t, c, p)) else None, false,
                                     false, [PlatformError(code)])
  }

  /** The receipt a turn leaves behind, settled or not. */
  function TurnReceipt(plan: Plan, f: Finding): PlanReceipt {
    if f.FoundThen? then ReadOutcome(plan, FoundIds(plan.payload, f.cs, f.us, f.rs), f.probe)
    else UnsettledReceipt(plan, f)
  }

  lemma NoCampaignReceipt(t: seq<Call>, c: nat, plan: Plan, f: Finding)
    requires TurnAt(t, c, plan.payload, f) && FindingWellFormed(plan.payload, f)
    requires f.DiscoveryFailed? || f.Absent? || f.CampaignUnclear?
    ensures FindingReceipt(t, c, plan, TurnReceipt(plan, f))
  {
    var p := plan.payload;
    NoCampaign(t, c, p, f);
    if f.DiscoveryFailed? {
      assert CampaignError(t, c, p, if f.campaignReply.Refused? then f.campaignReply.code
                                    else UnexpectedCampaignDiscovery);
    } else if f.CampaignUnclear? {
      CampaignsAreCounted(f.cs, p.campaign.name);
      var exact := NamedCampaigns(f.cs, p.campaign.name);
      assert CampaignError(t, c, p, if |exact| != 1 then CampaignAmbiguous else CampaignIdMissing);
    }
  }

  lemma NoUnitReceipt(t: seq<Call>, c: nat, plan: Plan, f: Finding)
    requires TurnAt(t, c, plan.payload, f) && FindingWellFormed(plan.payload, f) && (f.UnitsUnknown? || f.UnitUnclear?)
    ensures FindingReceipt(t, c, plan, TurnReceipt(plan, f))
  {
    NoUnit(t, c, plan.payload, f);
    var code := if f.UnitUnclear? then UnitAmbiguous else if f.unitReply.Refused? then f.unitReply.code
                else UnexpectedUnitDiscovery;
    assert UnitError(t, c, plan.payload, code);
  }

  lemma NoCreativesReceipt(t: seq<Call>, c: nat, plan: Plan, f: Finding)
    requires TurnAt(t, c, plan.payload, f) && FindingWellFormed(plan.payload, f)
    requires f.CreativesUnknown? || f.CreativesUnclear?
    ensures FindingReceipt(t, c, plan, TurnReceipt(plan, f))
  {
    NoCreatives(t, c, plan.payload, f);
    var code := if f.CreativesUnclear? then CreativityAmbiguous
                else if f.creativeReply.Refused? then f.creativeReply.code else UnexpectedCreativityDiscovery;
    assert CreativeError(t, c, plan.payload, code);
  }

  lemma PauseRefusedReceipt(t: seq<Call>, c: nat, plan: Plan, f: Finding)
    requires TurnAt(t, c, plan.payload, f) && FindingWellFormed(plan.payload, f) && f.PauseRefused?
    ensures FindingReceipt(t, c, plan, TurnReceipt(plan, f))
  {
    AllFound(t, c, plan.payload, f);
    assert PauseError(t, c, plan.payload, PauseCode(f.pauseReply));
  }

  lemma FoundReceipt(t: seq<Call>, c: nat, plan: Plan, f: Finding)
    requires TurnAt(t, c, plan.payload, f) && FindingWellFormed(plan.payload, f) && f.FoundThen?
    ensures FindingReceipt(t, c, plan, TurnReceipt(plan, f))
  {
    FoundIsRead(t, c, plan.payload, f);
    ReadReceiptSays(t, c + 4, plan, ObjectsAt(t, c, plan.payload), f.probe);
  }

  lemma TurnReceiptSays(t: seq<Call>, c: nat, plan: Plan, f: Finding)
    requires TurnAt(t, c, plan.payload, f) && FindingWellFormed(plan.payload, f)
    ensures FindingReceipt(t, c, plan, TurnReceipt(plan, f))
  {
    match f
    case DiscoveryFailed(_) => NoCampaignReceipt(t, c, plan, f);
    case Absent(_) => NoCampaignReceipt(t, c, plan, f);
    case CampaignUnclear(_) => NoCampaignReceipt(t, c, plan, f);
    case UnitsUnknown(_, _) => NoUnitReceipt(t, c, plan, f);
    case UnitUnclear(_, _) => NoUnitReceipt(t, c, plan, f);
    case CreativesUnknown(_, _, _) => NoCreativesReceipt(t, c, plan, f);
    case CreativesUnclear(_, _, _) => NoCreativesReceipt(t, c, plan, f);
    case PauseRefused(_, _, _, _) => PauseRefusedReceipt(t, c, plan, f);
    case FoundThen(_, _, _, _, _) => FoundReceipt(t, c, plan, f);
  }

  lemma SettledReceipt(plan: Plan, f: Finding, r: PlanReceipt)
    requires SettledTurn(plan, f, r)
    ensures r == TurnReceipt(plan, f)
  {
    if f.FoundThen? {
      VerdictIsExact(plan.payload, FoundIds(plan.payload, f.cs, f.us, f.rs), f.probe.campaigns, f.probe.units,
                     f.probe.creatives);
    }
  }

  lemma ReceiptIsOfTurn(plans: seq<Plan>, fs: seq<Finding>, lock: Option<LockRun>, r: BatchReceipt, i: nat)
    requires ReconcileShape(plans, fs, lock, Returned(r)) && i < |fs| <= |plans|
    ensures i < |r.receipts| && r.receipts[i] == TurnReceipt(plans[i], fs[i])
  {
    if i < SettledTurns(plans, fs) {
      assert SettledTurn(plans[i], fs[i], r.receipts[i]);
      SettledReceipt(plans[i], fs[i], r.receipts[i]);
    } else {
      assert UnsettledTurn(plans[i], fs[i], r.receipts[i]);
    }
  }

  lemma ReceiptOfFinding(plans: seq<Plan>, fs: seq<Finding>, lock: Option<LockRun>, r: BatchReceipt, i: nat, c: nat)
    requires ReconcileShape(plans, fs, lock, Returned(r)) && i < |fs| <= |plans| && c == DiscoverAt(plans, fs, i)
    ensures i < |r.receipts| <= |plans|
    ensures FindingReceipt(ReconcileTrace(plans, fs, lock), c, plans[i], r.receipts[i])
  {
    FindingStands(plans, fs, lock, i);
    FindingsAreWellFormed(plans, fs, lock, Returned(r), i);
    TurnReceiptSays(ReconcileTrace(plans, fs, lock), c, plans[i], fs[i]);
    ReceiptIsOfTurn(plans, fs, lock, r, i);
  }

  /** The receipts of a run that returns tell, discovery by discovery, what was found and what was read. */
  lemma FindingsAreTold(plans: seq<Plan>, fs: seq<Finding>, lock: Option<LockRun>, r: BatchReceipt, c: nat)
    requires ReconcileShape(plans, fs, lock, Returned(r)) && |fs| <= |plans|
    requires c < |ReconcileTrace(plans, fs, lock)| && Discovers(ReconcileTrace(plans, fs, lock)[c])
    ensures var t := ReconcileTrace(plans, fs, lock);
            var k := DiscoveryCount(t[..c]);
            k < |r.receipts| <= |plans| && FindingReceipt(t, c, plans[k], r.receipts[k])
  {
    var i := DiscoveryOpensTurn(plans, fs, lock, c);
    DiscoveriesBefore(plans, fs, lock, i);
    ReceiptOfFinding(plans, fs, lock, r, i, c);
  }
}
