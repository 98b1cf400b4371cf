/** Plan revisions: the table replaced batch by batch, and the per-plan history it represents. */
module PlanRevisions {
  import opened Common
  import opened Payloads

  datatype RevisionStatus = Active | Superseded

  datatype Revision = Revision(logicalKey: Id, stage: Id, status: RevisionStatus, supersedes: Option<Id>,
                               platform: Option<Payload>)

  /** One plan of a batch: its stable identity, its new revision id and its platform payload, if it compiled. */
  datatype PlanRow = PlanRow(logicalKey: Id, revision: Id, platform: Option<Payload>)

  /** A logical plan within a stage. */
  datatype Slot = Slot(logicalKey: Id, stage: Id)

  type Chains = map<Slot, seq<Id>>

  function ChainOf(chains: Chains, slot: Slot): seq<Id> {
    if slot in chains then chains[slot] else []
  }

  /** The simple form of one replacement: the new revision goes to the end of its plan's history. */
  function Appended(chains: Chains, stage: Id, plan: PlanRow): Chains {
    var slot := Slot(plan.logicalKey, stage);
    chains[slot := ChainOf(chains, slot) + [plan.revision]]
  }

  function AppendedAll(chains: Chains, stage: Id, plans: seq<PlanRow>): Chains {
    if plans == [] then chains
    else Appended(AppendedAll(chains, stage, plans[..|plans| - 1]), stage, plans[|plans| - 1])
  }

  /** One supersedes-chain: no revision twice, each superseding the one before it, exactly the last ACTIVE. */
  ghost predicate IsChain(revisions: map<Id, Revision>, slot: Slot, chain: seq<Id>) {
    && chain != []
    && (forall i, k :: 0 <= i < k < |chain| ==> chain[i] != chain[k])
    && forall i :: 0 <= i < |chain| ==> IsLink(revisions, slot, chain, i)
  }

  ghost predicate IsLink(revisions: map<Id, Revision>, slot: Slot, chain: seq<Id>, i: nat)
    requires i < |chain|
  {
    && chain[i] in revisions
    && revisions[chain[i]].logicalKey == slot.logicalKey && revisions[chain[i]].stage == slot.stage
    && revisions[chain[i]].status == (if i == |chain| - 1 then Active else Superseded)
    && revisions[chain[i]].supersedes == (if i == 0 then None else Some(chain[i - 1]))
  }

  /** The table holds exactly the revisions of the chains. */
  ghost predicate Represents(revisions: map<Id, Revision>, chains: Chains) {
    && (forall slot :: slot in chains ==> IsChain(revisions, slot, chains[slot]))
    && forall r :: r in revisions ==> Listed(chains, Slot(revisions[r].logicalKey, revisions[r].stage), r)
  }

  ghost predicate Listed(chains: Chains, slot: Slot, r: Id) {
    slot in chains && r in chains[slot]
  }

  predicate InSlot(revisions: map<Id, Revision>, r: Id, slot: Slot) {
    r in revisions && revisions[r].logicalKey == slot.logicalKey && revisions[r].stage == slot.stage
  }

  predicate IsActive(revisions: map<Id, Revision>, slot: Slot, r: Id) {
    InSlot(revisions, r, slot) && revisions[r].status == Active
  }

  /** The SELECT of the ACTIVE row finds exactly the end of the chain, or nothing. */
  lemma ActiveIsHead(revisions: map<Id, Revision>, chains: Chains, slot: Slot, r: Id)
    requires Represents(revisions, chains)
    ensures IsActive(revisions, slot, r) <==> (slot in chains && r == chains[slot][|chains[slot]| - 1])
  {
    if slot in chains {
      assert IsLink(revisions, slot, chains[slot], |chains[slot]| - 1);
    }
    if InSlot(revisions, r, slot) {
      assert Listed(chains, slot, r);
      var i :| 0 <= i < |chains[slot]| && chains[slot][i] == r;
      assert IsLink(revisions, slot, chains[slot], i);
    }
  }

  function Replaced(revisions: map<Id, Revision>, stage: Id, plan: PlanRow, existing: Option<Id>): map<Id, Revision>
    requires existing.Some? ==> existing.value in revisions
  {
    var retired := if existing.Some?
                   then revisions[existing.value := revisions[existing.value].(status := Superseded)]
                   else revisions;
    retired[plan.revision := Revision(plan.logicalKey, stage, Active, existing, plan.platform)]
  }

  /** Superseding the ACTIVE row and inserting the new one appends to the chain. */
  lemma ReplaceAppends(revisions: map<Id, Revision>, chains: Chains, stage: Id, plan: PlanRow, existing: Option<Id>)
    requires Represents(revisions, chains)
    requires plan.revision !in revisions
    requires var slot := Slot(plan.logicalKey, stage);
             existing == if slot in chains then Some(chains[slot][|chains[slot]| - 1]) else None
    requires existing.Some? ==> existing.value in revisions
    ensures Represents(Replaced(revisions, stage, plan, existing), Appended(chains, stage, plan))
  {
    var slot := Slot(plan.logicalKey, stage);
    var next, longer := Replaced(revisions, stage, plan, existing), Appended(chains, stage, plan);
    if slot in chains {
      assert IsLink(revisions, slot, chains[slot], |chains[slot]| - 1);
    }
    forall s | s in longer ensures IsChain(next, s, longer[s]) {
      if s == slot {
        HeadChain(revisions, chains, stage, plan, existing);
      } else {
        OtherChain(revisions, chains, stage, plan, existing, s);
      }
    }
    forall r | r in next ensures Listed(longer, Slot(next[r].logicalKey, next[r].stage), r) {
      if r != plan.revision {
        assert Listed(chains, Slot(revisions[r].logicalKey, revisions[r].stage), r);
      }
    }
  }

  lemma HeadChain(revisions: map<Id, Revision>, chains: Chains, stage: Id, plan: PlanRow, existing: Option<Id>)
    requires Represents(revisions, chains)
    requires plan.revision !in revisions
    requires var slot := Slot(plan.logicalKey, stage);
             existing == if slot in chains then Some(chains[slot][|chains[slot]| - 1]) else None
    requires existing.Some? ==> existing.value in revisions
    ensures var slot := Slot(plan.logicalKey, stage);
            IsChain(Replaced(revisions, stage, plan, existing), slot, ChainOf(chains, slot) + [plan.revision])
  {
    var slot := Slot(plan.logicalKey, stage);
    var before, chain := ChainOf(chains, slot), ChainOf(chains, slot) + [plan.revision];
    var next := Replaced(revisions, stage, plan, existing);
    forall i | 0 <= i < |chain| ensures IsLink(next, slot, chain, i) {
      if i < |before| {
        assert IsLink(revisions, slot, before, i);
        assert before[i] != plan.revision;
      }
    }
    forall i, k | 0 <= i < k < |chain| ensures chain[i] != chain[k] {
      assert IsLink(revisions, slot, before, i);
    }
  }

  lemma OtherChain(revisions: map<Id, Revision>, chains: Chains, stage: Id, plan: PlanRow, existing: Option<Id>,
                   s: Slot)
    requires Represents(revisions, chains)
    requires plan.revision !in revisions
    requires s in chains && s != Slot(plan.logicalKey, stage)
    requires existing.Some? ==> InSlot(revisions, existing.value, Slot(plan.logicalKey, stage))
    ensures IsChain(Replaced(revisions, stage, plan, existing), s, chains[s])
  {
    var next := Replaced(revisions, stage, plan, existing);
    forall i | 0 <= i < |chains[s]| ensures IsLink(next, s, chains[s], i) {
      assert IsLink(revisions, s, chains[s], i);
    }
  }

  /** The revisions a batch lists for one logical plan, in batch order. */
  function ListedFor(plans: seq<PlanRow>, logicalKey: Id): seq<Id> {
    if plans == [] then []
    else
      var before, last := ListedFor(plans[..|plans| - 1], logicalKey), plans[|plans| - 1];
      if last.logicalKey == logicalKey then before + [last.revision] else before
  }

  /** After a batch, every plan's history is the old one followed by what the batch lists for it;
      plans the batch does not mention, and other stages, are untouched. */
  lemma {:induction false} BatchExtendsChains(chains: Chains, stage: Id, plans: seq<PlanRow>, slot: Slot)
    ensures ChainOf(AppendedAll(chains, stage, plans), slot)
         == ChainOf(chains, slot) + (if slot.stage == stage then ListedFor(plans, slot.logicalKey) else [])
    ensures slot in AppendedAll(chains, stage, plans) <==>
              slot in chains || (slot.stage == stage && ListedFor(plans, slot.logicalKey) != [])
  {
    if plans == [] {
      assert ChainOf(chains, slot) + [] == ChainOf(chains, slot);
    } else {
      var init, last := plans[..|plans| - 1], plans[|plans| - 1];
      BatchExtendsChains(chains, stage, init, slot);
      if slot == Slot(last.logicalKey, stage) {
        assert ChainOf(chains, slot) + (ListedFor(init, slot.logicalKey) + [last.revision])
            == (ChainOf(chains, slot) + ListedFor(init, slot.logicalKey)) + [last.revision];
      }
    }
  }

  /** After a batch that succeeded, each mentioned plan's one ACTIVE revision is the last the batch
      lists for it, and an unmentioned plan keeps its ACTIVE revision. */
  lemma ActiveAfterBatch(before: map<Id, Revision>, after: map<Id, Revision>, chains: Chains,
                         stage: Id, plans: seq<PlanRow>, logicalKey: Id, r: Id)
    requires Represents(before, chains)
    requires Represents(after, AppendedAll(chains, stage, plans))
    ensures var listed := ListedFor(plans, logicalKey);
            IsActive(after, Slot(logicalKey, stage), r) <==>
              if listed != [] then r == listed[|listed| - 1] else IsActive(before, Slot(logicalKey, stage), r)
  {
    var slot := Slot(logicalKey, stage);
    BatchExtendsChains(chains, stage, plans, slot);
    ActiveIsHead(before, chains, slot, r);
    ActiveIsHead(after, AppendedAll(chains, stage, plans), slot, r);
  }

  /** Every revision id of the batch is new to the table and to the rest of the batch. */
  predicate AllNew(revisions: map<Id, Revision>, plans: seq<PlanRow>) {
    && (forall i :: 0 <= i < |plans| ==> plans[i].revision !in revisions)
    && forall i, k :: 0 <= i < k < |plans| ==> plans[i].revision != plans[k].revision
  }

  // ----- which project a plan belongs to -----

  /** logical_plans is filled with OR IGNORE: the first project to mention a plan keeps it. */
  function Claimed(owners: map<Id, Id>, p: Id, logicalKey: Id): map<Id, Id> {
    if logicalKey in owners then owners else owners[logicalKey := p]
  }

  predicate AllOwned(revisions: map<Id, Revision>, owners: map<Id, Id>) {
    forall r :: r in revisions ==> revisions[r].logicalKey in owners
  }

  /** What a batch does to the owners: a plan it mentions for the first time is p's, and nothing else changes. */
  predicate OwnersAfter(owners: map<Id, Id>, p: Id, plans: seq<PlanRow>, after: map<Id, Id>) {
    && (forall i :: 0 <= i < |plans| ==> plans[i].logicalKey in after)
    && (forall k :: k in owners ==> k in after)
    && forall k :: k in after ==> after[k] == if k in owners then owners[k] else p
  }

  /** A row of list_active_plans. */
  datatype ActivePlan = ActivePlan(logicalKey: Id, platform: Option<Payload>)

  predicate Shown(revisions: map<Id, Revision>, owners: map<Id, Id>, p: Id, r: Id) {
    && r in revisions && revisions[r].status == Active
    && revisions[r].logicalKey in owners && owners[revisions[r].logicalKey] == p
  }

  /** list_active_plans of project p, by revision. */
  function ActivePlans(revisions: map<Id, Revision>, owners: map<Id, Id>, p: Id): map<Id, ActivePlan> {
    map r | r in revisions && Shown(revisions, owners, p, r) ::
      ActivePlan(revisions[r].logicalKey, revisions[r].platform)
  }

  /** Each row listed is the end of one history of a plan of p, and each such end is listed. */
  lemma ListedAreHeads(revisions: map<Id, Revision>, chains: Chains, owners: map<Id, Id>, p: Id, r: Id)
    requires Represents(revisions, chains)
    ensures r in ActivePlans(revisions, owners, p) <==>
              r in revisions
              && var slot := Slot(revisions[r].logicalKey, revisions[r].stage);
                 slot.logicalKey in owners && owners[slot.logicalKey] == p
                 && slot in chains && chains[slot] != [] && r == chains[slot][|chains[slot]| - 1]
    ensures var listed := ActivePlans(revisions, owners, p);
            r in listed ==>
              listed[r].logicalKey == revisions[r].logicalKey && listed[r].platform == revisions[r].platform
  {
    if r in revisions {
      var slot := Slot(revisions[r].logicalKey, revisions[r].stage);
      assert Listed(chains, slot, r);
      ActiveIsHead(revisions, chains, slot, r);
    }
  }

  /** The table gained exactly this plan's revision; no row changed its plan or its payload. */
  predicate AddedOne(before: map<Id, Revision>, plan: PlanRow, after: map<Id, Revision>) {
    && after.Keys == before.Keys + {plan.revision}
    && after[plan.revision].platform == plan.platform && after[plan.revision].logicalKey == plan.logicalKey
    && forall r :: r in before && r != plan.revision ==> SameContent(after[r], before[r])
  }

  predicate SameContent(a: Revision, b: Revision) {
    a.platform == b.platform && a.logicalKey == b.logicalKey
  }

  lemma StillOwned(before: map<Id, Revision>, plan: PlanRow, after: map<Id, Revision>, owners: map<Id, Id>)
    requires AddedOne(before, plan, after) && plan.revision !in before
    requires plan.logicalKey in owners && forall r :: r in before ==> before[r].logicalKey in owners
    ensures AllOwned(after, owners)
  {
    forall r | r in after ensures after[r].logicalKey in owners {
      if r != plan.revision {
        assert SameContent(after[r], before[r]);
      }
    }
  }

  lemma OwnersNext(owners: map<Id, Id>, p: Id, plans: seq<PlanRow>, plan: PlanRow, after: map<Id, Id>)
    requires OwnersAfter(owners, p, plans, after)
    ensures OwnersAfter(owners, p, plans + [plan], Claimed(after, p, plan.logicalKey))
  {
    var more := plans + [plan];
    forall i | 0 <= i < |more| ensures more[i].logicalKey in Claimed(after, p, plan.logicalKey) {
      assert i < |plans| ==> more[i] == plans[i];
    }
  }

  class PlanStore {
    var revisions: map<Id, Revision>
    var owners: map<Id, Id>
    ghost var chains: Chains

    ghost predicate Valid()
      reads this
    {
      Represents(revisions, chains) && AllOwned(revisions, owners)
    }

    constructor ()
      ensures Valid() && chains == map[]
    {
      revisions, owners, chains := map[], map[], map[];
    }

    /** Other connections load any number of batches. Its body does nothing; callers rely on the contract only. */
    method Interleave()
      requires Valid()
      modifies this
      ensures Valid()
    {
    }

    /** The ACTIVE row of a slot is the end of its chain, if it has one. */
    method FindActive(slot: Slot) returns (existing: Option<Id>)
      requires Represents(revisions, chains)
      ensures existing == if ChainOf(chains, slot) != [] then Some(ChainOf(chains, slot)[|ChainOf(chains, slot)| - 1])
                else None
      ensures slot in chains ==> chains[slot] != []
      ensures existing.Some? ==> existing.value in revisions
    {
      existing := None;
      if exists r :: r in revisions && IsActive(revisions, slot, r) {
        var r :| r in revisions && IsActive(revisions, slot, r);
        ActiveIsHead(revisions, chains, slot, r);
        existing := Some(r);
      } else if slot in chains {
        ActiveIsHead(revisions, chains, slot, chains[slot][|chains[slot]| - 1]);
      }
    }

    /** Retire the ACTIVE row of the plan's slot, insert the new one; the insert fails if its id is taken. */
    method ReplaceRow(stage: Id, plan: PlanRow) returns (ok: bool)
      requires Represents(revisions, chains)
      modifies this`revisions, this`chains
      ensures ok <==> plan.revision !in old(revisions)
      ensures ok ==> Represents(revisions, chains) && chains == Appended(old(chains), stage, plan)
      ensures ok ==> AddedOne(old(revisions), plan, revisions)
    {
      var existing := FindActive(Slot(plan.logicalKey, stage));
      ghost var before := revisions;
      if existing.Some? {
        revisions := revisions[existing.value := revisions[existing.value].(status := Superseded)];
      }
      if plan.revision in revisions {
        return false;
      }
      ReplaceAppends(before, chains, stage, plan, existing);
      revisions := revisions[plan.revision := Revision(plan.logicalKey, stage, Active, existing, plan.platform)];
      chains := Appended(chains, stage, plan);
      ok := true;
    }

    /** One plan of a batch, the logical plan first. */
    method ReplaceOne(p: Id, stage: Id, plan: PlanRow) returns (ok: bool)
      requires Valid()
      modifies this
      ensures ok ==> Valid()
      ensures ok <==> plan.revision !in old(revisions)
      ensures ok ==> chains == Appended(old(chains), stage, plan)
      ensures ok ==> AddedOne(old(revisions), plan, revisions)
      ensures owners == Claimed(old(owners), p, plan.logicalKey)
    {
      owners := Claimed(owners, p, plan.logicalKey);
      ghost var before := revisions;
      ok := ReplaceRow(stage, plan);
      if ok {
        StillOwned(before, plan, revisions, owners);
      }
    }

    /** The body of the transaction: insert plan by plan, until an id is taken. */
    method LoadBatch(p: Id, stage: Id, plans: seq<PlanRow>) returns (ok: bool)
      requires Valid()
      modifies this
      ensures ok <==> AllNew(old(revisions), plans)
      ensures ok ==>
                Valid()
                && BatchSoFar(old(revisions), old(owners), old(chains), p, stage, plans, revisions, owners, chains)
    {
      ghost var saved, savedOwners, savedChains := revisions, owners, chains;
      for n := 0 to |plans|
        invariant Valid()
        invariant BatchSoFar(saved, savedOwners, savedChains, p, stage, plans[..n], revisions, owners, chains)
      {
        ghost var soFar, soFarOwners, soFarChains := revisions, owners, chains;
        var inserted := ReplaceOne(p, stage, plans[n]);
        if !inserted {
          CollisionSpoilsBatch(saved, savedChains, stage, plans, n, soFar, soFarChains);
          return false;
        }
        BatchNext(saved, savedOwners, savedChains, p, stage, plans, n, soFar, soFarOwners, soFarChains, revisions,
                  chains);
      }
      assert plans[..|plans|] == plans;
      ok := true;
    }

    /** Replace the active revisions of a batch in one transaction: all of it, or, when an id is
        already taken, none of it. */
    method ReplaceActive(p: Id, stage: Id, plans: seq<PlanRow>) returns (ok: bool)
      requires Valid()
      modifies this
      ensures Valid()
      ensures ok <==> AllNew(old(revisions), plans)
      ensures ok ==> chains == AppendedAll(old(chains), stage, plans)
      ensures ok ==> revisions.Keys == old(revisions).Keys + IdsOf(plans)
      ensures ok ==> forall i :: 0 <= i < |plans| ==> revisions[plans[i].revision].platform == plans[i].platform
      ensures ok ==> OwnersAfter(old(owners), p, plans, owners)
      ensures !ok ==> revisions == old(revisions) && owners == old(owners) && chains == old(chains)
    {
      var saved, savedOwners := revisions, owners;
      ghost var savedChains := chains;
      ok := LoadBatch(p, stage, plans);
      if ok {
        BatchIsLoaded(saved, savedOwners, savedChains, p, stage, plans, revisions, owners, chains);
      } else {
        revisions, owners := saved, savedOwners;
        chains := savedChains;
      }
    }

    /** The ids of list_active_plans, each once, in some order. */
    method ListActive(p: Id) returns (rows: seq<Id>)
      ensures forall r :: r in rows <==> r in ActivePlans(revisions, owners, p)
      ensures forall i, k :: 0 <= i < k < |rows| ==> rows[i] != rows[k]
    {
      rows := [];
      var listed := ActivePlans(revisions, owners, p).Keys;
      var todo := listed;
      while todo != {}
        invariant todo <= listed
        invariant forall r :: r in listed - todo ==> r in rows
        invariant forall i :: 0 <= i < |rows| ==> rows[i] in listed && rows[i] !in todo
        invariant forall i, k :: 0 <= i < k < |rows| ==> rows[i] != rows[k]
        decreases todo
      {
        var r :| r in todo;
        rows, todo := rows + [r], todo - {r};
      }
    }
  }

  function IdsOf(plans: seq<PlanRow>): set<Id> {
    set i | 0 <= i < |plans| :: plans[i].revision
  }

  /** The batch prefix `done` has been loaded on top of the saved table. */
  ghost predicate Loaded(saved: map<Id, Revision>, savedChains: Chains, stage: Id, done: seq<PlanRow>,
                         revisions: map<Id, Revision>, chains: Chains) {
    && AllNew(saved, done)
    && chains == AppendedAll(savedChains, stage, done)
    && revisions.Keys == saved.Keys + IdsOf(done)
    && Contents(done, revisions)
  }

  /** And with it the logical plans it mentions. */
  ghost predicate BatchSoFar(saved: map<Id, Revision>, savedOwners: map<Id, Id>, savedChains: Chains, p: Id, stage: Id,
                             done: seq<PlanRow>, revisions: map<Id, Revision>, owners: map<Id, Id>, chains: Chains)
  {
    Loaded(saved, savedChains, stage, done, revisions, chains) && OwnersAfter(savedOwners, p, done, owners)
  }

  lemma BatchNext(saved: map<Id, Revision>, savedOwners: map<Id, Id>, savedChains: Chains, p: Id, stage: Id,
                  plans: seq<PlanRow>, n: nat, revisions: map<Id, Revision>, owners: map<Id, Id>, chains: Chains,
                  next: map<Id, Revision>, nextChains: Chains)
    requires n < |plans|
    requires BatchSoFar(saved, savedOwners, savedChains, p, stage, plans[..n], revisions, owners, chains)
    requires plans[n].revision !in revisions && nextChains == Appended(chains, stage, plans[n])
    requires AddedOne(revisions, plans[n], next)
    ensures BatchSoFar(saved, savedOwners, savedChains, p, stage, plans[..n + 1], next,
                       Claimed(owners, p, plans[n].logicalKey), nextChains)
  {
    TakeNext(plans, n);
    LoadedNext(saved, savedChains, stage, plans[..n], plans[n], revisions, chains, next, nextChains);
    OwnersNext(savedOwners, p, plans[..n], plans[n], owners);
  }

  lemma BatchIsLoaded(saved: map<Id, Revision>, savedOwners: map<Id, Id>, savedChains: Chains, p: Id, stage: Id,
                      plans: seq<PlanRow>, revisions: map<Id, Revision>, owners: map<Id, Id>, chains: Chains)
    requires BatchSoFar(saved, savedOwners, savedChains, p, stage, plans, revisions, owners, chains)
    ensures AllNew(saved, plans) && chains == AppendedAll(savedChains, stage, plans)
    ensures revisions.Keys == saved.Keys + IdsOf(plans)
    ensures forall i :: 0 <= i < |plans| ==>
              plans[i].revision in revisions && revisions[plans[i].revision].platform == plans[i].platform
    ensures OwnersAfter(savedOwners, p, plans, owners)
  {
  }

  lemma LoadedNext(saved: map<Id, Revision>, savedChains: Chains, stage: Id, done: seq<PlanRow>, plan: PlanRow,
                   revisions: map<Id, Revision>, chains: Chains, next: map<Id, Revision>, nextChains: Chains)
    requires Loaded(saved, savedChains, stage, done, revisions, chains)
    requires plan.revision !in revisions
    requires nextChains == Appended(chains, stage, plan)
    requires AddedOne(revisions, plan, next)
    ensures Loaded(saved, savedChains, stage, done + [plan], next, nextChains)
  {
    assert (done + [plan])[..|done|] == done;
    IdsGrow(done, plan);
    NewNext(saved, done, plan);
    ContentsNext(done, plan, revisions, next);
  }

  /** The table holds the content of every plan listed. */
  ghost predicate Contents(done: seq<PlanRow>, revisions: map<Id, Revision>) {
    forall i :: 0 <= i < |done| ==>
      done[i].revision in revisions && revisions[done[i].revision].platform == done[i].platform
  }

  lemma ContentsNext(done: seq<PlanRow>, plan: PlanRow, revisions: map<Id, Revision>, next: map<Id, Revision>)
    requires Contents(done, revisions) && AddedOne(revisions, plan, next) && plan.revision !in revisions
    ensures Contents(done + [plan], next)
  {
    var more := done + [plan];
    forall i | 0 <= i < |more|
      ensures more[i].revision in next && next[more[i].revision].platform == more[i].platform
    {
      if i < |done| {
        assert more[i] == done[i] && SameContent(next[done[i].revision], revisions[done[i].revision]);
      }
    }
  }

  lemma NewNext(saved: map<Id, Revision>, done: seq<PlanRow>, plan: PlanRow)
    requires AllNew(saved, done) && plan.revision !in saved && plan.revision !in IdsOf(done)
    ensures AllNew(saved, done + [plan])
  {
    assert forall i :: 0 <= i < |done| ==> done[i].revision in IdsOf(done);
  }

  lemma IdsGrow(done: seq<PlanRow>, plan: PlanRow)
    ensures IdsOf(done + [plan]) == IdsOf(done) + {plan.revision}
  {
    var more := done + [plan];
    assert forall i :: 0 <= i < |done| ==> more[i] == done[i];
    assert more[|done|] == plan;
    forall r | r in IdsOf(done) ensures r in IdsOf(more) {
      var i :| 0 <= i < |done| && done[i].revision == r;
      assert more[i].revision == r;
    }
  }

  lemma CollisionSpoilsBatch(saved: map<Id, Revision>, savedChains: Chains, stage: Id, plans: seq<PlanRow>, n: nat,
                             revisions: map<Id, Revision>, chains: Chains)
    requires n < |plans| && Loaded(saved, savedChains, stage, plans[..n], revisions, chains)
    requires plans[n].revision in revisions
    ensures !AllNew(saved, plans)
  {
    if plans[n].revision !in saved {
      assert plans[n].revision in IdsOf(plans[..n]);
      var i :| 0 <= i < n && plans[..n][i].revision == plans[n].revision;
      assert plans[i].revision == plans[n].revision;
    }
  }
}
