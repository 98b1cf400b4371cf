/** evaluate_keywords as the program runs it: grouping dicts, reason lists, a union-find and a loop over
    the lanes, ending in exactly the outcome module Keywords defines on sets. */
module KeywordEvaluation {
  import opened Common
  import opened Sorting
  import opened Quantiles
  import opened Keywords
  import UF = UnionFind

  datatype KeywordError = NormalizationMismatch(id: Id) | ModelMismatch(model: Id) | BidEvidenceRefused(error: BidError)

  type Reasons = map<Id, seq<Reason>>

  function Ids(s: seq<Keyword>): set<Id> {
    set k | k in s :: k.id
  }

  /** Exactly the ids in `marked` got one more reason. */
  ghost predicate Marks(before: Reasons, after: Reasons, marked: set<Id>, reason: Reason) {
    && after.Keys == before.Keys
    && forall id :: id in before ==> after[id] == if id in marked then before[id] + [reason] else before[id]
  }

  lemma MarksChain(first: Reasons, second: Reasons, third: Reasons, a: set<Id>, b: set<Id>, reason: Reason)
    requires Marks(first, second, a, reason) && Marks(second, third, b, reason) && a !! b
    ensures Marks(first, third, a + b, reason)
  {
  }

  // ----- one dedupe phase: group, pick the best of each group, mark the rest -----

  ghost predicate Keyed(items: seq<Keyword>, key: map<Id, Id>) {
    Distinct(items) && forall k :: k in items ==> k.id in key
  }

  /** groups is the dict items are gathered into under key. */
  ghost predicate Grouped(items: seq<Keyword>, key: map<Id, Id>, groups: map<Id, seq<Keyword>>)
    requires Keyed(items, key)
  {
    && (forall k :: k in items ==> key[k.id] in groups && k in groups[key[k.id]])
    && (forall g :: g in groups ==> IsGroup(items, key, g, groups[g]))
  }

  ghost predicate IsGroup(items: seq<Keyword>, key: map<Id, Id>, g: Id, group: seq<Keyword>)
    requires Keyed(items, key)
  {
    group != [] && Distinct(group) && forall k :: k in group ==> k in items && key[k.id] == g
  }

  method GroupBy(items: seq<Keyword>, key: map<Id, Id>) returns (groups: map<Id, seq<Keyword>>)
    requires Keyed(items, key)
    ensures Grouped(items, key, groups)
  {
    groups := map[];
    for n := 0 to |items|
      invariant Grouped(items[..n], key, groups)
    {
      var g := key[items[n].id];
      var group := if g in groups then groups[g] else [];
      GroupGrows(items, key, n, groups, group);
      groups := groups[g := group + [items[n]]];
    }
    assert items[..|items|] == items;
  }

  lemma GroupGrows(items: seq<Keyword>, key: map<Id, Id>, n: nat, groups: map<Id, seq<Keyword>>, group: seq<Keyword>)
    requires Keyed(items, key) && n < |items| && Grouped(items[..n], key, groups)
    requires group == if key[items[n].id] in groups then groups[key[items[n].id]] else []
    ensures Grouped(items[..n + 1], key, groups[key[items[n].id] := group + [items[n]]])
  {
    TakeNext(items, n);
    var g := key[items[n].id];
    var more, next := items[..n + 1], groups[g := group + [items[n]]];
    forall h | h in next ensures IsGroup(more, key, h, next[h]) {
      if h in groups {
        assert IsGroup(items[..n], key, h, groups[h]);
      }
    }
    forall k | k in more ensures key[k.id] in next && k in next[key[k.id]] {
      if k != items[n] {
        assert k in items[..n];
      }
    }
  }

  method Winner(group: seq<Keyword>) returns (w: Keyword)
    requires group != []
    ensures w in group && forall o :: o in group ==> Preferred(w, o)
  {
    w := group[0];
    for n := 1 to |group|
      invariant w in group
      invariant forall i :: 0 <= i < n ==> Preferred(w, group[i])
    {
      if !Preferred(w, group[n]) {
        w := group[n];
      }
    }
  }

  method MarkGroup(group: seq<Keyword>, winner: Keyword, reasons: Reasons, reason: Reason) returns (marked: Reasons)
    requires Distinct(group) && winner in group && Ids(group) <= reasons.Keys
    ensures Marks(reasons, marked, Ids(group) - {winner.id}, reason)
  {
    marked := reasons;
    for n := 0 to |group|
      invariant Marks(reasons, marked, Ids(group[..n]) - {winner.id}, reason)
    {
      IdsNext(group, n);
      assert group[n].id in Ids(group);
      if group[n].id != winner.id {
        marked := marked[group[n].id := marked[group[n].id] + [reason]];
      }
    }
    assert group[..|group|] == group;
  }

  lemma IdsNext(s: seq<Keyword>, n: nat)
    requires n < |s|
    ensures Ids(s[..n + 1]) == Ids(s[..n]) + {s[n].id}
    ensures Distinct(s) ==> s[n].id !in Ids(s[..n])
  {
    TakeNext(s, n);
  }

  /** k is preferred over everything it is grouped with. */
  ghost predicate Wins(items: seq<Keyword>, key: map<Id, Id>, k: Keyword)
    requires Keyed(items, key) && k.id in key
  {
    forall o :: o in items && key[o.id] == key[k.id] ==> Preferred(k, o)
  }

  /** The ids of the items grouped under one of the keys. */
  ghost function IdsUnder(items: seq<Keyword>, key: map<Id, Id>, keys: set<Id>): set<Id>
    requires Keyed(items, key)
  {
    set k | k in items && key[k.id] in keys :: k.id
  }

  ghost predicate WinnersUnder(items: seq<Keyword>, key: map<Id, Id>, keys: set<Id>, winners: set<Id>)
    requires Keyed(items, key)
  {
    && winners <= IdsUnder(items, key, keys)
    && forall k :: k in items && key[k.id] in keys ==> (k.id in winners <==> Wins(items, key, k))
  }

  lemma GroupHolds(items: seq<Keyword>, key: map<Id, Id>, groups: map<Id, seq<Keyword>>, g: Id)
    requires Keyed(items, key) && Grouped(items, key, groups) && g in groups
    ensures IsGroup(items, key, g, groups[g])
    ensures Ids(groups[g]) == IdsUnder(items, key, {g}) <= Ids(items)
  {
    assert IsGroup(items, key, g, groups[g]);
  }

  lemma GroupWinner(items: seq<Keyword>, key: map<Id, Id>, groups: map<Id, seq<Keyword>>, done: set<Id>, g: Id,
                    winners: set<Id>, w: Keyword)
    requires Keyed(items, key) && Grouped(items, key, groups) && g in groups && g !in done
    requires w in groups[g] && forall o :: o in groups[g] ==> Preferred(w, o)
    requires WinnersUnder(items, key, done, winners)
    ensures WinnersUnder(items, key, done + {g}, winners + {w.id})
    ensures IdsUnder(items, key, done + {g}) == IdsUnder(items, key, done) + IdsUnder(items, key, {g})
    ensures IdsUnder(items, key, done) !! IdsUnder(items, key, {g})
  {
    assert IsGroup(items, key, g, groups[g]);
    forall a, b | a in items && b in items && a.id == b.id ensures a == b {
    }
    forall k | k in items && key[k.id] in done + {g} ensures k.id in winners + {w.id} <==> Wins(items, key, k) {
      if key[k.id] == g {
        assert Preferred(w, k);
        assert Wins(items, key, w);
        assert Wins(items, key, k) ==> Preferred(k, w);
        PreferredOrder(k, w, k);
      }
    }
  }

  /** The groups under the keys in `done` have been decided. */
  ghost predicate Decided(items: seq<Keyword>, key: map<Id, Id>, done: set<Id>, winners: set<Id>,
                          reasons: Reasons, marked: Reasons, reason: Reason)
    requires Keyed(items, key)
  {
    WinnersUnder(items, key, done, winners) && Marks(reasons, marked, IdsUnder(items, key, done) - winners, reason)
  }

  method DecideGroup(items: seq<Keyword>, key: map<Id, Id>, groups: map<Id, seq<Keyword>>, g: Id, ghost done: set<Id>,
                     winners: set<Id>, ghost reasons: Reasons, marked: Reasons, reason: Reason)
    returns (moreWinners: set<Id>, moreMarked: Reasons)
    requires Keyed(items, key) && Ids(items) <= marked.Keys && Grouped(items, key, groups) && g in groups && g !in done
    requires Decided(items, key, done, winners, reasons, marked, reason)
    ensures Decided(items, key, done + {g}, moreWinners, reasons, moreMarked, reason)
    ensures moreMarked.Keys == marked.Keys
  {
    GroupHolds(items, key, groups, g);
    var w := Winner(groups[g]);
    moreMarked := MarkGroup(groups[g], w, marked, reason);
    GroupWinner(items, key, groups, done, g, winners, w);
    MarksChain(reasons, marked, moreMarked, IdsUnder(items, key, done) - winners, Ids(groups[g]) - {w.id}, reason);
    WinnerSplit(IdsUnder(items, key, done), Ids(groups[g]), winners, w.id);
    moreWinners := winners + {w.id};
  }

  /** exact_groups and semantic_groups: the best of each group goes on, the others are marked. */
  method PickWinners(items: seq<Keyword>, key: map<Id, Id>, reasons: Reasons, reason: Reason)
    returns (winners: set<Id>, marked: Reasons)
    requires Keyed(items, key) && Ids(items) <= reasons.Keys
    ensures winners <= Ids(items)
    ensures forall k :: k in items ==> (k.id in winners <==> Wins(items, key, k))
    ensures Marks(reasons, marked, Ids(items) - winners, reason)
  {
    var groups := GroupBy(items, key);
    winners, marked := {}, reasons;
    var todo := groups.Keys;
    ghost var done: set<Id> := {};
    while todo != {}
      invariant todo <= groups.Keys && done == groups.Keys - todo
      invariant marked.Keys == reasons.Keys
      invariant Decided(items, key, done, winners, reasons, marked, reason)
      decreases todo
    {
      var g :| g in todo;
      winners, marked := DecideGroup(items, key, groups, g, done, winners, reasons, marked, reason);
      todo, done := todo - {g}, done + {g};
    }
    assert IdsUnder(items, key, done) == Ids(items);
  }

  lemma WinnerSplit(earlier: set<Id>, group: set<Id>, winners: set<Id>, w: Id)
    requires winners <= earlier && w in group && earlier !! group
    ensures (earlier - winners) + (group - {w}) == (earlier + group) - (winners + {w})
  {
  }

  // ----- phase one: normalization and heat -----

  function HeatReasons(k: Keyword, threshold: int): seq<Reason> {
    if k.heat < threshold then [BelowHeatThreshold] else []
  }

  predicate Normalized(keywords: seq<Keyword>, norm: Id -> Id) {
    forall k :: k in keywords ==> k.text == norm(k.rawText)
  }

  /** The id is that of the first keyword that is not normalized. */
  predicate FirstUnnormalized(keywords: seq<Keyword>, norm: Id -> Id, id: Id) {
    exists n :: 0 <= n < |keywords| && UnnormalizedAt(keywords, norm, id, n)
  }

  predicate UnnormalizedAt(keywords: seq<Keyword>, norm: Id -> Id, id: Id, n: nat)
    requires n < |keywords|
  {
    keywords[n].id == id && keywords[n].text != norm(keywords[n].rawText) && Normalized(keywords[..n], norm)
  }

  method CheckAndHeat(keywords: seq<Keyword>, norm: Id -> Id, threshold: int)
    returns (bad: Option<Id>, reasons: Reasons)
    requires Distinct(keywords)
    ensures bad.None? <==> Normalized(keywords, norm)
    ensures bad.Some? ==> FirstUnnormalized(keywords, norm, bad.value)
    ensures bad.None? ==> reasons.Keys == Ids(keywords)
    ensures bad.None? ==> forall k :: k in keywords ==> reasons[k.id] == HeatReasons(k, threshold)
  {
    bad, reasons := None, map[];
    for n := 0 to |keywords|
      invariant Normalized(keywords[..n], norm)
      invariant reasons.Keys == Ids(keywords[..n])
      invariant forall i :: 0 <= i < n ==>
                  keywords[i].id in reasons && reasons[keywords[i].id] == HeatReasons(keywords[i], threshold)
    {
      IdsNext(keywords, n);
      TakeNext(keywords, n);
      if keywords[n].text != norm(keywords[n].rawText) {
        assert UnnormalizedAt(keywords, norm, keywords[n].id, n);
        return Some(keywords[n].id), reasons;
      }
      reasons := reasons[keywords[n].id := if keywords[n].heat < threshold then [BelowHeatThreshold] else []];
    }
    assert keywords[..|keywords|] == keywords;
  }

  // ----- phase two: one representative per text -----

  ghost predicate RepsAre(keywords: seq<Keyword>, reps: set<Id>) {
    && reps <= Ids(keywords)
    && forall k :: k in keywords ==> (k.id in reps <==> Representative(Elems(keywords), k))
  }

  function TextKey(keywords: seq<Keyword>): (key: map<Id, Id>)
    requires Distinct(keywords)
    ensures key.Keys == Ids(keywords) && forall k :: k in keywords ==> key[k.id] == k.text
  {
    if keywords == [] then map[]
    else
      assert keywords == [keywords[0]] + keywords[1..];
      TextKey(keywords[1..])[keywords[0].id := keywords[0].text]
  }

  lemma WinsIsRepresentative(keywords: seq<Keyword>, k: Keyword)
    requires Distinct(keywords) && k in keywords
    ensures Wins(keywords, TextKey(keywords), k) <==> Representative(Elems(keywords), k)
  {
    var key := TextKey(keywords);
    forall o ensures o in SameText(Elems(keywords), k) <==> o in keywords && key[o.id] == key[k.id] {
    }
  }

  method DedupeTexts(keywords: seq<Keyword>, reasons: Reasons) returns (reps: set<Id>, marked: Reasons)
    requires Distinct(keywords) && reasons.Keys == Ids(keywords)
    ensures RepsAre(keywords, reps)
    ensures Marks(reasons, marked, Ids(keywords) - reps, ExactDuplicate)
  {
    var key := TextKey(keywords);
    reps, marked := PickWinners(keywords, key, reasons, ExactDuplicate);
    forall k | k in keywords ensures k.id in reps <==> Representative(Elems(keywords), k) {
      WinsIsRepresentative(keywords, k);
    }
  }

  // ----- phase three: joining what the evidence calls duplicates -----

  function ById(keywords: seq<Keyword>): (byId: map<Id, Keyword>)
    requires Distinct(keywords)
    ensures byId.Keys == Ids(keywords) && forall k :: k in keywords ==> byId[k.id] == k
    ensures forall id :: id in byId ==> byId[id] in keywords && byId[id].id == id
  {
    if keywords == [] then map[]
    else
      assert keywords == [keywords[0]] + keywords[1..];
      ById(keywords[1..])[keywords[0].id := keywords[0]]
  }

  function EvidenceSet(evidence: seq<Similarity>): set<Similarity> {
    set e | e in evidence
  }

  /** The row names two representatives. */
  predicate NamesReps(reps: set<Id>, e: Similarity) {
    e.left in reps && e.right in reps
  }

  lemma JoinsById(keywords: seq<Keyword>, reps: set<Id>, params: Params, e: Similarity)
    requires Distinct(keywords) && RepsAre(keywords, reps)
    ensures var byId, all := ById(keywords), Representatives(Elems(keywords));
            && (Joins(all, params, e) <==>
                  params.dedupe && e.similarity >= params.cutoff && NamesReps(reps, e)
                  && byId[e.left].lane == byId[e.right].lane)
            && (CrossesLanes(all, e) <==> NamesReps(reps, e) && byId[e.left].lane != byId[e.right].lane)
  {
    var byId, all := ById(keywords), Representatives(Elems(keywords));
    forall k | k in all ensures k.id in reps && byId[k.id] == k {
    }
    if NamesReps(reps, e) {
      assert byId[e.left] in all && byId[e.right] in all;
    }
  }

  lemma LinksNext(keywords: seq<Keyword>, es: set<Similarity>, params: Params, e: Similarity)
    ensures Links(Elems(keywords), es + {e}, params)
         == Links(Elems(keywords), es, params)
            + if Joins(Representatives(Elems(keywords)), params, e) then {(e.left, e.right)} else {}
  {
  }

  predicate ModelsAgree(evidence: seq<Similarity>, params: Params) {
    forall e :: e in evidence ==> e.model == params.model
  }

  /** The model is that of the first row from another model. */
  predicate FirstForeign(evidence: seq<Similarity>, params: Params, model: Id) {
    exists n :: 0 <= n < |evidence| && ForeignAt(evidence, params, model, n)
  }

  predicate ForeignAt(evidence: seq<Similarity>, params: Params, model: Id, n: nat)
    requires n < |evidence|
  {
    evidence[n].model == model && model != params.model && ModelsAgree(evidence[..n], params)
  }

  /** Evidence rows that crossed lanes so far. */
  predicate Crossed(keywords: seq<Keyword>, es: set<Similarity>) {
    exists e :: e in es && CrossesLanes(Representatives(Elems(keywords)), e)
  }

  method JoinOne(keywords: seq<Keyword>, reps: set<Id>, byId: map<Id, Keyword>, params: Params, e: Similarity,
                 ghost es: set<Similarity>, uf: UF.UnionFind)
    returns (crossed: bool)
    requires Distinct(keywords) && RepsAre(keywords, reps) && byId == ById(keywords) && params.dedupe
    requires uf.Valid() && uf.parent.Keys == reps && uf.pairs == Links(Elems(keywords), es, params)
    modifies uf
    ensures uf.Valid() && uf.parent.Keys == reps && uf.pairs == Links(Elems(keywords), es + {e}, params)
    ensures crossed <==> CrossesLanes(Representatives(Elems(keywords)), e)
  {
    JoinsById(keywords, reps, params, e);
    LinksNext(keywords, es, params, e);
    crossed := false;
    if e.left !in reps || e.right !in reps {
      return;
    }
    var left, right := byId[e.left], byId[e.right];
    if left.lane != right.lane {
      return true;
    }
    if e.similarity >= params.cutoff {
      uf.Union(left.id, right.id);
    }
  }

  method JoinEvidence(keywords: seq<Keyword>, reps: set<Id>, evidence: seq<Similarity>, params: Params)
    returns (bad: Option<Id>, crossed: bool, uf: UF.UnionFind)
    requires Distinct(keywords) && RepsAre(keywords, reps)
    ensures fresh(uf)
    ensures bad.Some? <==> params.dedupe && !ModelsAgree(evidence, params)
    ensures bad.Some? ==> FirstForeign(evidence, params, bad.value)
    ensures bad.None? ==> uf.Valid() && uf.parent.Keys == reps
    ensures bad.None? ==> uf.pairs == Links(Elems(keywords), EvidenceSet(evidence), params)
    ensures bad.None? ==> (crossed <==> params.dedupe && Crossed(keywords, EvidenceSet(evidence)))
  {
    uf := new UF.UnionFind(reps);
    bad, crossed := None, false;
    if !params.dedupe {
      assert Links(Elems(keywords), EvidenceSet(evidence), params) == {};
      return;
    }
    var byId := ById(keywords);
    for n := 0 to |evidence|
      invariant fresh(uf) && uf.Valid() && uf.parent.Keys == reps
      invariant uf.pairs == Links(Elems(keywords), EvidenceSet(evidence[..n]), params)
      invariant ModelsAgree(evidence[..n], params)
      invariant crossed <==> Crossed(keywords, EvidenceSet(evidence[..n]))
    {
      TakeNext(evidence, n);
      assert EvidenceSet(evidence[..n + 1]) == EvidenceSet(evidence[..n]) + {evidence[n]};
      if evidence[n].model != params.model {
        assert ForeignAt(evidence, params, evidence[n].model, n);
        return Some(evidence[n].model), crossed, uf;
      }
      var crosses := JoinOne(keywords, reps, byId, params, evidence[n], EvidenceSet(evidence[..n]), uf);
      crossed := crossed || crosses;
    }
    assert evidence[..|evidence|] == evidence;
  }

  // ----- phase four: one survivor per component -----

  /** semantic_groups' keys: the root of every representative. */
  method RootKeys(uf: UF.UnionFind, reps: set<Id>) returns (key: map<Id, Id>)
    requires uf.Valid() && uf.parent.Keys == reps
    modifies uf`parent
    ensures uf.Valid() && key == uf.roots
  {
    key := map[];
    var todo := reps;
    while todo != {}
      invariant uf.Valid() && uf.parent.Keys == reps && todo <= reps
      invariant key.Keys == reps - todo && forall id :: id in key ==> key[id] == uf.roots[id]
      decreases todo
    {
      var id :| id in todo;
      var root := uf.Find(id);
      key, todo := key[id := root], todo - {id};
    }
  }

  method Keep(keywords: seq<Keyword>, ids: set<Id>) returns (kept: seq<Keyword>)
    requires Distinct(keywords) && ids <= Ids(keywords)
    ensures Distinct(kept) && Ids(kept) == ids
    ensures forall k :: k in kept <==> k in keywords && k.id in ids
  {
    kept := [];
    for n := 0 to |keywords|
      invariant Distinct(kept)
      invariant forall k :: k in kept <==> k in keywords[..n] && k.id in ids
    {
      TakeNext(keywords, n);
      if keywords[n].id in ids {
        kept := kept + [keywords[n]];
      }
    }
    assert keywords[..|keywords|] == keywords;
  }

  /** The survivors' ids. */
  ghost predicate SurvivorsAre(keywords: seq<Keyword>, es: set<Similarity>, params: Params, survivors: set<Id>) {
    && survivors <= Ids(keywords)
    && forall k :: k in keywords ==> (k.id in survivors <==> Survivor(Elems(keywords), es, params, k))
  }

  lemma WinsIsSurvivor(keywords: seq<Keyword>, es: set<Similarity>, params: Params, reps: seq<Keyword>,
                       roots: map<Id, Id>, k: Keyword)
    requires Distinct(keywords) && Keyed(reps, roots) && k in reps
    requires forall o :: o in reps <==> o in keywords && Representative(Elems(keywords), o)
    requires UF.Partitions(roots, Links(Elems(keywords), es, params))
    ensures Wins(reps, roots, k) <==> Survivor(Elems(keywords), es, params, k)
  {
    var links := Links(Elems(keywords), es, params);
    forall o ensures o in Component(Elems(keywords), es, params, k) <==> o in reps && roots[o.id] == roots[k.id] {
      if o in reps {
        assert UF.SameClass(roots, links, k.id, o.id);
      }
    }
    assert UF.SameClass(roots, links, k.id, k.id);
  }

  method DedupeMeanings(keywords: seq<Keyword>, reps: set<Id>, ghost es: set<Similarity>, ghost params: Params,
                        uf: UF.UnionFind, reasons: Reasons)
    returns (survivors: set<Id>, marked: Reasons)
    requires Distinct(keywords) && RepsAre(keywords, reps) && reasons.Keys == Ids(keywords)
    requires uf.Valid() && uf.parent.Keys == reps && uf.pairs == Links(Elems(keywords), es, params)
    modifies uf`parent
    ensures SurvivorsAre(keywords, es, params, survivors) && survivors <= reps
    ensures Marks(reasons, marked, reps - survivors, SemanticDuplicate)
  {
    var items := Keep(keywords, reps);
    var key := RootKeys(uf, reps);
    survivors, marked := PickWinners(items, key, reasons, SemanticDuplicate);
    forall k | k in keywords ensures k.id in survivors <==> Survivor(Elems(keywords), es, params, k) {
      if k in items {
        WinsIsSurvivor(keywords, es, params, items, key, k);
      }
    }
  }

  // ----- the reasons before the lanes -----

  lemma BaseReasonsAre(keywords: seq<Keyword>, es: set<Similarity>, params: Params, reps: set<Id>, survivors: set<Id>,
                       heat: Reasons, exact: Reasons, semantic: Reasons, k: Keyword)
    requires Distinct(keywords) && RepsAre(keywords, reps) && SurvivorsAre(keywords, es, params, survivors)
    requires k in keywords
    requires heat.Keys == Ids(keywords) && heat[k.id] == HeatReasons(k, params.threshold)
    requires Marks(heat, exact, Ids(keywords) - reps, ExactDuplicate)
    requires Marks(exact, semantic, reps - survivors, SemanticDuplicate)
    ensures k.id in semantic && semantic[k.id] == BaseReasons(Elems(keywords), es, params, k)
  {
  }

  // ----- phase five: the lanes -----

  lemma HeatTotal()
    ensures Total(HeatLe) && Transitive(HeatLe)
  {
  }

  lemma DistinctPermutation(s: seq<Keyword>, r: seq<Keyword>)
    requires Distinct(s) && multiset(s) == multiset(r)
    ensures Distinct(r) && Elems(r) == Elems(s)
  {
    forall k ensures k in r <==> k in s {
      SameMembers(s, r, k);
    }
    ArrangementKeepsDistinct(s, r);
    forall i, j | 0 <= i < j < |r| ensures r[i].id != r[j].id {
      SameMembers(s, r, r[i]);
      SameMembers(s, r, r[j]);
    }
  }

  method QueueFor(keywords: seq<Keyword>, lane: Lane, survivors: set<Id>, reasons: Reasons)
    returns (queue: seq<Keyword>)
    requires Distinct(keywords) && reasons.Keys == Ids(keywords)
    ensures IsQueue(queue, set k | k in keywords && k.lane == lane && k.id in survivors && reasons[k.id] == [])
  {
    var items := [];
    for n := 0 to |keywords|
      invariant Distinct(items)
      invariant forall k ::
                  k in items <==> k in keywords[..n] && k.lane == lane && k.id in survivors && reasons[k.id] == []
    {
      TakeNext(keywords, n);
      var k := keywords[n];
      if k.lane == lane && k.id in survivors && reasons[k.id] == [] {
        items := items + [k];
      }
    }
    assert keywords[..|keywords|] == keywords;
    queue := SortBy(items, HeatLe);
    HeatTotal();
    SortBySorted(items, HeatLe);
    DistinctPermutation(items, queue);
  }

  /** peer_bids. */
  method PeerBids(queue: seq<Keyword>) returns (peers: seq<int>)
    ensures peers == Peers(queue)
  {
    peers := [];
    for n := 0 to |queue|
      invariant peers == Peers(queue[..n])
    {
      TakeNext(queue, n);
      if queue[n].bid.Some? {
        peers := peers + [queue[n].bid.value];
      }
    }
    assert queue[..|queue|] == queue;
  }

  /** One place within the limit; the bid computation may refuse. */
  method JudgeBid(queue: seq<Keyword>, i: nat, peers: seq<int>, params: Params) returns (v: Result<Verdict, BidError>)
    requires peers == Peers(queue) && i < |queue| && i < params.limit
    ensures v.Err? <==> RefusesAt(queue, i, params)
    ensures v.Err? ==> RefusesAtWith(queue, i, params, v.error)
    ensures v.Ok? ==> v.value == BidVerdict(queue, queue[i], params)
  {
    var k := queue[i];
    if k.bid.None? {
      v := Ok(Verdict(None, [BidEvidenceMissing]));
    } else if |peers| < 5 {
      v := Ok(Verdict(if params.mode == OcpxStableCost then Some(0) else None, [BidPeerSampleInsufficient]));
    } else {
      var evidence := ComputeBid(k.bid.value, peers, params.low, params.high, params.step, params.mode);
      v := if evidence.Err? then Err(evidence.error)
           else Ok(Verdict(Some(evidence.value.wire), Wrapped(evidence.value.reasons)));
    }
  }

  /** The first n places of the queue have been judged; nobody else's reasons changed. */
  ghost predicate Judged(queue: seq<Keyword>, n: nat, params: Params, before: Reasons, after: Reasons,
                         wires: map<Id, Option<int>>)
    requires n <= |queue|
  {
    && after.Keys == before.Keys && Ids(queue) <= before.Keys
    && (forall id :: id in before && id !in Ids(queue[..n]) ==> after[id] == before[id])
    && (forall i :: 0 <= i < n ==> PlaceJudged(queue, i, params, before, after, wires))
  }

  ghost predicate PlaceJudged(queue: seq<Keyword>, i: nat, params: Params, before: Reasons, after: Reasons,
                              wires: map<Id, Option<int>>)
    requires i < |queue|
  {
    var id, v := queue[i].id, PlaceVerdict(queue, i, params);
    && id in before && id in after && after[id] == before[id] + v.reasons
    && (if id in wires then wires[id] else None) == v.wire
  }

  lemma JudgedNext(queue: seq<Keyword>, n: nat, params: Params, before: Reasons, after: Reasons,
                   wires: map<Id, Option<int>>, next: Reasons, nextWires: map<Id, Option<int>>)
    requires Distinct(queue) && n < |queue| && Judged(queue, n, params, before, after, wires)
    requires var id, v := queue[n].id, PlaceVerdict(queue, n, params);
             && id in after && next == after[id := after[id] + v.reasons]
             && (nextWires == wires[id := v.wire] || (nextWires == wires && v.wire == None && id !in wires))
    ensures Judged(queue, n + 1, params, before, next, nextWires)
  {
    IdsNext(queue, n);
    assert queue[n].id in Ids(queue);
    forall i | 0 <= i < n + 1 ensures PlaceJudged(queue, i, params, before, next, nextWires) {
      if i < n {
        assert PlaceJudged(queue, i, params, before, after, wires);
        assert queue[i].id in Ids(queue[..n]);
      }
    }
  }

  /** One place of the queue: its bid within the limit, a refusal beyond it. */
  method JudgePlace(queue: seq<Keyword>, i: nat, peers: seq<int>, params: Params) returns (v: Result<Verdict, BidError>)
    requires peers == Peers(queue) && i < |queue|
    ensures v.Err? <==> RefusesAt(queue, i, params)
    ensures v.Err? ==> RefusesAtWith(queue, i, params, v.error)
    ensures v.Ok? ==> v.value == PlaceVerdict(queue, i, params)
  {
    if i < params.limit {
      v := JudgeBid(queue, i, peers, params);
    } else {
      v := Ok(Verdict(None, [BusinessLimitExceeded]));
    }
  }

  /** The lane's wires, on top of those of the lanes before it. */
  ghost predicate WiresAdded(queue: seq<Keyword>, n: nat, wires: map<Id, Option<int>>, allWires: map<Id, Option<int>>)
    requires n <= |queue|
  {
    && wires.Keys <= allWires.Keys <= wires.Keys + Ids(queue[..n])
    && forall id :: id in wires ==> allWires[id] == wires[id]
  }

  /** The lane's first n places are done. */
  ghost predicate LaneSoFar(queue: seq<Keyword>, n: nat, params: Params, reasons: Reasons, wires: map<Id, Option<int>>,
                            after: Reasons, allWires: map<Id, Option<int>>, offered: seq<Id>)
    requires n <= |queue|
  {
    && (forall i :: 0 <= i < n ==> !RefusesAt(queue, i, params))
    && Judged(queue, n, params, reasons, after, allWires)
    && WiresAdded(queue, n, wires, allWires)
    && offered == Offered(queue, n, params)
  }

  function NextWires(queue: seq<Keyword>, n: nat, params: Params, wires: map<Id, Option<int>>): map<Id, Option<int>>
    requires n < |queue|
  {
    if n < params.limit then wires[queue[n].id := PlaceVerdict(queue, n, params).wire] else wires
  }

  lemma LaneNext(queue: seq<Keyword>, n: nat, params: Params, reasons: Reasons, wires: map<Id, Option<int>>,
                 after: Reasons, allWires: map<Id, Option<int>>, offered: seq<Id>)
    requires Distinct(queue) && n < |queue| && Ids(queue) !! wires.Keys && !RefusesAt(queue, n, params)
    requires LaneSoFar(queue, n, params, reasons, wires, after, allWires, offered)
    ensures queue[n].id in after
    ensures LaneSoFar(queue, n + 1, params, reasons, wires,
                      after[queue[n].id := after[queue[n].id] + PlaceVerdict(queue, n, params).reasons],
                      NextWires(queue, n, params, allWires),
                      if PlaceVerdict(queue, n, params).wire.Some? then offered + [queue[n].id] else offered)
  {
    InQueue(queue, n);
    WiresNext(queue, n, params, wires, allWires);
    JudgedNext(queue, n, params, reasons, after, allWires,
               after[queue[n].id := after[queue[n].id] + PlaceVerdict(queue, n, params).reasons],
               NextWires(queue, n, params, allWires));
  }

  lemma InQueue(queue: seq<Keyword>, n: nat)
    requires n < |queue|
    ensures queue[n].id in Ids(queue)
  {
  }

  lemma WiresNext(queue: seq<Keyword>, n: nat, params: Params, wires: map<Id, Option<int>>,
                  allWires: map<Id, Option<int>>)
    requires Distinct(queue) && n < |queue| && Ids(queue) !! wires.Keys && WiresAdded(queue, n, wires, allWires)
    ensures queue[n].id !in allWires && WiresAdded(queue, n + 1, wires, NextWires(queue, n, params, allWires))
  {
    IdsNext(queue, n);
    FreshPlace(queue, n);
    InQueue(queue, n);
  }

  lemma FreshPlace(queue: seq<Keyword>, n: nat)
    requires Distinct(queue) && n < |queue|
    ensures queue[n].id !in Ids(queue[..n])
  {
  }

  /** Judge every place of one lane's queue, up to the first whose bid is refused. */
  method JudgeLane(queue: seq<Keyword>, reasons: Reasons, wires: map<Id, Option<int>>, params: Params)
    returns (refused: Option<BidError>, after: Reasons, allWires: map<Id, Option<int>>, offered: seq<Id>)
    requires Distinct(queue) && Ids(queue) <= reasons.Keys
    requires Ids(queue) !! wires.Keys
    ensures refused.Some? <==> Refuses(queue, params)
    ensures refused.Some? ==> RefusesWith(queue, params, refused.value)
    ensures refused.None? ==> LaneSoFar(queue, |queue|, params, reasons, wires, after, allWires, offered)
  {
    var peers := PeerBids(queue);
    refused, after, allWires, offered := None, reasons, wires, [];
    for n := 0 to |queue|
      invariant refused.None? && LaneSoFar(queue, n, params, reasons, wires, after, allWires, offered)
    {
      var judged := JudgePlace(queue, n, peers, params);
      if judged.Err? {
        refused := Some(judged.error);
        assert RefusesAtWith(queue, n, params, judged.error);
        return;
      }
      LaneNext(queue, n, params, reasons, wires, after, allWires, offered);
      var id, v := queue[n].id, judged.value;
      after := after[id := after[id] + v.reasons];
      if n < params.limit {
        allWires := allWires[id := v.wire];
        if v.wire.Some? {
          offered := offered + [id];
        }
      }
    }
  }

  const LANES: seq<Lane> := [Brand, Category, Scenario, Competitor, Guide, Audience, Benefit, Event]

  lemma LanesInOrder(n: nat, lane: Lane)
    ensures n < 8 ==> LaneRank(LANES[n]) == n
    ensures LaneRank(lane) < 8 && LANES[LaneRank(lane)] == lane
  {
  }

  function WireOf(wires: map<Id, Option<int>>, id: Id): Option<int> {
    if id in wires then wires[id] else None
  }

  /** What is recorded for k once the lanes in `queues` are done. */
  ghost predicate Settled(ks: set<Keyword>, es: set<Similarity>, params: Params, queues: Queues,
                          reasons: Reasons, wires: map<Id, Option<int>>, k: Keyword) {
    k.id in reasons
    && if k.lane in queues then
         var d := DecisionOf(ks, es, params, queues[k.lane], k);
         reasons[k.id] == d.reasons && WireOf(wires, k.id) == d.wire
       else reasons[k.id] == BaseReasons(ks, es, params, k) && k.id !in wires
  }

  /** The lanes of rank below n are done. */
  ghost predicate LanesDone(keywords: seq<Keyword>, es: set<Similarity>, params: Params, n: nat, queues: Queues,
                            eligible: map<Lane, seq<Id>>, reasons: Reasons, wires: map<Id, Option<int>>) {
    && reasons.Keys == Ids(keywords)
    && (forall lane: Lane :: lane in queues <==> LaneRank(lane) < n)
    && (forall lane: Lane :: lane in queues ==> LaneFits(keywords, es, params, lane, queues, eligible))
    && (forall k {:trigger Settled(Elems(keywords), es, params, queues, reasons, wires, k)} :: k in keywords ==>
        Settled(Elems(keywords), es, params, queues, reasons, wires, k))
    && (forall id :: id in wires ==> id in Ids(keywords))
  }

  ghost predicate LaneFits(keywords: seq<Keyword>, es: set<Similarity>, params: Params, lane: Lane, queues: Queues,
                           eligible: map<Lane, seq<Id>>)
    requires lane in queues
  {
    && IsQueue(queues[lane], Candidates(Elems(keywords), es, params, lane))
    && lane in eligible && eligible[lane] == Offered(queues[lane], |queues[lane]|, params)
  }

  lemma NoReasonMeansCandidate(ks: set<Keyword>, es: set<Similarity>, params: Params, k: Keyword)
    requires k in ks
    ensures BaseReasons(ks, es, params, k) == [] && Survivor(ks, es, params, k)
            <==> Queueable(ks, es, params, k.lane, k)
  {
  }

  /** The filter the lane applies selects exactly the candidates. */
  lemma LaneFilterIsCandidates(keywords: seq<Keyword>, es: set<Similarity>, params: Params, lane: Lane,
                               survivors: set<Id>, reasons: Reasons)
    requires reasons.Keys == Ids(keywords) && SurvivorsAre(keywords, es, params, survivors)
    requires forall k :: k in keywords && k.lane == lane ==>
               reasons[k.id] == BaseReasons(Elems(keywords), es, params, k)
    ensures (set k | k in keywords && k.lane == lane && k.id in survivors && reasons[k.id] == [])
         == Candidates(Elems(keywords), es, params, lane)
  {
    forall k | k in keywords && k.lane == lane
      ensures k.id in survivors && reasons[k.id] == [] <==> Queueable(Elems(keywords), es, params, lane, k)
    {
      NoReasonMeansCandidate(Elems(keywords), es, params, k);
    }
  }

  lemma QueueIds(keywords: seq<Keyword>, es: set<Similarity>, params: Params, lane: Lane, queue: seq<Keyword>,
                 k: Keyword)
    requires Distinct(keywords) && IsQueue(queue, Candidates(Elems(keywords), es, params, lane)) && k in keywords
    ensures k.id in Ids(queue) <==> k in queue
    ensures k in queue ==> k.lane == lane
    ensures Ids(queue) <= Ids(keywords)
  {
    forall o | o in queue ensures o in keywords && o.lane == lane {
      assert o in Elems(queue);
    }
  }

  lemma PlaceSettles(keywords: seq<Keyword>, es: set<Similarity>, params: Params, queue: seq<Keyword>, queues: Queues,
                     before: Reasons, after: Reasons, wires: map<Id, Option<int>>, allWires: map<Id, Option<int>>,
                     k: Keyword)
    requires Distinct(queue) && Judged(queue, |queue|, params, before, after, allWires)
    requires k.lane in queues && queues[k.lane] == queue && k.id in before
    requires before[k.id] == BaseReasons(Elems(keywords), es, params, k) && k.id !in wires
    requires k.id in Ids(queue) <==> k in queue
    requires allWires.Keys <= wires.Keys + Ids(queue)
    ensures Settled(Elems(keywords), es, params, queues, after, allWires, k)
  {
    assert queue[..|queue|] == queue;
    var i := Place(queue, k);
    if i < |queue| {
      assert PlaceJudged(queue, i, params, before, after, allWires);
    }
  }

  lemma LaneSettles(keywords: seq<Keyword>, es: set<Similarity>, params: Params, n: nat, lane: Lane, queues: Queues,
                    eligible: map<Lane, seq<Id>>, queue: seq<Keyword>, offered: seq<Id>,
                    before: Reasons, after: Reasons, wires: map<Id, Option<int>>, allWires: map<Id, Option<int>>)
    requires Distinct(keywords) && LaneRank(lane) == n
    requires LanesDone(keywords, es, params, n, queues, eligible, before, wires)
    requires IsQueue(queue, Candidates(Elems(keywords), es, params, lane))
    requires LaneSoFar(queue, |queue|, params, before, wires, after, allWires, offered)
    ensures LanesDone(keywords, es, params, n + 1, queues[lane := queue], eligible[lane := offered], after, allWires)
  {
    var next := queues[lane := queue];
    assert queue[..|queue|] == queue;
    forall k {:trigger Settled(Elems(keywords), es, params, next, after, allWires, k)} | k in keywords
      ensures Settled(Elems(keywords), es, params, next, after, allWires, k)
    {
      assert Settled(Elems(keywords), es, params, queues, before, wires, k);
      QueueIds(keywords, es, params, lane, queue, k);
      if k.lane == lane {
        PlaceSettles(keywords, es, params, queue, next, before, after, wires, allWires, k);
      }
    }
    forall l: Lane | l in next ensures LaneFits(keywords, es, params, l, next, eligible[lane := offered]) {
      if l != lane {
        assert LaneFits(keywords, es, params, l, queues, eligible);
      }
    }
    forall l: Lane ensures l in next <==> LaneRank(l) < n + 1 {
      LanesInOrder(n, l);
      LanesInOrder(n, lane);
    }
    forall id | id in allWires ensures id in Ids(keywords) {
      if id !in wires {
        var k :| k in queue && k.id == id;
        assert k in Elems(queue);
      }
    }
  }

  lemma NothingDone(keywords: seq<Keyword>, es: set<Similarity>, params: Params, reasons: Reasons)
    requires reasons.Keys == Ids(keywords)
    requires forall k :: k in keywords ==> reasons[k.id] == BaseReasons(Elems(keywords), es, params, k)
    ensures LanesDone(keywords, es, params, 0, map[], map[], reasons, map[])
  {
  }

  lemma QueueIsNew(keywords: seq<Keyword>, es: set<Similarity>, params: Params, n: nat, lane: Lane, queues: Queues,
                   eligible: map<Lane, seq<Id>>, reasons: Reasons, wires: map<Id, Option<int>>, queue: seq<Keyword>)
    requires Distinct(keywords) && LaneRank(lane) == n
    requires LanesDone(keywords, es, params, n, queues, eligible, reasons, wires)
    requires IsQueue(queue, Candidates(Elems(keywords), es, params, lane))
    ensures Ids(queue) <= reasons.Keys && Ids(queue) !! wires.Keys
  {
    forall id | id in Ids(queue) ensures id in reasons && id !in wires {
      var k :| k in queue && k.id == id;
      assert k in Elems(queue);
      assert Settled(Elems(keywords), es, params, queues, reasons, wires, k);
    }
  }

  /** All lanes in priority order, up to the first that refuses. */
  method PlanLanes(keywords: seq<Keyword>, ghost es: set<Similarity>, params: Params, survivors: set<Id>, base: Reasons)
    returns (refused: Option<BidError>, reasons: Reasons, wires: map<Id, Option<int>>, eligible: map<Lane, seq<Id>>,
             ghost queues: Queues)
    requires Distinct(keywords) && base.Keys == Ids(keywords)
    requires SurvivorsAre(keywords, es, params, survivors)
    requires forall k :: k in keywords ==> base[k.id] == BaseReasons(Elems(keywords), es, params, k)
    ensures refused.Some? ==> BidRefused(Elems(keywords), es, params)
    ensures refused.Some? ==> BidRefusedWith(Elems(keywords), es, params, refused.value)
    ensures refused.None? ==> LanesDone(keywords, es, params, 8, queues, eligible, reasons, wires)
    ensures refused.None? ==> forall lane: Lane :: lane in queues ==> !Refuses(queues[lane], params)
  {
    refused, reasons, wires, eligible, queues := None, base, map[], map[], map[];
    NothingDone(keywords, es, params, base);
    for n := 0 to |LANES|
      invariant refused.None? && LanesDone(keywords, es, params, n, queues, eligible, reasons, wires)
      invariant forall lane: Lane :: lane in queues ==> !Refuses(queues[lane], params)
    {
      var lane := LANES[n];
      LanesInOrder(n, lane);
      var queue := QueueFor(keywords, lane, survivors, reasons);
      LaneStarts(keywords, es, params, n, lane, survivors, queues, eligible, reasons, wires, queue);
      var after, allWires, offered;
      refused, after, allWires, offered := JudgeLane(queue, reasons, wires, params);
      if refused.Some? {
        return;
      }
      LaneSettles(keywords, es, params, n, lane, queues, eligible, queue, offered, reasons, after, wires, allWires);
      reasons, wires := after, allWires;
      eligible, queues := eligible[lane := offered], queues[lane := queue];
    }
  }

  lemma LaneStarts(keywords: seq<Keyword>, es: set<Similarity>, params: Params, n: nat, lane: Lane, survivors: set<Id>,
                   queues: Queues, eligible: map<Lane, seq<Id>>, reasons: Reasons, wires: map<Id, Option<int>>,
                   queue: seq<Keyword>)
    requires Distinct(keywords) && LaneRank(lane) == n && SurvivorsAre(keywords, es, params, survivors)
    requires LanesDone(keywords, es, params, n, queues, eligible, reasons, wires)
    requires IsQueue(queue, set k | k in keywords && k.lane == lane && k.id in survivors && reasons[k.id] == [])
    ensures IsQueue(queue, Candidates(Elems(keywords), es, params, lane))
    ensures Ids(queue) <= reasons.Keys && Ids(queue) !! wires.Keys
  {
    forall k | k in keywords && k.lane == lane ensures reasons[k.id] == BaseReasons(Elems(keywords), es, params, k) {
      assert Settled(Elems(keywords), es, params, queues, reasons, wires, k);
    }
    LaneFilterIsCandidates(keywords, es, params, lane, survivors, reasons);
    QueueIsNew(keywords, es, params, n, lane, queues, eligible, reasons, wires, queue);
  }

  // ----- the decisions -----

  predicate KeywordIdLe(a: Keyword, b: Keyword) {
    a.id <= b.id
  }

  method RosterOf(keywords: seq<Keyword>) returns (roster: seq<Keyword>)
    requires Distinct(keywords)
    ensures IsRoster(roster, Elems(keywords))
  {
    roster := SortBy(keywords, KeywordIdLe);
    SortBySorted(keywords, KeywordIdLe);
    DistinctPermutation(keywords, roster);
  }

  /** Whether some lane offers the id. */
  predicate OfferedSomewhere(eligible: map<Lane, seq<Id>>, id: Id) {
    exists lane: Lane :: lane in eligible && id in eligible[lane]
  }

  lemma EligibleAgrees(keywords: seq<Keyword>, es: set<Similarity>, params: Params, queues: Queues,
                       eligible: map<Lane, seq<Id>>, reasons: Reasons, wires: map<Id, Option<int>>, k: Keyword)
    requires Distinct(keywords) && LanesDone(keywords, es, params, 8, queues, eligible, reasons, wires) && k in keywords
    requires eligible.Keys == queues.Keys
    ensures k.lane in queues
    ensures OfferedSomewhere(eligible, k.id) <==> DecisionOf(Elems(keywords), es, params, queues[k.lane], k).eligible
  {
    LanesInOrder(0, k.lane);
    forall lane: Lane | lane in queues
      ensures k.id in eligible[lane]
              <==> lane == k.lane && DecisionOf(Elems(keywords), es, params, queues[k.lane], k).eligible
    {
      OfferedInLane(keywords, es, params, lane, queues, eligible, k);
    }
  }

  lemma OfferedInLane(keywords: seq<Keyword>, es: set<Similarity>, params: Params, lane: Lane, queues: Queues,
                      eligible: map<Lane, seq<Id>>, k: Keyword)
    requires Distinct(keywords) && k in keywords && lane in queues && k.lane in queues
    requires LaneFits(keywords, es, params, lane, queues, eligible)
    ensures k.id in eligible[lane]
            <==> lane == k.lane && DecisionOf(Elems(keywords), es, params, queues[k.lane], k).eligible
  {
    var q := queues[lane];
    OfferedWithinLimit(q, |q|, params);
    QueueIds(keywords, es, params, lane, q, k);
    forall i | 0 <= i < |q| && q[i].id == k.id ensures k in q && i == Place(q, k) {
      assert q[i].id in Ids(q);
    }
  }

  method Decide(keywords: seq<Keyword>, ghost es: set<Similarity>, ghost params: Params, reasons: Reasons,
                wires: map<Id, Option<int>>, eligible: map<Lane, seq<Id>>, ghost queues: Queues)
    returns (decisions: seq<Decision>, ghost roster: seq<Keyword>)
    requires Distinct(keywords) && LanesDone(keywords, es, params, 8, queues, eligible, reasons, wires)
    requires eligible.Keys == queues.Keys
    ensures IsRoster(roster, Elems(keywords)) && |decisions| == |roster|
    ensures forall i :: 0 <= i < |roster| ==>
              roster[i].lane in queues
              && decisions[i] == DecisionOf(Elems(keywords), es, params, queues[roster[i].lane], roster[i])
  {
    var order := RosterOf(keywords);
    roster, decisions := order, [];
    for n := 0 to |order|
      invariant |decisions| == n
      invariant forall i :: 0 <= i < n ==>
                  order[i].lane in queues
                  && decisions[i] == DecisionOf(Elems(keywords), es, params, queues[order[i].lane], order[i])
    {
      var k := order[n];
      assert k in Elems(order);
      EligibleAgrees(keywords, es, params, queues, eligible, reasons, wires, k);
      assert Settled(Elems(keywords), es, params, queues, reasons, wires, k);
      var offered := OfferedSomewhere(eligible, k.id);
      decisions := decisions + [Decision(k.id, k.text, k.lane, offered, WireOf(wires, k.id), reasons[k.id])];
    }
  }

  // ----- the whole pipeline -----

  lemma RisksAre(keywords: seq<Keyword>, reps: set<Id>, evidence: seq<Similarity>, params: Params)
    requires Distinct(keywords) && RepsAre(keywords, reps)
    ensures |reps| == |Representatives(Elems(keywords))|
    ensures EvidenceSet(evidence) == {} <==> evidence == []
  {
    var all := Representatives(Elems(keywords));
    var byId := ById(keywords);
    SameCount(all, reps, byId);
    if evidence != [] {
      assert evidence[0] in EvidenceSet(evidence);
    }
  }

  lemma {:induction false} SameCount(all: set<Keyword>, ids: set<Id>, byId: map<Id, Keyword>)
    requires forall k :: k in all ==> k.id in ids && k.id in byId && byId[k.id] == k
    requires forall id :: id in ids ==> id in byId && byId[id] in all && byId[id].id == id
    ensures |all| == |ids|
    decreases ids
  {
    if ids == {} {
      assert all == {};
    } else {
      var id :| id in ids;
      SameCount(all - {byId[id]}, ids - {id}, byId);
    }
  }

  /** The reasons before the lanes, for every keyword. */
  ghost predicate BaseIs(keywords: seq<Keyword>, es: set<Similarity>, params: Params, base: Reasons) {
    base.Keys == Ids(keywords)
    && forall k :: k in keywords ==> base[k.id] == BaseReasons(Elems(keywords), es, params, k)
  }

  lemma BaseReasonsHold(keywords: seq<Keyword>, es: set<Similarity>, params: Params, reps: set<Id>, survivors: set<Id>,
                        heat: Reasons, exact: Reasons, semantic: Reasons)
    requires Distinct(keywords) && RepsAre(keywords, reps) && SurvivorsAre(keywords, es, params, survivors)
    requires heat.Keys == Ids(keywords) && forall k :: k in keywords ==> heat[k.id] == HeatReasons(k, params.threshold)
    requires Marks(heat, exact, Ids(keywords) - reps, ExactDuplicate)
    requires Marks(exact, semantic, reps - survivors, SemanticDuplicate)
    ensures BaseIs(keywords, es, params, semantic)
  {
    forall k | k in keywords ensures semantic[k.id] == BaseReasons(Elems(keywords), es, params, k) {
      BaseReasonsAre(keywords, es, params, reps, survivors, heat, exact, semantic, k);
    }
  }

  method NoteRisks(keywords: seq<Keyword>, reps: set<Id>, evidence: seq<Similarity>, params: Params, crossed: bool,
                   initial: set<Risk>)
    returns (risks: set<Risk>)
    requires Distinct(keywords) && RepsAre(keywords, reps)
    requires crossed <==> params.dedupe && Crossed(keywords, EvidenceSet(evidence))
    ensures risks == Risks(Elems(keywords), EvidenceSet(evidence), params, initial)
  {
    RisksAre(keywords, reps, evidence, params);
    risks := initial;
    if crossed {
      risks := risks + {CrossLaneConflict};
    }
    if params.dedupe && |reps| > 1 && evidence == [] {
      risks := risks + {DedupeEvidenceMissing};
    }
  }

  method Dedupe(keywords: seq<Keyword>, evidence: seq<Similarity>, params: Params, heat: Reasons, initial: set<Risk>)
    returns (bad: Option<Id>, survivors: set<Id>, base: Reasons, risks: set<Risk>)
    requires Distinct(keywords) && heat.Keys == Ids(keywords)
    requires forall k :: k in keywords ==> heat[k.id] == HeatReasons(k, params.threshold)
    ensures bad.Some? <==> params.dedupe && !ModelsAgree(evidence, params)
    ensures bad.Some? ==> FirstForeign(evidence, params, bad.value)
    ensures bad.None? ==> SurvivorsAre(keywords, EvidenceSet(evidence), params, survivors)
    ensures bad.None? ==> BaseIs(keywords, EvidenceSet(evidence), params, base)
    ensures bad.None? ==> risks == Risks(Elems(keywords), EvidenceSet(evidence), params, initial)
  {
    var reps, exact := DedupeTexts(keywords, heat);
    var crossed, uf;
    bad, crossed, uf := JoinEvidence(keywords, reps, evidence, params);
    survivors, base, risks := {}, exact, initial;
    if bad.None? {
      survivors, base := DedupeMeanings(keywords, reps, EvidenceSet(evidence), params, uf, exact);
      BaseReasonsHold(keywords, EvidenceSet(evidence), params, reps, survivors, heat, exact, base);
      risks := NoteRisks(keywords, reps, evidence, params, crossed, initial);
    }
  }

  /** evaluate_keywords. It refuses exactly when some keyword is not normalized, or, with semantic dedupe on,
      some evidence row comes from another model, or some lane's queue has a place whose bid is refused; in that
      order; and it reports the first such keyword, the first such model, or the error of such a place. Otherwise
      its outcome is the correct one. */
  method EvaluateKeywords(keywords: seq<Keyword>, evidence: seq<Similarity>, norm: Id -> Id, params: Params,
                          initial: set<Risk>)
    returns (r: Result<Outcome, KeywordError>, ghost queues: Queues, ghost roster: seq<Keyword>)
    requires Distinct(keywords)
    ensures r.Err? && r.error.NormalizationMismatch? <==> !Normalized(keywords, norm)
    ensures r.Err? && r.error.NormalizationMismatch? ==> FirstUnnormalized(keywords, norm, r.error.id)
    ensures r.Err? && r.error.ModelMismatch? ==> FirstForeign(evidence, params, r.error.model)
    ensures r.Err? && r.error.BidEvidenceRefused? ==>
              BidRefusedWith(Elems(keywords), EvidenceSet(evidence), params, r.error.error)
    ensures r.Err? && r.error.ModelMismatch?
            <==> Normalized(keywords, norm) && params.dedupe && !ModelsAgree(evidence, params)
    ensures r.Err? && r.error.BidEvidenceRefused? <==>
              && Normalized(keywords, norm) && (params.dedupe ==> ModelsAgree(evidence, params))
              && BidRefused(Elems(keywords), EvidenceSet(evidence), params)
    ensures r.Ok? ==> Correct(Elems(keywords), EvidenceSet(evidence), params, initial, queues, roster, r.value)
  {
    queues, roster := map[], [];
    var unclean, heat := CheckAndHeat(keywords, norm, params.threshold);
    if unclean.Some? {
      return Err(NormalizationMismatch(unclean.value)), queues, roster;
    }
    var bad, survivors, base, risks := Dedupe(keywords, evidence, params, heat, initial);
    if bad.Some? {
      return Err(ModelMismatch(bad.value)), queues, roster;
    }
    r, queues, roster := Rank(keywords, EvidenceSet(evidence), params, initial, survivors, base, risks);
  }

  lemma AllLanesFit(keywords: seq<Keyword>, es: set<Similarity>, params: Params, queues: Queues,
                    eligible: map<Lane, seq<Id>>, reasons: Reasons, wires: map<Id, Option<int>>)
    requires LanesDone(keywords, es, params, 8, queues, eligible, reasons, wires)
    ensures QueuesFit(Elems(keywords), es, params, queues) && eligible.Keys == queues.Keys
    ensures forall lane: Lane :: lane in eligible && eligible[lane] == Offered(queues[lane], |queues[lane]|, params)
  {
    forall lane: Lane
      ensures lane in queues && IsQueue(queues[lane], Candidates(Elems(keywords), es, params, lane))
      ensures lane in eligible && eligible[lane] == Offered(queues[lane], |queues[lane]|, params)
    {
      LanesInOrder(0, lane);
      assert lane in queues;
      assert LaneFits(keywords, es, params, lane, queues, eligible);
    }
  }

  method Rank(keywords: seq<Keyword>, ghost es: set<Similarity>, params: Params, ghost initial: set<Risk>,
              survivors: set<Id>, base: Reasons, risks: set<Risk>)
    returns (r: Result<Outcome, KeywordError>, ghost queues: Queues, ghost roster: seq<Keyword>)
    requires Distinct(keywords)
    requires SurvivorsAre(keywords, es, params, survivors) && BaseIs(keywords, es, params, base)
    requires risks == Risks(Elems(keywords), es, params, initial)
    ensures r.Err? ==> r.error.BidEvidenceRefused?
    ensures r.Err? <==> BidRefused(Elems(keywords), es, params)
    ensures r.Err? ==> BidRefusedWith(Elems(keywords), es, params, r.error.error)
    ensures r.Ok? ==> Correct(Elems(keywords), es, params, initial, queues, roster, r.value)
  {
    var refused, reasons, wires, eligible;
    refused, reasons, wires, eligible, queues := PlanLanes(keywords, es, params, survivors, base);
    roster := [];
    if refused.Some? {
      return Err(BidEvidenceRefused(refused.value)), queues, roster;
    }
    AllLanesFit(keywords, es, params, queues, eligible, reasons, wires);
    DistinctIsUnique(keywords);
    NoLaneRefuses(Elems(keywords), es, params, queues);
    var decisions;
    decisions, roster := Decide(keywords, es, params, reasons, wires, eligible, queues);
    r := Ok(Outcome(decisions, eligible, risks));
  }

  /** Permuting the keywords, and permuting or repeating the evidence rows, does not change whether the
      evaluation refuses, or for which of the three causes. */
  lemma RefusalIgnoresOrder(keywords: seq<Keyword>, evidence: seq<Similarity>, others: seq<Keyword>,
                            otherEvidence: seq<Similarity>, norm: Id -> Id, params: Params)
    requires Distinct(keywords) && multiset(keywords) == multiset(others)
    requires EvidenceSet(evidence) == EvidenceSet(otherEvidence)
    ensures Distinct(others)
    ensures Normalized(keywords, norm) <==> Normalized(others, norm)
    ensures ModelsAgree(evidence, params) <==> ModelsAgree(otherEvidence, params)
    ensures BidRefused(Elems(keywords), EvidenceSet(evidence), params)
            <==> BidRefused(Elems(others), EvidenceSet(otherEvidence), params)
  {
    DistinctPermutation(keywords, others);
    assert forall k :: k in Elems(keywords) <==> k in keywords;
    assert forall k :: k in Elems(others) <==> k in others;
    assert forall e :: e in EvidenceSet(evidence) <==> e in evidence;
    assert forall e :: e in EvidenceSet(otherEvidence) <==> e in otherEvidence;
  }

  /** Nor does it change anything in the outcome. */
  lemma OrderIsIrrelevant(keywords: seq<Keyword>, evidence: seq<Similarity>, others: seq<Keyword>,
                          otherEvidence: seq<Similarity>, params: Params, initial: set<Risk>, queues: Queues,
                          roster: seq<Keyword>, o: Outcome, otherQueues: Queues, otherRoster: seq<Keyword>,
                          other: Outcome)
    requires Distinct(keywords) && multiset(keywords) == multiset(others)
    requires EvidenceSet(evidence) == EvidenceSet(otherEvidence)
    requires Correct(Elems(keywords), EvidenceSet(evidence), params, initial, queues, roster, o)
    requires Correct(Elems(others), EvidenceSet(otherEvidence), params, initial, otherQueues, otherRoster, other)
    ensures o == other
  {
    DistinctPermutation(keywords, others);
    DistinctIsUnique(keywords);
    OutcomeIsUnique(Elems(keywords), EvidenceSet(evidence), params, initial, queues, roster, o, otherQueues,
                    otherRoster, other);
  }
}
