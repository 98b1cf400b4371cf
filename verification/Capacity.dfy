/** The Feed budget, end to end: how many audiences each note can afford, and which pairs become plans. */
module Capacity {
  import opened Common
  import opened Sorting

  // ----- uniform_budget_capacity -----

  datatype CapacityResult = CapacityResult(
    pairCost: int, slots: int, perNote: int, eligible: int, selected: int, unallocated: int, waiting: bool)

  /** None where the program raises. */
  function UniformCapacity(dailySpend: int, days: int, budget: int, notes: int, eligible: int, cap: int)
    : Option<CapacityResult>
  {
    if dailySpend <= 0 || days <= 0 || budget <= 0 || notes <= 0 || eligible <= 0 || cap <= 0 then None
    else
      assert dailySpend * days > 0 by { Positive(dailySpend, days); }
      var cost := dailySpend * days;
      var slots := budget / cost;
      var perNote := slots / notes;
      var selected := Min(Min(perNote, eligible), cap);
      Some(CapacityResult(cost, slots, perNote, eligible, selected, budget - selected * notes * cost, selected == 0))
  }

  lemma Positive(a: int, b: int)
    requires a > 0 && b > 0
    ensures a * b > 0
  {
  }

  /** What each of k audiences on every note costs. */
  function Commitment(k: int, notes: int, cost: int): int {
    k * notes * cost
  }

  lemma FloorIsLargest(total: int, unitSize: int, k: int)
    requires total >= 0 && unitSize > 0
    ensures k * unitSize <= total <==> k <= total / unitSize
  {
    var q := total / unitSize;
    assert total == q * unitSize + total % unitSize;
    if k <= q {
      Scale(k, q, unitSize);
    } else {
      Scale(q + 1, k, unitSize);
      assert (q + 1) * unitSize == q * unitSize + unitSize;
    }
  }

  lemma Scale(a: int, b: int, factor: int)
    requires a <= b && factor >= 0
    ensures a * factor <= b * factor
  {
  }

  /** The nested floors compute exactly how many audiences per note the budget can carry. */
  lemma NestedFloorIsExact(budget: int, cost: int, notes: int, k: int)
    requires budget >= 0 && cost > 0 && notes > 0
    ensures Commitment(k, notes, cost) <= budget <==> k <= budget / cost / notes
  {
    FloorIsLargest(budget, cost, k * notes);
    FloorIsNonNegative(budget, cost);
    FloorIsLargest(budget / cost, notes, k);
  }

  lemma FloorIsNonNegative(total: int, unitSize: int)
    requires total >= 0 && unitSize > 0
    ensures total / unitSize >= 0
  {
  }

  /** The chosen number of audiences per note is the largest that fits: the budget covers it, and one more
      would break the budget, the eligibility minimum or the business cap. */
  lemma SelectionIsMaximal(dailySpend: int, days: int, budget: int, notes: int, eligible: int, cap: int, k: int)
    requires UniformCapacity(dailySpend, days, budget, notes, eligible, cap).Some?
    ensures var r := UniformCapacity(dailySpend, days, budget, notes, eligible, cap).value;
            && r.pairCost == dailySpend * days
            && (k <= r.selected <==> Commitment(k, notes, r.pairCost) <= budget && k <= eligible && k <= cap)
  {
    Positive(dailySpend, days);
    NestedFloorIsExact(budget, dailySpend * days, notes, k);
  }

  /** Nothing is overspent, nothing is lost, and WAITING_BUDGET means that not even one audience per note
      is affordable. */
  lemma BudgetIsConserved(dailySpend: int, days: int, budget: int, notes: int, eligible: int, cap: int)
    requires UniformCapacity(dailySpend, days, budget, notes, eligible, cap).Some?
    ensures var r := UniformCapacity(dailySpend, days, budget, notes, eligible, cap).value;
            && Commitment(r.selected, notes, r.pairCost) + r.unallocated == budget
            && 0 <= r.unallocated && 0 <= r.selected
            && (r.waiting <==> Commitment(1, notes, r.pairCost) > budget)
  {
    var r := UniformCapacity(dailySpend, days, budget, notes, eligible, cap).value;
    SelectionIsMaximal(dailySpend, days, budget, notes, eligible, cap, r.selected);
    SelectionIsMaximal(dailySpend, days, budget, notes, eligible, cap, 0);
    SelectionIsMaximal(dailySpend, days, budget, notes, eligible, cap, 1);
  }

  // ----- pairs -----

  datatype PairType = NoteAudience | NoteKeywordLane

  datatype Pair = Pair(note: Id, asset: Id, pairType: PairType, score: real, review: bool)

  /** Highest score first, then asset id. */
  predicate PairLe(a: Pair, b: Pair) {
    a.score > b.score || (a.score == b.score && a.asset <= b.asset)
  }

  predicate Acceptable(pair: Pair, notes: set<Id>, audiences: set<Id>, minScore: real) {
    && pair.pairType == NoteAudience && pair.note in notes && pair.asset in audiences
    && pair.score >= minScore && !pair.review
  }

  /** _eligible_pairs. */
  function EligiblePairs(pairs: seq<Pair>, notes: set<Id>, audiences: set<Id>, minScore: real): (r: seq<Pair>)
    ensures forall p :: p in r <==> p in pairs && Acceptable(p, notes, audiences, minScore)
  {
    if pairs == [] then []
    else
      assert pairs == pairs[..|pairs| - 1] + [pairs[|pairs| - 1]];
      var rest, last := EligiblePairs(pairs[..|pairs| - 1], notes, audiences, minScore), pairs[|pairs| - 1];
      if Acceptable(last, notes, audiences, minScore) then rest + [last] else rest
  }

  /** Where the kept pairs stood. */
  function KeptPlaces(pairs: seq<Pair>, notes: set<Id>, audiences: set<Id>, minScore: real): (places: seq<nat>)
    ensures forall i :: 0 <= i < |places| ==> places[i] < |pairs|
  {
    if pairs == [] then []
    else
      var n := |pairs| - 1;
      var rest := KeptPlaces(pairs[..n], notes, audiences, minScore);
      if Acceptable(pairs[n], notes, audiences, minScore) then rest + [n] else rest
  }

  /** The kept rows are the pairs at those places, which ascend and are exactly the acceptable ones. */
  predicate KeptAt(pairs: seq<Pair>, kept: seq<Pair>, places: seq<nat>, notes: set<Id>, audiences: set<Id>,
                   minScore: real)
  {
    && |kept| == |places|
    && (forall i :: 0 <= i < |places| ==> places[i] < |pairs| && kept[i] == pairs[places[i]])
    && (forall i, j :: 0 <= i < j < |places| ==> places[i] < places[j])
    && (forall n :: 0 <= n < |pairs| ==> (n in places <==> Acceptable(pairs[n], notes, audiences, minScore)))
  }

  lemma KeptNext(pairs: seq<Pair>, last: Pair, kept: seq<Pair>, places: seq<nat>, notes: set<Id>, audiences: set<Id>,
                 minScore: real)
    requires KeptAt(pairs, kept, places, notes, audiences, minScore)
    ensures if Acceptable(last, notes, audiences, minScore)
            then KeptAt(pairs + [last], kept + [last], places + [|pairs|], notes, audiences, minScore)
            else KeptAt(pairs + [last], kept, places, notes, audiences, minScore)
  {
    assert forall n :: n in places ==> n < |pairs|;
  }

  /** Every acceptable pair is kept as often as it occurs, in the original order, and no other. */
  lemma {:induction false} EligiblePairsInOrder(pairs: seq<Pair>, notes: set<Id>, audiences: set<Id>, minScore: real)
    ensures KeptAt(pairs, EligiblePairs(pairs, notes, audiences, minScore),
                   KeptPlaces(pairs, notes, audiences, minScore),
                   notes, audiences, minScore)
  {
    if pairs != [] {
      var n := |pairs| - 1;
      EligiblePairsInOrder(pairs[..n], notes, audiences, minScore);
      KeptNext(pairs[..n], pairs[n], EligiblePairs(pairs[..n], notes, audiences, minScore),
               KeptPlaces(pairs[..n], notes, audiences, minScore), notes, audiences, minScore);
      assert pairs == pairs[..n] + [pairs[n]];
    }
  }

  function OfNote(rows: seq<Pair>, note: Id): (r: seq<Pair>)
    ensures forall p :: p in r <==> p in rows && p.note == note
  {
    if rows == [] then []
    else
      assert rows == rows[..|rows| - 1] + [rows[|rows| - 1]];
      var rest, last := OfNote(rows[..|rows| - 1], note), rows[|rows| - 1];
      if last.note == note then rest + [last] else rest
  }

  function Assets(rows: seq<Pair>): set<Id> {
    set p | p in rows :: p.asset
  }

  function Notes(rows: seq<Pair>): set<Id> {
    set p | p in rows :: p.note
  }

  /** How many different audiences a note is paired with. */
  function Coverage(rows: seq<Pair>, note: Id): nat {
    |Assets(OfNote(rows, note))|
  }

  /** per_note_eligible: the poorest note's coverage. */
  method PoorestCoverage(rows: seq<Pair>, notes: set<Id>) returns (least: nat)
    requires notes != {}
    ensures exists note :: note in notes && least == Coverage(rows, note)
    ensures forall note :: note in notes ==> least <= Coverage(rows, note)
  {
    var first :| first in notes;
    least := Coverage(rows, first);
    var todo := notes - {first};
    while todo != {}
      invariant todo <= notes
      invariant exists note :: note in notes && least == Coverage(rows, note)
      invariant forall note :: note in notes - todo ==> least <= Coverage(rows, note)
      decreases todo
    {
      var note :| note in todo;
      if Coverage(rows, note) < least {
        least := Coverage(rows, note);
      }
      todo := todo - {note};
    }
  }

  // ----- what a note is owed -----

  predicate DistinctAssets(picks: seq<Pair>) {
    forall i, j :: 0 <= i < j < |picks| ==> picks[i].asset != picks[j].asset
  }

  predicate Ordered(picks: seq<Pair>) {
    forall i, j :: 0 <= i < j < |picks| ==> PairLe(picks[i], picks[j])
  }

  /** The row's audience is picked with a pair at least as good, or k better audiences are. */
  ghost predicate Served(picks: seq<Pair>, k: nat, row: Pair) {
    || (exists i :: 0 <= i < |picks| && picks[i].asset == row.asset && PairLe(picks[i], row))
    || (|picks| == k && row.asset !in Assets(picks) && forall i :: 0 <= i < |picks| ==> PairLe(picks[i], row))
  }

  /** The k top-scoring distinct audiences of these rows, or all of them when there are fewer. */
  ghost predicate TopPicks(rows: seq<Pair>, k: nat, picks: seq<Pair>) {
    && (forall p :: p in picks ==> p in rows)
    && DistinctAssets(picks) && Ordered(picks)
    && |picks| == Min(k, |Assets(rows)|)
    && forall row :: row in rows ==> Served(picks, k, row)
  }

  lemma PairOrder()
    ensures Total(PairLe) && Transitive(PairLe)
  {
  }

  lemma {:induction false} DistinctCount(picks: seq<Pair>)
    requires DistinctAssets(picks)
    ensures |Assets(picks)| == |picks|
  {
    if picks != [] {
      var n := |picks| - 1;
      DistinctCount(picks[..n]);
      AssetsNext(picks, n);
      assert picks[..n + 1] == picks;
      assert picks[n].asset !in Assets(picks[..n]);
    }
  }

  lemma AssetsNext(rows: seq<Pair>, n: nat)
    requires n < |rows|
    ensures Assets(rows[..n + 1]) == Assets(rows[..n]) + {rows[n].asset}
  {
    TakeNext(rows, n);
  }

  /** The scan has taken the first pair of every audience among the first n ranked pairs. */
  ghost predicate Scanned(ranked: seq<Pair>, n: nat, picks: seq<Pair>)
    requires n <= |ranked|
  {
    && (forall p :: p in picks ==> p in ranked[..n])
    && DistinctAssets(picks) && Ordered(picks)
    && Assets(picks) == Assets(ranked[..n])
    && forall m :: 0 <= m < n ==> TakenBy(picks, ranked[m])
  }

  ghost predicate TakenBy(picks: seq<Pair>, row: Pair) {
    exists i :: 0 <= i < |picks| && picks[i].asset == row.asset && PairLe(picks[i], row)
  }

  lemma TakenStays(picks: seq<Pair>, last: Pair, row: Pair)
    requires TakenBy(picks, row)
    ensures TakenBy(picks + [last], row)
  {
    var i :| 0 <= i < |picks| && picks[i].asset == row.asset && PairLe(picks[i], row);
    assert (picks + [last])[i] == picks[i];
  }

  lemma ScanTakes(ranked: seq<Pair>, n: nat, picks: seq<Pair>)
    requires Sorted(ranked, PairLe) && n < |ranked| && Scanned(ranked, n, picks) && ranked[n].asset !in Assets(picks)
    ensures Scanned(ranked, n + 1, picks + [ranked[n]])
  {
    var more := picks + [ranked[n]];
    AssetsNext(ranked, n);
    TakeNext(ranked, n);
    assert more[..|picks|] == picks;
    AssetsNext(more, |picks|);
    assert more[..|more|] == more;
    forall i | 0 <= i < |picks| ensures PairLe(picks[i], ranked[n]) && picks[i].asset != ranked[n].asset {
      PicksRankFirst(ranked, n, picks, i, n);
    }
    forall m | 0 <= m < n + 1 ensures TakenBy(more, ranked[m]) {
      if m < n {
        TakenStays(picks, ranked[n], ranked[m]);
      } else {
        assert more[|picks|].asset == ranked[m].asset && PairLe(more[|picks|], ranked[m]);
      }
    }
  }

  /** Everything picked so far ranks before everything still to come. */
  lemma PicksRankFirst(ranked: seq<Pair>, n: nat, picks: seq<Pair>, i: nat, m: nat)
    requires Sorted(ranked, PairLe) && n <= m < |ranked| && Scanned(ranked, n, picks) && i < |picks|
    ensures PairLe(picks[i], ranked[m])
  {
    assert picks[i] in ranked[..n];
    var j :| 0 <= j < n && ranked[..n][j] == picks[i];
    assert PairLe(ranked[j], ranked[m]);
  }

  lemma PickOf(picks: seq<Pair>, asset: Id) returns (i: nat)
    requires asset in Assets(picks)
    ensures i < |picks| && picks[i].asset == asset
  {
    i :| 0 <= i < |picks| && picks[i].asset == asset;
  }

  lemma ScanSkips(ranked: seq<Pair>, n: nat, picks: seq<Pair>)
    requires Sorted(ranked, PairLe) && n < |ranked| && Scanned(ranked, n, picks) && ranked[n].asset in Assets(picks)
    ensures Scanned(ranked, n + 1, picks)
  {
    AssetsNext(ranked, n);
    TakeNext(ranked, n);
    var i := PickOf(picks, ranked[n].asset);
    PicksRankFirst(ranked, n, picks, i, n);
    assert TakenBy(picks, ranked[n]);
  }

  /** A scan that stops at k picks, or at the end, has found the top picks. */
  lemma ScanIsTop(rows: seq<Pair>, ranked: seq<Pair>, n: nat, picks: seq<Pair>, k: nat)
    requires Sorted(ranked, PairLe) && multiset(rows) == multiset(ranked)
    requires n <= |ranked| && Scanned(ranked, n, picks)
    requires |picks| == k || (n == |ranked| && |picks| < k)
    ensures TopPicks(rows, k, picks)
  {
    DistinctCount(picks);
    SameAssets(rows, ranked);
    forall row | row in rows ensures Served(picks, k, row) {
      SameMembers(rows, ranked, row);
      var m :| 0 <= m < |ranked| && ranked[m] == row;
      ServedAt(ranked, n, picks, k, m);
    }
    forall p | p in picks ensures p in rows {
      SameMembers(rows, ranked, p);
    }
    if n == |ranked| {
      assert ranked[..n] == ranked;
    }
    SubsetCount(Assets(picks), Assets(ranked));
  }

  lemma SubsetCount(a: set<Id>, b: set<Id>)
    ensures a <= b ==> |a| <= |b|
  {
    if a <= b {
      assert b == a + (b - a);
    }
  }

  lemma SameAssets(rows: seq<Pair>, ranked: seq<Pair>)
    requires multiset(rows) == multiset(ranked)
    ensures Assets(rows) == Assets(ranked)
  {
    forall p ensures p in rows <==> p in ranked {
      SameMembers(rows, ranked, p);
    }
  }

  lemma ServedAt(ranked: seq<Pair>, n: nat, picks: seq<Pair>, k: nat, m: nat)
    requires Sorted(ranked, PairLe) && n <= |ranked| && Scanned(ranked, n, picks) && m < |ranked|
    requires |picks| == k || n == |ranked|
    ensures Served(picks, k, ranked[m])
  {
    if m < n {
      assert TakenBy(picks, ranked[m]);
    } else {
      forall i | 0 <= i < |picks| ensures PairLe(picks[i], ranked[m]) {
        PicksRankFirst(ranked, n, picks, i, m);
      }
      if ranked[m].asset in Assets(picks) {
        var i := PickOf(picks, ranked[m].asset);
      }
    }
  }

  // ----- the code -----

  /** by_note. */
  method GroupByNote(pairs: seq<Pair>) returns (byNote: map<Id, seq<Pair>>)
    ensures byNote.Keys == Notes(pairs)
    ensures forall note :: note in byNote ==> byNote[note] == OfNote(pairs, note)
  {
    byNote := map[];
    for n := 0 to |pairs|
      invariant byNote.Keys == Notes(pairs[..n])
      invariant forall note :: note in byNote ==> byNote[note] == OfNote(pairs[..n], note)
    {
      var note := pairs[n].note;
      OfNoteNext(pairs, n, note);
      forall other ensures OfNote(pairs[..n + 1], other)
                        == if other == note then OfNote(pairs[..n], other) + [pairs[n]] else OfNote(pairs[..n], other)
      {
        OfNoteNext(pairs, n, other);
      }
      if note !in byNote {
        NothingOfNote(pairs[..n], note);
      }
      byNote := byNote[note := (if note in byNote then byNote[note] else []) + [pairs[n]]];
    }
    assert pairs[..|pairs|] == pairs;
  }

  lemma OfNoteNext(pairs: seq<Pair>, n: nat, note: Id)
    requires n < |pairs|
    ensures OfNote(pairs[..n + 1], note) == OfNote(pairs[..n], note) + if pairs[n].note == note then [pairs[n]] else []
    ensures Notes(pairs[..n + 1]) == Notes(pairs[..n]) + {pairs[n].note}
  {
    TakeNext(pairs, n);
  }

  lemma NothingOfNote(pairs: seq<Pair>, note: Id)
    requires note !in Notes(pairs)
    ensures OfNote(pairs, note) == []
  {
    if OfNote(pairs, note) != [] {
      assert OfNote(pairs, note)[0] in OfNote(pairs, note);
    }
  }

  /** The picks of one note: rank, then take first sight of each audience until enough were seen. */
  method PickForNote(rows: seq<Pair>, perNote: nat) returns (picks: seq<Pair>)
    requires perNote >= 1
    ensures TopPicks(rows, perNote, picks)
  {
    var ranked := SortBy(rows, PairLe);
    PairOrder();
    SortBySorted(rows, PairLe);
    var seen: set<Id> := {};
    picks := [];
    for n := 0 to |ranked|
      invariant Scanned(ranked, n, picks) && seen == Assets(picks) && |picks| < perNote
    {
      if ranked[n].asset in seen {
        ScanSkips(ranked, n, picks);
      } else {
        ScanTakes(ranked, n, picks);
        DistinctCount(picks + [ranked[n]]);
        AssetsGrow(picks, ranked[n]);
        seen := seen + {ranked[n].asset};
        picks := picks + [ranked[n]];
        if |seen| == perNote {
          ScanIsTop(rows, ranked, n + 1, picks, perNote);
          return;
        }
      }
    }
    ScanIsTop(rows, ranked, |ranked|, picks, perNote);
  }

  lemma AssetsGrow(picks: seq<Pair>, last: Pair)
    ensures Assets(picks + [last]) == Assets(picks) + {last.asset}
  {
    AssetsNext(picks + [last], |picks|);
    assert (picks + [last])[..|picks|] == picks;
    assert (picks + [last])[..|picks| + 1] == picks + [last];
  }

  function Joined(picks: seq<seq<Pair>>): seq<Pair> {
    if picks == [] then [] else Joined(picks[..|picks| - 1]) + picks[|picks| - 1]
  }

  ghost predicate PickedSoFar(pairs: seq<Pair>, perNote: nat, order: seq<Id>, picks: seq<seq<Pair>>) {
    |picks| <= |order| && forall i :: 0 <= i < |picks| ==> TopPicks(OfNote(pairs, order[i]), perNote, picks[i])
  }

  /** The notes in order, each with its picks. */
  ghost predicate IsMatrix(pairs: seq<Pair>, perNote: nat, order: seq<Id>, picks: seq<seq<Pair>>) {
    && |order| == |picks|
    && (forall i, j :: 0 <= i < j < |order| ==> order[i] < order[j])
    && Members(order) == Notes(pairs)
    && PickedSoFar(pairs, perNote, order, picks)
  }

  /** The selected pairs are such a matrix, laid out note after note. */
  ghost predicate IsLaidOut(pairs: seq<Pair>, perNote: nat, selected: seq<Pair>) {
    exists order, picks :: IsMatrix(pairs, perNote, order, picks) && selected == Joined(picks)
  }

  /** The keys of a dict, sorted. */
  method SortedNotes(notes: set<Id>) returns (order: seq<Id>)
    ensures forall i, j :: 0 <= i < j < |order| ==> order[i] < order[j]
    ensures Members(order) == notes
  {
    order := [];
    var todo := notes;
    while todo != {}
      invariant todo <= notes && Members(order) == notes - todo
      invariant forall i, j :: 0 <= i < j < |order| ==> order[i] < order[j]
      invariant forall note, i :: note in todo && 0 <= i < |order| ==> order[i] < note
      decreases todo
    {
      ghost var least := LeastOf(todo);
      var note :| note in todo && forall other :: other in todo ==> note <= other;
      MembersGrow(order, note);
      order, todo := order + [note], todo - {note};
    }
  }

  lemma MembersGrow(order: seq<Id>, note: Id)
    ensures Members(order + [note]) == Members(order) + {note}
  {
  }

  lemma LeastOf(ids: set<Id>) returns (least: Id)
    requires ids != {}
    ensures least in ids && forall id :: id in ids ==> least <= id
  {
    var any :| any in ids;
    least := any;
    if ids - {any} != {} {
      var rest := LeastOf(ids - {any});
      if rest < any {
        least := rest;
      }
      forall id | id in ids ensures least <= id {
        assert id == any || id in ids - {any};
      }
    } else {
      assert ids == {any};
    }
  }

  /** _select_pairs. */
  method SelectPairs(pairs: seq<Pair>, perNote: nat)
    returns (selected: seq<Pair>, ghost order: seq<Id>, ghost picks: seq<seq<Pair>>)
    requires perNote >= 1
    ensures IsMatrix(pairs, perNote, order, picks) && selected == Joined(picks)
    ensures IsLaidOut(pairs, perNote, selected)
  {
    var byNote := GroupByNote(pairs);
    var notes := SortedNotes(byNote.Keys);
    order, picks, selected := notes, [], [];
    for n := 0 to |notes|
      invariant |picks| == n && selected == Joined(picks)
      invariant PickedSoFar(pairs, perNote, notes, picks)
    {
      assert notes[n] in Members(notes);
      var chosen := PickForNote(byNote[notes[n]], perNote);
      PickedNext(pairs, perNote, notes, picks, chosen);
      selected, picks := selected + chosen, picks + [chosen];
    }
  }

  lemma PickedNext(pairs: seq<Pair>, perNote: nat, order: seq<Id>, picks: seq<seq<Pair>>, chosen: seq<Pair>)
    requires |picks| < |order| && PickedSoFar(pairs, perNote, order, picks)
    requires TopPicks(OfNote(pairs, order[|picks|]), perNote, chosen)
    ensures PickedSoFar(pairs, perNote, order, picks + [chosen])
    ensures Joined(picks + [chosen]) == Joined(picks) + chosen
  {
    assert (picks + [chosen])[..|picks|] == picks;
  }

  // ----- end to end -----

  lemma {:induction false} JoinedSize(picks: seq<seq<Pair>>, k: nat)
    requires forall i :: 0 <= i < |picks| ==> |picks[i]| == k
    ensures |Joined(picks)| == |picks| * k
  {
    if picks != [] {
      JoinedSize(picks[..|picks| - 1], k);
      OneMore(|picks| - 1, k);
    }
  }

  lemma OneMore(n: int, k: int)
    ensures (n + 1) * k == n * k + k
  {
  }

  lemma CommitmentOf(count: int, selected: int, notes: int, cost: int)
    requires count == notes * selected
    ensures count * cost == Commitment(selected, notes, cost)
  {
    assert notes * selected == selected * notes;
  }

  lemma {:induction false} OrderCount(order: seq<Id>)
    requires forall i, j :: 0 <= i < j < |order| ==> order[i] < order[j]
    ensures |Members(order)| == |order|
  {
    if order != [] {
      var n := |order| - 1;
      OrderCount(order[..n]);
      assert order[n] !in Members(order[..n]);
      assert Members(order) == Members(order[..n]) + {order[n]};
    }
  }

  /** Every eligible note gets exactly the selected number of audiences; the matrix has exactly
      notes x selected plans; and what they cost plus what is left over is the phase budget. */
  lemma MatrixFitsBudget(pairs: seq<Pair>, notes: set<Id>, r: CapacityResult, dailySpend: int, days: int, budget: int,
                         eligible: nat, cap: int, order: seq<Id>, picks: seq<seq<Pair>>)
    requires UniformCapacity(dailySpend, days, budget, |notes|, eligible, cap) == Some(r) && !r.waiting
    requires Notes(pairs) <= notes
    requires forall note :: note in notes ==> eligible <= Coverage(pairs, note)
    requires r.selected >= 0 && IsMatrix(pairs, r.selected, order, picks)
    ensures forall i :: 0 <= i < |picks| ==> |picks[i]| == r.selected
    ensures Members(order) == notes
    ensures |Joined(picks)| == |notes| * r.selected
    ensures |Joined(picks)| * r.pairCost + r.unallocated == budget && |Joined(picks)| * r.pairCost <= budget
  {
    BudgetIsConserved(dailySpend, days, budget, |notes|, eligible, cap);
    WithinCoverage(dailySpend, days, budget, |notes|, eligible, cap);
    EveryNoteFull(pairs, notes, eligible, r.selected, order, picks);
    OrderCount(order);
    JoinedSize(picks, r.selected);
    CommitmentOf(|Joined(picks)|, r.selected, |notes|, r.pairCost);
  }

  lemma WithinCoverage(dailySpend: int, days: int, budget: int, notes: int, eligible: int, cap: int)
    requires UniformCapacity(dailySpend, days, budget, notes, eligible, cap).Some?
    ensures UniformCapacity(dailySpend, days, budget, notes, eligible, cap).value.selected <= eligible
  {
  }

  lemma EveryNoteFull(pairs: seq<Pair>, notes: set<Id>, eligible: nat, perNote: nat, order: seq<Id>,
                      picks: seq<seq<Pair>>)
    requires Notes(pairs) <= notes && 1 <= perNote <= eligible
    requires forall note :: note in notes ==> eligible <= Coverage(pairs, note)
    requires IsMatrix(pairs, perNote, order, picks)
    ensures Members(order) == notes
    ensures forall i :: 0 <= i < |picks| ==> |picks[i]| == perNote
  {
    forall note | note in notes ensures note in Notes(pairs) {
      NoteIsPaired(pairs, note);
    }
    forall i | 0 <= i < |picks| ensures |picks[i]| == perNote {
      assert order[i] in Members(order);
      assert TopPicks(OfNote(pairs, order[i]), perNote, picks[i]);
    }
  }

  lemma NoteIsPaired(pairs: seq<Pair>, note: Id)
    requires Coverage(pairs, note) > 0
    ensures note in Notes(pairs)
  {
    var asset :| asset in Assets(OfNote(pairs, note));
  }

  /** _continue_prepare_after_validation, as far as the Feed matrix goes: filter the pairs, take the poorest
      coverage, size the matrix, and select. */
  datatype Prepared = CoverageInsufficient | CapacityInvalid | WaitingBudget
    | Matrix(plans: seq<Pair>, capacity: CapacityResult)

  /** e is the least coverage of any note. */
  ghost predicate IsLeastCoverage(rows: seq<Pair>, notes: set<Id>, e: nat) {
    (exists note :: note in notes && e == Coverage(rows, note))
    && forall note :: note in notes ==> e <= Coverage(rows, note)
  }

  predicate InputsPositive(dailySpend: int, days: int, budget: int, cap: int) {
    dailySpend > 0 && days > 0 && budget > 0 && cap > 0
  }

  /** The largest k that the budget, the poorest note and the business cap all admit. */
  ghost predicate IsLargest(k: int, notes: int, cost: int, budget: int, eligible: int, cap: int) {
    forall m: int :: m <= k <==> Commitment(m, notes, cost) <= budget && m <= eligible && m <= cap
  }

  lemma CapacityIsLargest(dailySpend: int, days: int, budget: int, notes: int, eligible: int, cap: int)
    requires UniformCapacity(dailySpend, days, budget, notes, eligible, cap).Some?
    ensures var r := UniformCapacity(dailySpend, days, budget, notes, eligible, cap).value;
            r.pairCost == dailySpend * days && IsLargest(r.selected, notes, r.pairCost, budget, eligible, cap)
  {
    var r := UniformCapacity(dailySpend, days, budget, notes, eligible, cap).value;
    forall m: int ensures m <= r.selected <==> Commitment(m, notes, r.pairCost) <= budget && m <= eligible && m <= cap {
      SelectionIsMaximal(dailySpend, days, budget, notes, eligible, cap, m);
    }
    SelectionIsMaximal(dailySpend, days, budget, notes, eligible, cap, 0);
  }

  /** A matrix for the Feed: note by note the top picks, each note with the same number of them, the largest
      number that budget, coverage and business cap admit; the plans cost dailySpend x days each, and what
      they cost and what is left over are together the phase budget. */
  ghost predicate IsPlan(rows: seq<Pair>, notes: set<Id>, dailySpend: int, days: int, budget: int, cap: int,
                         plans: seq<Pair>, capacity: CapacityResult) {
    && capacity.selected >= 1
    && IsLaidOut(rows, capacity.selected, plans)
    && Notes(rows) == notes
    && |plans| == |notes| * capacity.selected
    && capacity.pairCost == dailySpend * days
    && |plans| * capacity.pairCost + capacity.unallocated == budget && capacity.unallocated >= 0
    && exists e: nat :: IsLeastCoverage(rows, notes, e)
         && UniformCapacity(dailySpend, days, budget, |notes|, e, cap) == Some(capacity)
         && IsLargest(capacity.selected, |notes|, capacity.pairCost, budget, e, cap)
  }

  lemma PlanFits(rows: seq<Pair>, notes: set<Id>, dailySpend: int, days: int, budget: int, cap: int, eligible: nat,
                 capacity: CapacityResult, order: seq<Id>, picks: seq<seq<Pair>>, plans: seq<Pair>)
    requires Notes(rows) <= notes && IsLeastCoverage(rows, notes, eligible)
    requires UniformCapacity(dailySpend, days, budget, |notes|, eligible, cap) == Some(capacity)
    requires !capacity.waiting && capacity.selected >= 0
    requires IsMatrix(rows, capacity.selected, order, picks) && plans == Joined(picks)
    ensures IsPlan(rows, notes, dailySpend, days, budget, cap, plans, capacity)
  {
    MatrixFitsBudget(rows, notes, capacity, dailySpend, days, budget, eligible, cap, order, picks);
    CapacityIsLargest(dailySpend, days, budget, |notes|, eligible, cap);
    BudgetIsConserved(dailySpend, days, budget, |notes|, eligible, cap);
  }

  lemma LeastCoverageUnique(rows: seq<Pair>, notes: set<Id>, e: nat, f: nat)
    requires IsLeastCoverage(rows, notes, e) && IsLeastCoverage(rows, notes, f)
    ensures e == f
  {
  }

  /** Every outcome is exact. */
  method Prepare(pairs: seq<Pair>, notes: set<Id>, audiences: set<Id>, minScore: real, dailySpend: int, days: int,
                 budget: int, cap: int)
    returns (r: Prepared)
    requires notes != {}
    ensures var rows := EligiblePairs(pairs, notes, audiences, minScore);
            var covered := forall note :: note in notes ==> Coverage(rows, note) > 0;
            && (r.CoverageInsufficient? <==> !covered)
            && (r.CapacityInvalid? <==> covered && !InputsPositive(dailySpend, days, budget, cap))
            && (r.WaitingBudget? <==> covered && InputsPositive(dailySpend, days, budget, cap)
                                      && Commitment(1, |notes|, dailySpend * days) > budget)
            && (r.Matrix? ==> IsPlan(rows, notes, dailySpend, days, budget, cap, r.plans, r.capacity))
  {
    var rows := EligiblePairs(pairs, notes, audiences, minScore);
    var eligible := PoorestCoverage(rows, notes);
    if eligible == 0 {
      return CoverageInsufficient;
    }
    var capacity := UniformCapacity(dailySpend, days, budget, |notes|, eligible, cap);
    if capacity.None? {
      return CapacityInvalid;
    }
    BudgetIsConserved(dailySpend, days, budget, |notes|, eligible, cap);
    CapacityIsLargest(dailySpend, days, budget, |notes|, eligible, cap);
    if capacity.value.waiting {
      return WaitingBudget;
    }
    var selected; ghost var order, picks;
    selected, order, picks := SelectPairs(rows, capacity.value.selected);
    PlanFits(rows, notes, dailySpend, days, budget, cap, eligible, capacity.value, order, picks, selected);
    r := Matrix(selected, capacity.value);
  }
}
