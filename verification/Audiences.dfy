/** evaluate_audiences: base gates, then a greedy overlap filter per mode over pairwise evidence. */
module Audiences {
  import opened Common
  import opened Sorting

  datatype Mode = StaticDmp | DynamicBehavior

  datatype Audience = Audience(id: Id, mode: Mode, ready: bool, failedGates: seq<Id>, population: int)

  /** One overlap receipt for a pair of audiences, in either orientation. */
  datatype Overlap = Overlap(left: Id, right: Id, intersection: int)

  datatype Policy = WarningOnly | DirectionalContainment | Jaccard

  datatype AudienceError =
    | DuplicateOverlapEvidence(pair: (Id, Id))
    | SourceProofMissing(candidate: Id, chosen: Id)
    | IntersectionInvalid(candidate: Id, chosen: Id)

  datatype AudienceParams = AudienceParams(minimum: int, maximum: int, policy: Policy, threshold: real)

  // ----- evidence keyed by the sorted pair -----

  type Evidence = map<(Id, Id), int>

  function PairKey(a: Id, b: Id): (Id, Id) {
    if a <= b then (a, b) else (b, a)
  }

  /** A receipt without its orientation. */
  function Unoriented(row: Overlap): ((Id, Id), int) {
    (PairKey(row.left, row.right), row.intersection)
  }

  function Facts(rows: seq<Overlap>): set<((Id, Id), int)> {
    set row | row in rows :: Unoriented(row)
  }

  predicate OncePerPair(rows: seq<Overlap>) {
    forall i, j :: 0 <= i < j < |rows| ==> Unoriented(rows[i]).0 != Unoriented(rows[j]).0
  }

  predicate Says(facts: set<((Id, Id), int)>, pair: (Id, Id), n: int) {
    (pair, n) in facts
  }

  /** The dict holds exactly what the receipts say. */
  ghost predicate Holds(evidence: Evidence, rows: seq<Overlap>) {
    forall pair, n :: Says(Facts(rows), pair, n) <==> pair in evidence && evidence[pair] == n
  }

  /** Two receipts for this pair. */
  predicate Twice(rows: seq<Overlap>, pair: (Id, Id)) {
    exists i, j :: 0 <= i < j < |rows| && Unoriented(rows[i]).0 == pair && Unoriented(rows[j]).0 == pair
  }

  method IndexEvidence(rows: seq<Overlap>) returns (r: Result<Evidence, AudienceError>)
    ensures r.Ok? <==> OncePerPair(rows)
    ensures r.Ok? ==> Holds(r.value, rows)
    ensures r.Err? ==> r.error.DuplicateOverlapEvidence? && Twice(rows, r.error.pair)
  {
    var evidence: Evidence := map[];
    for n := 0 to |rows|
      invariant OncePerPair(rows[..n])
      invariant Holds(evidence, rows[..n])
    {
      TakeNext(rows, n);
      FactsNext(rows, n);
      var key := PairKey(rows[n].left, rows[n].right);
      if key in evidence {
        assert Says(Facts(rows[..n]), key, evidence[key]);
        var i :| 0 <= i < n && Unoriented(rows[..n][i]).0 == key;
        assert Unoriented(rows[i]).0 == Unoriented(rows[n]).0;
        return Err(DuplicateOverlapEvidence(key));
      }
      forall i | 0 <= i < n ensures Unoriented(rows[i]).0 != key {
        assert Says(Facts(rows[..n]), Unoriented(rows[..n][i]).0, Unoriented(rows[..n][i]).1);
      }
      HoldsNext(evidence, rows, n);
      evidence := evidence[key := rows[n].intersection];
    }
    assert rows[..|rows|] == rows;
    r := Ok(evidence);
  }

  lemma HoldsNext(evidence: Evidence, rows: seq<Overlap>, n: nat)
    requires n < |rows| && Holds(evidence, rows[..n]) && Unoriented(rows[n]).0 !in evidence
    ensures Holds(evidence[Unoriented(rows[n]).0 := rows[n].intersection], rows[..n + 1])
  {
    FactsNext(rows, n);
    var next := evidence[Unoriented(rows[n]).0 := rows[n].intersection];
    var facts := Facts(rows[..n + 1]);
    forall pair, m ensures Says(facts, pair, m) <==> pair in next && next[pair] == m {
      assert Says(Facts(rows[..n]), pair, m) <==> pair in evidence && evidence[pair] == m;
    }
  }

  lemma FactsNext(rows: seq<Overlap>, n: nat)
    requires n < |rows|
    ensures Facts(rows[..n + 1]) == Facts(rows[..n]) + {Unoriented(rows[n])}
  {
    TakeNext(rows, n);
  }

  /** The order of the receipts and the orientation of each make no difference to the dict. */
  lemma EvidenceOrderIsIrrelevant(evidence: Evidence, rows: seq<Overlap>, other: Evidence, otherRows: seq<Overlap>)
    requires Holds(evidence, rows) && Holds(other, otherRows)
    requires Facts(rows) == Facts(otherRows)
    ensures evidence == other
  {
    forall pair ensures pair in evidence <==> pair in other {
      if pair in evidence {
        assert Says(Facts(rows), pair, evidence[pair]);
      }
      if pair in other {
        assert Says(Facts(otherRows), pair, other[pair]);
      }
    }
    forall pair | pair in evidence ensures evidence[pair] == other[pair] {
      assert Says(Facts(rows), pair, evidence[pair]);
    }
  }

  function Receipts(rows: seq<Overlap>): seq<((Id, Id), int)> {
    seq(|rows|, i requires 0 <= i < |rows| => Unoriented(rows[i]))
  }

  /** The same receipts, in another order and each perhaps turned around. */
  ghost predicate Rearranged(rows: seq<Overlap>, others: seq<Overlap>) {
    multiset(Receipts(rows)) == multiset(Receipts(others))
  }

  lemma RearrangedFacts(rows: seq<Overlap>, others: seq<Overlap>)
    requires Rearranged(rows, others)
    ensures Facts(rows) == Facts(others)
  {
    forall fact ensures fact in Facts(rows) <==> fact in Facts(others) {
      FactIsReceipt(rows, fact);
      FactIsReceipt(others, fact);
      SameMembers(Receipts(rows), Receipts(others), fact);
    }
  }

  lemma FactIsReceipt(rows: seq<Overlap>, fact: ((Id, Id), int))
    ensures fact in Facts(rows) <==> fact in Receipts(rows)
  {
    if fact in Facts(rows) {
      var i :| 0 <= i < |rows| && Unoriented(rows[i]) == fact;
      assert Receipts(rows)[i] == fact;
    }
    if fact in Receipts(rows) {
      var i :| 0 <= i < |rows| && Receipts(rows)[i] == fact;
      assert Unoriented(rows[i]) == fact;
    }
  }

  /** Rearranging the receipts does not make a pair occur twice. */
  lemma RearrangedOncePerPair(rows: seq<Overlap>, others: seq<Overlap>)
    requires Rearranged(rows, others) && OncePerPair(rows)
    ensures OncePerPair(others)
  {
    var r, o := Receipts(rows), Receipts(others);
    forall i, j | 0 <= i < j < |r| ensures r[i] != r[j] {
      assert Unoriented(rows[i]).0 != Unoriented(rows[j]).0;
    }
    ArrangementKeepsDistinct(r, o);
    forall i, j | 0 <= i < j < |others| ensures Unoriented(others[i]).0 != Unoriented(others[j]).0 {
      assert o[i] != o[j];
      SameMembers(r, o, o[i]);
      SameMembers(r, o, o[j]);
      var a :| 0 <= a < |r| && r[a] == o[i];
      var b :| 0 <= b < |r| && r[b] == o[j];
      KeysDiffer(rows, a, b);
    }
  }

  lemma KeysDiffer(rows: seq<Overlap>, a: nat, b: nat)
    requires OncePerPair(rows) && a < |rows| && b < |rows| && a != b
    ensures Receipts(rows)[a].0 != Receipts(rows)[b].0
  {
    assert Unoriented(rows[a]).0 != Unoriented(rows[b]).0;
  }

  // ----- judging one pair -----

  datatype Case = Case(populations: map<Id, int>, evidence: Evidence, policy: Policy, threshold: real)

  /** overlap_metrics accepts the receipt. */
  predicate Plausible(c: Case, a: Id, b: Id) {
    && a in c.populations && b in c.populations && PairKey(a, b) in c.evidence
    && c.populations[a] > 0 && c.populations[b] > 0
    && 0 <= c.evidence[PairKey(a, b)] <= c.populations[a] && c.evidence[PairKey(a, b)] <= c.populations[b]
  }

  /** The two audiences overlap at or above the threshold, in the sense of the policy. */
  predicate Clash(c: Case, a: Id, b: Id)
    requires Plausible(c, a, b)
  {
    var n := c.evidence[PairKey(a, b)] as real;
    var left, right := c.populations[a] as real, c.populations[b] as real;
    if c.policy == DirectionalContainment then n / right >= c.threshold || n / left >= c.threshold
    else n / (left + right - n) >= c.threshold
  }

  /** Proven to clash, and proven to be apart: at most one of them, and neither without a receipt. */
  predicate ProvenClash(c: Case, a: Id, b: Id)
  {
    Plausible(c, a, b) && Clash(c, a, b)
  }

  predicate ProvenApart(c: Case, a: Id, b: Id)
  {
    Plausible(c, a, b) && !Clash(c, a, b)
  }

  lemma JudgementIsSymmetric(c: Case, a: Id, b: Id)
    ensures ProvenClash(c, a, b) <==> ProvenClash(c, b, a)
    ensures ProvenApart(c, a, b) <==> ProvenApart(c, b, a)
  {
    if a != b {
      assert PairKey(a, b) == PairKey(b, a);
    }
  }

  // ----- the greedy filter and what characterises it -----

  predicate NoRepeats(ranked: seq<Id>) {
    forall i, j :: 0 <= i < j < |ranked| ==> ranked[i] != ranked[j]
  }

  /** Chosen audiences are pairwise below the threshold; each rejected one overlaps a better-ranked chosen
      one. */
  ghost predicate IsSelection(c: Case, ranked: seq<Id>, chosen: set<Id>)
  {
    && (forall id :: id in chosen ==> id in ranked)
    && (forall i, j :: 0 <= i < j < |ranked| && ranked[i] in chosen && ranked[j] in chosen ==>
        ProvenApart(c, ranked[i], ranked[j]))
    && (forall j :: 0 <= j < |ranked| && ranked[j] !in chosen ==> BeatenBy(c, ranked, chosen, j))
  }

  ghost predicate BeatenBy(c: Case, ranked: seq<Id>, chosen: set<Id>, j: nat)
    requires j < |ranked|
  {
    exists i :: 0 <= i < j && ranked[i] in chosen && ProvenClash(c, ranked[i], ranked[j])
  }

  /** Those two properties determine the selection. */
  lemma {:induction false} SelectionAgreesAt(c: Case, ranked: seq<Id>, chosen: set<Id>, other: set<Id>, j: nat)
    requires IsSelection(c, ranked, chosen) && IsSelection(c, ranked, other)
    requires j < |ranked|
    ensures ranked[j] in chosen <==> ranked[j] in other
    decreases j
  {
    forall i | 0 <= i < j ensures ranked[i] in chosen <==> ranked[i] in other {
      SelectionAgreesAt(c, ranked, chosen, other, i);
    }
    if ranked[j] !in chosen {
      var i :| 0 <= i < j && ranked[i] in chosen && ProvenClash(c, ranked[i], ranked[j]);
      assert ranked[i] in other;
    }
    if ranked[j] !in other {
      var i :| 0 <= i < j && ranked[i] in other && ProvenClash(c, ranked[i], ranked[j]);
      assert ranked[i] in chosen;
    }
  }

  lemma SelectionIsUnique(c: Case, ranked: seq<Id>, chosen: set<Id>, other: set<Id>)
    requires IsSelection(c, ranked, chosen) && IsSelection(c, ranked, other)
    ensures chosen == other
  {
    forall id ensures id in chosen <==> id in other {
      if id in chosen || id in other {
        var j :| 0 <= j < |ranked| && ranked[j] == id;
        SelectionAgreesAt(c, ranked, chosen, other, j);
      }
    }
  }

  /** Every pair of the ranking has a usable receipt. */
  ghost predicate AllProven(c: Case, ranked: seq<Id>) {
    forall i, j :: 0 <= i < j < |ranked| ==> Plausible(c, ranked[j], ranked[i])
  }

  datatype PairVerdict = Apart | Clashes | Unproven(error: AudienceError)

  /** The error an unusable receipt raises. */
  function PairError(c: Case, candidate: Id, chosen: Id): AudienceError {
    if PairKey(candidate, chosen) in c.evidence then IntersectionInvalid(candidate, chosen)
    else SourceProofMissing(candidate, chosen)
  }

  method JudgePair(c: Case, candidate: Id, chosen: Id) returns (v: PairVerdict)
    requires candidate in c.populations && chosen in c.populations
    ensures v == Apart <==> ProvenApart(c, candidate, chosen)
    ensures v == Clashes <==> ProvenClash(c, candidate, chosen)
    ensures v.Unproven? <==> !Plausible(c, candidate, chosen)
    ensures v.Unproven? ==> v.error == PairError(c, candidate, chosen)
  {
    var key := PairKey(candidate, chosen);
    if key !in c.evidence {
      return Unproven(SourceProofMissing(candidate, chosen));
    }
    var n, left, right := c.evidence[key], c.populations[candidate], c.populations[chosen];
    if left <= 0 || right <= 0 || !(0 <= n <= left && n <= right) {
      return Unproven(IntersectionInvalid(candidate, chosen));
    }
    var rejected := if c.policy == DirectionalContainment
                    then n as real / right as real >= c.threshold || n as real / left as real >= c.threshold
                    else n as real / (left as real + right as real - n as real) >= c.threshold;
    v := if rejected then Clashes else Apart;
  }

  /** Compare one candidate with everything chosen so far, stopping at the first overlap. */
  method Screen(c: Case, candidate: Id, chosen: seq<Id>) returns (v: PairVerdict, ghost culprit: nat)
    requires candidate in c.populations && forall id :: id in chosen ==> id in c.populations
    ensures v == Apart ==> forall i :: 0 <= i < |chosen| ==> ProvenApart(c, candidate, chosen[i])
    ensures v == Clashes ==> culprit < |chosen| && ProvenClash(c, candidate, chosen[culprit])
    ensures v.Unproven? ==> culprit < |chosen| && !Plausible(c, candidate, chosen[culprit])
    ensures v.Unproven? ==> v.error == PairError(c, candidate, chosen[culprit])
    ensures v != Apart ==> forall i :: 0 <= i < culprit ==> ProvenApart(c, candidate, chosen[i])
  {
    v, culprit := Apart, 0;
    for n := 0 to |chosen|
      invariant v == Apart
      invariant forall i :: 0 <= i < n ==> ProvenApart(c, candidate, chosen[i])
    {
      v := JudgePair(c, candidate, chosen[n]);
      if v != Apart {
        culprit := n;
        return;
      }
    }
  }

  /** The chosen list is what was kept of the first n places of the ranking. */
  ghost predicate ChosenSoFar(c: Case, ranked: seq<Id>, n: nat, chosen: seq<Id>)
    requires n <= |ranked|
  {
    IsSelection(c, ranked[..n], Members(chosen))
  }

  // ----- when the filter refuses -----

  /** The candidate at rank n meets an unusable receipt: of the audiences kept so far, best first, the first
      that is not proven apart from it is the one at rank i, and that pair has no usable receipt. */
  ghost predicate StuckAt(c: Case, ranked: seq<Id>, n: nat, kept: set<Id>, i: nat) {
    && i < n < |ranked| && IsSelection(c, ranked[..n], kept)
    && ranked[i] in kept && !Plausible(c, ranked[n], ranked[i])
    && forall k :: 0 <= k < i && ranked[k] in kept ==> ProvenApart(c, ranked[n], ranked[k])
  }

  ghost predicate Stuck(c: Case, ranked: seq<Id>, n: nat) {
    exists kept: set<Id>, i: nat :: StuckAt(c, ranked, n, kept, i)
  }

  /** The condition under which a mode is refused. */
  ghost predicate Refused(c: Case, ranked: seq<Id>) {
    exists n: nat :: Stuck(c, ranked, n)
  }

  /** The error is that of the best-ranked candidate that gets stuck. */
  ghost predicate IsRefusal(c: Case, ranked: seq<Id>, error: AudienceError) {
    exists n: nat, kept: set<Id>, i: nat :: RefusedAt(c, ranked, n, kept, i, error)
  }

  ghost predicate RefusedAt(c: Case, ranked: seq<Id>, n: nat, kept: set<Id>, i: nat, error: AudienceError) {
    && StuckAt(c, ranked, n, kept, i) && error == PairError(c, ranked[n], ranked[i])
    && forall m: nat :: m < n ==> !Stuck(c, ranked, m)
  }

  lemma StuckOnOne(c: Case, ranked: seq<Id>, n: nat, kept: set<Id>, i: nat, others: set<Id>, j: nat)
    requires StuckAt(c, ranked, n, kept, i) && StuckAt(c, ranked, n, others, j)
    ensures i == j
  {
    SelectionIsUnique(c, ranked[..n], kept, others);
  }

  lemma RefusalsCoincide(c: Case, ranked: seq<Id>, error: AudienceError, n: nat, kept: set<Id>, i: nat,
                         other: AudienceError, m: nat, others: set<Id>, j: nat)
    requires RefusedAt(c, ranked, n, kept, i, error) && RefusedAt(c, ranked, m, others, j, other)
    ensures error == other
  {
    FirstStuckComesFirst(c, ranked, n, kept, i, error, m, others, j);
    FirstStuckComesFirst(c, ranked, m, others, j, other, n, kept, i);
    StuckOnOne(c, ranked, n, kept, i, others, j);
  }

  /** The refused pair is determined too. */
  lemma RefusalIsUnique(c: Case, ranked: seq<Id>, error: AudienceError, other: AudienceError)
    requires IsRefusal(c, ranked, error) && IsRefusal(c, ranked, other)
    ensures error == other
  {
    var n: nat, kept: set<Id>, i: nat :| RefusedAt(c, ranked, n, kept, i, error);
    var m: nat, others: set<Id>, j: nat :| RefusedAt(c, ranked, m, others, j, other);
    RefusalsCoincide(c, ranked, error, n, kept, i, other, m, others, j);
  }

  lemma FirstStuckComesFirst(c: Case, ranked: seq<Id>, n: nat, kept: set<Id>, i: nat, error: AudienceError,
                             m: nat, others: set<Id>, j: nat)
    requires RefusedAt(c, ranked, n, kept, i, error) && StuckAt(c, ranked, m, others, j)
    ensures n <= m
  {
    assert Stuck(c, ranked, m);
  }

  /** With a usable receipt for every pair nothing is refused. */
  lemma ProvenIsNeverRefused(c: Case, ranked: seq<Id>)
    requires AllProven(c, ranked)
    ensures !Refused(c, ranked)
  {
  }

  /** Where the chosen audiences stand in the ranking, in the order they were chosen. */
  ghost predicate ChosenAt(ranked: seq<Id>, n: nat, chosen: seq<Id>, places: seq<nat>) {
    && |places| == |chosen| && n <= |ranked|
    && (forall a :: 0 <= a < |places| ==> places[a] < n && ranked[places[a]] == chosen[a])
    && forall a, b :: 0 <= a < b < |places| ==> places[a] < places[b]
  }

  lemma PlacesInOrder(places: seq<nat>, a: nat, b: nat)
    requires forall i, j :: 0 <= i < j < |places| ==> places[i] < places[j]
    requires a < |places| && b < |places| && places[a] < places[b]
    ensures a < b
  {
  }

  lemma PlaceAmong(ranked: seq<Id>, n: nat, chosen: seq<Id>, places: seq<nat>, i: nat) returns (a: nat)
    requires NoRepeats(ranked) && ChosenAt(ranked, n, chosen, places) && i < n && ranked[i] in Members(chosen)
    ensures a < |places| && places[a] == i
  {
    a :| 0 <= a < |chosen| && chosen[a] == ranked[i];
  }

  /** Being stuck shows in the chosen list: its first audience not proven apart has no usable receipt. */
  lemma StuckMeansUnproven(c: Case, ranked: seq<Id>, n: nat, chosen: seq<Id>, places: seq<nat>, kept: set<Id>, i: nat)
    returns (a: nat)
    requires NoRepeats(ranked) && n < |ranked| && ChosenSoFar(c, ranked, n, chosen)
    requires ChosenAt(ranked, n, chosen, places)
    requires StuckAt(c, ranked, n, kept, i)
    ensures a < |chosen| && !Plausible(c, ranked[n], chosen[a])
    ensures forall b :: 0 <= b < a ==> ProvenApart(c, ranked[n], chosen[b])
  {
    SelectionIsUnique(c, ranked[..n], kept, Members(chosen));
    a := PlaceAmong(ranked, n, chosen, places, i);
    forall b | 0 <= b < a ensures ProvenApart(c, ranked[n], chosen[b]) {
      assert chosen[b] in Members(chosen);
      assert ranked[places[b]] in kept && places[b] < i;
    }
  }

  /** A candidate that was screened to a verdict is not stuck. */
  lemma ScreenedIsNotStuck(c: Case, ranked: seq<Id>, n: nat, chosen: seq<Id>, places: seq<nat>, v: PairVerdict,
                           culprit: nat)
    requires NoRepeats(ranked) && n < |ranked| && ChosenSoFar(c, ranked, n, chosen)
    requires ChosenAt(ranked, n, chosen, places)
    requires v == Apart || v == Clashes
    requires v == Apart ==> forall i :: 0 <= i < |chosen| ==> ProvenApart(c, ranked[n], chosen[i])
    requires v == Clashes ==> culprit < |chosen| && ProvenClash(c, ranked[n], chosen[culprit])
    requires v == Clashes ==> forall i :: 0 <= i < culprit ==> ProvenApart(c, ranked[n], chosen[i])
    ensures !Stuck(c, ranked, n)
  {
    if Stuck(c, ranked, n) {
      var kept: set<Id>, i: nat :| StuckAt(c, ranked, n, kept, i);
      var a := StuckMeansUnproven(c, ranked, n, chosen, places, kept, i);
    }
  }

  /** A candidate whose screening failed is stuck. */
  lemma UnprovenIsStuck(c: Case, ranked: seq<Id>, n: nat, chosen: seq<Id>, places: seq<nat>, culprit: nat)
    requires NoRepeats(ranked) && n < |ranked| && ChosenSoFar(c, ranked, n, chosen)
    requires ChosenAt(ranked, n, chosen, places)
    requires culprit < |chosen| && !Plausible(c, ranked[n], chosen[culprit])
    requires forall i :: 0 <= i < culprit ==> ProvenApart(c, ranked[n], chosen[i])
    ensures StuckAt(c, ranked, n, Members(chosen), places[culprit])
  {
    assert chosen[culprit] in Members(chosen);
    forall k | 0 <= k < places[culprit] && ranked[k] in Members(chosen) ensures ProvenApart(c, ranked[n], ranked[k]) {
      var a := PlaceAmong(ranked, n, chosen, places, k);
      PlacesInOrder(places, a, culprit);
    }
  }

  lemma NoteRefusal(c: Case, ranked: seq<Id>, n: nat, kept: set<Id>, i: nat, error: AudienceError)
    requires RefusedAt(c, ranked, n, kept, i, error)
    ensures Refused(c, ranked) && IsRefusal(c, ranked, error)
  {
    assert Stuck(c, ranked, n);
  }

  /** The filter of one mode: it refuses exactly when some candidate gets stuck, naming the first. */
  method FilterMode(c: Case, ranked: seq<Id>) returns (r: Result<seq<Id>, AudienceError>)
    requires NoRepeats(ranked) && forall id :: id in ranked ==> id in c.populations
    ensures r.Ok? ==> IsSelection(c, ranked, Members(r.value))
    ensures r.Err? <==> Refused(c, ranked)
    ensures r.Err? ==> IsRefusal(c, ranked, r.error)
  {
    var chosen: seq<Id> := [];
    ghost var places: seq<nat> := [];
    for n := 0 to |ranked|
      invariant FilteredSoFar(c, ranked, n, chosen, places)
    {
      ChosenAreRanked(c, ranked, n, chosen);
      var v; ghost var culprit;
      v, culprit := Screen(c, ranked[n], chosen);
      match v {
        case Unproven(error) =>
          UnprovenIsStuck(c, ranked, n, chosen, places, culprit);
          NoteRefusal(c, ranked, n, Members(chosen), places[culprit], error);
          return Err(error);
        case Apart =>
          FilterKeeps(c, ranked, n, chosen, places);
          chosen, places := chosen + [ranked[n]], places + [n];
        case Clashes =>
          FilterDrops(c, ranked, n, chosen, places, culprit);
      }
    }
    assert ranked[..|ranked|] == ranked;
    NothingStuck(c, ranked, chosen, places);
    r := Ok(chosen);
  }

  /** The filter has passed the first n places: the chosen audiences are the selection among them, in order,
      and no candidate got stuck. */
  ghost predicate FilteredSoFar(c: Case, ranked: seq<Id>, n: nat, chosen: seq<Id>, places: seq<nat>) {
    && n <= |ranked| && ChosenSoFar(c, ranked, n, chosen) && ChosenAt(ranked, n, chosen, places)
    && forall m: nat :: m < n ==> !Stuck(c, ranked, m)
  }

  lemma FilterKeeps(c: Case, ranked: seq<Id>, n: nat, chosen: seq<Id>, places: seq<nat>)
    requires NoRepeats(ranked) && n < |ranked| && FilteredSoFar(c, ranked, n, chosen, places)
    requires forall i :: 0 <= i < |chosen| ==> ProvenApart(c, ranked[n], chosen[i])
    ensures FilteredSoFar(c, ranked, n + 1, chosen + [ranked[n]], places + [n])
  {
    ScreenedIsNotStuck(c, ranked, n, chosen, places, Apart, 0);
    KeepsSelection(c, ranked, n, chosen);
  }

  lemma FilterDrops(c: Case, ranked: seq<Id>, n: nat, chosen: seq<Id>, places: seq<nat>, culprit: nat)
    requires NoRepeats(ranked) && n < |ranked| && FilteredSoFar(c, ranked, n, chosen, places)
    requires culprit < |chosen| && ProvenClash(c, ranked[n], chosen[culprit])
    requires forall i :: 0 <= i < culprit ==> ProvenApart(c, ranked[n], chosen[i])
    ensures FilteredSoFar(c, ranked, n + 1, chosen, places)
  {
    ScreenedIsNotStuck(c, ranked, n, chosen, places, Clashes, culprit);
    DropsSelection(c, ranked, n, chosen, culprit);
  }

  lemma NothingStuck(c: Case, ranked: seq<Id>, chosen: seq<Id>, places: seq<nat>)
    requires FilteredSoFar(c, ranked, |ranked|, chosen, places)
    ensures !Refused(c, ranked)
  {
    forall n: nat ensures !Stuck(c, ranked, n) {
      if n >= |ranked| {
        assert forall kept: set<Id>, i: nat :: !StuckAt(c, ranked, n, kept, i);
      }
    }
  }

  lemma ChosenAreRanked(c: Case, ranked: seq<Id>, n: nat, chosen: seq<Id>)
    requires n <= |ranked| && ChosenSoFar(c, ranked, n, chosen)
    ensures forall id :: id in chosen ==> id in ranked[..n] && id in ranked
  {
    assert forall id :: id in chosen ==> id in Members(chosen);
  }

  lemma PlaceOf(c: Case, ranked: seq<Id>, n: nat, chosen: seq<Id>, k: nat) returns (i: nat)
    requires n <= |ranked| && ChosenSoFar(c, ranked, n, chosen) && k < |chosen|
    ensures i < n && ranked[i] == chosen[k]
  {
    assert chosen[k] in chosen;
    ChosenAreRanked(c, ranked, n, chosen);
    i :| 0 <= i < n && ranked[..n][i] == chosen[k];
  }

  lemma OldPlacesStay(c: Case, ranked: seq<Id>, n: nat, kept: set<Id>, more: set<Id>, j: nat)
    requires j < n < |ranked| && kept <= more
    requires BeatenBy(c, ranked[..n], kept, j)
    ensures BeatenBy(c, ranked[..n + 1], more, j)
  {
    var i :| 0 <= i < j && ranked[..n][i] in kept && ProvenClash(c, ranked[..n][i], ranked[..n][j]);
    assert ranked[..n + 1][i] in more && ranked[..n + 1][j] == ranked[..n][j];
  }

  /** One more place that keeps the two properties. */
  lemma SelectionNext(c: Case, ranked: seq<Id>, n: nat, kept: set<Id>, more: set<Id>)
    requires NoRepeats(ranked) && n < |ranked| && IsSelection(c, ranked[..n], kept)
    requires more == kept + {ranked[n]} || more == kept
    requires ranked[n] in more ==> forall i :: 0 <= i < n && ranked[i] in kept ==> ProvenApart(c, ranked[i], ranked[n])
    requires ranked[n] !in more ==> BeatenBy(c, ranked[..n + 1], more, n)
    ensures IsSelection(c, ranked[..n + 1], more)
  {
    var longer := ranked[..n + 1];
    TakeNext(ranked, n);
    forall i | 0 <= i < n ensures longer[i] == ranked[..n][i] && (longer[i] in more <==> longer[i] in kept) {
    }
    forall j | 0 <= j < |longer| && longer[j] !in more ensures BeatenBy(c, longer, more, j) {
      if j < n {
        OldPlacesStay(c, ranked, n, kept, more, j);
      }
    }
    forall i, j | 0 <= i < j < |longer| && longer[i] in more && longer[j] in more
      ensures ProvenApart(c, longer[i], longer[j])
    {
      if j < n {
        assert ranked[..n][i] in kept && ranked[..n][j] in kept;
      }
    }
  }

  lemma KeepsSelection(c: Case, ranked: seq<Id>, n: nat, chosen: seq<Id>)
    requires NoRepeats(ranked) && n < |ranked| && ChosenSoFar(c, ranked, n, chosen)
    requires forall i :: 0 <= i < |chosen| ==> ProvenApart(c, ranked[n], chosen[i])
    ensures ChosenSoFar(c, ranked, n + 1, chosen + [ranked[n]])
  {
    forall i | 0 <= i < n && ranked[i] in Members(chosen) ensures ProvenApart(c, ranked[i], ranked[n]) {
      JudgementIsSymmetric(c, ranked[i], ranked[n]);
    }
    assert Members(chosen + [ranked[n]]) == Members(chosen) + {ranked[n]};
    SelectionNext(c, ranked, n, Members(chosen), Members(chosen + [ranked[n]]));
  }

  lemma DropsSelection(c: Case, ranked: seq<Id>, n: nat, chosen: seq<Id>, culprit: nat)
    requires NoRepeats(ranked) && n < |ranked| && ChosenSoFar(c, ranked, n, chosen)
    requires culprit < |chosen| && ProvenClash(c, ranked[n], chosen[culprit])
    ensures ChosenSoFar(c, ranked, n + 1, chosen)
  {
    var i := PlaceOf(c, ranked, n, chosen, culprit);
    JudgementIsSymmetric(c, ranked[n], ranked[i]);
    assert ranked[..n + 1][i] in Members(chosen) && ranked[..n + 1][n] == ranked[n];
    assert BeatenBy(c, ranked[..n + 1], Members(chosen), n);
    NotYetChosen(c, ranked, n, chosen);
    SelectionNext(c, ranked, n, Members(chosen), Members(chosen));
  }

  lemma NotYetChosen(c: Case, ranked: seq<Id>, n: nat, chosen: seq<Id>)
    requires NoRepeats(ranked) && n < |ranked| && ChosenSoFar(c, ranked, n, chosen)
    ensures ranked[n] !in Members(chosen)
  {
    ChosenAreRanked(c, ranked, n, chosen);
  }

  // ----- the whole evaluation -----

  /** READY, no failed gate, and a population within bounds. */
  predicate PassesGates(a: Audience, params: AudienceParams) {
    a.ready && a.failedGates == [] && params.minimum <= a.population <= params.maximum
  }

  predicate DistinctAudiences(audiences: seq<Audience>) {
    forall i, j :: 0 <= i < j < |audiences| ==> audiences[i].id != audiences[j].id
  }

  function Passing(audiences: seq<Audience>, params: AudienceParams, mode: Mode): set<Id> {
    set a | a in audiences && a.mode == mode && PassesGates(a, params) :: a.id
  }

  /** Static audiences need five comparable snapshots to be scored at all. */
  function Eligible(audiences: seq<Audience>, params: AudienceParams, mode: Mode): set<Id> {
    if mode == StaticDmp && |Passing(audiences, params, mode)| < 5 then {} else Passing(audiences, params, mode)
  }

  /** Dynamic audiences rank by id; static ones by score, then id. */
  predicate RankLe(mode: Mode, score: Id -> real, a: Id, b: Id) {
    if mode == StaticDmp then score(a) > score(b) || (score(a) == score(b) && a <= b) else a <= b
  }

  ghost predicate IsRanking(ranked: seq<Id>, ids: set<Id>, mode: Mode, score: Id -> real) {
    Members(ranked) == ids && NoRepeats(ranked)
    && forall i, j :: 0 <= i < j < |ranked| ==> RankLe(mode, score, ranked[i], ranked[j])
  }

  function Populations(audiences: seq<Audience>): (m: map<Id, int>)
    requires DistinctAudiences(audiences)
  {
    map a | a in audiences :: a.id := a.population
  }

  function CaseOf(audiences: seq<Audience>, params: AudienceParams, evidence: Evidence): Case
    requires DistinctAudiences(audiences)
  {
    Case(Populations(audiences), evidence, params.policy, params.threshold)
  }

  /** What one mode selects: everything eligible when overlaps only warn, the filtered ranking otherwise. */
  ghost predicate ModeSelection(audiences: seq<Audience>, params: AudienceParams, evidence: Evidence, mode: Mode,
                                score: Id -> real, ranked: seq<Id>, chosen: set<Id>)
    requires DistinctAudiences(audiences)
  {
    && IsRanking(ranked, Eligible(audiences, params, mode), mode, score)
    && if params.policy == WarningOnly then chosen == Eligible(audiences, params, mode)
       else IsSelection(CaseOf(audiences, params, evidence), ranked, chosen)
  }

  lemma {:induction false} RankingUnique(a: seq<Id>, b: seq<Id>, ids: set<Id>, mode: Mode, score: Id -> real)
    requires IsRanking(a, ids, mode, score) && IsRanking(b, ids, mode, score)
    ensures a == b
    decreases |a|
  {
    SameEmptiness(a, b);
    if a != [] {
      FirstRanks(a, b, ids, mode, score);
      RankingTail(a, ids, mode, score);
      RankingTail(b, ids, mode, score);
      RankingUnique(a[1..], b[1..], ids - {a[0]}, mode, score);
      assert a == [a[0]] + a[1..] && b == [b[0]] + b[1..];
    }
  }

  lemma SameEmptiness(a: seq<Id>, b: seq<Id>)
    requires Members(a) == Members(b)
    ensures a == [] <==> b == []
  {
    if a != [] {
      assert a[0] in Members(a);
    }
    if b != [] {
      assert b[0] in Members(b);
    }
  }

  lemma FirstRanks(a: seq<Id>, b: seq<Id>, ids: set<Id>, mode: Mode, score: Id -> real)
    requires IsRanking(a, ids, mode, score) && IsRanking(b, ids, mode, score) && a != [] && b != []
    ensures a[0] == b[0]
  {
    assert a[0] in Members(b) && b[0] in Members(a);
    var i :| 0 <= i < |a| && a[i] == b[0];
    var j :| 0 <= j < |b| && b[j] == a[0];
  }

  lemma RankingTail(q: seq<Id>, ids: set<Id>, mode: Mode, score: Id -> real)
    requires IsRanking(q, ids, mode, score) && q != []
    ensures IsRanking(q[1..], ids - {q[0]}, mode, score)
  {
    forall id ensures id in Members(q[1..]) <==> id in ids - {q[0]} {
      if id in ids && id != q[0] {
        assert id in Members(q);
        var i :| 0 <= i < |q| && q[i] == id;
        assert q[1..][i - 1] == id;
      }
    }
  }

  /** Only the audiences as a set, and the evidence up to order and orientation, decide what is selected. */
  lemma SelectionIsDetermined(audiences: seq<Audience>, others: seq<Audience>, params: AudienceParams,
                              rows: seq<Overlap>, otherRows: seq<Overlap>, evidence: Evidence, otherEvidence: Evidence,
                              mode: Mode, score: Id -> real, ranked: seq<Id>, chosen: set<Id>, otherRanked: seq<Id>,
                              other: set<Id>)
    requires DistinctAudiences(audiences)
    requires DistinctAudiences(others)
    requires forall a :: a in audiences <==> a in others
    requires Holds(evidence, rows) && Holds(otherEvidence, otherRows) && Facts(rows) == Facts(otherRows)
    requires ModeSelection(audiences, params, evidence, mode, score, ranked, chosen)
    requires ModeSelection(others, params, otherEvidence, mode, score, otherRanked, other)
    ensures chosen == other
  {
    EvidenceOrderIsIrrelevant(evidence, rows, otherEvidence, otherRows);
    SameAudiences(audiences, others, params, mode);
    RankingUnique(ranked, otherRanked, Eligible(audiences, params, mode), mode, score);
    if params.policy != WarningOnly {
      SelectionIsUnique(CaseOf(audiences, params, evidence), ranked, chosen, other);
    }
  }

  /** Whether a mode is refused, and over which pair, depends only on the set of audiences and on the receipts
      up to order and orientation. */
  lemma RefusalIsDetermined(audiences: seq<Audience>, others: seq<Audience>, params: AudienceParams,
                            rows: seq<Overlap>, otherRows: seq<Overlap>, evidence: Evidence, otherEvidence: Evidence,
                            mode: Mode, score: Id -> real, ranked: seq<Id>, otherRanked: seq<Id>)
    requires DistinctAudiences(audiences) && DistinctAudiences(others) && forall a :: a in audiences <==> a in others
    requires Rearranged(rows, otherRows)
    requires OncePerPair(rows) ==> Holds(evidence, rows)
    requires OncePerPair(otherRows) ==> Holds(otherEvidence, otherRows)
    requires IsRanking(ranked, Eligible(audiences, params, mode), mode, score)
    requires IsRanking(otherRanked, Eligible(others, params, mode), mode, score)
    ensures OncePerPair(rows) <==> OncePerPair(otherRows)
    ensures OncePerPair(rows) ==> CaseOf(audiences, params, evidence) == CaseOf(others, params, otherEvidence)
    ensures ranked == otherRanked
    ensures OncePerPair(rows) ==> (Refused(CaseOf(audiences, params, evidence), ranked)
                                   <==> Refused(CaseOf(others, params, otherEvidence), otherRanked))
    ensures OncePerPair(rows) ==> forall error ::
              IsRefusal(CaseOf(audiences, params, evidence), ranked, error)
              <==> IsRefusal(CaseOf(others, params, otherEvidence), otherRanked, error)
  {
    if OncePerPair(rows) {
      RearrangedOncePerPair(rows, otherRows);
      RearrangedFacts(rows, otherRows);
      EvidenceOrderIsIrrelevant(evidence, rows, otherEvidence, otherRows);
    }
    if OncePerPair(otherRows) {
      RearrangedOncePerPair(otherRows, rows);
    }
    SameAudiences(audiences, others, params, mode);
    RankingUnique(ranked, otherRanked, Eligible(audiences, params, mode), mode, score);
  }

  lemma SameAudiences(audiences: seq<Audience>, others: seq<Audience>, params: AudienceParams, mode: Mode)
    requires DistinctAudiences(audiences) && DistinctAudiences(others)
    requires forall a :: a in audiences <==> a in others
    ensures Eligible(audiences, params, mode) == Eligible(others, params, mode)
    ensures Populations(audiences) == Populations(others)
  {
    assert Passing(audiences, params, mode) == Passing(others, params, mode);
  }

  // ----- the code -----

  /** The eligible ids of one mode, in input order. */
  method Gate(audiences: seq<Audience>, params: AudienceParams, mode: Mode) returns (ids: seq<Id>)
    requires DistinctAudiences(audiences)
    ensures Members(ids) == Eligible(audiences, params, mode) && NoRepeats(ids)
  {
    ids := [];
    for n := 0 to |audiences|
      invariant NoRepeats(ids)
      invariant Members(ids) == Passing(audiences[..n], params, mode)
    {
      PassingNext(audiences, params, mode, n);
      var a := audiences[n];
      if a.mode == mode && PassesGates(a, params) {
        assert forall id :: id in ids ==> id in Members(ids);
        ids := ids + [a.id];
        assert Members(ids) == Members(ids[..|ids| - 1]) + {a.id};
      }
    }
    assert audiences[..|audiences|] == audiences;
    SizeOf(ids);
    if mode == StaticDmp && |ids| < 5 {
      ids := [];
    }
  }

  lemma PassingNext(audiences: seq<Audience>, params: AudienceParams, mode: Mode, n: nat)
    requires DistinctAudiences(audiences) && n < |audiences|
    ensures Passing(audiences[..n + 1], params, mode)
         == Passing(audiences[..n], params, mode)
            + if audiences[n].mode == mode && PassesGates(audiences[n], params) then {audiences[n].id} else {}
    ensures audiences[n].id !in Passing(audiences[..n], params, mode)
  {
    TakeNext(audiences, n);
  }

  lemma {:induction false} SizeOf(ids: seq<Id>)
    requires NoRepeats(ids)
    ensures |Members(ids)| == |ids|
  {
    if ids != [] {
      var n := |ids| - 1;
      SizeOf(ids[..n]);
      assert Members(ids) == Members(ids[..n]) + {ids[n]};
    }
  }

  method Rank(ids: seq<Id>, mode: Mode, score: Id -> real) returns (ranked: seq<Id>)
    requires NoRepeats(ids)
    ensures IsRanking(ranked, Members(ids), mode, score)
  {
    var le := (a: Id, b: Id) => RankLe(mode, score, a, b);
    ranked := SortBy(ids, le);
    SortBySorted(ids, le);
    forall id ensures id in Members(ranked) <==> id in Members(ids) {
      SameMembers(ids, ranked, id);
    }
    ArrangementKeepsDistinct(ids, ranked);
    forall i, j | 0 <= i < j < |ranked| ensures RankLe(mode, score, ranked[i], ranked[j]) {
      assert le(ranked[i], ranked[j]);
    }
  }

  /** ranked_by_mode. */
  method RankMode(audiences: seq<Audience>, params: AudienceParams, mode: Mode, score: Id -> real)
    returns (ranked: seq<Id>)
    requires DistinctAudiences(audiences)
    ensures IsRanking(ranked, Eligible(audiences, params, mode), mode, score)
  {
    var ids := Gate(audiences, params, mode);
    ranked := Rank(ids, mode, score);
  }

  method SelectMode(audiences: seq<Audience>, params: AudienceParams, evidence: Evidence, mode: Mode,
                    ghost score: Id -> real, ranked: seq<Id>)
    returns (r: Result<set<Id>, AudienceError>)
    requires DistinctAudiences(audiences) && IsRanking(ranked, Eligible(audiences, params, mode), mode, score)
    ensures r.Ok? ==> ModeSelection(audiences, params, evidence, mode, score, ranked, r.value)
    ensures r.Err? <==> params.policy != WarningOnly && Refused(CaseOf(audiences, params, evidence), ranked)
    ensures r.Err? ==> IsRefusal(CaseOf(audiences, params, evidence), ranked, r.error)
  {
    if params.policy == WarningOnly {
      return Ok(Members(ranked));
    }
    RankedArePopulated(audiences, params, mode, ranked);
    var chosen := FilterMode(CaseOf(audiences, params, evidence), ranked);
    r := match chosen { case Ok(list) => Ok(Members(list)) case Err(e) => Err(e) };
  }

  lemma RankedArePopulated(audiences: seq<Audience>, params: AudienceParams, mode: Mode, ranked: seq<Id>)
    requires DistinctAudiences(audiences) && Members(ranked) == Eligible(audiences, params, mode)
    ensures forall id :: id in ranked ==> id in Populations(audiences)
  {
    forall id | id in ranked ensures id in Populations(audiences) {
      assert id in Members(ranked);
    }
  }

  /** evaluate_audiences, as far as it decides: rank both modes, index the receipts, then filter each mode.
      It refuses exactly when a pair has two receipts or, under a hard policy, a mode's filter is refused,
      and then with that error. */
  method EvaluateAudiences(audiences: seq<Audience>, params: AudienceParams, rows: seq<Overlap>, score: Id -> real)
    returns (r: Result<(set<Id>, set<Id>), AudienceError>, unverified: bool,
             ghost evidence: Evidence, ghost staticRanked: seq<Id>, ghost dynamicRanked: seq<Id>)
    requires DistinctAudiences(audiences)
    ensures IsRanking(staticRanked, Eligible(audiences, params, StaticDmp), StaticDmp, score)
    ensures IsRanking(dynamicRanked, Eligible(audiences, params, DynamicBehavior), DynamicBehavior, score)
    ensures OncePerPair(rows) ==> Holds(evidence, rows)
    ensures var c := CaseOf(audiences, params, evidence);
            && (r.Err? <==> !OncePerPair(rows)
                            || (params.policy != WarningOnly
                                && (Refused(c, staticRanked) || Refused(c, dynamicRanked))))
            && (r.Err? && !OncePerPair(rows) ==> r.error.DuplicateOverlapEvidence? && Twice(rows, r.error.pair))
            && (r.Err? && OncePerPair(rows) ==>
                  IsRefusal(c, if Refused(c, staticRanked) then staticRanked else dynamicRanked, r.error))
    ensures r.Ok? ==> ModeSelection(audiences, params, evidence, StaticDmp, score, staticRanked, r.value.0)
    ensures r.Ok? ==> ModeSelection(audiences, params, evidence, DynamicBehavior, score, dynamicRanked, r.value.1)
    ensures r.Ok? ==> (unverified <==> params.policy == WarningOnly && |r.value.0 + r.value.1| > 1 && rows == [])
  {
    evidence, unverified := map[], false;
    var statics := RankMode(audiences, params, StaticDmp, score);
    var dynamics := RankMode(audiences, params, DynamicBehavior, score);
    staticRanked, dynamicRanked := statics, dynamics;
    var indexed := IndexEvidence(rows);
    if indexed.Err? {
      return Err(indexed.error), unverified, evidence, staticRanked, dynamicRanked;
    }
    evidence := indexed.value;
    var first := SelectMode(audiences, params, indexed.value, StaticDmp, score, statics);
    if first.Err? {
      return Err(first.error), unverified, evidence, staticRanked, dynamicRanked;
    }
    var second := SelectMode(audiences, params, indexed.value, DynamicBehavior, score, dynamics);
    if second.Err? {
      return Err(second.error), unverified, evidence, staticRanked, dynamicRanked;
    }
    unverified := params.policy == WarningOnly && |first.value + second.value| > 1 && rows == [];
    r := Ok((first.value, second.value));
  }
}
