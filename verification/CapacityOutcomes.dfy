/** What the Feed matrix says, in terms of the scores, flags and amounts that went in. */
module CapacityOutcomes {
  import opened Common
  import opened Capacity

  // ----- which pairs are taken -----

  /** Unless its audience is picked with a score at least as high, a pair is left out only for k audiences that all
      rank before it: by score, then by id. */
  lemma NothingBetterLeftOut(rows: seq<Pair>, k: nat, picks: seq<Pair>, row: Pair)
    requires TopPicks(rows, k, picks) && row in rows
    ensures (exists i :: 0 <= i < |picks| && picks[i].asset == row.asset && picks[i].score >= row.score)
            || (|picks| == k && forall i :: 0 <= i < |picks| ==>
                  picks[i].score > row.score || (picks[i].score == row.score && picks[i].asset < row.asset))
    ensures forall i, j :: 0 <= i < j < |picks| ==>
              && picks[i].asset != picks[j].asset
              && (picks[i].score > picks[j].score
                  || (picks[i].score == picks[j].score && picks[i].asset < picks[j].asset))
  {
    assert Served(picks, k, row);
    if i :| 0 <= i < |picks| && picks[i].asset == row.asset && PairLe(picks[i], row) {
      assert picks[i].score >= row.score;
    } else {
      forall i | 0 <= i < |picks|
        ensures picks[i].score > row.score || (picks[i].score == row.score && picks[i].asset < row.asset)
      {
        assert PairLe(picks[i], row) && picks[i].asset in Assets(picks);
      }
    }
    forall i, j | 0 <= i < j < |picks|
      ensures picks[i].score > picks[j].score
              || (picks[i].score == picks[j].score && picks[i].asset < picks[j].asset)
    {
      assert PairLe(picks[i], picks[j]) && picks[i].asset != picks[j].asset;
    }
  }

  /** A pair of one of the notes with one of the audiences, scored high enough and not under review. */
  predicate MayPlan(p: Pair, notes: set<Id>, audiences: set<Id>, minScore: real) {
    p.pairType.NoteAudience? && p.note in notes && p.asset in audiences && !(p.score < minScore) && p.review == false
  }

  lemma KeptMayPlan(pairs: seq<Pair>, notes: set<Id>, audiences: set<Id>, minScore: real, p: Pair)
    ensures p in EligiblePairs(pairs, notes, audiences, minScore)
            <==> p in pairs && MayPlan(p, notes, audiences, minScore)
  {
  }

  lemma {:induction false} JoinedMembers(picks: seq<seq<Pair>>, p: Pair)
    requires p in Joined(picks)
    ensures exists i :: 0 <= i < |picks| && p in picks[i]
  {
    var n := |picks| - 1;
    if p !in picks[n] {
      JoinedMembers(picks[..n], p);
      var i :| 0 <= i < n && p in picks[..n][i];
      assert p in picks[i];
    }
  }

  /** Every plan of the matrix is one of the pairs, and may be planned. */
  lemma PlansMayPlan(pairs: seq<Pair>, notes: set<Id>, audiences: set<Id>, minScore: real, perNote: nat,
                     plans: seq<Pair>, p: Pair)
    requires IsLaidOut(EligiblePairs(pairs, notes, audiences, minScore), perNote, plans) && p in plans
    ensures p in pairs && MayPlan(p, notes, audiences, minScore)
  {
    var rows := EligiblePairs(pairs, notes, audiences, minScore);
    var order, picks :| IsMatrix(rows, perNote, order, picks) && plans == Joined(picks);
    JoinedMembers(picks, p);
    var i :| 0 <= i < |picks| && p in picks[i];
    assert TopPicks(OfNote(rows, order[i]), perNote, picks[i]);
    KeptMayPlan(pairs, notes, audiences, minScore, p);
  }

  /** Note by note, and within a note best first. */
  predicate InOrder(a: Pair, b: Pair) {
    a.note < b.note
    || (a.note == b.note && (a.score > b.score || (a.score == b.score && a.asset < b.asset)))
  }

  predicate AllInOrder(plans: seq<Pair>) {
    forall i, j :: 0 <= i < j < |plans| ==> InOrder(plans[i], plans[j])
  }

  lemma PicksAreOrdered(rows: seq<Pair>, note: Id, k: nat, picks: seq<Pair>)
    requires TopPicks(OfNote(rows, note), k, picks)
    ensures AllInOrder(picks) && forall p :: p in picks ==> p.note == note
  {
    forall i, j | 0 <= i < j < |picks| ensures InOrder(picks[i], picks[j]) {
      assert picks[i] in picks && picks[j] in picks;
      assert PairLe(picks[i], picks[j]) && picks[i].asset != picks[j].asset;
    }
  }

  lemma JoinKeepsOrder(a: seq<Pair>, b: seq<Pair>, note: Id)
    requires AllInOrder(a) && AllInOrder(b)
    requires (forall p :: p in a ==> p.note < note) && forall p :: p in b ==> p.note == note
    ensures AllInOrder(a + b)
  {
    forall i, j | 0 <= i < j < |a + b| ensures InOrder((a + b)[i], (a + b)[j]) {
      if j < |a| {
        assert InOrder(a[i], a[j]);
      } else if i >= |a| {
        assert InOrder(b[i - |a|], b[j - |a|]);
      } else {
        assert a[i] in a && b[j - |a|] in b;
      }
    }
  }

  lemma {:induction false} JoinedInOrder(rows: seq<Pair>, perNote: nat, order: seq<Id>, picks: seq<seq<Pair>>)
    requires PickedSoFar(rows, perNote, order, picks)
    requires forall i, j :: 0 <= i < j < |order| ==> order[i] < order[j]
    ensures AllInOrder(Joined(picks))
    ensures forall p :: p in Joined(picks) ==> exists i :: 0 <= i < |picks| && p.note == order[i]
  {
    if picks != [] {
      var n := |picks| - 1;
      forall i | 0 <= i < n ensures TopPicks(OfNote(rows, order[i]), perNote, picks[..n][i]) {
        assert TopPicks(OfNote(rows, order[i]), perNote, picks[i]);
      }
      JoinedInOrder(rows, perNote, order, picks[..n]);
      PicksAreOrdered(rows, order[n], perNote, picks[n]);
      forall p | p in Joined(picks[..n]) ensures p.note < order[n] {
        var i :| 0 <= i < n && p.note == order[i];
      }
      JoinKeepsOrder(Joined(picks[..n]), picks[n], order[n]);
    }
  }

  /** The plans come note by note in id order, and within a note by score and then id. */
  lemma PlansAreOrdered(rows: seq<Pair>, perNote: nat, plans: seq<Pair>)
    requires IsLaidOut(rows, perNote, plans)
    ensures AllInOrder(plans)
  {
    var order, picks :| IsMatrix(rows, perNote, order, picks) && plans == Joined(picks);
    JoinedInOrder(rows, perNote, order, picks);
  }

  // ----- how many -----

  /** The capacity, field by field, without a division: it exists exactly for positive inputs. */
  lemma CapacityIsExact(dailySpend: int, days: int, budget: int, notes: int, eligible: int, cap: int)
    ensures var c := UniformCapacity(dailySpend, days, budget, notes, eligible, cap);
            && (c.Some? <==> dailySpend > 0 && days > 0 && budget > 0 && notes > 0 && eligible > 0 && cap > 0)
            && (c.Some? ==>
                  && c.value.pairCost == dailySpend * days
                  && c.value.slots * c.value.pairCost <= budget < (c.value.slots + 1) * c.value.pairCost
                  && c.value.perNote * notes <= c.value.slots < (c.value.perNote + 1) * notes
                  && c.value.eligible == eligible
                  && c.value.selected <= c.value.perNote && c.value.selected <= eligible && c.value.selected <= cap
                  && c.value.selected in {c.value.perNote, eligible, cap}
                  && (c.value.waiting <==> c.value.selected == 0))
  {
    if UniformCapacity(dailySpend, days, budget, notes, eligible, cap).Some? {
      Positive(dailySpend, days);
      QuotientIsExact(budget, dailySpend * days);
      QuotientIsExact(budget / (dailySpend * days), notes);
    }
  }

  lemma QuotientIsExact(total: int, part: int)
    requires part > 0
    ensures total / part * part <= total < (total / part + 1) * part
  {
    assert total == part * (total / part) + total % part;
  }
}
