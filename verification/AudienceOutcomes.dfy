/** What the audience selection says, in terms of the audiences' flags and populations and of the overlap receipts
    alone. */
module AudienceOutcomes {
  import opened Common
  import opened Sorting
  import opened Audiences

  // ----- what the receipts and the populations say about a pair -----

  predicate Concerns(row: Overlap, a: Id, b: Id) {
    (row.left == a && row.right == b) || (row.left == b && row.right == a)
  }

  /** A receipt of this intersection for the two, whichever comes first. */
  predicate Receipt(rows: seq<Overlap>, a: Id, b: Id, n: int) {
    exists row :: row in rows && Concerns(row, a, b) && row.intersection == n
  }

  predicate Population(audiences: seq<Audience>, id: Id, n: int) {
    exists a :: a in audiences && a.id == id && a.population == n
  }

  datatype PairFacts = PairFacts(both: int, left: int, right: int)

  /** The intersection and the two populations, as far as they make sense together. */
  predicate Usable(audiences: seq<Audience>, rows: seq<Overlap>, a: Id, b: Id, f: PairFacts) {
    && Receipt(rows, a, b, f.both) && Population(audiences, a, f.left) && Population(audiences, b, f.right)
    && f.left > 0 && f.right > 0 && 0 <= f.both <= f.left && f.both <= f.right
  }

  /** The share of either audience, or of both together, reaches the threshold. */
  predicate TooClose(params: AudienceParams, f: PairFacts)
    requires f.left > 0 && f.right > 0 && f.both <= f.left
  {
    if params.policy == DirectionalContainment then
      f.both as real / f.left as real >= params.threshold || f.both as real / f.right as real >= params.threshold
    else f.both as real / (f.left + f.right - f.both) as real >= params.threshold
  }

  ghost predicate ShownApart(audiences: seq<Audience>, params: AudienceParams, rows: seq<Overlap>, a: Id, b: Id) {
    exists f :: Usable(audiences, rows, a, b, f) && !TooClose(params, f)
  }

  ghost predicate ShownClose(audiences: seq<Audience>, params: AudienceParams, rows: seq<Overlap>, a: Id, b: Id) {
    exists f :: Usable(audiences, rows, a, b, f) && TooClose(params, f)
  }

  lemma ReceiptIsHeld(evidence: Evidence, rows: seq<Overlap>, a: Id, b: Id, n: int)
    requires Holds(evidence, rows)
    ensures Receipt(rows, a, b, n) <==> PairKey(a, b) in evidence && evidence[PairKey(a, b)] == n
  {
    assert Says(Facts(rows), PairKey(a, b), n) <==> PairKey(a, b) in evidence && evidence[PairKey(a, b)] == n;
    if Receipt(rows, a, b, n) {
      var row :| row in rows && Concerns(row, a, b) && row.intersection == n;
      assert Unoriented(row) == (PairKey(a, b), n);
    }
    if Says(Facts(rows), PairKey(a, b), n) {
      var row :| row in rows && Unoriented(row) == (PairKey(a, b), n);
      assert Concerns(row, a, b);
    }
  }

  lemma PopulationIsHeld(audiences: seq<Audience>, id: Id, n: int)
    requires DistinctAudiences(audiences)
    ensures Population(audiences, id, n) <==> id in Populations(audiences) && Populations(audiences)[id] == n
  {
  }

  /** The facts about a pair are determined. */
  lemma FactsAreHeld(audiences: seq<Audience>, params: AudienceParams, rows: seq<Overlap>, evidence: Evidence, a: Id,
                     b: Id, f: PairFacts)
    requires DistinctAudiences(audiences) && Holds(evidence, rows)
    ensures Usable(audiences, rows, a, b, f)
            <==> Plausible(CaseOf(audiences, params, evidence), a, b)
                 && f == PairFacts(evidence[PairKey(a, b)], Populations(audiences)[a], Populations(audiences)[b])
  {
    ReceiptIsHeld(evidence, rows, a, b, f.both);
    PopulationIsHeld(audiences, a, f.left);
    PopulationIsHeld(audiences, b, f.right);
  }

  lemma ClashIsClose(audiences: seq<Audience>, params: AudienceParams, evidence: Evidence, a: Id, b: Id, f: PairFacts)
    requires DistinctAudiences(audiences) && Plausible(CaseOf(audiences, params, evidence), a, b)
    requires f == PairFacts(evidence[PairKey(a, b)], Populations(audiences)[a], Populations(audiences)[b])
    ensures Clash(CaseOf(audiences, params, evidence), a, b) <==> TooClose(params, f)
  {
    assert (f.left + f.right - f.both) as real == f.left as real + f.right as real - f.both as real;
  }

  lemma JudgementIsExact(audiences: seq<Audience>, params: AudienceParams, rows: seq<Overlap>, evidence: Evidence,
                         a: Id, b: Id)
    requires DistinctAudiences(audiences) && Holds(evidence, rows)
    ensures ProvenApart(CaseOf(audiences, params, evidence), a, b) <==> ShownApart(audiences, params, rows, a, b)
    ensures ProvenClash(CaseOf(audiences, params, evidence), a, b) <==> ShownClose(audiences, params, rows, a, b)
  {
    forall f ensures Usable(audiences, rows, a, b, f)
                <==> Plausible(CaseOf(audiences, params, evidence), a, b)
                     && f == PairFacts(evidence[PairKey(a, b)], Populations(audiences)[a], Populations(audiences)[b])
    {
      FactsAreHeld(audiences, params, rows, evidence, a, b, f);
    }
    if Plausible(CaseOf(audiences, params, evidence), a, b) {
      var f := PairFacts(evidence[PairKey(a, b)], Populations(audiences)[a], Populations(audiences)[b]);
      assert Usable(audiences, rows, a, b, f);
      ClashIsClose(audiences, params, evidence, a, b, f);
    }
  }

  // ----- who may be selected -----

  /** Ready, through every gate, of the mode, and neither too small nor too large. */
  predicate Fit(a: Audience, params: AudienceParams, mode: Mode) {
    a.mode == mode && a.ready && |a.failedGates| == 0
    && a.population >= params.minimum && a.population <= params.maximum
  }

  function FitIds(audiences: seq<Audience>, params: AudienceParams, mode: Mode): set<Id> {
    set a | a in audiences && Fit(a, params, mode) :: a.id
  }

  /** Fit, and of a mode with enough fit audiences to be scored. */
  predicate MaySelect(audiences: seq<Audience>, params: AudienceParams, mode: Mode, id: Id) {
    id in FitIds(audiences, params, mode) && (mode == StaticDmp ==> |FitIds(audiences, params, mode)| >= 5)
  }

  predicate Ahead(mode: Mode, score: Id -> real, a: Id, b: Id) {
    if mode == StaticDmp then score(a) > score(b) || (score(a) == score(b) && a < b) else a < b
  }

  lemma EligibleIsExact(audiences: seq<Audience>, params: AudienceParams, mode: Mode, id: Id)
    ensures id in Eligible(audiences, params, mode) <==> MaySelect(audiences, params, mode, id)
  {
    assert Passing(audiences, params, mode) == FitIds(audiences, params, mode);
  }

  lemma RankedIsAhead(ranked: seq<Id>, ids: set<Id>, mode: Mode, score: Id -> real, i: nat, j: nat)
    requires IsRanking(ranked, ids, mode, score) && i < j < |ranked|
    ensures Ahead(mode, score, ranked[i], ranked[j])
  {
    assert RankLe(mode, score, ranked[i], ranked[j]) && ranked[i] != ranked[j];
  }

  // ----- what a selection says -----

  /** Under a soft policy everybody who may be selected is. Under a hard one any two selected are shown to be apart,
      and whoever is left out is shown to be too close to somebody selected ahead of it. */
  ghost predicate SelectionSays(audiences: seq<Audience>, params: AudienceParams, rows: seq<Overlap>, mode: Mode,
                                score: Id -> real, chosen: set<Id>)
  {
    && (forall id :: id in chosen ==> MaySelect(audiences, params, mode, id))
    && (params.policy == WarningOnly ==> forall id :: MaySelect(audiences, params, mode, id) ==> id in chosen)
    && (params.policy != WarningOnly ==>
          && (forall a, b :: a in chosen && b in chosen && a != b ==> ShownApart(audiences, params, rows, a, b))
          && forall b :: MaySelect(audiences, params, mode, b) && b !in chosen ==>
               LeftOut(audiences, params, rows, mode, score, chosen, b))
  }

  ghost predicate LeftOut(audiences: seq<Audience>, params: AudienceParams, rows: seq<Overlap>, mode: Mode,
                          score: Id -> real, chosen: set<Id>, b: Id)
  {
    exists a :: a in chosen && Ahead(mode, score, a, b) && ShownClose(audiences, params, rows, a, b)
  }

  lemma PairIsApart(audiences: seq<Audience>, params: AudienceParams, rows: seq<Overlap>, evidence: Evidence,
                    ranked: seq<Id>, chosen: set<Id>, a: Id, b: Id)
    requires DistinctAudiences(audiences) && Holds(evidence, rows)
    requires IsSelection(CaseOf(audiences, params, evidence), ranked, chosen) && a in chosen && b in chosen && a != b
    ensures ShownApart(audiences, params, rows, a, b)
  {
    var c := CaseOf(audiences, params, evidence);
    var i :| 0 <= i < |ranked| && ranked[i] == a;
    var j :| 0 <= j < |ranked| && ranked[j] == b;
    JudgementIsSymmetric(c, a, b);
    assert ProvenApart(c, a, b) by {
      if i < j {
        assert ProvenApart(c, ranked[i], ranked[j]);
      } else {
        assert ProvenApart(c, ranked[j], ranked[i]);
      }
    }
    JudgementIsExact(audiences, params, rows, evidence, a, b);
  }

  lemma RestIsLeftOut(audiences: seq<Audience>, params: AudienceParams, rows: seq<Overlap>, evidence: Evidence,
                      mode: Mode, score: Id -> real, ranked: seq<Id>, chosen: set<Id>, b: Id)
    requires DistinctAudiences(audiences) && Holds(evidence, rows)
    requires IsRanking(ranked, Eligible(audiences, params, mode), mode, score)
    requires IsSelection(CaseOf(audiences, params, evidence), ranked, chosen)
    requires b in Eligible(audiences, params, mode) && b !in chosen
    ensures LeftOut(audiences, params, rows, mode, score, chosen, b)
  {
    var c := CaseOf(audiences, params, evidence);
    assert b in Members(ranked);
    var j :| 0 <= j < |ranked| && ranked[j] == b;
    assert BeatenBy(c, ranked, chosen, j);
    var i :| 0 <= i < j && ranked[i] in chosen && ProvenClash(c, ranked[i], ranked[j]);
    RankedIsAhead(ranked, Eligible(audiences, params, mode), mode, score, i, j);
    JudgementIsExact(audiences, params, rows, evidence, ranked[i], b);
  }

  lemma SelectionIsExact(audiences: seq<Audience>, params: AudienceParams, rows: seq<Overlap>, evidence: Evidence,
                         mode: Mode, score: Id -> real, ranked: seq<Id>, chosen: set<Id>)
    requires DistinctAudiences(audiences) && Holds(evidence, rows)
    requires ModeSelection(audiences, params, evidence, mode, score, ranked, chosen)
    ensures SelectionSays(audiences, params, rows, mode, score, chosen)
  {
    forall id ensures id in Eligible(audiences, params, mode) <==> MaySelect(audiences, params, mode, id) {
      EligibleIsExact(audiences, params, mode, id);
    }
    if params.policy != WarningOnly {
      forall id | id in chosen ensures id in Eligible(audiences, params, mode) {
        assert id in Members(ranked);
      }
      forall a, b | a in chosen && b in chosen && a != b ensures ShownApart(audiences, params, rows, a, b) {
        PairIsApart(audiences, params, rows, evidence, ranked, chosen, a, b);
      }
      forall b | b in Eligible(audiences, params, mode) && b !in chosen
        ensures LeftOut(audiences, params, rows, mode, score, chosen, b)
      {
        RestIsLeftOut(audiences, params, rows, evidence, mode, score, ranked, chosen, b);
      }
    }
  }

  // ----- what a refusal says -----

  /** The refused pair may both be selected, the chosen one is ahead, and either nothing is known about their
      overlap or what is known makes no sense. */
  ghost predicate RefusalSays(audiences: seq<Audience>, params: AudienceParams, rows: seq<Overlap>, mode: Mode,
                              score: Id -> real, error: AudienceError)
  {
    && (error.SourceProofMissing? || error.IntersectionInvalid?)
    && MaySelect(audiences, params, mode, error.candidate) && MaySelect(audiences, params, mode, error.chosen)
    && Ahead(mode, score, error.chosen, error.candidate)
    && (error.SourceProofMissing? <==> forall n :: !Receipt(rows, error.candidate, error.chosen, n))
    && forall f :: !Usable(audiences, rows, error.candidate, error.chosen, f)
  }

  lemma RefusalIsExact(audiences: seq<Audience>, params: AudienceParams, rows: seq<Overlap>, evidence: Evidence,
                       mode: Mode, score: Id -> real, ranked: seq<Id>, error: AudienceError)
    requires DistinctAudiences(audiences) && Holds(evidence, rows)
    requires IsRanking(ranked, Eligible(audiences, params, mode), mode, score)
    requires IsRefusal(CaseOf(audiences, params, evidence), ranked, error)
    ensures RefusalSays(audiences, params, rows, mode, score, error)
  {
    var c := CaseOf(audiences, params, evidence);
    var n: nat, kept: set<Id>, i: nat :| RefusedAt(c, ranked, n, kept, i, error);
    var a, b := ranked[n], ranked[i];
    assert a in Members(ranked) && b in Members(ranked);
    EligibleIsExact(audiences, params, mode, a);
    EligibleIsExact(audiences, params, mode, b);
    RankedIsAhead(ranked, Eligible(audiences, params, mode), mode, score, i, n);
    forall f ensures !Usable(audiences, rows, a, b, f) {
      FactsAreHeld(audiences, params, rows, evidence, a, b, f);
    }
    forall m ensures Receipt(rows, a, b, m) <==> PairKey(a, b) in evidence && evidence[PairKey(a, b)] == m {
      ReceiptIsHeld(evidence, rows, a, b, m);
    }
    if PairKey(a, b) in evidence {
      assert Receipt(rows, a, b, evidence[PairKey(a, b)]);
    }
  }

  /** The receipts are refused exactly when two of them concern the same two audiences. */
  lemma DuplicatesAreExact(rows: seq<Overlap>)
    ensures OncePerPair(rows) <==>
            forall i, j :: 0 <= i < j < |rows| ==> !Concerns(rows[j], rows[i].left, rows[i].right)
  {
    forall i, j | 0 <= i < j < |rows|
      ensures Unoriented(rows[i]).0 == Unoriented(rows[j]).0 <==> Concerns(rows[j], rows[i].left, rows[i].right)
    {
    }
  }
}
