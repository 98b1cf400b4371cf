/** What the keyword decisions say, reason by reason, in terms of the heats, texts, lanes, similarities and bids of
    the keywords alone. */
module KeywordOutcomes {
  import opened Common
  import opened Quantiles
  import opened Keywords
  import UF = UnionFind

  /** The lanes, most important first. */
  const LANES := [Brand, Category, Scenario, Competitor, Guide, Audience, Benefit, Event]

  predicate LaneBefore(a: Lane, b: Lane) {
    exists i, j :: 0 <= i < j < |LANES| && LANES[i] == a && LANES[j] == b
  }

  /** Of the two, a is kept: by lane, then by heat, then by id. */
  predicate Beats(a: Keyword, b: Keyword) {
    LaneBefore(a.lane, b.lane)
    || (a.lane == b.lane && (a.heat > b.heat || (a.heat == b.heat && a.id < b.id)))
  }

  lemma RankIsPlace(lane: Lane)
    ensures LaneRank(lane) < |LANES| && LANES[LaneRank(lane)] == lane
    ensures forall i :: 0 <= i < |LANES| && LANES[i] == lane ==> i == LaneRank(lane)
  {
  }

  lemma LanesAreRanked(a: Lane, b: Lane)
    ensures LaneBefore(a, b) <==> LaneRank(a) < LaneRank(b)
  {
    RankIsPlace(a);
    RankIsPlace(b);
  }

  lemma BeatingIsPreferred(a: Keyword, b: Keyword)
    requires a.id != b.id
    ensures Beats(a, b) <==> Preferred(a, b)
    ensures Beats(a, b) <==> !Beats(b, a)
  {
    LanesAreRanked(a.lane, b.lane);
    LanesAreRanked(b.lane, a.lane);
    PreferredOrder(a, b, a);
  }

  // ----- who is superseded -----

  /** A better keyword has the same text. */
  predicate TextTaken(ks: set<Keyword>, k: Keyword) {
    exists o :: o in ks && o.text == k.text && Beats(o, k)
  }

  /** Similar enough, in one lane, neither text taken. */
  predicate Similar(ks: set<Keyword>, params: Params, e: Similarity) {
    && params.dedupe && e.similarity >= params.cutoff
    && exists l, r :: l in ks && r in ks && l.id == e.left && r.id == e.right && l.lane == r.lane
                      && !TextTaken(ks, l) && !TextTaken(ks, r)
  }

  function SimilarPairs(ks: set<Keyword>, es: set<Similarity>, params: Params): UF.Pairs {
    set e | e in es && Similar(ks, params, e) :: (e.left, e.right)
  }

  /** A better keyword whose text is not taken is similar to k, directly or through others. */
  ghost predicate MeaningTaken(ks: set<Keyword>, es: set<Similarity>, params: Params, k: Keyword) {
    exists o :: o in ks && !TextTaken(ks, o) && UF.Connected(SimilarPairs(ks, es, params), k.id, o.id) && Beats(o, k)
  }

  lemma RepresentativeIsExact(ks: set<Keyword>, k: Keyword)
    requires UniqueIds(ks) && k in ks
    ensures Representative(ks, k) <==> !TextTaken(ks, k)
  {
    forall o | o in ks && o.text == k.text ensures Preferred(k, o) <==> !Beats(o, k) {
      if o.id != k.id {
        BeatingIsPreferred(k, o);
        BeatingIsPreferred(o, k);
      } else {
        LanesAreRanked(k.lane, k.lane);
      }
    }
    assert forall o :: o in SameText(ks, k) <==> o in ks && o.text == k.text;
  }

  lemma PairsAreExact(ks: set<Keyword>, es: set<Similarity>, params: Params)
    requires UniqueIds(ks)
    ensures Links(ks, es, params) == SimilarPairs(ks, es, params)
  {
    forall k | k in ks ensures k in Representatives(ks) <==> !TextTaken(ks, k) {
      RepresentativeIsExact(ks, k);
    }
    forall e | e in es ensures Joins(Representatives(ks), params, e) <==> Similar(ks, params, e) {
      JoinIsExact(ks, params, e);
    }
  }

  lemma JoinIsExact(ks: set<Keyword>, params: Params, e: Similarity)
    requires forall k :: k in ks ==> (k in Representatives(ks) <==> !TextTaken(ks, k))
    ensures Joins(Representatives(ks), params, e) <==> Similar(ks, params, e)
  {
    if Similar(ks, params, e) {
      var l, r :| l in ks && r in ks && l.id == e.left && r.id == e.right && l.lane == r.lane
                  && !TextTaken(ks, l) && !TextTaken(ks, r);
      assert l in Representatives(ks) && r in Representatives(ks);
    }
    if Joins(Representatives(ks), params, e) {
      var l, r :| l in Representatives(ks) && r in Representatives(ks) && l.id == e.left && r.id == e.right
                  && l.lane == r.lane;
      assert l in ks && r in ks;
    }
  }

  lemma SurvivorIsExact(ks: set<Keyword>, es: set<Similarity>, params: Params, k: Keyword)
    requires UniqueIds(ks) && k in ks
    ensures Survivor(ks, es, params, k) <==> !TextTaken(ks, k) && !MeaningTaken(ks, es, params, k)
  {
    PairsAreExact(ks, es, params);
    RepresentativeIsExact(ks, k);
    forall o | o in ks ensures Representative(ks, o) <==> !TextTaken(ks, o) {
      RepresentativeIsExact(ks, o);
    }
    forall o | o in ks ensures Preferred(k, o) <==> !Beats(o, k) {
      if o.id != k.id {
        BeatingIsPreferred(k, o);
        BeatingIsPreferred(o, k);
      } else {
        LanesAreRanked(k.lane, k.lane);
      }
    }
    SelfConnected(SimilarPairs(ks, es, params), k.id);
  }

  lemma SelfConnected(pairs: UF.Pairs, a: Id)
    ensures UF.Connected(pairs, a, a)
  {
  }

  // ----- who is queued, and where -----

  /** Hot enough, and neither its text nor its meaning is taken. */
  ghost predicate Queued(ks: set<Keyword>, es: set<Similarity>, params: Params, k: Keyword) {
    k in ks && k.heat >= params.threshold && !TextTaken(ks, k) && !MeaningTaken(ks, es, params, k)
  }

  /** q lists exactly the queued keywords of the lane, hottest first and then by id. */
  ghost predicate Lists(q: seq<Keyword>, ks: set<Keyword>, es: set<Similarity>, params: Params, lane: Lane) {
    && (forall k :: k in q <==> Queued(ks, es, params, k) && k.lane == lane)
    && forall i, j :: 0 <= i < j < |q| ==> q[i].heat > q[j].heat || (q[i].heat == q[j].heat && q[i].id < q[j].id)
  }

  lemma QueueIsExact(ks: set<Keyword>, es: set<Similarity>, params: Params, lane: Lane, q: seq<Keyword>)
    requires UniqueIds(ks) && IsQueue(q, Candidates(ks, es, params, lane))
    ensures Lists(q, ks, es, params, lane)
  {
    forall k ensures k in q <==> Queued(ks, es, params, k) && k.lane == lane {
      assert k in Elems(q) <==> k in q;
      if k in ks {
        SurvivorIsExact(ks, es, params, k);
      }
    }
    forall i, j | 0 <= i < j < |q|
      ensures q[i].heat > q[j].heat || (q[i].heat == q[j].heat && q[i].id < q[j].id)
    {
      assert HeatLe(q[i], q[j]) && q[i].id != q[j].id;
    }
  }

  /** Where the queue has a bid, and where it has this one. */
  function Bidders(q: seq<Keyword>): set<int> {
    set i | 0 <= i < |q| && q[i].bid.Some?
  }

  function BiddersOf(q: seq<Keyword>, bid: int): set<int> {
    set i | 0 <= i < |q| && q[i].bid == Some(bid)
  }

  /** The bids of the queue, each as often as it occurs. */
  ghost predicate BidsOf(q: seq<Keyword>, bids: seq<int>) {
    |bids| == |Bidders(q)| && forall v: int :: multiset(bids)[v] == |BiddersOf(q, v)|
  }

  lemma {:induction false} PeersAreCounted(q: seq<Keyword>)
    ensures |Peers(q)| == |Bidders(q)|
  {
    if q != [] {
      var n := |q| - 1;
      PeersAreCounted(q[..n]);
      assert n !in Bidders(q[..n]);
      assert Bidders(q) == Bidders(q[..n]) + if q[n].bid.Some? then {n} else {};
    }
  }

  lemma {:induction false} PeerIsCounted(q: seq<Keyword>, v: int)
    ensures multiset(Peers(q))[v] == |BiddersOf(q, v)|
  {
    if q != [] {
      var n := |q| - 1;
      PeerIsCounted(q[..n], v);
      assert n !in BiddersOf(q[..n], v);
      assert BiddersOf(q, v) == BiddersOf(q[..n], v) + if q[n].bid == Some(v) then {n} else {};
    }
  }

  lemma PeersAreTheBids(q: seq<Keyword>)
    ensures BidsOf(q, Peers(q))
  {
    PeersAreCounted(q);
    forall v: int ensures multiset(Peers(q))[v] == |BiddersOf(q, v)| {
      PeerIsCounted(q, v);
    }
  }

  // ----- what a decision says -----

  /** What the bid evidence of place i gives: nothing without a bid, at most zero with fewer than five bids in the
      lane, and otherwise what the bid computation says for the lane's bids. */
  ghost predicate BidGives(q: seq<Keyword>, i: nat, params: Params, wire: Option<int>, reasons: seq<Reason>)
    requires i < |q|
  {
    if q[i].bid == None then wire == None && reasons == [BidEvidenceMissing]
    else if |Bidders(q)| < 5 then
      reasons == [BidPeerSampleInsufficient] && wire == if params.mode == OcpxStableCost then Some(0) else None
    else exists bids, e :: BidsOf(q, bids) && Evidence(q[i].bid.value, bids, params, e)
           && wire == Some(e.wire) && |reasons| == |e.reasons|
           && forall n :: 0 <= n < |reasons| ==> reasons[n] == FromBid(e.reasons[n])
  }

  ghost predicate Evidence(bid: int, bids: seq<int>, params: Params, e: BidEvidence) {
    BidSays(bid, bids, params.low, params.high, params.step, params.mode, Ok(e))
  }

  /** The reasons for which a keyword is not queued, in the order they are noted. */
  ghost function Obstacles(ks: set<Keyword>, es: set<Similarity>, params: Params, k: Keyword): seq<Reason> {
    (if k.heat < params.threshold then [BelowHeatThreshold] else [])
    + (if TextTaken(ks, k) then [ExactDuplicate]
       else if MeaningTaken(ks, es, params, k) then [SemanticDuplicate] else [])
  }

  /** A keyword that is not queued says why; one queued beyond the limit says so; one within it says what its bid
      evidence gives. It is eligible exactly if it has a bid to send. */
  ghost predicate DecisionSays(ks: set<Keyword>, es: set<Similarity>, params: Params, q: seq<Keyword>, k: Keyword,
                               d: Decision)
  {
    && d.id == k.id && d.text == k.text && d.lane == k.lane && (d.eligible <==> d.wire.Some?)
    && if !Queued(ks, es, params, k) then d.wire == None && d.reasons == Obstacles(ks, es, params, k)
       else exists i: nat :: i < |q| && q[i] == k
              && if i < params.limit then BidGives(q, i, params, d.wire, d.reasons)
                 else d.wire == None && d.reasons == [BusinessLimitExceeded]
  }

  lemma BaseIsExact(ks: set<Keyword>, es: set<Similarity>, params: Params, k: Keyword)
    requires UniqueIds(ks) && k in ks
    ensures BaseReasons(ks, es, params, k) == Obstacles(ks, es, params, k)
    ensures Obstacles(ks, es, params, k) == [] <==> Queued(ks, es, params, k)
  {
    RepresentativeIsExact(ks, k);
    SurvivorIsExact(ks, es, params, k);
  }

  lemma VerdictIsExact(q: seq<Keyword>, i: nat, params: Params)
    requires i < |q| && i < params.limit && !Refuses(q, params)
    ensures BidGives(q, i, params, PlaceVerdict(q, i, params).wire, PlaceVerdict(q, i, params).reasons)
  {
    PeersAreTheBids(q);
    if q[i].bid.Some? && |Peers(q)| >= 5 {
      assert !RefusesAt(q, i, params);
      var bid := q[i].bid.value;
      BidIsExact(bid, Peers(q), params.low, params.high, params.step, params.mode);
      var e := BidOf(bid, Peers(q), params.low, params.high, params.step, params.mode).value;
      assert BidsOf(q, Peers(q)) && Evidence(bid, Peers(q), params, e);
    }
  }

  lemma QueuedDecision(ks: set<Keyword>, es: set<Similarity>, params: Params, q: seq<Keyword>, k: Keyword)
    requires UniqueIds(ks) && Lists(q, ks, es, params, k.lane) && Queued(ks, es, params, k) && !Refuses(q, params)
    ensures DecisionSays(ks, es, params, q, k, DecisionOf(ks, es, params, q, k))
  {
    var i := Place(q, k);
    BaseIsExact(ks, es, params, k);
    assert k in q;
    var v := PlaceVerdict(q, i, params);
    assert [] + v.reasons == v.reasons;
    if i < params.limit {
      VerdictIsExact(q, i, params);
    }
  }

  /** Every decision of a correct outcome says exactly that. */
  lemma DecisionsAreExact(ks: set<Keyword>, es: set<Similarity>, params: Params, initial: set<Risk>, queues: Queues,
                          roster: seq<Keyword>, o: Outcome, n: nat)
    requires UniqueIds(ks) && Correct(ks, es, params, initial, queues, roster, o) && !BidRefused(ks, es, params)
    requires n < |roster|
    ensures n < |o.decisions| && Lists(queues[roster[n].lane], ks, es, params, roster[n].lane)
    ensures DecisionSays(ks, es, params, queues[roster[n].lane], roster[n], o.decisions[n])
  {
    var k := roster[n];
    var q := queues[k.lane];
    assert k in Elems(roster);
    assert IsQueue(q, Candidates(ks, es, params, k.lane));
    QueueIsExact(ks, es, params, k.lane, q);
    BaseIsExact(ks, es, params, k);
    if Queued(ks, es, params, k) {
      QueuedDecision(ks, es, params, q, k);
    }
  }

  // ----- what is offered, and what is left out -----

  predicate Hotter(a: Keyword, b: Keyword) {
    a.heat > b.heat || (a.heat == b.heat && a.id < b.id)
  }

  lemma LimitIsPlace(q: seq<Keyword>, i: nat, params: Params)
    requires i < |q| && !Refuses(q, params)
    ensures BusinessLimitExceeded in PlaceVerdict(q, i, params).reasons <==> i >= params.limit
  {
    if i < params.limit {
      VerdictIsExact(q, i, params);
    }
  }

  lemma DecisionPlace(ks: set<Keyword>, es: set<Similarity>, params: Params, initial: set<Risk>, queues: Queues,
                      roster: seq<Keyword>, o: Outcome, n: nat)
    returns (i: nat)
    requires UniqueIds(ks) && Correct(ks, es, params, initial, queues, roster, o) && !BidRefused(ks, es, params)
    requires n < |roster| && Queued(ks, es, params, roster[n])
    ensures Lists(queues[roster[n].lane], ks, es, params, roster[n].lane)
    ensures i < |queues[roster[n].lane]| && queues[roster[n].lane][i] == roster[n]
    ensures BusinessLimitExceeded in o.decisions[n].reasons <==> i >= params.limit
  {
    var k := roster[n];
    var q := queues[k.lane];
    assert k in Elems(roster);
    assert IsQueue(q, Candidates(ks, es, params, k.lane));
    QueueIsExact(ks, es, params, k.lane, q);
    BaseIsExact(ks, es, params, k);
    i := Place(q, k);
    LimitIsPlace(q, i, params);
  }

  /** Nothing that is left out for the limit is as hot as anything that is kept in its lane. */
  lemma KeptAreHotter(ks: set<Keyword>, es: set<Similarity>, params: Params, initial: set<Risk>, queues: Queues,
                      roster: seq<Keyword>, o: Outcome, kept: nat, leftOut: nat)
    requires UniqueIds(ks) && Correct(ks, es, params, initial, queues, roster, o) && !BidRefused(ks, es, params)
    requires kept < |roster| && leftOut < |roster| && roster[kept].lane == roster[leftOut].lane
    requires Queued(ks, es, params, roster[kept]) && Queued(ks, es, params, roster[leftOut])
    requires BusinessLimitExceeded !in o.decisions[kept].reasons
    requires BusinessLimitExceeded in o.decisions[leftOut].reasons
    ensures Hotter(roster[kept], roster[leftOut])
  {
    var i := DecisionPlace(ks, es, params, initial, queues, roster, o, kept);
    var j := DecisionPlace(ks, es, params, initial, queues, roster, o, leftOut);
  }

  /** The ids at some places of q, in order. */
  ghost predicate PickedFrom(ids: seq<Id>, q: seq<Keyword>, places: seq<nat>) {
    && |ids| == |places|
    && (forall i :: 0 <= i < |ids| ==> places[i] < |q| && q[places[i]].id == ids[i])
    && forall i, j :: 0 <= i < j < |ids| ==> places[i] < places[j]
  }

  lemma PickedNext(ids: seq<Id>, q: seq<Keyword>, places: seq<nat>, n: nat)
    requires n < |q| && PickedFrom(ids, q, places) && forall i :: 0 <= i < |places| ==> places[i] < n
    ensures PickedFrom(ids + [q[n].id], q, places + [n])
    ensures forall i :: 0 <= i < |places + [n]| ==> (places + [n])[i] < n + 1
  {
  }

  lemma {:induction false} OfferedIsPicked(q: seq<Keyword>, n: nat, params: Params) returns (places: seq<nat>)
    requires n <= |q|
    ensures PickedFrom(Offered(q, n, params), q, places)
    ensures forall i :: 0 <= i < |places| ==> places[i] < n
  {
    places := [];
    if n > 0 {
      places := OfferedIsPicked(q, n - 1, params);
      if PlaceVerdict(q, n - 1, params).wire.Some? {
        PickedNext(Offered(q, n - 1, params), q, places, n - 1);
        places := places + [n - 1];
      }
    }
  }

  /** A lane offers at most the limit, hottest first. */
  lemma OfferedAreHottest(ks: set<Keyword>, es: set<Similarity>, params: Params, lane: Lane, q: seq<Keyword>, i: nat,
                          j: nat)
    returns (a: Keyword, b: Keyword)
    requires UniqueIds(ks) && IsQueue(q, Candidates(ks, es, params, lane)) && i < j < |Offered(q, |q|, params)|
    ensures |Offered(q, |q|, params)| <= params.limit
    ensures Queued(ks, es, params, a) && Queued(ks, es, params, b) && a.lane == b.lane == lane && Hotter(a, b)
    ensures a.id == Offered(q, |q|, params)[i] && b.id == Offered(q, |q|, params)[j]
  {
    QueueIsExact(ks, es, params, lane, q);
    OfferedWithinLimit(q, |q|, params);
    var places := OfferedIsPicked(q, |q|, params);
    a, b := q[places[i]], q[places[j]];
    assert a in q && b in q;
  }

  // ----- risks and refusals -----

  /** Evidence between two lanes, for keywords whose texts are not taken. */
  predicate Crosses(ks: set<Keyword>, e: Similarity) {
    exists l, r :: l in ks && r in ks && l.id == e.left && r.id == e.right && l.lane != r.lane
                   && !TextTaken(ks, l) && !TextTaken(ks, r)
  }

  ghost predicate SomeCrosses(ks: set<Keyword>, es: set<Similarity>) {
    exists e :: e in es && Crosses(ks, e)
  }

  predicate TwoTexts(ks: set<Keyword>) {
    exists a, b :: a in ks && b in ks && a != b && !TextTaken(ks, a) && !TextTaken(ks, b)
  }

  lemma CrossingIsExact(ks: set<Keyword>, e: Similarity)
    requires UniqueIds(ks)
    ensures CrossesLanes(Representatives(ks), e) <==> Crosses(ks, e)
  {
    forall k | k in ks ensures k in Representatives(ks) <==> !TextTaken(ks, k) {
      RepresentativeIsExact(ks, k);
    }
    if Crosses(ks, e) {
      var l, r :| l in ks && r in ks && l.id == e.left && r.id == e.right && l.lane != r.lane
                  && !TextTaken(ks, l) && !TextTaken(ks, r);
      assert l in Representatives(ks) && r in Representatives(ks);
    }
    if CrossesLanes(Representatives(ks), e) {
      var l, r :| l in Representatives(ks) && r in Representatives(ks) && l.id == e.left && r.id == e.right
                  && l.lane != r.lane;
      assert l in ks && r in ks;
    }
  }

  lemma TwoTextsAreTwo(ks: set<Keyword>)
    requires UniqueIds(ks)
    ensures |Representatives(ks)| > 1 <==> TwoTexts(ks)
  {
    var reps := Representatives(ks);
    forall k | k in ks ensures k in reps <==> !TextTaken(ks, k) {
      RepresentativeIsExact(ks, k);
    }
    TwoElements(reps);
    if a, b :| a in ks && b in ks && a != b && !TextTaken(ks, a) && !TextTaken(ks, b) {
      assert a in reps && b in reps;
    }
    if a, b :| a in reps && b in reps && a != b {
      assert a in ks && b in ks;
    }
  }

  lemma TwoElements(s: set<Keyword>)
    ensures |s| > 1 <==> exists a, b :: a in s && b in s && a != b
  {
    if |s| > 1 {
      var a :| a in s;
      assert |s - {a}| == |s| - 1;
      var b :| b in s - {a};
    }
    if a, b :| a in s && b in s && a != b {
      assert s == {a, b} + (s - {a, b});
    }
  }

  /** The risks say exactly whether evidence crosses lanes, and whether evidence is missing. */
  lemma RisksAreExact(ks: set<Keyword>, es: set<Similarity>, params: Params, initial: set<Risk>)
    requires UniqueIds(ks)
    ensures Risks(ks, es, params, initial)
         == initial + (if params.dedupe && SomeCrosses(ks, es) then {CrossLaneConflict} else {})
            + (if params.dedupe && TwoTexts(ks) && es == {} then {DedupeEvidenceMissing} else {})
  {
    forall e ensures CrossesLanes(Representatives(ks), e) <==> Crosses(ks, e) {
      CrossingIsExact(ks, e);
    }
    if SomeCrosses(ks, es) {
      var e :| e in es && Crosses(ks, e);
      assert CrossesLanes(Representatives(ks), e);
    }
    TwoTextsAreTwo(ks);
  }

  /** Within the limit of its lane, with enough bids to judge, and the computation hands back this error. */
  ghost predicate Fails(q: seq<Keyword>, i: nat, params: Params, error: BidError) {
    && i < |q| && i < params.limit && q[i].bid.Some? && |Bidders(q)| >= 5
    && exists bids :: BidsOf(q, bids)
         && BidSays(q[i].bid.value, bids, params.low, params.high, params.step, params.mode, Err(error))
  }

  /** An evaluation refused for a bid names the error of a place it is owed to. */
  lemma RefusalIsExact(ks: set<Keyword>, es: set<Similarity>, params: Params, error: BidError)
    returns (lane: Lane, q: seq<Keyword>, i: nat)
    requires UniqueIds(ks) && BidRefusedWith(ks, es, params, error)
    ensures Lists(q, ks, es, params, lane) && Fails(q, i, params, error)
  {
    lane, q :| IsQueue(q, Candidates(ks, es, params, lane)) && RefusesWith(q, params, error);
    i :| 0 <= i < |q| && RefusesAtWith(q, i, params, error);
    QueueIsExact(ks, es, params, lane, q);
    PeersAreTheBids(q);
    BidIsExact(q[i].bid.value, Peers(q), params.low, params.high, params.step, params.mode);
  }

  lemma ListsIsQueue(ks: set<Keyword>, es: set<Similarity>, params: Params, lane: Lane, q: seq<Keyword>)
    requires UniqueIds(ks) && Lists(q, ks, es, params, lane)
    ensures IsQueue(q, Candidates(ks, es, params, lane))
  {
    forall i, j | 0 <= i < j < |q| ensures q[i].id != q[j].id && HeatLe(q[i], q[j]) {
      assert q[i] in q && q[j] in q;
    }
    forall k ensures k in Elems(q) <==> k in Candidates(ks, es, params, lane) {
      if k in ks {
        SurvivorIsExact(ks, es, params, k);
      }
    }
  }

  /** And wherever a place is owed bid evidence that cannot be computed, the evaluation is refused. */
  lemma FailureRefuses(ks: set<Keyword>, es: set<Similarity>, params: Params, lane: Lane, q: seq<Keyword>, i: nat,
                       error: BidError)
    requires UniqueIds(ks) && Lists(q, ks, es, params, lane) && Fails(q, i, params, error)
    ensures BidRefused(ks, es, params)
  {
    ListsIsQueue(ks, es, params, lane, q);
    PeersAreTheBids(q);
    assert RefusesAt(q, i, params);
    assert IsQueue(q, Candidates(ks, es, params, lane)) && Refuses(q, params);
  }
}
