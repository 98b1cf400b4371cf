/** evaluate_keywords: what the staged dedupe and ranked selection decide, stated on sets, so that nothing
    in the statement can depend on the order in which keywords or evidence arrive. */
module Keywords {
  import opened Common
  import opened Sorting
  import opened Quantiles
  import UF = UnionFind

  datatype Lane = Brand | Category | Scenario | Competitor | Guide | Audience | Benefit | Event

  function LaneRank(lane: Lane): nat {
    match lane
    case Brand => 0
    case Category => 1
    case Scenario => 2
    case Competitor => 3
    case Guide => 4
    case Audience => 5
    case Benefit => 6
    case Event => 7
  }

  datatype Keyword = Keyword(id: Id, rawText: Id, text: Id, lane: Lane, heat: int, bid: Option<int>)

  datatype Similarity = Similarity(model: Id, left: Id, right: Id, similarity: real)

  datatype Params = Params(
    threshold: int, dedupe: bool, model: Id, cutoff: real, limit: nat, low: int, high: int, step: int, mode: BidMode)

  datatype Reason =
    | BelowHeatThreshold
    | ExactDuplicate
    | SemanticDuplicate
    | BidEvidenceMissing
    | BidPeerSampleInsufficient
    | BusinessLimitExceeded
    | FromBid(reason: BidReason)

  datatype Risk = ThresholdRisk(code: Id) | CrossLaneConflict | DedupeEvidenceMissing

  datatype Decision = Decision(id: Id, text: Id, lane: Lane, eligible: bool, wire: Option<int>, reasons: seq<Reason>)

  datatype Outcome = Outcome(decisions: seq<Decision>, eligible: map<Lane, seq<Id>>, risks: set<Risk>)

  // ----- orders -----

  /** min(group, key=preference): lane priority, then heat, then id. */
  predicate Preferred(a: Keyword, b: Keyword) {
    || LaneRank(a.lane) < LaneRank(b.lane)
    || (a.lane == b.lane && a.heat > b.heat)
    || (a.lane == b.lane && a.heat == b.heat && a.id <= b.id)
  }

  lemma PreferredOrder(a: Keyword, b: Keyword, c: Keyword)
    ensures Preferred(a, b) || Preferred(b, a)
    ensures Preferred(a, b) && Preferred(b, c) ==> Preferred(a, c)
    ensures Preferred(a, b) && Preferred(b, a) ==> a.id == b.id
  {
  }

  /** Within a lane: heat, then id. */
  predicate HeatLe(a: Keyword, b: Keyword) {
    a.heat > b.heat || (a.heat == b.heat && a.id <= b.id)
  }

  /** Ids identify keywords. */
  ghost predicate UniqueIds(ks: set<Keyword>) {
    forall a, b :: a in ks && b in ks && a.id == b.id ==> a == b
  }

  predicate Distinct(s: seq<Keyword>) {
    forall i, j :: 0 <= i < j < |s| ==> s[i].id != s[j].id
  }

  function Elems(s: seq<Keyword>): set<Keyword> {
    set k | k in s
  }

  lemma DistinctIsUnique(s: seq<Keyword>)
    requires Distinct(s)
    ensures UniqueIds(Elems(s))
  {
  }

  // ----- who survives, on sets -----

  predicate Best(group: set<Keyword>, k: Keyword) {
    k in group && forall o :: o in group ==> Preferred(k, o)
  }

  function SameText(ks: set<Keyword>, k: Keyword): set<Keyword> {
    set o | o in ks && o.text == k.text
  }

  predicate Representative(ks: set<Keyword>, k: Keyword) {
    Best(SameText(ks, k), k)
  }

  function Representatives(ks: set<Keyword>): set<Keyword> {
    set k | k in ks && Representative(ks, k)
  }

  /** Evidence that joins two representatives of one lane. */
  predicate Joins(reps: set<Keyword>, params: Params, e: Similarity) {
    params.dedupe && e.similarity >= params.cutoff
    && exists l, r :: l in reps && r in reps && l.id == e.left && r.id == e.right && l.lane == r.lane
  }

  function Links(ks: set<Keyword>, es: set<Similarity>, params: Params): UF.Pairs {
    set e | e in es && Joins(Representatives(ks), params, e) :: (e.left, e.right)
  }

  ghost function Component(ks: set<Keyword>, es: set<Similarity>, params: Params, k: Keyword): set<Keyword> {
    set o | o in Representatives(ks) && UF.Connected(Links(ks, es, params), k.id, o.id)
  }

  ghost predicate Survivor(ks: set<Keyword>, es: set<Similarity>, params: Params, k: Keyword) {
    Representative(ks, k) && Best(Component(ks, es, params, k), k)
  }

  ghost predicate Queueable(ks: set<Keyword>, es: set<Similarity>, params: Params, lane: Lane, k: Keyword) {
    k in ks && k.lane == lane && k.heat >= params.threshold && Survivor(ks, es, params, k)
  }

  ghost function Candidates(ks: set<Keyword>, es: set<Similarity>, params: Params, lane: Lane): set<Keyword> {
    set k | k in ks && Queueable(ks, es, params, lane, k)
  }

  ghost function BaseReasons(ks: set<Keyword>, es: set<Similarity>, params: Params, k: Keyword): seq<Reason> {
    (if k.heat < params.threshold then [BelowHeatThreshold] else [])
    + (if !Representative(ks, k) then [ExactDuplicate] else [])
    + (if Representative(ks, k) && !Survivor(ks, es, params, k) then [SemanticDuplicate] else [])
  }

  // ----- what a lane does with its queue -----

  /** q lists exactly the given keywords, hottest first. */
  ghost predicate IsQueue(q: seq<Keyword>, ks: set<Keyword>) {
    Distinct(q) && Elems(q) == ks && forall i, j :: 0 <= i < j < |q| ==> HeatLe(q[i], q[j])
  }

  function Peers(q: seq<Keyword>): seq<int> {
    if q == [] then []
    else if q[|q| - 1].bid.Some? then Peers(q[..|q| - 1]) + [q[|q| - 1].bid.value]
    else Peers(q[..|q| - 1])
  }

  function Wrapped(reasons: seq<BidReason>): (r: seq<Reason>)
    ensures |r| == |reasons|
  {
    seq(|reasons|, i requires 0 <= i < |reasons| => FromBid(reasons[i]))
  }

  datatype Verdict = Verdict(wire: Option<int>, reasons: seq<Reason>)

  /** The bid of one keyword within the limit. */
  function BidVerdict(q: seq<Keyword>, k: Keyword, params: Params): Verdict {
    if k.bid.None? then Verdict(None, [BidEvidenceMissing])
    else if |Peers(q)| < 5 then
      Verdict(if params.mode == OcpxStableCost then Some(0) else None, [BidPeerSampleInsufficient])
    else
      match BidOf(k.bid.value, Peers(q), params.low, params.high, params.step, params.mode)
      case Ok(e) => Verdict(Some(e.wire), Wrapped(e.reasons))
      case Err(_) => Verdict(None, [BidEvidenceMissing])
  }

  /** The bid computation of place i refuses, and with it the whole evaluation: an unverified bid mode, invalid
      bounds or a negative bid, met at a place that needs bid evidence. */
  predicate RefusesAt(q: seq<Keyword>, i: nat, params: Params)
    requires i < |q|
  {
    && i < params.limit && q[i].bid.Some? && |Peers(q)| >= 5
    && (q[i].bid.value < 0 || !(0 <= params.low <= params.high && params.step > 0) || params.mode.OtherMode?)
  }

  predicate Refuses(q: seq<Keyword>, params: Params) {
    exists i :: 0 <= i < |q| && RefusesAt(q, i, params)
  }

  /** The bid computation of place i raises this error. */
  predicate RefusesAtWith(q: seq<Keyword>, i: nat, params: Params, error: BidError)
    requires i < |q|
  {
    && RefusesAt(q, i, params)
    && BidOf(q[i].bid.value, Peers(q), params.low, params.high, params.step, params.mode) == Err(error)
  }

  predicate RefusesWith(q: seq<Keyword>, params: Params, error: BidError) {
    exists i :: 0 <= i < |q| && RefusesAtWith(q, i, params, error)
  }

  ghost predicate BidRefusedWith(ks: set<Keyword>, es: set<Similarity>, params: Params, error: BidError) {
    exists lane: Lane, q: seq<Keyword> :: IsQueue(q, Candidates(ks, es, params, lane)) && RefusesWith(q, params, error)
  }

  /** Some lane's queue does. */
  ghost predicate BidRefused(ks: set<Keyword>, es: set<Similarity>, params: Params) {
    exists lane: Lane, q: seq<Keyword> :: IsQueue(q, Candidates(ks, es, params, lane)) && Refuses(q, params)
  }

  function PlaceVerdict(q: seq<Keyword>, i: nat, params: Params): Verdict
    requires i < |q|
  {
    if i < params.limit then BidVerdict(q, q[i], params) else Verdict(None, [BusinessLimitExceeded])
  }

  /** The ids a lane finally offers, among its first n places. */
  function Offered(q: seq<Keyword>, n: nat, params: Params): seq<Id>
    requires n <= |q|
  {
    if n == 0 then []
    else if PlaceVerdict(q, n - 1, params).wire.Some? then Offered(q, n - 1, params) + [q[n - 1].id]
    else Offered(q, n - 1, params)
  }

  // ----- the whole outcome -----

  function Place(q: seq<Keyword>, k: Keyword): (i: nat)
    ensures i <= |q|
    ensures i < |q| ==> q[i] == k
    ensures i == |q| <==> k !in q
  {
    if q == [] then 0
    else if q[0] == k then 0
    else 1 + Place(q[1..], k)
  }

  ghost function DecisionOf(ks: set<Keyword>, es: set<Similarity>, params: Params, q: seq<Keyword>, k: Keyword)
    : Decision
  {
    var base, i := BaseReasons(ks, es, params, k), Place(q, k);
    if i < |q| then
      var v := PlaceVerdict(q, i, params);
      Decision(k.id, k.text, k.lane, v.wire.Some?, v.wire, base + v.reasons)
    else Decision(k.id, k.text, k.lane, false, None, base)
  }

  /** A sequence of exactly these keywords by id. */
  ghost predicate IsRoster(roster: seq<Keyword>, ks: set<Keyword>) {
    Elems(roster) == ks && forall i, j :: 0 <= i < j < |roster| ==> roster[i].id < roster[j].id
  }

  ghost function Risks(ks: set<Keyword>, es: set<Similarity>, params: Params, initial: set<Risk>): set<Risk> {
    initial
    + (if params.dedupe && exists e :: e in es && CrossesLanes(Representatives(ks), e) then {CrossLaneConflict} else {})
    + (if params.dedupe && |Representatives(ks)| > 1 && es == {} then {DedupeEvidenceMissing} else {})
  }

  predicate CrossesLanes(reps: set<Keyword>, e: Similarity) {
    exists l, r :: l in reps && r in reps && l.id == e.left && r.id == e.right && l.lane != r.lane
  }

  type Queues = map<Lane, seq<Keyword>>

  ghost predicate QueuesFit(ks: set<Keyword>, es: set<Similarity>, params: Params, queues: Queues) {
    forall lane: Lane :: lane in queues && IsQueue(queues[lane], Candidates(ks, es, params, lane))
  }

  /** The outcome the program owes for these keywords and this evidence. */
  ghost predicate Correct(ks: set<Keyword>, es: set<Similarity>, params: Params, initial: set<Risk>,
                          queues: Queues, roster: seq<Keyword>, o: Outcome) {
    && QueuesFit(ks, es, params, queues)
    && IsRoster(roster, ks)
    && |o.decisions| == |roster|
    && (forall i :: 0 <= i < |roster| ==>
        o.decisions[i] == DecisionOf(ks, es, params, queues[roster[i].lane], roster[i]))
    && (forall lane: Lane :: lane in o.eligible && o.eligible[lane] == Offered(queues[lane], |queues[lane]|, params))
    && o.risks == Risks(ks, es, params, initial)
  }

  // ----- the outcome is unique, so no input order can matter -----

  lemma HeatOrder(a: Keyword, b: Keyword)
    ensures HeatLe(a, b) && HeatLe(b, a) ==> a.id == b.id
  {
  }

  /** Two orderly listings of the same keywords are the same listing. */
  lemma {:induction false} QueueUnique(a: seq<Keyword>, b: seq<Keyword>, ks: set<Keyword>)
    requires UniqueIds(ks) && IsQueue(a, ks) && IsQueue(b, ks)
    ensures a == b
    decreases |a|
  {
    EmptyTogether(a, b);
    if a != [] {
      FirstIsHottest(a, b, ks);
      QueueTail(a, ks);
      QueueTail(b, ks);
      QueueUnique(a[1..], b[1..], ks - {a[0]});
      assert a == [a[0]] + a[1..] && b == [b[0]] + b[1..];
    }
  }

  /** Whether a lane refuses does not depend on how its queue was found. */
  lemma NoLaneRefuses(ks: set<Keyword>, es: set<Similarity>, params: Params, queues: Queues)
    requires UniqueIds(ks) && QueuesFit(ks, es, params, queues)
               && forall lane: Lane :: lane in queues ==> !Refuses(queues[lane], params)
    ensures !BidRefused(ks, es, params)
  {
    forall lane: Lane, q: seq<Keyword> | IsQueue(q, Candidates(ks, es, params, lane)) ensures !Refuses(q, params) {
      QueueUnique(q, queues[lane], Candidates(ks, es, params, lane));
    }
  }

  /** With a verified mode, valid bounds and non-negative bids, no bid is refused. */
  lemma ProperBidsAreNotRefused(ks: set<Keyword>, es: set<Similarity>, params: Params)
    requires 0 <= params.low <= params.high && params.step > 0 && !params.mode.OtherMode?
    requires forall k :: k in ks && k.bid.Some? ==> k.bid.value >= 0
    ensures !BidRefused(ks, es, params)
  {
    forall lane: Lane, q: seq<Keyword> | IsQueue(q, Candidates(ks, es, params, lane)) ensures !Refuses(q, params) {
      forall i | 0 <= i < |q| ensures !RefusesAt(q, i, params) {
        assert q[i] in Elems(q);
      }
    }
  }

  lemma EmptyTogether(a: seq<Keyword>, b: seq<Keyword>)
    requires Elems(a) == Elems(b)
    ensures a == [] <==> b == []
  {
    if a != [] {
      assert a[0] in Elems(a);
    }
    if b != [] {
      assert b[0] in Elems(b);
    }
  }

  lemma FirstIsHottest(a: seq<Keyword>, b: seq<Keyword>, ks: set<Keyword>)
    requires UniqueIds(ks) && IsQueue(a, ks) && IsQueue(b, ks) && a != [] && b != []
    ensures a[0] == b[0]
  {
    assert b[0] in Elems(b) && a[0] in Elems(a);
    var i :| 0 <= i < |a| && a[i] == b[0];
    var j :| 0 <= j < |b| && b[j] == a[0];
    assert i == 0 || HeatLe(a[0], a[i]);
    assert j == 0 || HeatLe(b[0], b[j]);
    HeatOrder(a[0], b[0]);
  }

  lemma QueueTail(q: seq<Keyword>, ks: set<Keyword>)
    requires IsQueue(q, ks) && q != []
    ensures IsQueue(q[1..], ks - {q[0]})
  {
    forall k ensures k in Elems(q[1..]) <==> k in ks - {q[0]} {
      if k in ks && k != q[0] {
        assert k in Elems(q);
        var i :| 0 <= i < |q| && q[i] == k;
        assert q[1..][i - 1] == k;
      }
    }
  }

  lemma {:induction false} RosterUnique(a: seq<Keyword>, b: seq<Keyword>, ks: set<Keyword>)
    requires IsRoster(a, ks) && IsRoster(b, ks)
    ensures a == b
    decreases |a|
  {
    EmptyTogether(a, b);
    if a != [] {
      assert a[0] in Elems(a) && b[0] in Elems(b);
      var i :| 0 <= i < |a| && a[i] == b[0];
      var j :| 0 <= j < |b| && b[j] == a[0];
      assert a[0] == b[0];
      RosterTail(a, ks);
      RosterTail(b, ks);
      RosterUnique(a[1..], b[1..], ks - {a[0]});
      assert a == [a[0]] + a[1..] && b == [b[0]] + b[1..];
    }
  }

  lemma RosterTail(q: seq<Keyword>, ks: set<Keyword>)
    requires IsRoster(q, ks) && q != []
    ensures IsRoster(q[1..], ks - {q[0]})
  {
    forall k ensures k in Elems(q[1..]) <==> k in ks - {q[0]} {
      if k in ks && k != q[0] {
        assert k in Elems(q);
        var i :| 0 <= i < |q| && q[i] == k;
        assert q[1..][i - 1] == k;
      }
    }
  }

  /** Correctness leaves no freedom: for one set of keywords and one set of evidence there is one outcome,
      in whatever order, and with whatever repetition of evidence, the program met them. */
  lemma OutcomeIsUnique(ks: set<Keyword>, es: set<Similarity>, params: Params, initial: set<Risk>,
                        queues: Queues, roster: seq<Keyword>, o: Outcome,
                        otherQueues: Queues, otherRoster: seq<Keyword>, other: Outcome)
    requires UniqueIds(ks)
    requires Correct(ks, es, params, initial, queues, roster, o)
    requires Correct(ks, es, params, initial, otherQueues, otherRoster, other)
    ensures o == other
  {
    forall lane: Lane ensures queues[lane] == otherQueues[lane] {
      QueueUnique(queues[lane], otherQueues[lane], Candidates(ks, es, params, lane));
    }
    RosterUnique(roster, otherRoster, ks);
    assert o.decisions == other.decisions;
    assert o.eligible == other.eligible;
  }

  // ----- what the outcome guarantees -----

  lemma SurvivorsDiffer(ks: set<Keyword>, es: set<Similarity>, params: Params, a: Keyword, b: Keyword)
    requires UniqueIds(ks) && a in ks && b in ks
    requires Survivor(ks, es, params, a) && Survivor(ks, es, params, b) && a != b
    ensures a.text != b.text && !UF.Connected(Links(ks, es, params), a.id, b.id)
  {
    PreferredOrder(a, b, a);
    assert a.text == b.text ==> b in SameText(ks, a) && a in SameText(ks, b);
    ConnectedBothWays(Links(ks, es, params), a.id, b.id);
    assert UF.Connected(Links(ks, es, params), a.id, b.id) ==>
        b in Component(ks, es, params, a) && a in Component(ks, es, params, b);
  }

  lemma ConnectedBothWays(pairs: UF.Pairs, a: Id, b: Id)
    ensures UF.Connected(pairs, a, b) ==> UF.Connected(pairs, b, a)
  {
    if UF.Connected(pairs, a, b) {
      UF.ConnectedSymmetric(pairs, a, b);
    }
  }

  /** No two keywords queued anywhere share a normalized text or are joined by the evidence. */
  lemma QueuedKeywordsDiffer(ks: set<Keyword>, es: set<Similarity>, params: Params, queues: Queues, a: Keyword,
                             b: Keyword)
    requires UniqueIds(ks) && QueuesFit(ks, es, params, queues)
    requires a in queues[a.lane] && b in queues[b.lane] && a != b
    ensures a.text != b.text && !UF.Connected(Links(ks, es, params), a.id, b.id)
  {
    assert a in Elems(queues[a.lane]) && b in Elems(queues[b.lane]);
    SurvivorsDiffer(ks, es, params, a, b);
  }

  /** Evidence never joins keywords of different lanes, not even through others. */
  lemma ComponentsStayInLane(ks: set<Keyword>, es: set<Similarity>, params: Params, a: Keyword, b: Keyword)
    requires UniqueIds(ks) && a in Representatives(ks) && b in Representatives(ks)
    requires UF.Connected(Links(ks, es, params), a.id, b.id)
    ensures a.lane == b.lane
  {
    var reps := Representatives(ks);
    var inLane := set k | k in reps && k.lane == a.lane :: k.id;
    assert UF.Closed(Links(ks, es, params), inLane) by {
      forall e | e in Links(ks, es, params) ensures e.0 in inLane <==> e.1 in inLane {
        LinkStaysInLane(ks, es, params, e, a.lane, inLane);
      }
    }
    assert b.id in inLane;
  }

  lemma LinkStaysInLane(ks: set<Keyword>, es: set<Similarity>, params: Params, e: (Id, Id), lane: Lane, inLane: set<Id>)
    requires UniqueIds(ks) && e in Links(ks, es, params)
    requires inLane == set k | k in Representatives(ks) && k.lane == lane :: k.id
    ensures e.0 in inLane <==> e.1 in inLane
  {
    var reps := Representatives(ks);
    var l, r :| l in reps && r in reps && l.id == e.0 && r.id == e.1 && l.lane == r.lane;
    assert forall k :: k in reps && k.id == l.id ==> k == l;
    assert forall k :: k in reps && k.id == r.id ==> k == r;
  }

  lemma {:induction false} OfferedWithinLimit(q: seq<Keyword>, n: nat, params: Params)
    requires n <= |q|
    ensures |Offered(q, n, params)| <= Min(n, params.limit)
    ensures forall id :: id in Offered(q, n, params) <==>
              exists i :: 0 <= i < n && q[i].id == id && PlaceVerdict(q, i, params).wire.Some?
  {
    if n > 0 {
      OfferedWithinLimit(q, n - 1, params);
    }
  }

  /** Every ineligible keyword carries a reason. */
  lemma IneligibleHasReason(ks: set<Keyword>, es: set<Similarity>, params: Params, queues: Queues, k: Keyword)
    requires QueuesFit(ks, es, params, queues) && k in ks
    ensures var d := DecisionOf(ks, es, params, queues[k.lane], k); d.eligible || d.reasons != []
  {
    var q := queues[k.lane];
    assert k in Elems(q) <==> Queueable(ks, es, params, k.lane, k);
  }
}
