/** Type 7 quantiles and the keyword bid derived from them, over the reals. */
module Quantiles {
  import opened Common
  import opened Sorting

  predicate RealLe(a: real, b: real) {
    a <= b
  }

  lemma RealOrder()
    ensures TotalOrder(RealLe)
  {
  }

  // ----- interpolation between order statistics -----

  function Ceiling(h: real): int {
    if h == h.Floor as real then h.Floor else h.Floor + 1
  }

  /** The value at fractional position h of an ordered sample. */
  function At(ordered: seq<real>, h: real): real
    requires ordered != [] && 0.0 <= h <= (|ordered| - 1) as real
  {
    var lower, upper := h.Floor, Ceiling(h);
    if lower == upper then ordered[lower]
    else Mix(ordered[lower], ordered[upper], h - lower as real)
  }

  function Mix(a: real, b: real, t: real): real {
    a + t * (b - a)
  }

  function Position(n: nat, p: real): (h: real)
    requires n > 0 && 0.0 <= p <= 1.0
    ensures 0.0 <= h <= (n - 1) as real
  {
    Scaled((n - 1) as real, p);
    (n - 1) as real * p
  }

  lemma Scaled(n: real, p: real)
    requires 0.0 <= n && 0.0 <= p <= 1.0
    ensures 0.0 <= n * p <= n
  {
    if p < 1.0 {
      assert n - n * p == n * (1.0 - p);
    }
  }

  /** quantile_type7; None where it raises. */
  function QuantileType7(values: seq<real>, p: real): Option<real> {
    if values == [] || !(0.0 <= p <= 1.0) then None
    else Some(At(SortBy(values, RealLe), Position(|values|, p)))
  }

  lemma NonNegative(x: real, y: real)
    requires 0.0 <= x && 0.0 <= y
    ensures 0.0 <= x * y
  {
  }

  lemma MixBetween(a: real, b: real, t: real)
    requires a <= b && 0.0 <= t <= 1.0
    ensures a <= Mix(a, b, t) <= b
  {
    NonNegative(t, b - a);
    NonNegative(1.0 - t, b - a);
    assert b - Mix(a, b, t) == (1.0 - t) * (b - a);
  }

  lemma AtWhole(ordered: seq<real>, k: nat)
    requires k < |ordered|
    ensures At(ordered, k as real) == ordered[k]
  {
  }

  /** Interpolated values stay within their segment. */
  lemma AtInSegment(ordered: seq<real>, h: real)
    requires ordered != [] && 0.0 <= h <= (|ordered| - 1) as real && Sorted(ordered, RealLe)
    ensures ordered[h.Floor] <= At(ordered, h) <= ordered[Ceiling(h)]
  {
    if h.Floor != Ceiling(h) {
      assert RealLe(ordered[h.Floor], ordered[h.Floor + 1]);
      MixBetween(ordered[h.Floor], ordered[h.Floor + 1], h - h.Floor as real);
    }
  }

  lemma AtMonotone(ordered: seq<real>, g: real, h: real)
    requires ordered != [] && 0.0 <= g <= h <= (|ordered| - 1) as real && Sorted(ordered, RealLe)
    ensures At(ordered, g) <= At(ordered, h)
  {
    AtInSegment(ordered, g);
    AtInSegment(ordered, h);
    if g.Floor == h.Floor {
      if g.Floor != Ceiling(g) {
        SameSegment(ordered[h.Floor], ordered[h.Floor + 1], g - g.Floor as real, h - h.Floor as real);
      }
    } else if Ceiling(g) < h.Floor {
      assert RealLe(ordered[Ceiling(g)], ordered[h.Floor]);
    }
  }

  lemma SameSegment(a: real, b: real, s: real, t: real)
    requires s <= t
    ensures a <= b ==> Mix(a, b, s) <= Mix(a, b, t)
  {
    if a <= b {
      NonNegative(t - s, b - a);
      assert Mix(a, b, t) - Mix(a, b, s) == (t - s) * (b - a);
    }
  }

  lemma Steeper(slope: real, s: real, t: real)
    requires 0.0 <= slope && s <= t
    ensures s * slope <= t * slope
  {
  }

  lemma PositionMonotone(n: nat, p: real, q: real)
    requires n > 0 && 0.0 <= p <= q <= 1.0
    ensures Position(n, p) <= Position(n, q)
  {
    var m := (n - 1) as real;
    Steeper(m, p, q);
    assert m * p == p * m && m * q == q * m;
  }

  /** The quantile never falls as the probability rises. */
  lemma QuantileMonotone(values: seq<real>, p: real, q: real)
    requires values != [] && 0.0 <= p <= q <= 1.0
    ensures QuantileType7(values, p).value <= QuantileType7(values, q).value
  {
    RealOrder();
    SortBySorted(values, RealLe);
    PositionMonotone(|values|, p, q);
    AtMonotone(SortBy(values, RealLe), Position(|values|, p), Position(|values|, q));
  }

  /** The quantile depends on the values only as a multiset. */
  lemma QuantileOfMultiset(values: seq<real>, others: seq<real>, p: real)
    requires multiset(values) == multiset(others)
    ensures QuantileType7(values, p) == QuantileType7(others, p)
  {
    RealOrder();
    SortsAgree(values, others, RealLe);
    SameSize(values, others);
  }

  predicate LeastOf(x: real, values: seq<real>) {
    x in values && forall i :: 0 <= i < |values| ==> x <= values[i]
  }

  predicate GreatestOf(x: real, values: seq<real>) {
    x in values && forall i :: 0 <= i < |values| ==> values[i] <= x
  }

  lemma EndsAreExtremes(values: seq<real>, ordered: seq<real>)
    requires values != [] && multiset(values) == multiset(ordered) && |ordered| == |values| && Sorted(ordered, RealLe)
    ensures LeastOf(ordered[0], values) && GreatestOf(ordered[|ordered| - 1], values)
  {
    SameMembers(values, ordered, ordered[0]);
    SameMembers(values, ordered, ordered[|ordered| - 1]);
    forall i | 0 <= i < |values| ensures ordered[0] <= values[i] <= ordered[|ordered| - 1] {
      SameMembers(values, ordered, values[i]);
      var k :| 0 <= k < |ordered| && ordered[k] == values[i];
      assert k == 0 || RealLe(ordered[0], ordered[k]);
      assert k == |ordered| - 1 || RealLe(ordered[k], ordered[|ordered| - 1]);
    }
  }

  lemma EndPositions(n: nat)
    requires n > 0
    ensures Position(n, 0.0) == 0 as real && Position(n, 1.0) == (n - 1) as real
  {
  }

  lemma WholeQuantile(values: seq<real>, p: real, k: nat)
    requires k < |values| && 0.0 <= p <= 1.0 && Position(|values|, p) == k as real
    ensures QuantileType7(values, p) == Some(SortBy(values, RealLe)[k])
  {
    AtWhole(SortBy(values, RealLe), k);
  }

  lemma ExtremeQuantiles(values: seq<real>)
    requires values != []
    ensures QuantileType7(values, 0.0) == Some(SortBy(values, RealLe)[0])
    ensures QuantileType7(values, 1.0) == Some(SortBy(values, RealLe)[|values| - 1])
  {
    EndPositions(|values|);
    WholeQuantile(values, 0.0, 0);
    WholeQuantile(values, 1.0, |values| - 1);
  }

  lemma SortIsSorted(values: seq<real>)
    ensures Sorted(SortBy(values, RealLe), RealLe)
  {
    RealOrder();
    SortBySorted(values, RealLe);
  }

  lemma SortEndsAreExtremes(values: seq<real>, ordered: seq<real>)
    requires values != [] && ordered == SortBy(values, RealLe)
    ensures LeastOf(ordered[0], values) && GreatestOf(ordered[|values| - 1], values)
  {
    SortIsSorted(values);
    EndsAreExtremes(values, ordered);
  }

  lemma ExtremesAreQuantiles(values: seq<real>, least: real, greatest: real)
    requires values != []
    requires QuantileType7(values, 0.0) == Some(least) && QuantileType7(values, 1.0) == Some(greatest)
    ensures LeastOf(least, values) && GreatestOf(greatest, values)
  {
    SortEndsAreExtremes(values, SortBy(values, RealLe));
    ExtremeQuantiles(values);
  }

  /** Every quantile lies between the least and the greatest value, which are the quantiles at 0 and 1. */
  lemma QuantileWithinExtremes(values: seq<real>, p: real, least: real, greatest: real)
    requires values != [] && 0.0 <= p <= 1.0
    requires QuantileType7(values, 0.0) == Some(least) && QuantileType7(values, 1.0) == Some(greatest)
    ensures LeastOf(least, values) && GreatestOf(greatest, values)
    ensures least <= QuantileType7(values, p).value <= greatest
  {
    ExtremesAreQuantiles(values, least, greatest);
    QuantileMonotone(values, 0.0, p);
    QuantileMonotone(values, p, 1.0);
  }

  // ----- the interpolation itself -----

  /** The values in order. */
  ghost predicate Arranges(ordered: seq<real>, values: seq<real>) {
    multiset(ordered) == multiset(values) && forall i, j :: 0 <= i < j < |ordered| ==> ordered[i] <= ordered[j]
  }

  lemma ArrangedIsSorted(ordered: seq<real>, values: seq<real>)
    requires Arranges(ordered, values)
    ensures ordered == SortBy(values, RealLe) && |ordered| == |values|
  {
    RealOrder();
    SortBySorted(values, RealLe);
    assert forall i, j :: 0 <= i < j < |ordered| ==> RealLe(ordered[i], ordered[j]);
    SortedUnique(ordered, SortBy(values, RealLe), RealLe);
  }

  lemma AtBetween(ordered: seq<real>, k: nat, g: real)
    requires k + 1 < |ordered| && 0.0 <= g <= 1.0
    ensures At(ordered, k as real + g) == ordered[k] + g * (ordered[k + 1] - ordered[k])
  {
    var h := k as real + g;
    if g == 1.0 {
      AtWhole(ordered, k + 1);
    } else if g == 0.0 {
      AtWhole(ordered, k);
    } else {
      assert h.Floor == k;
    }
  }

  /** The quantile at k / (n - 1) is the k-th smallest value, counted from 0. */
  lemma QuantileAtKnot(values: seq<real>, ordered: seq<real>, p: real, k: nat)
    requires Arranges(ordered, values) && k < |values| && 0.0 <= p <= 1.0 && (|values| - 1) as real * p == k as real
    ensures |ordered| == |values| && QuantileType7(values, p) == Some(ordered[k])
  {
    ArrangedIsSorted(ordered, values);
    WholeQuantile(values, p, k);
  }

  lemma QuantileAtPosition(values: seq<real>, ordered: seq<real>, p: real, h: real)
    requires Arranges(ordered, values) && values != [] && 0.0 <= p <= 1.0 && h == (|values| - 1) as real * p
    ensures |ordered| == |values| && 0.0 <= h <= (|ordered| - 1) as real
    ensures QuantileType7(values, p) == Some(At(ordered, h))
  {
    ArrangedIsSorted(ordered, values);
    assert h == Position(|values|, p);
  }

  /** Between two neighbouring knots the quantile runs along a straight line from one value to the next: g of the
      way from the k-th to the next smallest value. */
  lemma QuantileInterpolates(values: seq<real>, ordered: seq<real>, p: real, k: nat, g: real)
    requires Arranges(ordered, values) && k + 1 < |values| && 0.0 <= p <= 1.0 && 0.0 <= g <= 1.0
    requires (|values| - 1) as real * p == k as real + g
    ensures |ordered| == |values|
    ensures QuantileType7(values, p) == Some(ordered[k] + g * (ordered[k + 1] - ordered[k]))
  {
    QuantileAtPosition(values, ordered, p, k as real + g);
    AtBetween(ordered, k, g);
  }

  /** Two points a step apart, and a third h steps from the first. */
  lemma Cross(m: real, a: real, b: real, rise: real, h: real)
    requires m * b == 1.0 && m * a == h
    ensures h * rise * b == rise * a
  {
    calc {
      h * rise * b;
    ==
      m * a * rise * b;
    ==  { assert m * a * rise * b == a * rise * (m * b); }
      a * rise * (m * b);
    ==
      rise * a;
    }
  }

  lemma Between(m: real, p: real, q: real, h: real, g: real)
    requires 0.0 <= m && p <= q && h == m * p && g == m * q
    ensures h <= g && m * (q - p) == g - h
  {
    NonNegative(m, q - p);
  }

  lemma Affine(q0: real, q: real, q1: real, m: real, a: real, b: real, h: real)
    requires q == q0 + h * (q1 - q0) && m * a == h && m * b == 1.0
    ensures (q - q0) * b == (q1 - q0) * a
  {
    Cross(m, a, b, q1 - q0, h);
  }

  lemma SortArranges(values: seq<real>)
    ensures Arranges(SortBy(values, RealLe), values)
  {
    RealOrder();
    SortBySorted(values, RealLe);
    var ordered := SortBy(values, RealLe);
    assert forall i, j :: 0 <= i < j < |ordered| ==> RealLe(ordered[i], ordered[j]);
  }

  lemma Ends(values: seq<real>, ordered: seq<real>, p0: real, p1: real, k: nat)
    requires Arranges(ordered, values) && k + 1 < |values| && 0.0 <= p0 <= 1.0 && 0.0 <= p1 <= 1.0
    requires (|values| - 1) as real * p0 == k as real && (|values| - 1) as real * p1 == (k + 1) as real
    ensures |ordered| == |values|
    ensures QuantileType7(values, p0) == Some(ordered[k]) && QuantileType7(values, p1) == Some(ordered[k + 1])
  {
    QuantileAtKnot(values, ordered, p0, k);
    QuantileAtKnot(values, ordered, p1, k + 1);
  }

  /** How far p is along the segment, in parts of its width. */
  lemma Along(m: real, p0: real, p: real, p1: real, k: real) returns (part: real, width: real, g: real)
    requires 0.0 <= m && p0 <= p <= p1 && m * p0 == k && m * p1 == k + 1.0
    ensures m * p == k + g && 0.0 <= g <= 1.0
    ensures part == p - p0 && width == p1 - p0 && m * part == g && m * width == 1.0
  {
    g := m * p - k;
    part, width := p - p0, p1 - p0;
    Between(m, p0, p, k, k + g);
    Between(m, p, p1, k + g, k + 1.0);
    Between(m, p0, p1, k, k + 1.0);
  }

  lemma Rise(a: real, b: real, m: real, part: real, width: real, g: real) returns (q: real)
    requires m * part == g && m * width == 1.0
    ensures q == a + g * (b - a) && (q - a) * width == (b - a) * part
  {
    q := a + g * (b - a);
    Affine(a, q, b, m, part, width, g);
  }

  lemma SegmentQuantiles(values: seq<real>, ordered: seq<real>, p0: real, p: real, p1: real, k: nat, g: real, q: real)
    requires Arranges(ordered, values) && k + 1 < |ordered| == |values|
    requires 0.0 <= p0 <= 1.0 && 0.0 <= p <= 1.0 && 0.0 <= p1 <= 1.0 && 0.0 <= g <= 1.0
    requires (|values| - 1) as real * p0 == k as real && (|values| - 1) as real * p1 == (k + 1) as real
    requires (|values| - 1) as real * p == k as real + g
    requires q == ordered[k] + g * (ordered[k + 1] - ordered[k])
    ensures QuantileType7(values, p0) == Some(ordered[k]) && QuantileType7(values, p1) == Some(ordered[k + 1])
    ensures QuantileType7(values, p) == Some(q)
  {
    Ends(values, ordered, p0, p1, k);
    QuantileInterpolates(values, ordered, p, k, g);
  }

  /** In other words: on each segment between neighbouring knots p0 and p1 it is affine in the probability. */
  lemma QuantileIsAffine(values: seq<real>, p0: real, p: real, p1: real, k: nat)
    returns (q0: real, q: real, q1: real, part: real, width: real)
    requires k + 1 < |values| && 0.0 <= p0 <= p <= p1 <= 1.0
    requires (|values| - 1) as real * p0 == k as real && (|values| - 1) as real * p1 == (k + 1) as real
    ensures QuantileType7(values, p0) == Some(q0) && QuantileType7(values, p) == Some(q)
    ensures QuantileType7(values, p1) == Some(q1)
    ensures part == p - p0 && width == p1 - p0
    ensures (q - q0) * width == (q1 - q0) * part
  {
    var ordered, m, g := SortBy(values, RealLe), (|values| - 1) as real, 0.0;
    SortArranges(values);
    part, width, g := Along(m, p0, p, p1, k as real);
    q0, q1 := ordered[k], ordered[k + 1];
    q := Rise(q0, q1, m, part, width, g);
    SegmentQuantiles(values, ordered, p0, p, p1, k, g, q);
  }

  // ----- winsorizing -----

  function Clamp(x: real, lower: real, upper: real): real {
    var raised := if x < lower then lower else x;
    if raised > upper then upper else raised
  }

  function WinsorizeType7(values: seq<real>, low: real, high: real): Option<seq<real>> {
    var lower, upper := QuantileType7(values, low), QuantileType7(values, high);
    if lower.None? || upper.None? then None
    else Some(seq(|values|, i requires 0 <= i < |values| => Clamp(values[i], lower.value, upper.value)))
  }

  /** Winsorizing pulls values into the quantile range, changes only those outside it, and never swaps
      the order of two values. */
  lemma WinsorizeClamps(values: seq<real>, low: real, high: real, i: nat, j: nat)
    requires values != [] && 0.0 <= low <= high <= 1.0 && i < |values| && j < |values|
    ensures var lower, upper, w := QuantileType7(values, low).value, QuantileType7(values, high).value,
                                   WinsorizeType7(values, low, high).value;
            && |w| == |values| && lower <= w[i] <= upper
            && (w[i] == values[i] <==> lower <= values[i] <= upper)
            && (values[i] <= values[j] ==> w[i] <= w[j])
  {
    QuantileMonotone(values, low, high);
  }

  // ----- the bid -----

  datatype BidMode = OcpxStableCost | ManualKeyword | OtherMode(name: Id)

  datatype BidReason =
    | IqrRule
    | MadFallback
    | NoOutlierZeroSpread
    | OutlierReplacedWithP50
    | StepOrBoundApplied
    | OcpxEvidenceOnly

  datatype BidEvidence = BidEvidence(
    input: int, baseline: int, rawCandidate: real, roundedCandidate: int, wire: int, reasons: seq<BidReason>)

  datatype BidError = BidSampleInvalid | BidBoundsInvalid | BidModeUnverified

  function Reals(values: seq<int>): (r: seq<real>)
    ensures |r| == |values|
  {
    seq(|values|, i requires 0 <= i < |values| => values[i] as real)
  }

  /** statistics.median. */
  function Median(values: seq<real>): real
    requires values != []
  {
    var ordered, n := SortBy(values, RealLe), |values|;
    if n % 2 == 1 then ordered[n / 2] else (ordered[n / 2 - 1] + ordered[n / 2]) / 2.0
  }

  lemma HalfPosition(n: nat)
    requires n > 0
    ensures n % 2 == 1 ==> Position(n, 0.5) == (n / 2) as real
    ensures n % 2 == 0 ==> Position(n, 0.5) == (n / 2 - 1) as real + 0.5
  {
    var k := n / 2;
    assert n == 2 * k || n == 2 * k + 1;
    assert Position(n, 0.5) == (n - 1) as real * 0.5;
  }

  lemma AtMiddle(ordered: seq<real>, k: nat)
    requires k + 1 < |ordered|
    ensures At(ordered, k as real + 0.5) == (ordered[k] + ordered[k + 1]) / 2.0
  {
    var h := k as real + 0.5;
    assert h.Floor == k;
  }

  /** The two ways the code takes a median agree. */
  lemma MedianIsQuantile(values: seq<real>)
    requires values != []
    ensures QuantileType7(values, 0.5) == Some(Median(values))
  {
    var n, ordered := |values|, SortBy(values, RealLe);
    HalfPosition(n);
    if n % 2 == 1 {
      AtWhole(ordered, n / 2);
    } else {
      AtMiddle(ordered, n / 2 - 1);
    }
  }

  function Abs(x: real): real {
    if x < 0.0 then -x else x
  }

  function Deviations(values: seq<real>, center: real): seq<real> {
    seq(|values|, i requires 0 <= i < |values| => Abs(values[i] - center))
  }

  /** round(): to the nearest integer, ties to the even one. */
  function Round(x: real): int {
    var below := x.Floor;
    var rest := x - below as real;
    if rest < 0.5 then below
    else if rest > 0.5 then below + 1
    else if below % 2 == 0 then below else below + 1
  }

  /** int(): truncation toward zero. */
  function Truncate(x: real): int {
    if x >= 0.0 then x.Floor else Ceiling(x)
  }

  datatype Spread = Spread(p25: real, p50: real, p75: real, mad: real)

  function SpreadOf(peers: seq<int>): Spread
    requires peers != []
  {
    var values := Reals(peers);
    var p50 := QuantileType7(values, 0.5).value;
    Spread(QuantileType7(values, 0.25).value, p50, QuantileType7(values, 0.75).value, Median(Deviations(values, p50)))
  }

  predicate Outlier(bid: int, s: Spread) {
    var iqr := s.p75 - s.p25;
    if iqr > 0.0 then bid as real > s.p75 + 1.5 * iqr
    else s.mad > 0.0 && bid as real > s.p50 + 3.0 * 1.4826 * s.mad
  }

  function Baseline(bid: int, s: Spread): int {
    if Outlier(bid, s) then Round(s.p50) else bid
  }

  /** The largest multiple of the step not above x. */
  function StepDown(x: real, step: int): int
    requires step > 0
  {
    (x / step as real).Floor * step
  }

  function Candidate(baseline: int, low: int, high: int, step: int): int
    requires step > 0
  {
    Min(Max(StepDown(baseline as real * 0.7, step), low), high)
  }

  function SpreadReason(s: Spread): BidReason {
    if s.p75 - s.p25 > 0.0 then IqrRule
    else if s.mad > 0.0 then MadFallback
    else NoOutlierZeroSpread
  }

  function JudgeReasons(bid: int, s: Spread): seq<BidReason> {
    if Outlier(bid, s) then [SpreadReason(s), OutlierReplacedWithP50] else [SpreadReason(s)]
  }

  function BidReasons(bid: int, s: Spread, candidate: int, mode: BidMode): seq<BidReason> {
    var judged := JudgeReasons(bid, s);
    var applied := candidate != Truncate(Baseline(bid, s) as real * 0.7);
    var stepped := if applied then judged + [StepOrBoundApplied] else judged;
    if mode == OcpxStableCost then stepped + [OcpxEvidenceOnly] else stepped
  }

  function Derived(bid: int, s: Spread, low: int, high: int, step: int, mode: BidMode): Result<BidEvidence, BidError>
    requires step > 0
  {
    if mode.OtherMode? then Err(BidModeUnverified)
    else
      var candidate := Candidate(Baseline(bid, s), low, high, step);
      Ok(BidEvidence(bid, Baseline(bid, s), Baseline(bid, s) as real * 0.7, candidate,
                     if mode == OcpxStableCost then 0 else candidate, BidReasons(bid, s, candidate, mode)))
  }

  function BidOf(bid: int, peers: seq<int>, low: int, high: int, step: int, mode: BidMode)
    : Result<BidEvidence, BidError>
  {
    if bid < 0 || |peers| < 5 then Err(BidSampleInvalid)
    else if !(0 <= low <= high && step > 0) then Err(BidBoundsInvalid)
    else Derived(bid, SpreadOf(peers), low, high, step, mode)
  }

  // ----- what the evidence says -----

  /** Nearest integer, the even one of two. */
  predicate Nearest(n: int, x: real) {
    && x - 0.5 <= n as real <= x + 0.5
    && (n as real == x - 0.5 || n as real == x + 0.5 ==> n % 2 == 0)
  }

  /** Nearest integer on the side of zero. */
  predicate TowardZero(n: int, x: real) {
    if x >= 0.0 then n as real <= x < (n + 1) as real else (n - 1) as real < x <= n as real
  }

  /** The quartiles, the median and the median deviation of the peers. */
  ghost predicate SpreadIs(peers: seq<int>, s: Spread) {
    var values := seq(|peers|, i requires 0 <= i < |peers| => peers[i] as real);
    var distances := seq(|peers|, i requires 0 <= i < |peers| =>
                       if values[i] < s.p50 then s.p50 - values[i] else values[i] - s.p50);
    && QuantileType7(values, 0.25) == Some(s.p25) && QuantileType7(values, 0.5) == Some(s.p50)
    && QuantileType7(values, 0.75) == Some(s.p75) && QuantileType7(distances, 0.5) == Some(s.mad)
  }

  /** The bid lies above the fence: by the quartiles, or where they coincide by the median deviation. */
  predicate Beyond(bid: int, s: Spread) {
    if s.p25 < s.p75 then bid as real > s.p75 + 1.5 * (s.p75 - s.p25)
    else s.mad > 0.0 && bid as real > s.p50 + 4.4478 * s.mad
  }

  /** The m-th multiple of the step is the last one not above x. */
  predicate LastStep(x: real, step: int, m: int) {
    (m * step) as real <= x < ((m + 1) * step) as real
  }

  predicate ReasonsSay(bid: int, s: Spread, e: BidEvidence, mode: BidMode) {
    var first := if s.p25 < s.p75 then IqrRule else if s.mad > 0.0 then MadFallback else NoOutlierZeroSpread;
    e.reasons == [first] + (if Beyond(bid, s) then [OutlierReplacedWithP50] else [])
                 + (if TowardZero(e.roundedCandidate, e.rawCandidate) then [] else [StepOrBoundApplied])
                 + (if mode == OcpxStableCost then [OcpxEvidenceOnly] else [])
  }

  /** A bid beyond the fence is replaced by the rounded median; 70% of the baseline, stepped down and brought within
      the bounds, is the candidate; it is what is sent, unless the mode only takes the evidence. */
  ghost predicate EvidenceSays(bid: int, s: Spread, low: int, high: int, step: int, mode: BidMode, e: BidEvidence) {
    && e.input == bid && (if Beyond(bid, s) then Nearest(e.baseline, s.p50) else e.baseline == bid)
    && e.rawCandidate == 0.7 * e.baseline as real
    && (exists m: int :: LastStep(e.rawCandidate, step, m)
          && e.roundedCandidate == if m * step > high then high else if m * step < low then low else m * step)
    && e.wire == (if mode == OcpxStableCost then 0 else e.roundedCandidate)
    && ReasonsSay(bid, s, e, mode)
  }

  /** What a bid computation hands back, error or evidence. */
  ghost predicate BidSays(bid: int, peers: seq<int>, low: int, high: int, step: int, mode: BidMode,
                          r: Result<BidEvidence, BidError>)
  {
    var sampled, bounded := bid >= 0 && |peers| >= 5, 0 <= low <= high && step > 0;
    match r
    case Err(BidSampleInvalid) => !sampled
    case Err(BidBoundsInvalid) => sampled && !bounded
    case Err(BidModeUnverified) => sampled && bounded && mode.OtherMode?
    case Ok(e) =>
      && sampled && bounded && !mode.OtherMode?
      && exists s: Spread :: SpreadIs(peers, s) && EvidenceSays(bid, s, low, high, step, mode, e)
  }

  lemma RoundIsNearest(x: real)
    ensures Nearest(Round(x), x)
  {
  }

  lemma TruncateIsExact(x: real, n: int)
    ensures TowardZero(n, x) <==> n == Truncate(x)
  {
  }

  lemma StepIsLast(x: real, step: int)
    requires step > 0
    ensures LastStep(x, step, (x / step as real).Floor)
  {
    var m := (x / step as real).Floor;
    StepDownIsBelow(x, step);
    MoreStepsExceed(x, step, m + 1);
  }

  lemma SpreadIsExact(peers: seq<int>)
    requires peers != []
    ensures SpreadIs(peers, SpreadOf(peers))
  {
    var s, values := SpreadOf(peers), Reals(peers);
    assert values == seq(|peers|, i requires 0 <= i < |peers| => peers[i] as real);
    var distances := seq(|peers|, i requires 0 <= i < |peers| =>
                       if values[i] < s.p50 then s.p50 - values[i] else values[i] - s.p50);
    assert distances == Deviations(values, s.p50);
    MedianIsQuantile(distances);
  }

  lemma CandidateIsExact(baseline: int, low: int, high: int, step: int)
    requires 0 <= low <= high && step > 0
    ensures exists m: int :: LastStep(0.7 * baseline as real, step, m)
              && Candidate(baseline, low, high, step)
                 == if m * step > high then high else if m * step < low then low else m * step
  {
    var x := baseline as real * 0.7;
    var m := (x / step as real).Floor;
    StepIsLast(x, step);
    assert LastStep(0.7 * baseline as real, step, m);
  }

  lemma EvidenceIsExact(bid: int, s: Spread, low: int, high: int, step: int, mode: BidMode)
    requires 0 <= low <= high && step > 0 && !mode.OtherMode?
    ensures EvidenceSays(bid, s, low, high, step, mode, Derived(bid, s, low, high, step, mode).value)
  {
    var e := Derived(bid, s, low, high, step, mode).value;
    RoundIsNearest(s.p50);
    CandidateIsExact(e.baseline, low, high, step);
    TruncateIsExact(e.rawCandidate, e.roundedCandidate);
  }

  lemma BidIsExact(bid: int, peers: seq<int>, low: int, high: int, step: int, mode: BidMode)
    ensures BidSays(bid, peers, low, high, step, mode, BidOf(bid, peers, low, high, step, mode))
  {
    if bid >= 0 && |peers| >= 5 && 0 <= low <= high && step > 0 && !mode.OtherMode? {
      SpreadIsExact(peers);
      EvidenceIsExact(bid, SpreadOf(peers), low, high, step, mode);
    }
  }

  /** Judge the bid against the peers' spread. */
  method Judge(bid: int, s: Spread) returns (isOutlier: bool, reasons: seq<BidReason>)
    ensures isOutlier == Outlier(bid, s)
    ensures reasons == JudgeReasons(bid, s)
  {
    reasons, isOutlier := [], false;
    var iqr := s.p75 - s.p25;
    if iqr > 0.0 {
      isOutlier := bid as real > s.p75 + 1.5 * iqr;
      reasons := reasons + [IqrRule];
    } else if s.mad > 0.0 {
      isOutlier := bid as real > s.p50 + 3.0 * 1.4826 * s.mad;
      reasons := reasons + [MadFallback];
    } else {
      reasons := reasons + [NoOutlierZeroSpread];
    }
    if isOutlier {
      reasons := reasons + [OutlierReplacedWithP50];
    }
  }

  method ComputeBid(bid: int, peers: seq<int>, low: int, high: int, step: int, mode: BidMode)
    returns (r: Result<BidEvidence, BidError>)
    ensures r == BidOf(bid, peers, low, high, step, mode)
    ensures BidSays(bid, peers, low, high, step, mode, r)
  {
    BidIsExact(bid, peers, low, high, step, mode);
    if bid < 0 || |peers| < 5 {
      return Err(BidSampleInvalid);
    }
    if !(0 <= low <= high && step > 0) {
      return Err(BidBoundsInvalid);
    }
    r := Derive(bid, SpreadOf(peers), low, high, step, mode);
  }

  method Derive(bid: int, s: Spread, low: int, high: int, step: int, mode: BidMode)
    returns (r: Result<BidEvidence, BidError>)
    requires step > 0
    ensures r == Derived(bid, s, low, high, step, mode)
  {
    var isOutlier, reasons := Judge(bid, s);
    var baseline := if isOutlier then Round(s.p50) else bid;
    var raw := baseline as real * 0.7;
    var rounded := StepDown(raw, step);
    rounded := Min(Max(rounded, low), high);
    assert rounded == Candidate(baseline, low, high, step);
    if rounded != Truncate(raw) {
      reasons := reasons + [StepOrBoundApplied];
    }
    var wire := rounded;
    match mode {
      case OcpxStableCost =>
        wire := 0;
        reasons := reasons + [OcpxEvidenceOnly];
      case ManualKeyword =>
      case OtherMode(_) => return Err(BidModeUnverified);
    }
    r := Ok(BidEvidence(bid, baseline, raw, rounded, wire, reasons));
  }

  lemma RoundBelow(x: real, n: int)
    requires x <= n as real
    ensures Round(x) <= n
  {
  }

  /** An input bid is only ever lowered: the baseline is the bid itself or, for a bid above the peers'
      outlier fence, their rounded median, which is not above it. */
  lemma BaselineNeverRaisesBid(bid: int, peers: seq<int>)
    requires peers != []
    ensures Baseline(bid, SpreadOf(peers)) <= bid
    ensures Outlier(bid, SpreadOf(peers)) ==> SpreadOf(peers).p50 < bid as real
  {
    var s := SpreadOf(peers);
    QuantileMonotone(Reals(peers), 0.25, 0.5);
    QuantileMonotone(Reals(peers), 0.5, 0.75);
    if Outlier(bid, s) {
      RoundBelow(s.p50, bid);
    }
  }

  lemma DivideMultiply(x: real, y: real)
    requires y > 0.0
    ensures x / y * y == x
  {
  }

  lemma CastProduct(a: int, b: int)
    ensures (a * b) as real == a as real * b as real
  {
  }

  lemma IntProducts(a: int, b: int, factor: int)
    requires a <= b && factor > 0
    ensures a * factor <= b * factor
  {
  }

  lemma StepDownIsBelow(x: real, step: int)
    requires step > 0
    ensures StepDown(x, step) as real <= x
  {
    var q := x / step as real;
    DivideMultiply(x, step as real);
    Steeper(step as real, q.Floor as real, q);
    CastProduct(q.Floor, step);
  }

  lemma MoreStepsExceed(x: real, step: int, k: int)
    requires step > 0 && k > (x / step as real).Floor
    ensures (k * step) as real > x
  {
    var q := x / step as real;
    assert k as real > q;
    DivideMultiply(x, step as real);
    StrictlySteeper(step as real, q, k as real);
    CastProduct(k, step);
  }

  /** StepDown really is the largest multiple of the step that does not exceed x. */
  lemma StepDownIsLargest(x: real, step: int, k: int)
    requires step > 0
    ensures StepDown(x, step) as real <= x
    ensures (k * step) as real <= x ==> k * step <= StepDown(x, step)
  {
    StepDownIsBelow(x, step);
    if k > (x / step as real).Floor {
      MoreStepsExceed(x, step, k);
    } else {
      IntProducts(k, (x / step as real).Floor, step);
    }
  }

  lemma StrictlySteeper(slope: real, s: real, t: real)
    requires 0.0 < slope && s < t
    ensures s * slope < t * slope
  {
  }

  lemma CandidateFits(baseline: int, low: int, high: int, step: int)
    requires 0 <= low <= high && step > 0
    ensures low <= Candidate(baseline, low, high, step) <= high
    ensures Candidate(baseline, low, high, step) as real <= baseline as real * 0.7
              || Candidate(baseline, low, high, step) == low
  {
    StepDownIsLargest(baseline as real * 0.7, step, 0);
  }

  /** The candidate stays within the platform's bounds and is at most 70% of the baseline, unless the
      lower bound is higher still; hence it never exceeds both the input bid and the lower bound. */
  lemma CandidateIsBounded(bid: int, peers: seq<int>, low: int, high: int, step: int, mode: BidMode)
    requires BidOf(bid, peers, low, high, step, mode).Ok?
    ensures var e := BidOf(bid, peers, low, high, step, mode).value;
            && e.baseline <= bid
            && low <= e.roundedCandidate <= high
            && (e.roundedCandidate as real <= e.baseline as real * 0.7 || e.roundedCandidate == low)
            && e.roundedCandidate <= Max(bid, low)
            && e.wire in {0, e.roundedCandidate}
  {
    BaselineNeverRaisesBid(bid, peers);
    CandidateFits(Baseline(bid, SpreadOf(peers)), low, high, step);
  }
}
