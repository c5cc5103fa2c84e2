/** Where the predicted port and the range around it lie, in terms of what was observed
    (server/nat_analyzer.py), for a peer that is not random-like. */
module NatPrediction {
  import opened Wrappers
  import opened Rounding
  import NatTrend
  import opened NatEstimate

  // ---------- the median has as many on either side ----------

  function AtMost(s: seq<int>, x: real): (n: nat)
    ensures n <= |s|
    decreases |s|
  {
    if s == [] then 0 else AtMost(s[..|s| - 1], x) + if s[|s| - 1] as real <= x then 1 else 0
  }

  function AtLeastThat(s: seq<int>, x: real): (n: nat)
    ensures n <= |s|
    decreases |s|
  {
    if s == [] then 0 else AtLeastThat(s[..|s| - 1], x) + if s[|s| - 1] as real >= x then 1 else 0
  }

  lemma {:induction false} CountsJoin(s: seq<int>, t: seq<int>, x: real)
    ensures AtMost(s + t, x) == AtMost(s, x) + AtMost(t, x)
    ensures AtLeastThat(s + t, x) == AtLeastThat(s, x) + AtLeastThat(t, x)
    decreases |t|
  {
    if t == [] {
      assert s + t == s;
    } else {
      assert (s + t)[..|s + t| - 1] == s + t[..|t| - 1];
      CountsJoin(s, t[..|t| - 1], x);
    }
  }

  lemma {:induction false} AllCount(s: seq<int>, x: real)
    ensures (forall i :: 0 <= i < |s| ==> s[i] as real <= x) ==> AtMost(s, x) == |s|
    ensures (forall i :: 0 <= i < |s| ==> s[i] as real >= x) ==> AtLeastThat(s, x) == |s|
    decreases |s|
  {
    if s != [] { AllCount(s[..|s| - 1], x); }
  }

  lemma {:induction false} InsertionCounts(v: int, s: seq<int>, x: real)
    ensures AtMost(Inserted(v, s), x) == AtMost([v] + s, x)
    ensures AtLeastThat(Inserted(v, s), x) == AtLeastThat([v] + s, x)
    decreases |s|
  {
    if s != [] && v > s[0] {
      InsertionCounts(v, s[1..], x);
      assert s == [s[0]] + s[1..];
      CountsJoin([s[0]], Inserted(v, s[1..]), x);
      CountsJoin([v], s[1..], x);
      CountsJoin([v], s, x);
      CountsJoin([s[0]], s[1..], x);
    }
  }

  lemma {:induction false} SortingCounts(s: seq<int>, x: real)
    ensures AtMost(Sorted(s), x) == AtMost(s, x) && AtLeastThat(Sorted(s), x) == AtLeastThat(s, x)
    decreases |s|
  {
    if s != [] {
      SortingCounts(s[1..], x);
      InsertionCounts(s[0], Sorted(s[1..]), x);
      assert s == [s[0]] + s[1..];
      CountsJoin([s[0]], Sorted(s[1..]), x);
      CountsJoin([s[0]], s[1..], x);
    }
  }

  lemma MedianOrders(s: seq<int>)
    requires s != []
    ensures var r, n, m := Sorted(s), |s|, MedianOf(s);
            && (forall i :: 0 <= i < (n + 1) / 2 ==> r[i] as real <= m)
            && (forall i :: n / 2 <= i < n ==> r[i] as real >= m)
  {
    var r, n := Sorted(s), |s|;
    SortedSorts(s);
    hide Sorted;
    assert forall i :: 0 <= i < n ==> (i <= n / 2 ==> r[i] <= r[n / 2]) && (n / 2 <= i ==> r[n / 2] <= r[i]);
    if n % 2 == 0 {
      assert forall i :: 0 <= i < n / 2 ==> r[i] <= r[n / 2 - 1];
    }
  }

  lemma HalvesCount(r: seq<int>, k: nat, x: real)
    requires k <= |r|
    ensures (forall i :: 0 <= i < k ==> r[i] as real <= x) ==> AtMost(r, x) >= k
    ensures (forall i :: k <= i < |r| ==> r[i] as real >= x) ==> AtLeastThat(r, x) >= |r| - k
  {
    hide *;
    var low, high := r[..k], r[k..];
    assert r == low + high;
    CountsJoin(low, high, x);
    AllCount(low, x);
    AllCount(high, x);
    forall i | 0 <= i < |high| ensures high[i] == r[k + i] {}
  }

  /** At least half of the values are no larger than the median, and at least half no smaller. */
  lemma MedianHalves(s: seq<int>)
    requires s != []
    ensures 2 * AtMost(s, MedianOf(s)) >= |s| && 2 * AtLeastThat(s, MedianOf(s)) >= |s|
  {
    MedianOrders(s);
    SortingCounts(s, MedianOf(s));
    HalvesCount(Sorted(s), (|s| + 1) / 2, MedianOf(s));
    HalvesCount(Sorted(s), |s| / 2, MedianOf(s));
    hide AtMost, AtLeastThat, Sorted, MedianOf;
  }

  // ---------- stages that keep the prediction ----------

  lemma BandPattern(a: Analysis)
    requires a.probed != [] && a.blockSize >= 0
    ensures AsBand(a).pattern == a.pattern
  {
    hide Clip, EstimateBand, MedianOf;
  }

  /** Outside the random-like class the classification leaves the prediction alone, and makes
      the range a point where all observations are alike. */
  lemma ClassifyKeepsPoint(a: Analysis, spread: int, external: bool)
    requires a.probed != [] && a.blockSize >= 0
    ensures var c := Classify(a, spread, NamesOf(external));
            !c.pattern.RandomLike? ==>
              && c.predicted == a.predicted && Progression(c).predicted == a.predicted
              && (if spread == 0 then c.scanStart == c.scanEnd == a.predicted && !c.needsScan
                  else c.scanStart == a.scanStart && c.scanEnd == a.scanEnd)
  {
    BandPattern(a.(pattern := RandomLike));
    hide AsBand;
  }

  lemma StretchKeepsPoint(a: Analysis, percent: real)
    ensures var r := WithPrediction(Widened(a, percent));
            && r.predicted == a.predicted && r.pattern == a.pattern
            && (a.scanStart == a.scanEnd == a.predicted ==>
                  r.scanStart == r.scanEnd == a.predicted && r.needsScan == a.needsScan)
            && (MIN_PORT <= a.scanStart && a.scanEnd <= MAX_PORT ==>
                  r.scanStart <= a.scanStart && a.scanEnd <= r.scanEnd)
  {
  }

  /** What the analysis makes of a forecast that does not turn out random-like. */
  lemma PointStays(f: Analysis, spread: int, external: bool, percent: real)
    requires f.probed != [] && f.blockSize >= 0 && MIN_PORT <= f.scanStart && f.scanEnd <= MAX_PORT
    ensures var c := Classify(f, spread, NamesOf(external));
            var r := WithPrediction(Widened(if external then c else Progression(c), percent));
            !r.pattern.RandomLike? ==>
              && r.predicted == f.predicted
              && (if spread == 0 then r.scanStart == r.scanEnd == f.predicted && !r.needsScan
                  else r.scanStart <= f.scanStart && f.scanEnd <= r.scanEnd)
  {
    var c := Classify(f, spread, NamesOf(external));
    ClassifyKeepsPoint(f, spread, external);
    assert Progression(c).scanStart == c.scanStart && Progression(c).scanEnd == c.scanEnd
        && Progression(c).needsScan == c.needsScan && Progression(c).pattern == c.pattern;
    hide Classify, Progression, WithPrediction, Widened;
    StretchKeepsPoint(if external then c else Progression(c), percent);
  }

  // ---------- the forecast ----------

  /** The values a prediction rests on: the offsets, or the ports themselves. */
  function Observed(probes: seq<Probe>, external: bool): seq<int> {
    if external then NatPorts(probes) else Deltas(probes)
  }

  /** What is added to them. */
  function BaseOf(target: int, external: bool): int {
    if external then 0 else target
  }

  function CentreOf(values: seq<int>, external: bool): real
    requires values != []
  {
    if external then MeanOf(values) else MedianOf(values)
  }

  lemma CentreBetween(values: seq<int>, external: bool)
    requires values != []
    ensures MinOf(values) as real <= CentreOf(values, external) <= MaxOf(values) as real
  {
    if external { MeanBetween(values); } else { MedianBetween(values); }
  }

  function Moved(p: int, shift: int): int {
    if shift > 0 then ClampPort(p + shift) else p
  }

  function PredictionOf(probes: seq<Probe>, target: int, external: bool): int
    requires Observed(probes, external) != []
  {
    var centre := CentreOf(Observed(probes, external), external);
    Moved(ClampPort(RoundReal(BaseOf(target, external) as real + centre)), NatTrend.Shift(TrendOf(probes)))
  }

  function ReachOf(probes: seq<Probe>, external: bool, sigma: real): int
    requires Observed(probes, external) != []
  {
    ErrorRange(Observed(probes, external), CentreOf(Observed(probes, external), external), sigma)
  }

  /** The forecast is the rounded centre, moved with the trend, and the range reaches the error
      range far. */
  lemma ForecastIs(probes: seq<Probe>, target: int, external: bool, sigma: real)
    requires probes != [] && (external || Deltas(probes) != [])
    ensures var f := Forecast(probes, target, external, sigma);
            && Observed(probes, external) != [] && f.predicted == PredictionOf(probes, target, external)
            && f.scanStart == Max(MIN_PORT, f.predicted - ReachOf(probes, external, sigma))
            && f.scanEnd == Min(MAX_PORT, f.predicted + ReachOf(probes, external, sigma))
  {
    hide MeanOf, MedianOf, TrendOf, ErrorRange, BlockSize, Deltas, MinOf, MaxOf;
  }

  lemma ClampMonotone(p: int, q: int)
    requires p <= q
    ensures ClampPort(p) <= ClampPort(q)
  {
  }

  lemma CentreRounds(base: int, centre: real, lo: int, hi: int)
    requires lo as real <= centre <= hi as real
    ensures ClampPort(base + lo) <= ClampPort(RoundReal(base as real + centre)) <= ClampPort(base + hi)
  {
    RoundBetween(base as real + centre, base + lo, base + hi);
    ClampMonotone(base + lo, RoundReal(base as real + centre));
    ClampMonotone(RoundReal(base as real + centre), base + hi);
  }

  lemma MovedMonotone(p: int, q: int, shift: int)
    requires p <= q
    ensures Moved(p, shift) <= Moved(q, shift)
  {
  }

  lemma AnalysisIs(probes: seq<Probe>, target: int, external: bool, percent: real, sigma: real)
    requires Estimated(probes, target, external)
    ensures var f := Forecast(probes, target, external, sigma);
            && f.probed != [] && f.blockSize >= 0 && MIN_PORT <= f.scanStart && f.scanEnd <= MAX_PORT
            && var c := Classify(f, SpreadOf(probes, external), NamesOf(external));
               Analyse(probes, target, external, percent, sigma)
                 == WithPrediction(Widened(if external then c else Progression(c), percent))
  {
    ForecastReady(probes, target, external, sigma);
    BlockNotNegative(NatPorts(probes));
    ForecastIs(probes, target, external, sigma);
    hide Forecast, SpreadOf, Classify, Widened, WithPrediction, BlockSize, Preserved, Progression, ErrorRange, MeanOf,
      MedianOf, TrendOf, Deltas;
  }

  /** The analysis of a peer that is not random-like keeps the forecast's point and range. */
  lemma AnalysisKeeps(probes: seq<Probe>, target: int, external: bool, percent: real, sigma: real)
    requires Estimated(probes, target, external)
    ensures var f, r := Forecast(probes, target, external, sigma), Analyse(probes, target, external, percent, sigma);
            !r.pattern.RandomLike? ==>
              && r.predicted == f.predicted
              && (if SpreadOf(probes, external) == 0 then r.scanStart == r.scanEnd == f.predicted && !r.needsScan
                  else r.scanStart <= f.scanStart && f.scanEnd <= r.scanEnd)
  {
    assert probes != [] && (external || Deltas(probes) != []);
    hide *;
    AnalysisIs(probes, target, external, percent, sigma);
    PointStays(Forecast(probes, target, external, sigma), SpreadOf(probes, external), external, percent);
  }

  lemma SpreadIs(probes: seq<Probe>, external: bool)
    requires probes != [] && (external || Deltas(probes) != [])
    ensures var values := Observed(probes, external);
            values != [] && SpreadOf(probes, external) == MaxOf(values) - MinOf(values)
  {
    hide MinOf, MaxOf, Deltas;
  }

  /** Where the analysis ends up, and how far it reaches. */
  lemma AnalysisPlaced(probes: seq<Probe>, target: int, external: bool, percent: real, sigma: real)
    requires Estimated(probes, target, external)
    ensures probes != [] && (external || Deltas(probes) != []) && Observed(probes, external) != []
    ensures var r, p := Analyse(probes, target, external, percent, sigma), PredictionOf(probes, target, external);
            !r.pattern.RandomLike? ==>
              && r.predicted == p
              && (if SpreadOf(probes, external) == 0 then r.scanStart == r.scanEnd == p && !r.needsScan
                  else && r.scanStart <= Max(MIN_PORT, p - ReachOf(probes, external, sigma))
                       && Min(MAX_PORT, p + ReachOf(probes, external, sigma)) <= r.scanEnd)
  {
    assert probes != [] && (external || Deltas(probes) != []);
    hide *;
    ForecastIs(probes, target, external, sigma);
    AnalysisKeeps(probes, target, external, percent, sigma);
  }

  lemma PlacedBetween(base: int, centre: real, lo: int, hi: int, shift: int)
    requires lo as real <= centre <= hi as real
    ensures Moved(ClampPort(base + lo), shift) <= Moved(ClampPort(RoundReal(base as real + centre)), shift)
         <= Moved(ClampPort(base + hi), shift)
  {
    CentreRounds(base, centre, lo, hi);
    hide ClampPort, RoundReal, Moved;
    var at := ClampPort(RoundReal(base as real + centre));
    MovedMonotone(ClampPort(base + lo), at, shift);
    MovedMonotone(at, ClampPort(base + hi), shift);
  }

  lemma PredictionBetween(probes: seq<Probe>, target: int, external: bool)
    requires Observed(probes, external) != []
    ensures var values, base := Observed(probes, external), BaseOf(target, external);
            var shift := NatTrend.Shift(TrendOf(probes));
            Moved(ClampPort(base + MinOf(values)), shift) <= PredictionOf(probes, target, external)
            <= Moved(ClampPort(base + MaxOf(values)), shift)
  {
    hide ClampPort, RoundReal, Moved, CentreOf, MinOf, MaxOf, TrendOf, NatTrend.Shift, Observed, BaseOf;
    var values, base, shift := Observed(probes, external), BaseOf(target, external), NatTrend.Shift(TrendOf(probes));
    CentreBetween(values, external);
    PlacedBetween(base, CentreOf(values, external), MinOf(values), MaxOf(values), shift);
  }

  // ---------- the results ----------

  /** In either mode, for a peer that is not random-like, the predicted port lies between the
      least and the greatest of what was observed, taken from the target's port, and moved
      along with the trend where there is one. */
  lemma PredictionFollowsObservations(probes: seq<Probe>, target: int, external: bool, percent: real, sigma: real)
    requires Estimated(probes, target, external)
    ensures var values, r := Observed(probes, external), Analyse(probes, target, external, percent, sigma);
            var base, shift := BaseOf(target, external), NatTrend.Shift(TrendOf(probes));
            && values != []
            && (!r.pattern.RandomLike? ==>
                  Moved(ClampPort(base + MinOf(values)), shift) <= r.predicted
                  <= Moved(ClampPort(base + MaxOf(values)), shift))
  {
    hide *;
    AnalysisPlaced(probes, target, external, percent, sigma);
    PredictionBetween(probes, target, external);
  }

  /** The port one observation points to. */
  function PointedTo(v: int, base: int, shift: int): int {
    Moved(ClampPort(base + v), shift)
  }

  function PointingUpTo(values: seq<int>, base: int, shift: int, p: int): nat
    decreases |values|
  {
    if values == [] then 0
    else
      var counted := PointingUpTo(values[..|values| - 1], base, shift, p);
      if PointedTo(values[|values| - 1], base, shift) <= p then counted + 1 else counted
  }

  function PointingFrom(values: seq<int>, base: int, shift: int, p: int): nat
    decreases |values|
  {
    if values == [] then 0
    else
      var counted := PointingFrom(values[..|values| - 1], base, shift, p);
      if PointedTo(values[|values| - 1], base, shift) >= p then counted + 1 else counted
  }

  lemma PointedOrder(v: int, base: int, shift: int, m: real)
    ensures var p := Moved(ClampPort(RoundReal(base as real + m)), shift);
            (v as real <= m ==> PointedTo(v, base, shift) <= p) && (v as real >= m ==> PointedTo(v, base, shift) >= p)
  {
    RoundOfInt(base + v);
    if v as real <= m { RoundMonotone((base + v) as real, base as real + m); }
    if v as real >= m { RoundMonotone(base as real + m, (base + v) as real); }
    hide RoundReal;
  }

  lemma {:induction false} PointingCounts(values: seq<int>, base: int, shift: int, m: real)
    ensures var p := Moved(ClampPort(RoundReal(base as real + m)), shift);
            && PointingUpTo(values, base, shift, p) >= AtMost(values, m)
            && PointingFrom(values, base, shift, p) >= AtLeastThat(values, m)
    decreases |values|
  {
    if values != [] {
      PointingCounts(values[..|values| - 1], base, shift, m);
      PointedOrder(values[|values| - 1], base, shift, m);
    }
    hide RoundReal, PointedTo, Moved, ClampPort;
  }

  lemma MedianPointed(values: seq<int>, base: int, shift: int, p: int)
    requires values != [] && p == Moved(ClampPort(RoundReal(base as real + MedianOf(values))), shift)
    ensures 2 * PointingUpTo(values, base, shift, p) >= |values| && 2 * PointingFrom(values, base, shift, p) >= |values|
  {
    hide *;
    MedianHalves(values);
    PointingCounts(values, base, shift, MedianOf(values));
  }

  lemma PointIsMedian(probes: seq<Probe>, target: int)
    requires Observed(probes, false) != []
    ensures var values, p := Observed(probes, false), PredictionOf(probes, target, false);
            var shift := NatTrend.Shift(TrendOf(probes));
            && 2 * PointingUpTo(values, target, shift, p) >= |values|
            && 2 * PointingFrom(values, target, shift, p) >= |values|
  {
    hide PointingUpTo, PointingFrom, Moved, ClampPort, RoundReal, MedianOf, TrendOf, NatTrend.Shift, Observed;
    var shift := NatTrend.Shift(TrendOf(probes));
    MedianPointed(Observed(probes, false), target, shift, PredictionOf(probes, target, false));
  }

  /** By offsets, for a peer that is not random-like: of the ports the observations point to, at
      least half are no higher than the one predicted, and at least half no lower. */
  lemma PredictionIsMedian(probes: seq<Probe>, target: int, percent: real, sigma: real)
    requires Estimated(probes, target, false)
    ensures var values, r := Observed(probes, false), Analyse(probes, target, false, percent, sigma);
            var shift := NatTrend.Shift(TrendOf(probes));
            !r.pattern.RandomLike? ==>
              && 2 * PointingUpTo(values, target, shift, r.predicted) >= |values|
              && 2 * PointingFrom(values, target, shift, r.predicted) >= |values|
  {
    hide *;
    AnalysisPlaced(probes, target, false, percent, sigma);
    PointIsMedian(probes, target);
  }

  /** Observations that are all alike pin the prediction: the one port they point to, moved with
      the trend, and nothing to scan, whatever the manual margin. */
  lemma AlikeIsExact(probes: seq<Probe>, target: int, external: bool, percent: real, sigma: real)
    requires Estimated(probes, target, external) && SpreadOf(probes, external) == 0
    ensures var values, r := Observed(probes, external), Analyse(probes, target, external, percent, sigma);
            && values != [] && MinOf(values) == MaxOf(values) && !r.needsScan
            && r.predicted
               == Moved(ClampPort(BaseOf(target, external) + MinOf(values)), NatTrend.Shift(TrendOf(probes)))
            && r.scanStart == r.scanEnd == r.predicted
  {
    assert probes != [] && (external || Deltas(probes) != []);
    SpreadIs(probes, external);
    PredictionAlike(probes, target, external);
    hide *;
    AlikeIsConstant(probes, target, external, percent, sigma);
    AnalysisPlaced(probes, target, external, percent, sigma);
  }

  lemma PredictionAlike(probes: seq<Probe>, target: int, external: bool)
    requires Observed(probes, external) != []
    ensures var values := Observed(probes, external);
            MinOf(values) == MaxOf(values) ==>
              PredictionOf(probes, target, external)
              == Moved(ClampPort(BaseOf(target, external) + MinOf(values)), NatTrend.Shift(TrendOf(probes)))
  {
    PredictionBetween(probes, target, external);
    hide *;
  }

  lemma AlikeIsConstant(probes: seq<Probe>, target: int, external: bool, percent: real, sigma: real)
    requires Estimated(probes, target, external) && SpreadOf(probes, external) == 0
    ensures !Analyse(probes, target, external, percent, sigma).pattern.RandomLike?
  {
    var f := Forecast(probes, target, external, sigma);
    AnalysisIs(probes, target, external, percent, sigma);
    var c := Classify(f, SpreadOf(probes, external), NamesOf(external));
    assert !c.pattern.RandomLike? && Progression(c).pattern == c.pattern;
    hide Classify, Progression, Forecast, SpreadOf, Analyse, WithPrediction, Widened;
    StretchKeepsPoint(if external then c else Progression(c), percent);
  }

  /** A value within the error range of the centre, as a port in the range around the prediction. */
  lemma RangeReaches(base: int, values: seq<int>, centre: real, sigma: real, v: int)
    requires v in values && MIN_PORT <= base + v <= MAX_PORT
    ensures var p, e := ClampPort(RoundReal(base as real + centre)), ErrorRange(values, centre, sigma);
            Max(MIN_PORT, p - e) <= base + v <= Min(MAX_PORT, p + e)
  {
    DeviationIsMax(values, centre);
    assert Distance(v, centre) <= Deviation(values, centre);
    assert ErrorRange(values, centre, sigma) as real >= Deviation(values, centre) + 1.5 by { hide Deviation; }
    hide Deviation, ErrorRange;
  }

  lemma ReachesPointedTo(probes: seq<Probe>, target: int, external: bool, sigma: real, v: int)
    requires Observed(probes, external) != [] && NatTrend.Shift(TrendOf(probes)) == 0
    requires v in Observed(probes, external) && MIN_PORT <= BaseOf(target, external) + v <= MAX_PORT
    ensures var p, e := PredictionOf(probes, target, external), ReachOf(probes, external, sigma);
            Max(MIN_PORT, p - e) <= BaseOf(target, external) + v <= Min(MAX_PORT, p + e)
    ensures MinOf(Observed(probes, external)) == MaxOf(Observed(probes, external)) ==>
              PredictionOf(probes, target, external) == BaseOf(target, external) + v
  {
    var values := Observed(probes, external);
    OnlyValue(values, v);
    PredictionAlike(probes, target, external);
    RangeReaches(BaseOf(target, external), values, CentreOf(values, external), sigma, v);
    hide CentreOf, MinOf, MaxOf, ErrorRange, RoundReal, TrendOf, NatTrend.Shift, Observed;
  }

  /** Without a trend, and for a peer that is not random-like, the range holds every valid port that an
      observation points to, whatever the classification and the manual margin. */
  lemma RangeHoldsPointedTo(probes: seq<Probe>, target: int, external: bool, percent: real, sigma: real, v: int)
    requires Estimated(probes, target, external) && !TrendOf(probes).significant
    requires v in Observed(probes, external) && MIN_PORT <= BaseOf(target, external) + v <= MAX_PORT
    ensures var r := Analyse(probes, target, external, percent, sigma);
            !r.pattern.RandomLike? ==> r.scanStart <= BaseOf(target, external) + v <= r.scanEnd
  {
    NatTrend.ShiftBounded(TrendOf(probes));
    assert probes != [] && (external || Deltas(probes) != []);
    SpreadIs(probes, external);
    hide *;
    AnalysisPlaced(probes, target, external, percent, sigma);
    ReachesPointedTo(probes, target, external, sigma, v);
  }

  // ---------- margins ----------

  /** The band reaches beyond the extremes by a quarter of their distance, as near as whole ports
      allow, and never past the valid ports. */
  lemma MarginIsQuarter(ports: seq<int>) returns (margin: int)
    requires ports != []
    ensures var lo, hi, b := MinOf(ports), MaxOf(ports), EstimateBand(ports);
            && hi - lo - 2 <= 4 * margin <= hi - lo + 2
            && b.lo == Max(MIN_PORT, lo - margin) && b.hi == Min(MAX_PORT, hi + margin)
  {
    margin := HalfEven(MaxOf(ports) - MinOf(ports), 4);
    hide MinOf, MaxOf;
  }

  /** A manual margin adds its share of the range, to the nearest port, half of it on either side
      with an odd port above, and never past the valid ports. */
  lemma WideningIsShare(a: Analysis, percent: real) returns (below: nat, above: nat)
    requires percent > 0.0 && MIN_PORT <= a.scanStart < a.scanEnd <= MAX_PORT
    ensures var r, share := Widened(a, percent), (a.scanEnd - a.scanStart) as real * (percent / 100.0);
            && share - 0.5 <= (below + above) as real <= share + 0.5 && below <= above <= below + 1
            && r.scanStart == Max(MIN_PORT, a.scanStart - below) && r.scanEnd == Min(MAX_PORT, a.scanEnd + above)
            && r == a.(scanStart := r.scanStart, scanEnd := r.scanEnd, needsScan := a.needsScan || below + above > 0)
  {
    var span := a.scanEnd - a.scanStart;
    RealMulOrder(0.0, span as real, percent / 100.0);
    RoundMonotone(0.0, span as real * (percent / 100.0));
    RoundOfInt(0);
    var extra := Extra(span, percent);
    below, above := extra / 2, extra - extra / 2;
    hide RoundReal, Extra;
  }

  lemma OnlyValue(values: seq<int>, v: int)
    requires v in values
    ensures values != [] && (MinOf(values) == MaxOf(values) ==> v == MinOf(values))
  {
    Within(values, v);
  }
}
