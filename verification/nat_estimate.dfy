/** What an analysis of probes says about the peer's ports: the estimators of
    server/nat_analyzer.py on values. `NatAnalyzer` runs them field by field. */
module NatEstimate {
  import opened Wrappers
  import opened Rounding
  import NatTrend
  import NatCandidates

  const MIN_PORT: int := 1024
  const MAX_PORT: int := 65535
  const RANDOM_LIKE_ERROR_RANGE: int := 100

  datatype Pattern =
    | Unknown | InsufficientData | PortPreserved | RandomLike
    | Constant | SmallRange | MediumRange | LargeRange
    | ConstantDelta | SmallDeltaRange | MediumDeltaRange | LargeDeltaRange

  datatype Names = Names(constant: Pattern, small: Pattern, medium: Pattern, large: Pattern, random: Pattern)

  const EXTERNAL_NAMES: Names := Names(Constant, SmallRange, MediumRange, LargeRange, RandomLike)
  const DELTA_NAMES: Names := Names(ConstantDelta, SmallDeltaRange, MediumDeltaRange, LargeDeltaRange, RandomLike)

  datatype Allocation = Undetermined | PortPreserving | StableOffset | Progressive | RandomInBand

  datatype Origin = NoPrediction | Extrapolated | ObservedMedian

  datatype Probe = Probe(natPort: int, localPort: int, time: real)

  datatype Analysis = Analysis(
    probed: seq<int>, locals: seq<int>, minPort: int, maxPort: int, portRange: int,
    deltaMin: int, deltaMax: int, deltaMedian: real,
    predicted: int, errorRange: int, portRate: real, predictedShift: int, trendR2: real,
    origin: Origin, pattern: Pattern, allocation: Allocation,
    needsScan: bool, scanStart: int, scanEnd: int,
    bandLow: int, bandHigh: int, blockSize: int, hitProbability: real)
  {
    /** What the choice of candidates reads. */
    function Range(): NatCandidates.Estimate {
      NatCandidates.Estimate(needsScan, scanStart, scanEnd, minPort, maxPort, predicted, pattern.RandomLike?)
    }
  }

  const BLANK: Analysis := Analysis([], [], 0, 0, 0, 0, 0, 0.0, 0, 0, 0.0, 0, 0.0,
                                    NoPrediction, Unknown, Undetermined, false, 0, 0, 0, 0, 0, 0.0)

  function ClampPort(p: int): (r: int)
    ensures MIN_PORT <= r <= MAX_PORT && (MIN_PORT <= p <= MAX_PORT ==> r == p)
  {
    Max(MIN_PORT, Min(MAX_PORT, p))
  }

  // ---------- statistics ----------

  function MinOf(s: seq<int>): int
    requires s != []
    decreases |s|
  {
    if |s| == 1 then s[0] else Min(MinOf(s[..|s| - 1]), s[|s| - 1])
  }

  function MaxOf(s: seq<int>): int
    requires s != []
    decreases |s|
  {
    if |s| == 1 then s[0] else Max(MaxOf(s[..|s| - 1]), s[|s| - 1])
  }

  lemma {:induction false} ExtremesBound(s: seq<int>)
    requires s != []
    ensures MinOf(s) <= MaxOf(s)
    ensures MinOf(s) in s && MaxOf(s) in s && forall i :: 0 <= i < |s| ==> MinOf(s) <= s[i] <= MaxOf(s)
    decreases |s|
  {
    if |s| > 1 {
      ExtremesBound(s[..|s| - 1]);
      assert s == s[..|s| - 1] + [s[|s| - 1]];
    }
  }

  lemma Within(s: seq<int>, v: int)
    requires v in s
    ensures s != [] && MinOf(s) <= v <= MaxOf(s)
  {
    ExtremesBound(s);
    var i :| 0 <= i < |s| && s[i] == v;
  }

  function Total(s: seq<int>): int
    decreases |s|
  {
    if s == [] then 0 else Total(s[..|s| - 1]) + s[|s| - 1]
  }

  function MeanOf(s: seq<int>): real
    requires s != []
  {
    Total(s) as real / |s| as real
  }

  function Inserted(x: int, s: seq<int>): (r: seq<int>)
    ensures |r| == |s| + 1
    decreases |s|
  {
    if s == [] then [x]
    else if x <= s[0] then [x] + s
    else [s[0]] + Inserted(x, s[1..])
  }

  function Sorted(s: seq<int>): (r: seq<int>)
    ensures |r| == |s|
    decreases |s|
  {
    if s == [] then [] else Inserted(s[0], Sorted(s[1..]))
  }

  function MedianOf(s: seq<int>): real
    requires s != []
  {
    var r, n := Sorted(s), |s|;
    if n % 2 == 1 then r[n / 2] as real else (r[n / 2 - 1] + r[n / 2]) as real / 2.0
  }

  /** The largest distance from a centre. */
  function Deviation(s: seq<int>, centre: real): (d: real)
    requires s != []
    ensures d >= 0.0
    decreases |s|
  {
    var x := s[|s| - 1] as real - centre;
    var here := if x < 0.0 then -x else x;
    if |s| == 1 then here
    else
      var before := Deviation(s[..|s| - 1], centre);
      if before < here then here else before
  }

  function SquaresAround(s: seq<int>, centre: real): real
    decreases |s|
  {
    if s == [] then 0.0
    else SquaresAround(s[..|s| - 1], centre) + (s[|s| - 1] as real - centre) * (s[|s| - 1] as real - centre)
  }

  /** `pstdev`: the root is given, not computed. */
  predicate IsDeviation(sigma: real, s: seq<int>) {
    && s != [] && sigma >= 0.0
    && sigma * sigma * |s| as real == SquaresAround(s, MeanOf(s))
  }

  // ---------- a band of ports ----------

  predicate FitsBlock(lo: int, hi: int, size: int)
    requires size > 0
  {
    hi - lo < size && lo / size == hi / size && 20 * (size - (hi - lo)) <= size
  }

  const BLOCK_SIZES: seq<int> := [256, 512, 1024, 2048, 4096]

  function FirstBlock(lo: int, hi: int, i: nat): (size: int)
    ensures size == 0 || (size >= 256 && FitsBlock(lo, hi, size))
    decreases 5 - i
  {
    if i >= 5 then 0
    else if FitsBlock(lo, hi, BLOCK_SIZES[i]) then BLOCK_SIZES[i]
    else FirstBlock(lo, hi, i + 1)
  }

  /** `_blockgroesse`. */
  function BlockSize(ports: seq<int>): int
    requires ports != []
  {
    if |ports| < 8 then 0 else FirstBlock(MinOf(ports), MaxOf(ports), 0)
  }

  datatype Band = Band(lo: int, hi: int, rate: real)

  /** `_band_schaetzen`. */
  function EstimateBand(ports: seq<int>): Band
    requires ports != []
  {
    var n, lo, hi := |ports|, MinOf(ports), MaxOf(ports);
    var margin := HalfEven(hi - lo, 4);
    Band(Max(MIN_PORT, lo - margin), Min(MAX_PORT, hi + margin),
         if n >= 2 then (n - 1) as real / (n + 1) as real else 0.0)
  }

  /** A block only cuts the band. */
  function Clip(b: Band, block: int, minPort: int): Band
    requires block >= 0
  {
    if block == 0 then b
    else
      var base := minPort / block * block;
      b.(lo := Max(b.lo, base), hi := Min(b.hi, base + block - 1))
  }

  /** A prediction outside the band gives way to the observed median. */
  function InBand(a: Analysis): Analysis
    requires a.probed != []
  {
    if a.scanStart <= a.predicted <= a.scanEnd then a.(origin := Extrapolated)
    else a.(predicted := ClampPort(RoundReal(MedianOf(a.probed))), origin := ObservedMedian)
  }

  function OverBand(a: Analysis, b: Band): Analysis {
    a.(allocation := RandomInBand, scanStart := b.lo, scanEnd := b.hi, bandLow := b.lo, bandHigh := b.hi,
       needsScan := true, hitProbability := b.rate)
  }

  /** `_als_band`. */
  function AsBand(a: Analysis): Analysis
    requires a.probed != [] && a.blockSize >= 0
  {
    InBand(OverBand(a, Clip(EstimateBand(a.probed), a.blockSize, a.minPort)))
  }

  /** `_einordnen`. */
  function Classify(a: Analysis, spread: int, names: Names): Analysis
    requires a.probed != [] && a.blockSize >= 0
  {
    if spread == 0 then
      a.(pattern := names.constant, allocation := StableOffset, needsScan := false, errorRange := 0,
         scanStart := a.predicted, scanEnd := a.predicted, hitProbability := 1.0)
    else if a.errorRange <= 5 then a.(pattern := names.small, allocation := StableOffset)
    else if a.errorRange <= 30 then a.(pattern := names.medium, allocation := StableOffset)
    else if a.errorRange <= RANDOM_LIKE_ERROR_RANGE then a.(pattern := names.large, allocation := StableOffset)
    else AsBand(a.(pattern := names.random))
  }

  /** The ports a manual margin in percent adds in all. */
  function Extra(span: int, percent: real): int {
    RoundReal(span as real * (percent / 100.0))
  }

  /** `_bereich_erweitern`. */
  function Widened(a: Analysis, percent: real): Analysis {
    var span := a.scanEnd - a.scanStart;
    if percent <= 0.0 || a.scanStart <= 0 || a.scanEnd <= 0 || span <= 0 then a
    else
      var extra := Extra(span, percent);
      if extra <= 0 then a
      else
        a.(scanStart := Max(MIN_PORT, a.scanStart - extra / 2),
           scanEnd := Min(MAX_PORT, a.scanEnd + (extra - extra / 2)), needsScan := true)
  }

  /** `_ensure_range_contains_prediction`. */
  function WithPrediction(a: Analysis): Analysis {
    if a.scanStart <= 0 || a.scanEnd <= 0 then a
    else
      a.(scanStart := if a.predicted < a.scanStart then Max(MIN_PORT, a.predicted) else a.scanStart,
         scanEnd := if a.predicted > a.scanEnd then Min(MAX_PORT, a.predicted) else a.scanEnd)
  }

  // ---------- the analysis ----------

  function NatPorts(probes: seq<Probe>): (s: seq<int>)
    ensures |s| == |probes| && forall i :: 0 <= i < |s| ==> s[i] == probes[i].natPort
  {
    seq(|probes|, i requires 0 <= i < |probes| => probes[i].natPort)
  }

  function LocalPorts(probes: seq<Probe>): (s: seq<int>)
    ensures |s| == |probes| && forall i :: 0 <= i < |s| ==> s[i] == probes[i].localPort
  {
    seq(|probes|, i requires 0 <= i < |probes| => probes[i].localPort)
  }

  function Times(probes: seq<Probe>): (s: seq<real>)
    ensures |s| == |probes|
  {
    seq(|probes|, i requires 0 <= i < |probes| => probes[i].time)
  }

  predicate Preserved(probes: seq<Probe>) {
    forall i :: 0 <= i < |probes| ==> probes[i].natPort == probes[i].localPort
  }

  function Deltas(probes: seq<Probe>): (s: seq<int>)
    decreases |probes|
  {
    if probes == [] then []
    else
      var p := probes[|probes| - 1];
      Deltas(probes[..|probes| - 1]) + if p.localPort > 0 then [p.natPort - p.localPort] else []
  }

  /** A stable sort by time: later probes go behind earlier ones of the same time. */
  function InsertedByTime(p: Probe, s: seq<Probe>): (r: seq<Probe>)
    ensures |r| == |s| + 1
    decreases |s|
  {
    if s == [] then [p]
    else if p.time >= s[|s| - 1].time then s + [p]
    else InsertedByTime(p, s[..|s| - 1]) + [s[|s| - 1]]
  }

  function ByTime(probes: seq<Probe>): (r: seq<Probe>)
    ensures |r| == |probes|
    decreases |probes|
  {
    if probes == [] then []
    else InsertedByTime(probes[|probes| - 1], ByTime(probes[..|probes| - 1]))
  }

  /** What the error range is computed from. */
  function ErrorRange(values: seq<int>, centre: real, sigma: real): (e: int)
    requires values != []
    ensures e >= 2
  {
    RoundAtLeast(Deviation(values, centre) + Max(2, RoundReal(sigma * 2.0)) as real, 2);
    RoundReal(Deviation(values, centre) + Max(2, RoundReal(sigma * 2.0)) as real)
  }

  lemma RoundAtLeast(x: real, n: int)
    requires x >= n as real
    ensures RoundReal(x) >= n
  {
    RoundMonotone(n as real, x);
    RoundOfInt(n);
  }

  /** Drift: the prediction moves along with a demonstrable trend. */
  function Drifted(a: Analysis, v: NatTrend.Verdict): Analysis {
    var shift := NatTrend.Shift(v);
    a.(trendR2 := v.r2, portRate := if v.significant then v.rate else 0.0, predictedShift := shift,
       predicted := if shift > 0 then ClampPort(a.predicted + shift) else a.predicted)
  }

  function Ranged(a: Analysis): Analysis {
    a.(scanStart := Max(MIN_PORT, a.predicted - a.errorRange), scanEnd := Min(MAX_PORT, a.predicted + a.errorRange),
       needsScan := a.errorRange > 0)
  }

  /** The key metrics: extremes and range of the ports. */
  function WithExtremes(a: Analysis): Analysis
    requires a.probed != []
  {
    a.(origin := Extrapolated, minPort := MinOf(a.probed), maxPort := MaxOf(a.probed),
       portRange := MaxOf(a.probed) - MinOf(a.probed))
  }

  function Measured(probes: seq<Probe>): Analysis
    requires probes != []
  {
    WithExtremes(BLANK.(probed := NatPorts(probes), locals := LocalPorts(probes)))
  }

  function TrendOf(probes: seq<Probe>): NatTrend.Verdict {
    NatTrend.Trend(Times(ByTime(probes)), NatPorts(ByTime(probes)))
  }

  function Progression(a: Analysis): Analysis {
    if a.allocation.StableOffset? && a.portRate > 0.0 then a.(allocation := Progressive) else a
  }

  /** The prediction in external mode: the mean of the ports. */
  function FromMean(a: Analysis, sigma: real): Analysis
    requires a.probed != []
  {
    var mean := MeanOf(a.probed);
    a.(predicted := ClampPort(RoundReal(mean)), errorRange := ErrorRange(a.probed, mean, sigma))
  }

  /** The prediction in delta mode: the local port plus the median offset. */
  function FromDeltas(a: Analysis, deltas: seq<int>, target: int, sigma: real): Analysis
    requires deltas != []
  {
    var median := MedianOf(deltas);
    a.(deltaMin := MinOf(deltas), deltaMax := MaxOf(deltas), deltaMedian := median,
       predicted := ClampPort(RoundReal(target as real + median)), errorRange := ErrorRange(deltas, median, sigma))
  }

  /** The part of the analysis before the classification, in either mode. */
  function Forecast(probes: seq<Probe>, target: int, external: bool, sigma: real): Analysis
    requires probes != [] && (external || Deltas(probes) != [])
  {
    var b := Measured(probes).(blockSize := BlockSize(NatPorts(probes)));
    var c := if external then FromMean(b, sigma) else FromDeltas(b, Deltas(probes), target, sigma);
    Ranged(Drifted(c, TrendOf(probes)))
  }

  /** How far the observations lie apart: of the ports, or of their offsets. */
  function SpreadOf(probes: seq<Probe>, external: bool): int
    requires probes != [] && (external || Deltas(probes) != [])
  {
    if external then MaxOf(NatPorts(probes)) - MinOf(NatPorts(probes))
    else MaxOf(Deltas(probes)) - MinOf(Deltas(probes))
  }

  function Pinned(a: Analysis, port: int): Analysis {
    a.(needsScan := false, predicted := port, scanStart := port, scanEnd := port, hitProbability := 1.0)
  }

  function Kept(a: Analysis, port: int): Analysis {
    Pinned(a.(pattern := PortPreserved, allocation := PortPreserving), port)
  }

  function NamesOf(external: bool): Names {
    if external then EXTERNAL_NAMES else DELTA_NAMES
  }

  /** `analyze_nat`; `sigma` is the standard deviation of the ports, or of the deltas. */
  function Analyse(probes: seq<Probe>, target: int, external: bool, percent: real, sigma: real): Analysis {
    if |probes| < 2 || (!external && target <= 0) then BLANK.(pattern := InsufficientData)
    else if Preserved(probes) && target > 0 then
      Kept(Measured(probes), ClampPort(target))
    else if !external && Deltas(probes) == [] then
      Measured(probes).(blockSize := BlockSize(NatPorts(probes)), pattern := InsufficientData)
    else
      var c := Classify(Forecast(probes, target, external, sigma), SpreadOf(probes, external), NamesOf(external));
      WithPrediction(Widened(if external then c else Progression(c), percent))
  }

  // ---------- statistics mean what they say ----------

  predicate Ascending(s: seq<int>) {
    forall i, j :: 0 <= i < j < |s| ==> s[i] <= s[j]
  }

  lemma {:induction false} InsertedSorts(x: int, s: seq<int>, bound: int)
    requires Ascending(s) && bound <= x && forall i :: 0 <= i < |s| ==> bound <= s[i]
    ensures Ascending(Inserted(x, s)) && forall i :: 0 <= i <= |s| ==> bound <= Inserted(x, s)[i]
    decreases |s|
  {
    if s != [] && x > s[0] { InsertedSorts(x, s[1..], s[0]); }
  }

  lemma {:induction false} InsertedValueOnce(x: int, s: seq<int>)
    ensures multiset(Inserted(x, s)) == multiset(s) + multiset{x}
    decreases |s|
  {
    if s != [] {
      assert s == [s[0]] + s[1..];
      if x > s[0] { InsertedValueOnce(x, s[1..]); }
    }
  }

  lemma {:induction false} SortedAscends(s: seq<int>)
    ensures Ascending(Sorted(s))
    decreases |s|
  {
    if s != [] {
      var rest := Sorted(s[1..]);
      SortedAscends(s[1..]);
      InsertedSorts(s[0], rest, if rest == [] then s[0] else Min(s[0], rest[0]));
    }
  }

  lemma {:induction false} SortedOnce(s: seq<int>)
    ensures multiset(Sorted(s)) == multiset(s)
    decreases |s|
  {
    if s != [] {
      SortedOnce(s[1..]);
      InsertedValueOnce(s[0], Sorted(s[1..]));
      assert s == [s[0]] + s[1..];
    }
  }

  /** The median is taken from the middle of the values in ascending order. */
  lemma SortedSorts(s: seq<int>)
    ensures Ascending(Sorted(s)) && multiset(Sorted(s)) == multiset(s)
  {
    SortedAscends(s);
    SortedOnce(s);
  }

  predicate InTime(s: seq<Probe>) {
    forall i, j :: 0 <= i < j < |s| ==> s[i].time <= s[j].time
  }

  lemma {:induction false} InsertedInTime(p: Probe, s: seq<Probe>, bound: real)
    requires InTime(s) && p.time <= bound && forall i :: 0 <= i < |s| ==> s[i].time <= bound
    ensures InTime(InsertedByTime(p, s)) && forall i :: 0 <= i <= |s| ==> InsertedByTime(p, s)[i].time <= bound
    decreases |s|
  {
    if s != [] && p.time < s[|s| - 1].time { InsertedInTime(p, s[..|s| - 1], s[|s| - 1].time); }
  }

  lemma {:induction false} InsertedOnce(p: Probe, s: seq<Probe>)
    ensures multiset(InsertedByTime(p, s)) == multiset(s) + multiset{p}
    decreases |s|
  {
    if s != [] && p.time < s[|s| - 1].time {
      InsertedOnce(p, s[..|s| - 1]);
      assert s == s[..|s| - 1] + [s[|s| - 1]];
    }
  }

  function Latest(s: seq<Probe>): (t: real)
    requires s != []
    ensures forall i :: 0 <= i < |s| ==> s[i].time <= t
    decreases |s|
  {
    if |s| == 1 then s[0].time
    else
      var before := Latest(s[..|s| - 1]);
      if before < s[|s| - 1].time then s[|s| - 1].time else before
  }

  /** The trend test sees the same probes, in order of time. */
  lemma {:induction false} ByTimeSorts(probes: seq<Probe>)
    ensures InTime(ByTime(probes)) && multiset(ByTime(probes)) == multiset(probes)
    decreases |probes|
  {
    if probes != [] {
      var init, last := probes[..|probes| - 1], probes[|probes| - 1];
      ByTimeSorts(init);
      var bound := if init == [] then last.time else Latest(ByTime(init));
      InsertedInTime(last, ByTime(init), if bound < last.time then last.time else bound);
      InsertedOnce(last, ByTime(init));
      assert probes == init + [last];
    }
  }

  function Distance(v: int, centre: real): (d: real) {
    if v as real < centre then centre - v as real else v as real - centre
  }

  /** The deviation is the largest distance of a value from the centre. */
  lemma {:induction false} DeviationIsMax(s: seq<int>, centre: real)
    requires s != []
    ensures forall v :: v in s ==> Distance(v, centre) <= Deviation(s, centre)
    ensures exists v :: v in s && Distance(v, centre) == Deviation(s, centre)
    decreases |s|
  {
    var last := s[|s| - 1];
    if |s| == 1 {
      assert last in s;
    } else {
      var init := s[..|s| - 1];
      DeviationIsMax(init, centre);
      assert s == init + [last];
      var v :| v in init && Distance(v, centre) == Deviation(init, centre);
      assert v in s && last in s;
    }
  }

  /** Whatever the standard deviation, the error range around the rounded centre reaches
      every value it was computed from. */
  lemma ErrorRangeReaches(values: seq<int>, centre: real, sigma: real, v: int)
    requires v in values
    ensures var e := ErrorRange(values, centre, sigma); RoundReal(centre) - e <= v <= RoundReal(centre) + e
  {
    DeviationIsMax(values, centre);
    assert Distance(v, centre) <= Deviation(values, centre);
    hide Deviation;
  }

  lemma {:induction false} TotalBetween(s: seq<int>, lo: int, hi: int)
    requires forall i :: 0 <= i < |s| ==> lo <= s[i] <= hi
    ensures lo * |s| <= Total(s) <= hi * |s|
    decreases |s|
  {
    if s != [] {
      var n := |s| - 1;
      TotalBetween(s[..n], lo, hi);
      assert lo * |s| == lo * n + lo && hi * |s| == hi * n + hi;
    }
  }

  lemma RealProduct(a: int, b: int)
    ensures (a * b) as real == a as real * b as real
  {
  }

  lemma QuotientBetween(lo: int, hi: int, total: int, n: nat)
    requires n > 0 && lo * n <= total <= hi * n
    ensures lo as real <= total as real / n as real <= hi as real
  {
    var d := n as real;
    var m := total as real / d;
    assert m * d == total as real;
    RealProduct(lo, n);
    RealProduct(hi, n);
    RealMulOrder(m, lo as real, d);
    RealMulOrder(hi as real, m, d);
  }

  lemma TotalOfAll(s: seq<int>)
    requires s != []
    ensures MinOf(s) * |s| <= Total(s) <= MaxOf(s) * |s|
  {
    ExtremesBound(s);
    hide MinOf, MaxOf, Total;
    TotalBetween(s, MinOf(s), MaxOf(s));
  }

  lemma MeanBetween(s: seq<int>)
    requires s != []
    ensures MinOf(s) as real <= MeanOf(s) <= MaxOf(s) as real
  {
    hide MinOf, MaxOf, Total;
    TotalOfAll(s);
    QuotientBetween(MinOf(s), MaxOf(s), Total(s), |s|);
  }

  /** A block is the smallest of the five sizes that fits, and none is named without eight
      observations and a fit. */
  lemma BlockIsSmallestFit(ports: seq<int>)
    requires ports != []
    ensures var b, lo, hi := BlockSize(ports), MinOf(ports), MaxOf(ports);
            && (b == 0 <==> |ports| < 8 || forall i :: 0 <= i < 5 ==> !FitsBlock(lo, hi, BLOCK_SIZES[i]))
            && (b != 0 ==> b in BLOCK_SIZES && FitsBlock(lo, hi, b)
                           && forall i :: 0 <= i < 5 && BLOCK_SIZES[i] < b ==> !FitsBlock(lo, hi, BLOCK_SIZES[i]))
  {
    if |ports| >= 8 { FirstBlockFits(MinOf(ports), MaxOf(ports), 0); }
  }

  /** Of the first `n` places at which a band may lie in an aligned block, those where it fits in. */
  function Placements(span: nat, size: nat, n: nat): nat {
    if n == 0 then 0 else Placements(span, size, n - 1) + if n - 1 + span < size then 1 else 0
  }

  lemma {:induction false} PlacementsAre(span: nat, size: nat, n: nat)
    ensures Placements(span, size, n) == Min(n, Max(0, size - span))
  {
    if n > 0 { PlacementsAre(span, size, n - 1); }
  }

  /** The observations lie in one aligned block, and a band as wide as theirs, put down anywhere, would do
      so by chance in at most one of twenty places. */
  lemma FitIsNoChance(lo: int, hi: int, size: int)
    requires lo <= hi && size > 0
    ensures FitsBlock(lo, hi, size)
            <==> (exists k :: k * size <= lo && hi < (k + 1) * size) && 20 * Placements(hi - lo, size, size) <= size
  {
    PlacementsAre(hi - lo, size, size);
    var q := lo / size;
    Division(lo, size);
    Division(hi, size);
    if FitsBlock(lo, hi, size) { assert q * size <= lo && hi < (q + 1) * size; }
    forall k | k * size <= lo && hi < (k + 1) * size ensures lo / size == k == hi / size && hi - lo < size {
      assert (k + 1) * size == k * size + size;
      SameQuotient(lo, size, k);
      SameQuotient(hi, size, k);
    }
  }

  lemma SameQuotient(x: int, size: int, k: int)
    requires size > 0 && k * size <= x < k * size + size
    ensures x / size == k
  {
    var q := x / size;
    Division(x, size);
    if q < k { MulMonotone(q + 1, k, size); }
    assert (k + 1) * size == k * size + size;
    if q > k { MulMonotone(k + 1, q, size); }
  }

  predicate FirstFitAt(lo: int, hi: int, i: nat, k: nat)
    requires k < 5
  {
    FitsBlock(lo, hi, BLOCK_SIZES[k]) && forall j :: i <= j < k ==> !FitsBlock(lo, hi, BLOCK_SIZES[j])
  }

  lemma {:induction false} FirstBlockFits(lo: int, hi: int, i: nat)
    requires i <= 5
    ensures var b := FirstBlock(lo, hi, i);
            && (b == 0 <==> forall k :: i <= k < 5 ==> !FitsBlock(lo, hi, BLOCK_SIZES[k]))
            && (b != 0 ==> exists k :: i <= k < 5 && BLOCK_SIZES[k] == b && FirstFitAt(lo, hi, i, k))
    decreases 5 - i
  {
    if i < 5 { FirstBlockFits(lo, hi, i + 1); }
  }

  lemma MedianBetween(s: seq<int>)
    requires s != []
    ensures MinOf(s) as real <= MedianOf(s) <= MaxOf(s) as real
  {
    var r, n := Sorted(s), |s|;
    SortedSorts(s);
    MiddleWithin(s, n / 2);
    if n % 2 == 0 { MiddleWithin(s, n / 2 - 1); }
  }

  lemma MiddleWithin(s: seq<int>, k: nat)
    requires k < |s|
    ensures MinOf(s) <= Sorted(s)[k] <= MaxOf(s)
  {
    SortedSorts(s);
    assert Sorted(s)[k] in multiset(Sorted(s));
    assert Sorted(s)[k] in s;
    Within(s, Sorted(s)[k]);
  }

  /** A block holds every observation, and clipping to it only narrows the band. */
  lemma ClipKeepsObservations(a: Analysis)
    requires a.probed != [] && a.blockSize >= 0
    requires a.minPort == MinOf(a.probed) && a.blockSize == BlockSize(a.probed)
    ensures var b, c := EstimateBand(a.probed), Clip(EstimateBand(a.probed), a.blockSize, a.minPort);
            && b.lo <= c.lo && c.hi <= b.hi
            && (forall p :: p in a.probed && b.lo <= p <= b.hi ==> c.lo <= p <= c.hi)
  {
    hide EstimateBand;
    forall p | p in a.probed ensures MinOf(a.probed) <= p <= MaxOf(a.probed) { Within(a.probed, p); }
    if a.blockSize > 0 { BlockHolds(MinOf(a.probed), MaxOf(a.probed), a.blockSize); }
  }

  lemma BlockHolds(lo: int, hi: int, size: int)
    requires size > 0 && FitsBlock(lo, hi, size)
    ensures var base := lo / size * size; base <= lo && hi <= base + size - 1 && (lo >= 0 ==> base >= 0)
  {
    assert lo == lo / size * size + lo % size;
    assert hi == hi / size * size + hi % size;
  }

  /** Where no port lies below 1024 or above 65535, the estimated band holds them all. */
  lemma BandHoldsObservations(ports: seq<int>)
    requires ports != [] && forall p :: p in ports ==> MIN_PORT <= p <= MAX_PORT
    ensures EstimateBand(ports).lo <= MinOf(ports) && MaxOf(ports) <= EstimateBand(ports).hi
  {
    ExtremesBound(ports);
    assert HalfEven(MaxOf(ports) - MinOf(ports), 4) >= 0;
    hide MinOf, MaxOf;
  }

  // ---------- the range ends up around the prediction ----------

  /** What the last step needs to put the prediction into the range. */
  predicate Ready(a: Analysis) {
    MIN_PORT <= a.predicted <= MAX_PORT && MIN_PORT <= a.scanStart && 1 <= a.scanEnd <= MAX_PORT
  }

  predicate Centred(a: Analysis) {
    MIN_PORT <= a.scanStart <= a.predicted <= a.scanEnd <= MAX_PORT
  }

  predicate PositivePorts(s: seq<int>) {
    forall i :: 0 <= i < |s| ==> s[i] >= 1
  }

  predicate ValidPorts(s: seq<int>) {
    forall i :: 0 <= i < |s| ==> MIN_PORT <= s[i] <= MAX_PORT
  }

  /** What the analysis has measured before it classifies. */
  predicate Surveyed(a: Analysis) {
    && a.probed != [] && a.blockSize == BlockSize(a.probed)
    && a.minPort == MinOf(a.probed) && a.maxPort == MaxOf(a.probed)
  }

  lemma BlockNotNegative(ports: seq<int>)
    requires ports != []
    ensures BlockSize(ports) == 0 || BlockSize(ports) >= 256
  {
  }

  lemma BandReady(a: Analysis)
    requires Surveyed(a) && PositivePorts(a.probed) && MIN_PORT <= a.predicted <= MAX_PORT
    ensures Ready(AsBand(a))
  {
    var margin := HalfEven(MaxOf(a.probed) - MinOf(a.probed), 4);
    assert margin >= 0;
    BlockNotNegative(a.probed);
    if a.blockSize > 0 { BlockHolds(MinOf(a.probed), MaxOf(a.probed), a.blockSize); }
    hide BlockSize, MedianOf, FitsBlock;
  }

  lemma ClassifyReady(a: Analysis, spread: int, names: Names)
    requires Surveyed(a) && PositivePorts(a.probed) && Ready(a)
    ensures Ready(Classify(a, spread, names))
  {
    BandReady(a.(pattern := names.random));
    hide AsBand;
  }

  lemma WidenedReady(a: Analysis, percent: real)
    requires Ready(a)
    ensures Ready(Widened(a, percent)) && Widened(a, percent).predicted == a.predicted
  {
  }

  lemma EndsCentred(a: Analysis)
    requires Ready(a)
    ensures Centred(WithPrediction(a))
  {
  }

  lemma RangedReady(a: Analysis, v: NatTrend.Verdict)
    requires MIN_PORT <= a.predicted <= MAX_PORT && a.errorRange >= 2
    ensures Ready(Ranged(Drifted(a, v))) && Ranged(Drifted(a, v)).needsScan
  {
  }

  /** Enough was measured, and the ports are not simply kept. */
  predicate Estimated(probes: seq<Probe>, target: int, external: bool) {
    && |probes| >= 2 && (external || (target > 0 && Deltas(probes) != []))
    && !(Preserved(probes) && target > 0)
  }

  lemma ForecastReady(probes: seq<Probe>, target: int, external: bool, sigma: real)
    requires probes != [] && (external || Deltas(probes) != [])
    ensures var f := Forecast(probes, target, external, sigma);
            && Surveyed(f) && f.probed == NatPorts(probes) && Ready(f) && f.needsScan && f.errorRange >= 2
            && f.pattern.Unknown?
  {
    var b := Measured(probes).(blockSize := BlockSize(NatPorts(probes)));
    var c := if external then FromMean(b, sigma) else FromDeltas(b, Deltas(probes), target, sigma);
    DriftKeeps(c, TrendOf(probes));
    RangedReady(c, TrendOf(probes));
    hide MeanOf, MedianOf, TrendOf, ErrorRange, Drifted, Ranged, BlockSize, Deltas;
  }

  lemma DriftKeeps(a: Analysis, v: NatTrend.Verdict)
    ensures var d := Ranged(Drifted(a, v));
            && d.probed == a.probed && d.blockSize == a.blockSize && d.errorRange == a.errorRange
            && d.minPort == a.minPort && d.maxPort == a.maxPort && d.portRange == a.portRange
            && d.deltaMin == a.deltaMin && d.deltaMax == a.deltaMax && d.pattern == a.pattern
  {
  }

  /** For every set of probes with positive ports, in both modes: the scan range holds the
      prediction and lies within the valid ports, unless there was too little to go by. */
  lemma RangeHoldsPrediction(probes: seq<Probe>, target: int, external: bool, percent: real, sigma: real)
    requires PositivePorts(NatPorts(probes))
    ensures var r := Analyse(probes, target, external, percent, sigma);
            Centred(r) || (r.pattern.InsufficientData? && !r.needsScan)
  {
    if Estimated(probes, target, external) {
      var f := Forecast(probes, target, external, sigma);
      var c := Classify(f, SpreadOf(probes, external), NamesOf(external));
      ForecastReady(probes, target, external, sigma);
      ClassifyReady(f, SpreadOf(probes, external), NamesOf(external));
      hide Analyse, Classify, Forecast;
      var d := if external then c else Progression(c);
      WidenedReady(d, percent);
      EndsCentred(Widened(d, percent));
    } else {
      hide Classify, Widened, WithPrediction, Measured;
    }
  }

  /** The last two stages, on the range alone. */
  lemma StretchKeeps(a: Analysis, percent: real)
    ensures var r := WithPrediction(Widened(a, percent));
            && r.probed == a.probed && r.allocation == a.allocation && r.pattern == a.pattern
            && (a.needsScan ==> r.needsScan) && (a.scanStart == a.scanEnd ==> r.needsScan == a.needsScan)
  {
  }

  lemma ClassifyScan(a: Analysis, spread: int, names: Names)
    requires a.probed != [] && a.blockSize >= 0 && a.needsScan
    ensures var c := Classify(a, spread, names);
            (c.needsScan <==> spread != 0) && (spread == 0 ==> c.scanStart == c.scanEnd)
  {
    hide Clip, EstimateBand, MedianOf;
  }

  /** A scan is called for exactly when the ports are not kept and the observations (the
      ports, or their offsets) are not all alike. */
  lemma ScanNeeded(probes: seq<Probe>, target: int, external: bool, percent: real, sigma: real)
    requires PositivePorts(NatPorts(probes))
    ensures Analyse(probes, target, external, percent, sigma).needsScan
       <==> Estimated(probes, target, external) && SpreadOf(probes, external) != 0
  {
    if Estimated(probes, target, external) {
      var f := Forecast(probes, target, external, sigma);
      var spread := SpreadOf(probes, external);
      ForecastReady(probes, target, external, sigma);
      BlockNotNegative(f.probed);
      ClassifyScan(f, spread, NamesOf(external));
      var c := Classify(f, spread, NamesOf(external));
      hide Forecast, SpreadOf, BlockSize, Classify, WithPrediction, Widened;
      StretchKeeps(c, percent);
      StretchKeeps(Progression(c), percent);
    } else {
      hide Classify, Widened, WithPrediction, Measured, Forecast;
    }
  }

  /** A stage that does not move the range away from what was observed. */
  predicate Reaches(a: Analysis) {
    a.probed != [] && a.scanStart <= MinOf(a.probed) && MaxOf(a.probed) <= a.scanEnd
  }

  lemma BandReaches(a: Analysis)
    requires Surveyed(a) && ValidPorts(a.probed)
    ensures Reaches(AsBand(a))
  {
    BlockNotNegative(a.probed);
    assert a.minPort == MinOf(a.probed) && a.blockSize == BlockSize(a.probed) && a.blockSize >= 0;
    hide EstimateBand, Clip, BlockSize, MedianOf, MinOf, MaxOf;
    ClippedBandReaches(a);
    hide ValidPorts;
  }

  lemma ClippedBandReaches(a: Analysis)
    requires a.probed != [] && ValidPorts(a.probed) && a.blockSize >= 0
    requires a.minPort == MinOf(a.probed) && a.blockSize == BlockSize(a.probed)
    ensures var c := Clip(EstimateBand(a.probed), a.blockSize, a.minPort);
            c.lo <= MinOf(a.probed) && MaxOf(a.probed) <= c.hi
  {
    hide EstimateBand, Clip, BlockSize, MinOf, MaxOf;
    ExtremesBound(a.probed);
    BandHoldsObservations(a.probed);
    ClipKeepsObservations(a);
  }

  lemma StretchReaches(a: Analysis, percent: real)
    requires Reaches(a) && Ready(a)
    ensures Reaches(WithPrediction(Widened(a, percent)))
  {
    assert Widened(a, percent).scanStart <= a.scanStart && a.scanEnd <= Widened(a, percent).scanEnd;
  }

  /** Only a peer without a usable point forecast is called random-like. */
  lemma RandomIsBand(a: Analysis, spread: int, external: bool)
    requires a.probed != [] && a.blockSize >= 0 && !a.pattern.RandomLike?
    ensures var c := Classify(a, spread, NamesOf(external));
            c.pattern.RandomLike? ==> c == AsBand(a.(pattern := RandomLike)) && Progression(c) == c
  {
    hide Clip, EstimateBand, MedianOf;
  }

  /** Ports that are all alike make a band of one port, the prediction. */
  lemma AlikeIsPoint(a: Analysis)
    requires Surveyed(a) && ValidPorts(a.probed) && MinOf(a.probed) == MaxOf(a.probed)
    requires a.blockSize >= 0
    ensures AsBand(a).scanStart == AsBand(a).predicted == AsBand(a).scanEnd
  {
    var p := MinOf(a.probed);
    var b, c := EstimateBand(a.probed), Clip(EstimateBand(a.probed), a.blockSize, a.minPort);
    ExtremesBound(a.probed);
    BandHoldsObservations(a.probed);
    assert b.lo == b.hi == p by { hide BlockSize; }
    ClipKeepsObservations(a);
    ClippedBandReaches(a);
    assert c.lo == c.hi == p by { hide EstimateBand, Clip, BlockSize, MinOf, MaxOf; }
    MedianBetween(a.probed);
    RoundBetween(MedianOf(a.probed), p, p);
    hide EstimateBand, Clip, BlockSize, MinOf, MaxOf, MedianOf;
  }

  lemma PointStays(a: Analysis, percent: real)
    requires a.scanStart == a.predicted == a.scanEnd
    ensures var r := WithPrediction(Widened(a, percent)); r.scanStart == r.scanEnd
  {
  }

  lemma RandomStage(f: Analysis, spread: int, external: bool, percent: real)
    requires Surveyed(f) && ValidPorts(f.probed) && Ready(f) && !f.pattern.RandomLike? && f.blockSize >= 0
    ensures var c := Classify(f, spread, NamesOf(external));
            var r := WithPrediction(Widened(if external then c else Progression(c), percent));
            r.pattern.RandomLike? ==>
              && r.allocation == RandomInBand && r.probed == f.probed && Reaches(r)
              && (MinOf(f.probed) == MaxOf(f.probed) ==> r.scanStart == r.scanEnd)
  {
    var c := Classify(f, spread, NamesOf(external));
    var g := f.(pattern := RandomLike);
    RandomIsBand(f, spread, external);
    BandEffect(g);
    BandReaches(g);
    BandReady(g);
    if MinOf(f.probed) == MaxOf(f.probed) { AlikeIsPoint(g); }
    hide Classify, AsBand, WithPrediction, Widened, Surveyed, Reaches, Ready, MinOf, MaxOf;
    StretchKeeps(c, percent);
    StretchKeeps(Progression(c), percent);
    assert Progression(c).pattern == c.pattern;
    hide Progression;
    if c.pattern.RandomLike? {
      StretchReaches(c, percent);
      if MinOf(f.probed) == MaxOf(f.probed) { PointStays(c, percent); }
    }
  }

  /** For random allocation the range holds every observed port, however it was clipped to
      a block, widened by hand or stretched to the prediction; where all are alike it is that port. */
  lemma RangeHoldsObservations(probes: seq<Probe>, target: int, external: bool, percent: real, sigma: real)
    requires ValidPorts(NatPorts(probes))
    ensures var r := Analyse(probes, target, external, percent, sigma);
            r.pattern.RandomLike? ==>
              && r.allocation == RandomInBand && r.probed == NatPorts(probes) && Reaches(r)
              && (MinOf(r.probed) == MaxOf(r.probed) ==> r.scanStart == r.scanEnd)
  {
    hide Forecast, SpreadOf, Classify, Widened, WithPrediction, Progression, BlockSize, Preserved;
    if Estimated(probes, target, external) {
      ForecastReady(probes, target, external, sigma);
      BlockNotNegative(NatPorts(probes));
      RandomStage(Forecast(probes, target, external, sigma), SpreadOf(probes, external), external, percent);
    }
  }

  lemma BandEffect(a: Analysis)
    requires a.probed != [] && a.blockSize >= 0
    ensures AsBand(a).allocation == RandomInBand && AsBand(a).probed == a.probed
  {
  }

  /** The port foreseen is among the candidates, for every set of probes and any budget:
      no later step drops it. */
  lemma PredictionIsTried(
    probes: seq<Probe>, target: int, external: bool, percent: real, sigma: real, budget: int)
    requires PositivePorts(NatPorts(probes)) && budget >= 1
    ensures var r := Analyse(probes, target, external, percent, sigma);
            r.needsScan ==> r.predicted in NatCandidates.Candidates(r.Range(), budget)
  {
    var r := Analyse(probes, target, external, percent, sigma);
    RangeHoldsPrediction(probes, target, external, percent, sigma);
    hide Analyse;
    if !r.needsScan {
    } else if r.pattern.RandomLike? && NatCandidates.Total(r.Range()) > budget {
      NatCandidates.ShortList(r.Range(), budget);
    } else if NatCandidates.Total(r.Range()) > budget {
      NatCandidates.WindowHoldsPrediction(r.Range(), budget);
    } else {
      var c := NatCandidates.Candidates(r.Range(), budget);
      assert c[r.predicted - r.scanStart] == r.predicted;
    }
  }

  predicate SameSurvey(a: Analysis, b: Analysis) {
    a.probed == b.probed && a.minPort == b.minPort && a.maxPort == b.maxPort
  }

  lemma ClassifyKeepsSurvey(a: Analysis, spread: int, names: Names)
    requires a.probed != [] && a.blockSize >= 0
    ensures SameSurvey(a, Progression(Classify(a, spread, names))) && SameSurvey(a, Classify(a, spread, names))
  {
    hide Clip, EstimateBand, MedianOf;
  }

  lemma StretchKeepsSurvey(a: Analysis, percent: real)
    ensures SameSurvey(a, WithPrediction(Widened(a, percent)))
  {
  }

  /** No stage after the measuring touches what was observed. */
  lemma SurveyStays(probes: seq<Probe>, target: int, external: bool, percent: real, sigma: real)
    requires Estimated(probes, target, external)
    ensures var r := Analyse(probes, target, external, percent, sigma);
            && r.probed == NatPorts(probes) && r.probed != []
            && r.minPort == MinOf(r.probed) && r.maxPort == MaxOf(r.probed)
  {
    var f := Forecast(probes, target, external, sigma);
    var spread, names := SpreadOf(probes, external), NamesOf(external);
    ForecastReady(probes, target, external, sigma);
    BlockNotNegative(f.probed);
    ClassifyKeepsSurvey(f, spread, names);
    var c := Classify(f, spread, names);
    hide Forecast, SpreadOf, BlockSize, Classify, WithPrediction, Widened, Progression, Preserved;
    StretchKeepsSurvey(c, percent);
    StretchKeepsSurvey(Progression(c), percent);
  }

  /** A scan is asked for only on at least two observations. */
  lemma ScanNeedsTwo(probes: seq<Probe>, target: int, external: bool, percent: real, sigma: real)
    requires PositivePorts(NatPorts(probes)) && Analyse(probes, target, external, percent, sigma).needsScan
    ensures |Analyse(probes, target, external, percent, sigma).probed| >= 2
    ensures Centred(Analyse(probes, target, external, percent, sigma))
  {
    ScanNeeded(probes, target, external, percent, sigma);
    assert |probes| >= 2;
    SurveyStays(probes, target, external, percent, sigma);
    assert |NatPorts(probes)| == |probes|;
    hide *;
    RangeHoldsPrediction(probes, target, external, percent, sigma);
    assert Analyse(probes, target, external, percent, sigma).needsScan;
  }

  /** What a scan over a random-like peer's ports goes by. */
  predicate RandomRange(r: Analysis) {
    && r.needsScan && r.pattern.RandomLike? && Centred(r) && Reaches(r)
    && r.minPort == MinOf(r.probed) && r.maxPort == MaxOf(r.probed)
    && (MinOf(r.probed) == MaxOf(r.probed) ==> r.scanStart == r.scanEnd)
  }

  lemma RandomRangeFound(probes: seq<Probe>, target: int, external: bool, percent: real, sigma: real)
    requires ValidPorts(NatPorts(probes))
    ensures var r := Analyse(probes, target, external, percent, sigma);
            r.needsScan && r.pattern.RandomLike? ==> RandomRange(r) && r.probed == NatPorts(probes) && probes != []
  {
    var r := Analyse(probes, target, external, percent, sigma);
    assert PositivePorts(NatPorts(probes));
    hide Analyse, Reaches, Centred, MinOf, MaxOf, Preserved, Deltas;
    ScanNeeded(probes, target, external, percent, sigma);
    if r.needsScan && r.pattern.RandomLike? {
      SurveyStays(probes, target, external, percent, sigma);
      RangeHoldsPrediction(probes, target, external, percent, sigma);
      RangeHoldsObservations(probes, target, external, percent, sigma);
    }
  }

  lemma ShortOnObserved(r: Analysis, budget: int)
    requires RandomRange(r) && 1 <= budget < NatCandidates.Total(r.Range())
    ensures var c := NatCandidates.Candidates(r.Range(), budget);
            && MinOf(r.probed) < MaxOf(r.probed)
            && 1 <= |c| <= budget && c[0] == r.predicted
            && (forall k :: 1 <= k < |c| ==> MinOf(r.probed) <= c[k] <= MaxOf(r.probed))
            && (budget >= 3 ==> MinOf(r.probed) in c && MaxOf(r.probed) in c)
  {
    ExtremesBound(r.probed);
    hide MinOf, MaxOf, NatCandidates.Candidates;
    NatCandidates.OnlyObservedTried(r.Range(), budget);
  }

  /** A random-like peer and a short budget: apart from the port foreseen only ports between
      the lowest and the highest one observed are tried, and with room for three those two are. */
  lemma RandomCandidatesAreObserved(
    probes: seq<Probe>, target: int, external: bool, percent: real, sigma: real, budget: int)
    requires ValidPorts(NatPorts(probes)) && budget >= 1
    ensures var r, ports := Analyse(probes, target, external, percent, sigma), NatPorts(probes);
            var c := NatCandidates.Candidates(r.Range(), budget);
            r.needsScan && r.pattern.RandomLike? && budget < NatCandidates.Total(r.Range()) ==>
              && probes != [] && MinOf(ports) < MaxOf(ports)
              && 1 <= |c| <= budget && c[0] == r.predicted
              && (forall k :: 1 <= k < |c| ==> MinOf(ports) <= c[k] <= MaxOf(ports))
              && (budget >= 3 ==> MinOf(ports) in c && MaxOf(ports) in c)
  {
    hide *;
    RandomRangeFound(probes, target, external, percent, sigma);
    var r := Analyse(probes, target, external, percent, sigma);
    if r.needsScan && r.pattern.RandomLike? && budget < NatCandidates.Total(r.Range()) {
      ShortOnObserved(r, budget);
    }
  }

  lemma MeanRangeReaches(a: Analysis, sigma: real)
    requires a.probed != [] && ValidPorts(a.probed)
    ensures Reaches(Ranged(FromMean(a, sigma))) && FromMean(a, sigma).probed == a.probed
  {
    var ports := a.probed;
    var mean := MeanOf(ports);
    MeanBetween(ports);
    RoundBetween(mean, MinOf(ports), MaxOf(ports));
    ExtremesBound(ports);
    ErrorRangeReaches(ports, mean, sigma, MinOf(ports));
    ErrorRangeReaches(ports, mean, sigma, MaxOf(ports));
    hide MeanOf, ErrorRange;
  }

  lemma ClassifyReaches(a: Analysis, names: Names)
    requires Surveyed(a) && ValidPorts(a.probed) && Reaches(a)
    requires MinOf(a.probed) <= a.predicted <= MaxOf(a.probed)
    ensures Reaches(Classify(a, MaxOf(a.probed) - MinOf(a.probed), names))
  {
    BandReaches(a.(pattern := names.random));
    hide AsBand;
  }

  lemma StillReaches(a: Analysis, v: NatTrend.Verdict)
    requires a.probed != [] && Reaches(Ranged(a)) && !v.significant
    ensures Reaches(Ranged(Drifted(a, v))) && Ranged(Drifted(a, v)).predicted == a.predicted
  {
    hide MinOf, MaxOf;
  }

  /** A forecast whose range reaches all it was made from. */
  ghost predicate Reaching(f: Analysis) {
    && Surveyed(f) && ValidPorts(f.probed) && Ready(f) && Reaches(f) && f.blockSize >= 0
    && MinOf(f.probed) <= f.predicted <= MaxOf(f.probed)
  }

  lemma ExternalForecastReaches(probes: seq<Probe>, target: int, sigma: real)
    requires ValidPorts(NatPorts(probes)) && probes != [] && !TrendOf(probes).significant
    ensures Reaching(Forecast(probes, target, true, sigma))
    ensures SpreadOf(probes, true) == SpanOf(Forecast(probes, target, true, sigma))
  {
    var ports := NatPorts(probes);
    var b := Measured(probes).(blockSize := BlockSize(ports));
    MeanRangeReaches(b, sigma);
    MeanBetween(ports);
    RoundBetween(MeanOf(ports), MinOf(ports), MaxOf(ports));
    assert MinOf(ports) <= FromMean(b, sigma).predicted <= MaxOf(ports) by { hide MeanOf, ErrorRange; }
    StillReaches(FromMean(b, sigma), TrendOf(probes));
    DriftKeeps(FromMean(b, sigma), TrendOf(probes));
    ForecastReady(probes, target, true, sigma);
    BlockNotNegative(ports);
    hide FromMean, BlockSize, TrendOf, Ranged, Drifted, MinOf, MaxOf, Reaches, Ready;
  }

  function SpanOf(f: Analysis): int
    requires f.probed != []
  {
    MaxOf(f.probed) - MinOf(f.probed)
  }

  lemma ExternalAnalysis(probes: seq<Probe>, target: int, percent: real, sigma: real)
    requires Estimated(probes, target, true)
    ensures var f := Forecast(probes, target, true, sigma);
            && f.probed != [] && f.blockSize >= 0
            && Analyse(probes, target, true, percent, sigma)
                 == WithPrediction(Widened(Classify(f, SpreadOf(probes, true), EXTERNAL_NAMES), percent))
  {
    ForecastReady(probes, target, true, sigma);
    BlockNotNegative(NatPorts(probes));
    hide Forecast, SpreadOf, Classify, Widened, WithPrediction, BlockSize, Preserved;
  }

  lemma ValidArePositive(ports: seq<int>)
    ensures ValidPorts(ports) ==> PositivePorts(ports)
  {
  }

  lemma ExternalStage(f: Analysis, percent: real)
    requires Reaching(f) && f.probed != [] && f.blockSize >= 0
    ensures Reaches(WithPrediction(Widened(Classify(f, SpanOf(f), EXTERNAL_NAMES), percent)))
  {
    hide Classify, WithPrediction, Widened, Reaches, Ready, MinOf, MaxOf, Surveyed, ValidPorts;
    ValidArePositive(f.probed);
    ClassifyReaches(f, EXTERNAL_NAMES);
    ClassifyReady(f, SpanOf(f), EXTERNAL_NAMES);
    StretchReaches(Classify(f, SpanOf(f), EXTERNAL_NAMES), percent);
  }

  /** In external mode, where no trend moved the prediction, the range holds every observed
      port whatever the classification, the manual margin and the block. */
  lemma ExternalRangeHoldsObservations(probes: seq<Probe>, target: int, percent: real, sigma: real)
    requires ValidPorts(NatPorts(probes)) && Estimated(probes, target, true) && !TrendOf(probes).significant
    ensures Reaches(Analyse(probes, target, true, percent, sigma))
  {
    assert probes != [];
    hide *;
    ExternalForecastReaches(probes, target, sigma);
    ExternalAnalysis(probes, target, percent, sigma);
    ExternalStage(Forecast(probes, target, true, sigma), percent);
  }
}
