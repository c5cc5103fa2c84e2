/** What an analysis calls the peer, and on which observations it rests (server/nat_analyzer.py). */
module NatClass {
  import opened Wrappers
  import opened Rounding
  import NatTrend
  import NatCandidates
  import opened NatEstimate
  import P = NatPrediction

  // ---------- what is observed ----------

  /** The offsets are those of the probes that name a local port, and no others. */
  lemma {:induction false} DeltasAreOffsets(probes: seq<Probe>, v: int)
    ensures v in Deltas(probes)
            <==> exists i :: 0 <= i < |probes| && probes[i].localPort > 0
                             && v == probes[i].natPort - probes[i].localPort
    decreases |probes|
  {
    if probes != [] {
      var n := |probes| - 1;
      var before, p := Deltas(probes[..n]), probes[n];
      DeltasAreOffsets(probes[..n], v);
      assert Deltas(probes) == before + (if p.localPort > 0 then [p.natPort - p.localPort] else []);
      hide Deltas;
      if v in before {
        var i :| 0 <= i < n && probes[..n][i].localPort > 0 && v == probes[..n][i].natPort - probes[..n][i].localPort;
        assert probes[i] == probes[..n][i];
      }
      forall i | 0 <= i < |probes| && probes[i].localPort > 0 && v == probes[i].natPort - probes[i].localPort
        ensures v in Deltas(probes)
      {
        if i < n { assert probes[..n][i] == probes[i]; }
      }
    }
  }

  ghost predicate DistinctTimes(probes: seq<Probe>) {
    forall p, q :: p in probes && q in probes && p.time == q.time ==> p == q
  }

  lemma LastIsLatest(a: seq<Probe>, b: seq<Probe>)
    requires InTime(a) && InTime(b) && multiset(a) == multiset(b) && a != []
    ensures b != [] && a[|a| - 1].time == b[|b| - 1].time && a[|a| - 1] in b
  {
    var x := a[|a| - 1];
    assert x in multiset(b);
    var y := b[|b| - 1];
    assert y in multiset(a);
    var i :| 0 <= i < |a| && a[i] == y;
    var j :| 0 <= j < |b| && b[j] == x;
  }

  lemma WithoutLast(a: seq<Probe>)
    requires a != []
    ensures multiset(a[..|a| - 1]) == multiset(a) - multiset{a[|a| - 1]}
  {
    assert a == a[..|a| - 1] + [a[|a| - 1]];
  }

  lemma LastIsSame(a: seq<Probe>, b: seq<Probe>)
    requires InTime(a) && InTime(b) && multiset(a) == multiset(b) && DistinctTimes(a) && a != []
    ensures b != [] && a[|a| - 1] == b[|b| - 1]
  {
    LastIsLatest(a, b);
    assert b[|b| - 1] in multiset(a);
    hide InTime;
  }

  lemma InitKeeps(a: seq<Probe>)
    requires InTime(a) && DistinctTimes(a) && a != []
    ensures InTime(a[..|a| - 1]) && DistinctTimes(a[..|a| - 1])
  {
  }

  /** There is one order in time where no two different probes share one. */
  lemma {:induction false} OneOrder(a: seq<Probe>, b: seq<Probe>)
    requires InTime(a) && InTime(b) && multiset(a) == multiset(b) && DistinctTimes(a)
    ensures a == b
    decreases |a|
  {
    if a != [] {
      LastIsSame(a, b);
      InitKeeps(a);
      WithoutLast(a);
      WithoutLast(b);
      assert InTime(b[..|b| - 1]);
      hide InTime, DistinctTimes;
      OneOrder(a[..|a| - 1], b[..|b| - 1]);
      assert a == a[..|a| - 1] + [a[|a| - 1]] && b == b[..|b| - 1] + [b[|b| - 1]];
    }
  }

  /** The trend does not depend on the order in which the probes are listed. */
  lemma TrendIgnoresOrder(ps: seq<Probe>, qs: seq<Probe>)
    requires multiset(ps) == multiset(qs) && DistinctTimes(ps)
    ensures TrendOf(ps) == TrendOf(qs)
  {
    ByTimeSorts(ps);
    ByTimeSorts(qs);
    forall p, q | p in ByTime(ps) && q in ByTime(ps) && p.time == q.time ensures p == q {
      assert p in multiset(ps) && q in multiset(ps);
    }
    hide ByTime;
    OneOrder(ByTime(ps), ByTime(qs));
  }

  /** The error range is the largest deviation and the jitter, two standard deviations but at least
      two ports, give or take a port of rounding. */
  lemma ErrorRangeIs(values: seq<int>, centre: real, sigma: real)
    requires values != []
    ensures var jitter := if sigma < 1.0 then 2.0 else 2.0 * sigma;
            Deviation(values, centre) + jitter - 1.0 <= ErrorRange(values, centre, sigma) as real
            <= Deviation(values, centre) + jitter + 1.0
  {
    hide Deviation;
  }

  // ---------- what it is called ----------

  /** What the error range `e` and the spread make of a peer whose ports are not simply kept. */
  function ClassOf(spread: int, e: int, names: Names): Pattern {
    if spread == 0 then names.constant
    else if e <= 5 then names.small
    else if e <= 30 then names.medium
    else if e <= 100 then names.large
    else names.random
  }

  /** The chance of a hit that goes with the class: certain where all is alike, and for a band the
      share of it that n probes span on average. */
  function RateOf(spread: int, randomLike: bool, n: nat, otherwise: real): real {
    if spread == 0 then 1.0
    else if !randomLike then otherwise
    else if n >= 2 then (n - 1) as real / (n + 1) as real
    else 0.0
  }

  lemma BandNames(b: Analysis)
    requires b.probed != [] && b.blockSize >= 0
    ensures var c, n := AsBand(b), |b.probed|;
            && c.pattern == b.pattern && c.allocation == RandomInBand && c.portRate == b.portRate
            && c.trendR2 == b.trendR2 && c.predictedShift == b.predictedShift
            && c.hitProbability == if n >= 2 then (n - 1) as real / (n + 1) as real else 0.0
  {
    hide MedianOf, MinOf, MaxOf, HalfEven;
  }

  lemma ClassifyNames(a: Analysis, spread: int, external: bool)
    requires a.probed != [] && a.blockSize >= 0 && a.allocation.Undetermined?
    ensures var c := Classify(a, spread, NamesOf(external));
            && c.pattern == ClassOf(spread, a.errorRange, NamesOf(external)) && c.portRate == a.portRate
            && c.allocation == (if c.pattern.RandomLike? then RandomInBand else StableOffset)
            && c.hitProbability == RateOf(spread, c.pattern.RandomLike?, |a.probed|, a.hitProbability)
            && c.trendR2 == a.trendR2 && c.predictedShift == a.predictedShift
  {
    var b := a.(pattern := RandomLike);
    BandNames(b);
    hide AsBand;
  }

  lemma ForecastCarries(probes: seq<Probe>, target: int, external: bool, sigma: real)
    requires probes != [] && (external || Deltas(probes) != [])
    ensures P.Observed(probes, external) != []
    ensures var f, v := Forecast(probes, target, external, sigma), TrendOf(probes);
            && f.errorRange == P.ReachOf(probes, external, sigma) && f.allocation.Undetermined?
            && f.portRate == (if v.significant then v.rate else 0.0) && f.hitProbability == 0.0
            && f.trendR2 == v.r2 && f.predictedShift == NatTrend.Shift(v) && f.probed == NatPorts(probes)
  {
    hide MeanOf, MedianOf, TrendOf, ErrorRange, BlockSize, Deltas, MinOf, MaxOf;
  }

  lemma StretchNames(a: Analysis, percent: real)
    ensures var r := WithPrediction(Widened(a, percent));
            && r.pattern == a.pattern && r.allocation == a.allocation && r.hitProbability == a.hitProbability
            && r.portRate == a.portRate && r.trendR2 == a.trendR2 && r.predictedShift == a.predictedShift
  {
  }

  /** The class says in which interval the error range lies; a peer is taken for random-like exactly
      beyond a hundred ports, and for one that moves on exactly where, by offsets, a trend was found
      in ports that are not. */
  lemma ClassIsByErrorRange(probes: seq<Probe>, target: int, external: bool, percent: real, sigma: real)
    requires Estimated(probes, target, external)
    ensures P.Observed(probes, external) != []
    ensures var r, e := Analyse(probes, target, external, percent, sigma), P.ReachOf(probes, external, sigma);
            var spread := SpreadOf(probes, external);
            && r.pattern == ClassOf(spread, e, NamesOf(external))
            && (r.pattern.RandomLike? <==> spread != 0 && e > 100)
            && (r.allocation.RandomInBand? <==> r.pattern.RandomLike?)
            && (r.allocation.Progressive? <==> !external && !r.pattern.RandomLike? && TrendOf(probes).significant)
            && r.hitProbability == RateOf(spread, r.pattern.RandomLike?, |probes|, 0.0)
  {
    assert probes != [] && (external || Deltas(probes) != []);
    RateMeansTrend(probes);
    ClassApart(SpreadOf(probes, external), P.ReachOf(probes, external, sigma), external);
    hide *;
    P.AnalysisIs(probes, target, external, percent, sigma);
    ForecastCarries(probes, target, external, sigma);
    var f := Forecast(probes, target, external, sigma);
    var c := Classify(f, SpreadOf(probes, external), NamesOf(external));
    ClassifyNames(f, SpreadOf(probes, external), external);
    ProgressionIs(c);
    StretchNames(if external then c else Progression(c), percent);
  }

  /** The trend that moved the prediction is noted as it was found. */
  lemma TrendIsNoted(probes: seq<Probe>, target: int, external: bool, percent: real, sigma: real)
    requires Estimated(probes, target, external)
    ensures var r, v := Analyse(probes, target, external, percent, sigma), TrendOf(probes);
            r.trendR2 == v.r2 && r.portRate == v.rate && r.predictedShift == NatTrend.Shift(v)
  {
    assert probes != [] && (external || Deltas(probes) != []);
    RateMeansTrend(probes);
    hide *;
    P.AnalysisIs(probes, target, external, percent, sigma);
    ForecastCarries(probes, target, external, sigma);
    var f := Forecast(probes, target, external, sigma);
    var c := Classify(f, SpreadOf(probes, external), NamesOf(external));
    ClassifyNames(f, SpreadOf(probes, external), external);
    ProgressionIs(c);
    StretchNames(if external then c else Progression(c), percent);
  }

  lemma ProgressionIs(c: Analysis)
    ensures Progression(c).pattern == c.pattern && Progression(c).hitProbability == c.hitProbability
    ensures Progression(c).trendR2 == c.trendR2 && Progression(c).predictedShift == c.predictedShift
    ensures Progression(c).portRate == c.portRate
    ensures Progression(c).allocation
         == if c.allocation.StableOffset? && c.portRate > 0.0 then Progressive else c.allocation
  {
  }

  lemma ClassApart(spread: int, e: int, external: bool)
    ensures ClassOf(spread, e, NamesOf(external)).RandomLike? <==> spread != 0 && e > 100
  {
  }

  lemma RateMeansTrend(probes: seq<Probe>)
    ensures var v := TrendOf(probes); if v.significant then v.rate > 0.0 else v.rate == 0.0
  {
    NatTrend.R2IsShare(Times(ByTime(probes)), NatPorts(ByTime(probes)));
    hide NatTrend.Trend, ByTime;
  }

  /** Within the aligned block that a port lies in. */
  predicate InBlockOf(lo: int, hi: int, block: int, port: int)
    requires block > 0
  {
    port / block * block <= lo && hi < port / block * block + block
  }

  lemma ClipInBlock(b: Band, block: int, port: int)
    requires block > 0
    ensures InBlockOf(Clip(b, block, port).lo, Clip(b, block, port).hi, block, port)
  {
  }

  lemma BandIs(a: Analysis)
    requires a.probed != [] && a.blockSize >= 0
    ensures var c := Clip(EstimateBand(a.probed), a.blockSize, a.minPort);
            AsBand(a).bandLow == c.lo && AsBand(a).bandHigh == c.hi && AsBand(a).blockSize == a.blockSize
  {
    hide Clip, EstimateBand, MedianOf;
  }

  lemma ClassifyBand(a: Analysis, spread: int, external: bool)
    requires a.probed != [] && a.blockSize >= 0
    ensures var r, c := Classify(a, spread, NamesOf(external)), Clip(EstimateBand(a.probed), a.blockSize, a.minPort);
            r.pattern.RandomLike? && spread != 0 ==>
              r.bandLow == c.lo && r.bandHigh == c.hi && r.blockSize == a.blockSize
  {
    BandIs(a.(pattern := RandomLike));
    hide AsBand, Clip, EstimateBand;
  }

  lemma StretchBand(a: Analysis, percent: real)
    ensures var r := WithPrediction(Widened(Progression(a), percent));
            r.bandLow == a.bandLow && r.bandHigh == a.bandHigh && r.blockSize == a.blockSize
    ensures var r := WithPrediction(Widened(a, percent));
            r.bandLow == a.bandLow && r.bandHigh == a.bandHigh && r.blockSize == a.blockSize
  {
  }

  lemma ForecastBlock(probes: seq<Probe>, target: int, external: bool, sigma: real)
    requires probes != [] && (external || Deltas(probes) != [])
    ensures var f := Forecast(probes, target, external, sigma);
            && f.probed == NatPorts(probes) && f.blockSize == BlockSize(NatPorts(probes))
            && f.minPort == MinOf(NatPorts(probes))
  {
    hide MeanOf, MedianOf, TrendOf, ErrorRange, BlockSize, Deltas, MinOf, MaxOf;
  }

  lemma NoBlock(b: Band, port: int)
    ensures Clip(b, 0, port) == b
  {
  }

  lemma BandOfAnalysis(probes: seq<Probe>, target: int, external: bool, percent: real, sigma: real)
    requires Estimated(probes, target, external)
    ensures var r, ports := Analyse(probes, target, external, percent, sigma), NatPorts(probes);
            && ports != [] && BlockSize(ports) >= 0
            && var c := Clip(EstimateBand(ports), BlockSize(ports), MinOf(ports));
               r.pattern.RandomLike? ==> r.bandLow == c.lo && r.bandHigh == c.hi
  {
    assert probes != [] && (external || Deltas(probes) != []);
    BlockNotNegative(NatPorts(probes));
    hide *;
    var spread, f := SpreadOf(probes, external), Forecast(probes, target, external, sigma);
    P.AnalysisIs(probes, target, external, percent, sigma);
    ClassIsByErrorRange(probes, target, external, percent, sigma);
    ForecastBlock(probes, target, external, sigma);
    var c := Classify(f, spread, NamesOf(external));
    ClassifyBand(f, spread, external);
    StretchBand(c, percent);
    StretchNames(if external then c else Progression(c), percent);
    ProgressionIs(c);
  }

  /** The band of a random-like peer: the estimated one, or what of it lies in the aligned block that
      holds all observations. */
  lemma BandStaysInBlock(probes: seq<Probe>, target: int, external: bool, percent: real, sigma: real)
    requires Estimated(probes, target, external)
    ensures var r, ports := Analyse(probes, target, external, percent, sigma), NatPorts(probes);
            && ports != []
            && (r.pattern.RandomLike? ==>
                  if BlockSize(ports) > 0 then InBlockOf(r.bandLow, r.bandHigh, BlockSize(ports), MinOf(ports))
                  else r.bandLow == EstimateBand(ports).lo && r.bandHigh == EstimateBand(ports).hi)
  {
    assert probes != [];
    hide *;
    var ports, block := NatPorts(probes), BlockSize(NatPorts(probes));
    BandOfAnalysis(probes, target, external, percent, sigma);
    if block > 0 { ClipInBlock(EstimateBand(ports), block, MinOf(ports)); }
    else { NoBlock(EstimateBand(ports), MinOf(ports)); }
  }

  /** A peer whose every probe kept its local port is called so, exactly, and its next port is its
      next local one: nothing is scanned. */
  lemma KeptPortIsPredicted(probes: seq<Probe>, target: int, external: bool, percent: real, sigma: real, budget: int)
    ensures var r := Analyse(probes, target, external, percent, sigma);
            && (r.pattern.PortPreserved? <==> |probes| >= 2 && target > 0 && Preserved(probes))
            && (r.pattern.PortPreserved? ==>
                  && r.predicted == ClampPort(target) && r.hitProbability == 1.0 && r.allocation.PortPreserving?
                  && r.scanStart == r.scanEnd == r.predicted && NatCandidates.Candidates(r.Range(), budget) == [])
  {
    if Estimated(probes, target, external) { ClassIsByErrorRange(probes, target, external, percent, sigma); }
    hide Forecast, Classify, Progression, Widened, WithPrediction, BlockSize, MinOf, MaxOf, Deltas, SpreadOf;
  }
}
