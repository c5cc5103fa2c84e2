/** `NATAnalysis` of server/models.py and the functions of server/nat_analyzer.py that
    fill its fields, one assignment at a time. */
module NatAnalyzer {
  import opened Wrappers
  import opened Rounding
  import opened NatEstimate
  import NatTrend

  class NatAnalysis {
    var probed: seq<int>
    var locals: seq<int>
    var minPort: int
    var maxPort: int
    var portRange: int
    var deltaMin: int
    var deltaMax: int
    var deltaMedian: real
    var predicted: int
    var errorRange: int
    var portRate: real
    var predictedShift: int
    var trendR2: real
    var origin: Origin
    var pattern: Pattern
    var allocation: Allocation
    var needsScan: bool
    var scanStart: int
    var scanEnd: int
    var bandLow: int
    var bandHigh: int
    var blockSize: int
    var hitProbability: real

    function View(): Analysis
      reads this
    {
      Analysis(probed, locals, minPort, maxPort, portRange, deltaMin, deltaMax, deltaMedian,
               predicted, errorRange, portRate, predictedShift, trendR2, origin, pattern, allocation,
               needsScan, scanStart, scanEnd, bandLow, bandHigh, blockSize, hitProbability)
    }

    constructor ()
      ensures View() == BLANK
    {
      probed, locals, minPort, maxPort, portRange := [], [], 0, 0, 0;
      deltaMin, deltaMax, deltaMedian := 0, 0, 0.0;
      predicted, errorRange, portRate, predictedShift, trendR2 := 0, 0, 0.0, 0, 0.0;
      origin, pattern, allocation := NoPrediction, Unknown, Undetermined;
      needsScan, scanStart, scanEnd, bandLow, bandHigh, blockSize, hitProbability := false, 0, 0, 0, 0, 0, 0.0;
    }

    /** The band, cut to the block if there is one. */
    method BandEdges() returns (lo: int, hi: int, rate: real)
      requires probed != [] && blockSize >= 0
      ensures Band(lo, hi, rate) == Clip(EstimateBand(probed), blockSize, minPort)
    {
      var band := EstimateBand(probed);
      lo, hi, rate := band.lo, band.hi, band.rate;
      if blockSize != 0 {
        var base := minPort / blockSize * blockSize;
        lo := Max(lo, base);
        hi := Min(hi, base + blockSize - 1);
      }
    }

    method KeepOrReplacePrediction()
      requires probed != []
      modifies this
      ensures View() == InBand(old(View()))
    {
      var median := RoundReal(MedianOf(probed));
      if scanStart <= predicted <= scanEnd {
        origin := Extrapolated;
      } else {
        predicted := ClampPort(median);
        origin := ObservedMedian;
      }
    }

    /** `_als_band`. */
    method TakeBand()
      requires probed != [] && blockSize >= 0
      modifies this
      ensures View() == AsBand(old(View()))
    {
      hide Clip, EstimateBand, InBand;
      var lo, hi, rate := BandEdges();
      allocation := RandomInBand;
      scanStart, scanEnd := lo, hi;
      bandLow, bandHigh := lo, hi;
      needsScan := true;
      hitProbability := rate;
      assert View() == OverBand(old(View()), Band(lo, hi, rate));
      hide OverBand;
      KeepOrReplacePrediction();
    }

    /** `_einordnen`: the ladder from no spread at all to unpredictable. */
    method Rank(spread: int, names: Names)
      requires probed != [] && blockSize >= 0
      modifies this
      ensures View() == Classify(old(View()), spread, names)
    {
      hide AsBand;
      if spread == 0 {
        pattern := names.constant;
        allocation := StableOffset;
        needsScan := false;
        errorRange := 0;
        scanStart := predicted;
        scanEnd := predicted;
        hitProbability := 1.0;
      } else if errorRange <= 5 {
        pattern := names.small;
        allocation := StableOffset;
      } else if errorRange <= 30 {
        pattern := names.medium;
        allocation := StableOffset;
      } else if errorRange <= RANDOM_LIKE_ERROR_RANGE {
        pattern := names.large;
        allocation := StableOffset;
      } else {
        pattern := names.random;
        TakeBand();
      }
    }

    /** `_bereich_erweitern`. */
    method Widen(percent: real)
      modifies this
      ensures View() == Widened(old(View()), percent)
    {
      hide Extra;
      if percent <= 0.0 { return; }
      if scanStart <= 0 || scanEnd <= 0 { return; }
      if scanEnd < scanStart { return; }
      var span := scanEnd - scanStart;
      if span <= 0 { return; }
      var extra := Extra(span, percent);
      if extra <= 0 { return; }
      var padLow := extra / 2;
      scanStart := Max(MIN_PORT, scanStart - padLow);
      scanEnd := Min(MAX_PORT, scanEnd + (extra - padLow));
      needsScan := true;
    }

    /** `_ensure_range_contains_prediction`. */
    method IncludePrediction()
      modifies this
      ensures View() == WithPrediction(old(View()))
    {
      if scanStart <= 0 || scanEnd <= 0 { return; }
      if predicted < scanStart {
        scanStart := Max(MIN_PORT, predicted);
      }
      if predicted > scanEnd {
        scanEnd := Min(MAX_PORT, predicted);
      }
    }

    /** The shift along a trend. */
    method Shift(v: NatTrend.Verdict)
      modifies this
      ensures View() == Drifted(old(View()), v)
    {
      portRate := 0.0;
      predictedShift := 0;
      trendR2 := v.r2;
      if v.significant {
        portRate := v.rate;
        var raw := RoundReal(v.rate * NatTrend.PREDICTION_DELAY * NatTrend.RATE_DAMPING);
        predictedShift := Max(0, Min(NatTrend.MAX_RATE_SHIFT, raw));
        if predictedShift > 0 {
          predicted := ClampPort(predicted + predictedShift);
        }
      }
    }

    /** The range around the prediction. */
    method Surround()
      modifies this
      ensures View() == Ranged(old(View()))
    {
      scanStart := Max(MIN_PORT, predicted - errorRange);
      scanEnd := Min(MAX_PORT, predicted + errorRange);
      needsScan := errorRange > 0;
    }

    /** Takes in the ports, and the extremes of what was seen. */
    method Survey(probes: seq<Probe>)
      requires probes != [] && View() == BLANK
      modifies this
      ensures View() == Measured(probes)
    {
      hide MinOf, MaxOf;
      var i := 0;
      while i < |probes|
        invariant 0 <= i <= |probes|
        invariant probed == NatPorts(probes)[..i] && locals == LocalPorts(probes)[..i]
        invariant View() == BLANK.(probed := probed, locals := locals)
      {
        probed := probed + [probes[i].natPort];
        locals := locals + [probes[i].localPort];
        i := i + 1;
      }
      assert View() == BLANK.(probed := NatPorts(probes), locals := LocalPorts(probes));
      Extremes();
    }

    method Extremes()
      requires probed != []
      modifies this
      ensures View() == WithExtremes(old(View()))
    {
      hide MinOf, MaxOf;
      origin := Extrapolated;
      minPort := MinOf(probed);
      maxPort := MaxOf(probed);
      portRange := maxPort - minPort;
    }

    method PredictFromMean(sigma: real)
      requires probed != []
      modifies this
      ensures View() == FromMean(old(View()), sigma)
    {
      var mean := MeanOf(probed);
      predicted := ClampPort(RoundReal(mean));
      errorRange := ErrorRange(probed, mean, sigma);
    }

    method PredictFromDeltas(deltas: seq<int>, target: int, sigma: real)
      requires deltas != []
      modifies this
      ensures View() == FromDeltas(old(View()), deltas, target, sigma)
    {
      hide MinOf, MaxOf, MedianOf, ErrorRange, RoundReal, ClampPort;
      deltaMin := MinOf(deltas);
      deltaMax := MaxOf(deltas);
      deltaMedian := MedianOf(deltas);
      predicted := ClampPort(RoundReal(target as real + deltaMedian));
      errorRange := ErrorRange(deltas, deltaMedian, sigma);
    }

    /** The analysis up to the classification. */
    method Predict(probes: seq<Probe>, target: int, external: bool, sigma: real)
      requires probes != [] && (external || Deltas(probes) != [])
      requires View() == Measured(probes).(blockSize := BlockSize(NatPorts(probes)))
      modifies this
      ensures View() == Forecast(probes, target, external, sigma)
    {
      hide BlockSize, TrendOf, Drifted, Ranged, FromMean, FromDeltas;
      if external {
        PredictFromMean(sigma);
      } else {
        PredictFromDeltas(Deltas(probes), target, sigma);
      }
      Shift(TrendOf(probes));
      Surround();
    }

    /** The rest of the analysis in external mode. */
    method FinishExternal(probes: seq<Probe>, target: int, percent: real, sigma: real)
      requires probes != [] && View() == Forecast(probes, target, true, sigma)
      modifies this
      ensures View() == WithPrediction(Widened(Classify(Forecast(probes, target, true, sigma), SpreadOf(probes, true),
                                                        EXTERNAL_NAMES), percent))
    {
      ForecastFacts(probes, target, true, sigma);
      hide Classify, Widened, WithPrediction, Forecast, SpreadOf;
      Rank(portRange, EXTERNAL_NAMES);
      Widen(percent);
      IncludePrediction();
    }

    /** The rest of the analysis in delta mode. */
    method FinishDelta(probes: seq<Probe>, target: int, percent: real, sigma: real)
      requires probes != [] && Deltas(probes) != [] && View() == Forecast(probes, target, false, sigma)
      modifies this
      ensures View() == WithPrediction(Widened(Progression(Classify(Forecast(probes, target, false, sigma),
                                                                    SpreadOf(probes, false), DELTA_NAMES)), percent))
    {
      ForecastFacts(probes, target, false, sigma);
      hide Classify, Widened, WithPrediction, Forecast, SpreadOf;
      Rank(deltaMax - deltaMin, DELTA_NAMES);
      if allocation == StableOffset && portRate > 0.0 {
        allocation := Progressive;
      }
      Widen(percent);
      IncludePrediction();
    }

    /** The ports are kept: nothing to scan. */
    method KeepPort(port: int)
      modifies this
      ensures View() == Kept(old(View()), port)
    {
      pattern := PortPreserved;
      allocation := PortPreserving;
      Pin(port);
    }

    method Pin(port: int)
      modifies this
      ensures View() == Pinned(old(View()), port)
    {
      needsScan := false;
      predicted := port;
      scanStart := predicted;
      scanEnd := predicted;
      hitProbability := 1.0;
    }

    method Analyze(probes: seq<Probe>, target: int, external: bool, percent: real, sigma: real)
      requires View() == BLANK
      modifies this
      ensures View() == Analyse(probes, target, external, percent, sigma)
    {
      hide BlockSize, Classify, Widened, WithPrediction, Forecast, Progression, SpreadOf, Kept;
      if |probes| < 2 || (!external && target <= 0) {
        pattern := InsufficientData;
        return;
      }
      Survey(probes);
      if Preserved(probes) && target > 0 {
        KeepPort(ClampPort(target));
        return;
      }
      blockSize := BlockSize(probed);
      if external {
        Predict(probes, target, true, sigma);
        FinishExternal(probes, target, percent, sigma);
      } else if Deltas(probes) == [] {
        pattern := InsufficientData;
      } else {
        Predict(probes, target, false, sigma);
        FinishDelta(probes, target, percent, sigma);
      }
    }
  }

  /** `analyze_nat`; `sigma` is the standard deviation of what the error range is about. */
  method AnalyzeNat(probes: seq<Probe>, target: int, external: bool, percent: real, sigma: real)
    returns (analysis: NatAnalysis)
    requires external && probes != [] ==> IsDeviation(sigma, NatPorts(probes))
    requires !external && Deltas(probes) != [] ==> IsDeviation(sigma, Deltas(probes))
    ensures fresh(analysis) && analysis.View() == Analyse(probes, target, external, percent, sigma)
  {
    analysis := new NatAnalysis();
    analysis.Analyze(probes, target, external, percent, sigma);
  }

  lemma ForecastFacts(probes: seq<Probe>, target: int, external: bool, sigma: real)
    requires probes != [] && (external || Deltas(probes) != [])
    ensures var f := Forecast(probes, target, external, sigma);
            && f.probed != [] && f.blockSize >= 0
            && SpreadOf(probes, external) == if external then f.portRange else f.deltaMax - f.deltaMin
  {
    var b := Measured(probes).(blockSize := BlockSize(NatPorts(probes)));
    var c := if external then FromMean(b, sigma) else FromDeltas(b, Deltas(probes), target, sigma);
    DriftKeeps(c, TrendOf(probes));
    BlockNotNegative(NatPorts(probes));
    hide MeanOf, MedianOf, TrendOf, ErrorRange, Drifted, Ranged, BlockSize, Deltas, MinOf, MaxOf;
  }
}
