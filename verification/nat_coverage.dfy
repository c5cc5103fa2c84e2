/** How many of a peer's ports must be opened: `noetige_abdeckung` of
    server/nat_analyzer.py. The m-th root is any real the power law fits. */
module NatCoverage {
  import opened Wrappers
  import NatAnalyzer
  import NatCandidates
  import NatEstimate

  function Power(x: real, m: nat): real {
    if m == 0 then 1.0 else x * Power(x, m - 1)
  }

  lemma {:induction false} PowerBetween(x: real, m: nat)
    requires 0.0 <= x <= 1.0
    ensures 0.0 <= Power(x, m) <= 1.0
  {
    if m > 0 {
      PowerBetween(x, m - 1);
      RealMulMonotone(0.0, Power(x, m - 1), x);
      RealMulMonotone(x, 1.0, Power(x, m - 1));
    }
  }

  lemma {:induction false} PowerGrows(x: real, y: real, m: nat)
    requires 0.0 <= x < y && m >= 1
    ensures 0.0 <= Power(x, m) < Power(y, m)
  {
    if m == 1 {
      assert Power(x, 1) == x * Power(x, 0) == x && Power(y, 1) == y * Power(y, 0) == y;
    } else {
      PowerGrows(x, y, m - 1);
      ProductGrows(x, y, Power(x, m - 1), Power(y, m - 1));
    }
  }

  lemma ProductGrows(x: real, y: real, p: real, q: real)
    requires 0.0 <= x < y && 0.0 <= p < q
    ensures 0.0 <= x * p < y * q
  {
    RealMulMonotone(p, q, x);
    RealMulOrder(x, y, q);
    RealMulMonotone(0.0, p, x);
  }

  /** Larger exactly where the base is larger. */
  lemma PowerOrder(x: real, y: real, m: nat)
    requires 0.0 <= x && 0.0 <= y && m >= 1
    ensures Power(x, m) <= Power(y, m) <==> x <= y
  {
    if x < y { PowerGrows(x, y, m); }
    if y < x { PowerGrows(y, x, m); }
  }

  lemma {:induction false} PowerFalls(x: real, m: nat, m': nat)
    requires 0.0 <= x <= 1.0 && m <= m'
    ensures Power(x, m') <= Power(x, m)
    decreases m'
  {
    if m < m' {
      PowerFalls(x, m, m' - 1);
      PowerBetween(x, m' - 1);
      RealMulMonotone(x, 1.0, Power(x, m' - 1));
    }
  }

  // ---------- the model ----------

  /** The band as estimated from a span of n draws. */
  function BandWidth(span: int, n: nat): real
    requires n >= 2
  {
    span as real * (n + 1) as real / (n - 1) as real
  }

  function Share(k: int, band: real): real
    requires band > 0.0
  {
    if k as real / band < 1.0 then k as real / band else 1.0
  }

  /** The chance that one of m ports falls among k of a band. */
  function HitRate(k: int, band: real, m: nat): real
    requires band > 0.0
  {
    1.0 - Power(1.0 - Share(k, band), m)
  }

  function Ceiling(x: real): (c: int)
    ensures c as real - 1.0 < x <= c as real
  {
    -((-x).Floor)
  }

  function Held(punchPorts: int): (m: nat)
    ensures m >= 1 && (punchPorts >= 1 ==> m == punchPorts)
  {
    Max(1, punchPorts)
  }

  function Aim(target: real): (p: real)
    ensures 0.5 <= p <= 0.999 && (0.5 <= target <= 0.999 ==> p == target)
  {
    var raised := if target < 0.5 then 0.5 else target;
    if raised > 0.999 then 0.999 else raised
  }

  /** `1 - (1 - p) ** (1 / m)`, as a solution of its equation. */
  predicate IsShare(a: real, p: real, m: nat) {
    0.0 <= a <= 1.0 && Power(1.0 - a, m) == 1.0 - p
  }

  /** What was counted and measured. */
  datatype Sample = Sample(needsScan: bool, n: nat, span: int)

  predicate Spread(s: Sample) {
    s.needsScan && s.n >= 2 && s.span > 0
  }

  function Part(band: real, a: real): real {
    band * a
  }

  lemma PartGrows(x: real, x': real, a: real, a': real)
    requires 0.0 <= x <= x' && 0.0 <= a <= a'
    ensures Part(x, a) <= Part(x', a')
  {
    RealMulMonotone(x, x', a);
    RealMulMonotone(a, a', x');
    assert a * x' == x' * a && a' * x' == x' * a';
  }

  /** Without the ceiling. */
  function Wanted(s: Sample, a: real): int
    requires Spread(s)
  {
    Ceiling(Part(BandWidth(s.span, s.n), a))
  }

  function Coverage(s: Sample, ceiling: int, a: real): int {
    if !s.needsScan then 1
    else if s.n < 2 then ceiling
    else if s.span <= 0 then 1
    else Max(1, Min(ceiling, Wanted(s, a)))
  }

  function SampleOf(analysis: NatAnalyzer.NatAnalysis): Sample
    reads analysis
  {
    Sample(analysis.needsScan, |analysis.probed|, analysis.maxPort - analysis.minPort)
  }

  /** The relay's computation; it also notes the hit rate in the analysis. */
  method NeededCoverage(
    analysis: NatAnalyzer.NatAnalysis, punchPorts: int, ceiling: int, target: real, root: real) returns (k: int)
    requires IsShare(root, Aim(target), Held(punchPorts))
    modifies analysis
    ensures k == Coverage(old(SampleOf(analysis)), ceiling, root)
    ensures analysis.View() == old(analysis.View()).(hitProbability := analysis.hitProbability)
    ensures var s := old(SampleOf(analysis));
            analysis.hitProbability ==
              if !s.needsScan || s.n < 2 then old(analysis.hitProbability)
              else if s.span <= 0 then 1.0
              else HitRate(k, BandWidthAtLeastTwo(s), Held(punchPorts))
  {
    if !analysis.needsScan { return 1; }
    var n := |analysis.probed|;
    var span := analysis.maxPort - analysis.minPort;
    if n < 2 { return ceiling; }
    if span <= 0 {
      analysis.hitProbability := 1.0;
      return 1;
    }
    BandPositive(span, n);
    var band := BandWidth(span, n);
    var m := Held(punchPorts);
    k := Max(1, Min(ceiling, Ceiling(band * root)));
    analysis.hitProbability := HitRate(k, band, m);
  }

  function BandWidthAtLeastTwo(s: Sample): (b: real)
    requires s.n >= 2 && s.span > 0
    ensures b > 0.0
  {
    BandPositive(s.span, s.n);
    BandWidth(s.span, s.n)
  }

  lemma BandPositive(span: int, n: nat)
    requires span > 0 && n >= 2
    ensures BandWidth(span, n) > 0.0
  {
    var x, d := span as real * (n + 1) as real, (n - 1) as real;
    RealMulOrder(0.0, span as real, (n + 1) as real);
    assert x / d * d == x;
    RealMulOrder(0.0, x / d, d);
  }

  // ---------- least coverage ----------

  /** A coverage of j ports reaches the aim exactly if j is at least the share of the band. */
  lemma ReachesAim(j: nat, band: real, m: nat, a: real, p: real)
    requires band > 0.0 && m >= 1 && IsShare(a, p, m)
    ensures HitRate(j, band, m) >= p <==> j as real >= band * a
  {
    var share := Share(j, band);
    ShareOrder(j, band, a);
    hide Share;
    PowerOrder(1.0 - share, 1.0 - a, m);
    hide Power;
  }

  lemma ShareOrder(j: nat, band: real, a: real)
    requires band > 0.0 && 0.0 <= a <= 1.0
    ensures 0.0 <= Share(j, band) <= 1.0 && (Share(j, band) >= a <==> j as real >= band * a)
  {
    var q := j as real / band;
    assert q * band == j as real;
    RealMulOrder(q, 0.0, band);
    RealMulOrder(q, a, band);
    assert a * band == band * a;
  }

  /** The uncapped result is the least coverage that reaches the aim: every smaller one
      misses it, every larger one keeps it. */
  lemma WantedIsLeast(s: Sample, m: nat, a: real, p: real, j: nat)
    requires Spread(s) && m >= 1 && IsShare(a, p, m)
    ensures HitRate(j, BandWidthAtLeastTwo(s), m) >= p <==> j >= Wanted(s, a)
  {
    ReachesAim(j, BandWidthAtLeastTwo(s), m, a, p);
  }

  /** The ceiling is the only reason to miss the aim, and one port is opened in any case. */
  lemma CoverageReachesAim(s: Sample, punchPorts: int, ceiling: int, target: real, a: real)
    requires Spread(s) && IsShare(a, Aim(target), Held(punchPorts))
    ensures var k := Coverage(s, ceiling, a);
            && 1 <= Wanted(s, a) && k == Min(Max(1, ceiling), Wanted(s, a))
            && (HitRate(k, BandWidthAtLeastTwo(s), Held(punchPorts)) >= Aim(target)
                <==> Wanted(s, a) <= Max(1, ceiling))
  {
    ShareIsPositive(a, Aim(target), Held(punchPorts));
    RealMulOrder(0.0, a, BandWidthAtLeastTwo(s));
    WantedIsLeast(s, Held(punchPorts), a, Aim(target), Coverage(s, ceiling, a));
  }

  /** The candidates named for an analysed peer are never more than the coverage asked for, and
      the port foreseen is one of them: here, where the relay asks, the budget is at least one. */
  lemma CandidatesKeepCoverage(
    probes: seq<NatEstimate.Probe>, target: int, external: bool, percent: real, sigma: real, ceiling: int, a: real)
    requires NatEstimate.PositivePorts(NatEstimate.NatPorts(probes))
    ensures var r := NatEstimate.Analyse(probes, target, external, percent, sigma);
            var k := Coverage(Sample(r.needsScan, |r.probed|, r.maxPort - r.minPort), ceiling, a);
            var c := NatCandidates.Candidates(r.Range(), k);
            1 <= k && |c| <= k && (r.needsScan ==> r.predicted in c)
  {
    hide *;
    var r := NatEstimate.Analyse(probes, target, external, percent, sigma);
    if r.needsScan {
      NatEstimate.ScanNeedsTwo(probes, target, external, percent, sigma);
      KeptOnceCentred(r, ceiling, a);
      var k := Coverage(Sample(r.needsScan, |r.probed|, r.maxPort - r.minPort), ceiling, a);
      NatEstimate.PredictionIsTried(probes, target, external, percent, sigma, k);
    } else {
      NothingWithoutScan(r, ceiling, a);
    }
  }

  lemma NothingWithoutScan(r: NatEstimate.Analysis, ceiling: int, a: real)
    requires !r.needsScan
    ensures var k := Coverage(Sample(r.needsScan, |r.probed|, r.maxPort - r.minPort), ceiling, a);
            k == 1 && NatCandidates.Candidates(r.Range(), k) == []
  {
  }

  lemma KeptOnceCentred(r: NatEstimate.Analysis, ceiling: int, a: real)
    requires r.needsScan && |r.probed| >= 2 && NatEstimate.Centred(r)
    ensures var k := Coverage(Sample(r.needsScan, |r.probed|, r.maxPort - r.minPort), ceiling, a);
            1 <= k && |NatCandidates.Candidates(r.Range(), k)| <= k
  {
    var k := Coverage(Sample(r.needsScan, |r.probed|, r.maxPort - r.minPort), ceiling, a);
    CoverageAtLeastOne(Sample(r.needsScan, |r.probed|, r.maxPort - r.minPort), ceiling, a);
    hide NatCandidates.Candidates, Coverage;
    NatCandidates.BudgetKept(r.Range(), k);
  }

  lemma CoverageAtLeastOne(s: Sample, ceiling: int, a: real)
    requires s.needsScan ==> s.n >= 2
    ensures Coverage(s, ceiling, a) >= 1
  {
  }

  lemma ShareIsPositive(a: real, p: real, m: nat)
    requires IsShare(a, p, m) && p > 0.0
    ensures a > 0.0
  {
    if a == 0.0 { PowerOfOne(m); }
  }

  lemma {:induction false} PowerOfOne(m: nat)
    ensures Power(1.0, m) == 1.0
  {
    if m > 0 { PowerOfOne(m - 1); }
  }

  /** There is one such share, so the result does not depend on the root chosen. */
  lemma ShareIsUnique(a: real, b: real, p: real, m: nat)
    requires m >= 1 && IsShare(a, p, m) && IsShare(b, p, m)
    ensures a == b
  {
    PowerOrder(1.0 - a, 1.0 - b, m);
    PowerOrder(1.0 - b, 1.0 - a, m);
  }

  /** More ports held by the peer never call for more coverage. */
  lemma MorePortsNeedLess(s: Sample, punch: int, punch': int, ceiling: int, target: real, a: real, a': real)
    requires punch <= punch' && IsShare(a, Aim(target), Held(punch)) && IsShare(a', Aim(target), Held(punch'))
    ensures a' <= a && Coverage(s, ceiling, a') <= Coverage(s, ceiling, a)
    ensures 1 <= punch < punch' ==> a' < a
  {
    if 1 <= punch < punch' { SmallerStill(a, a', Aim(target), punch, punch'); }
    SmallerShare(a, a', Aim(target), Held(punch), Held(punch'));
    if Spread(s) { CoverageGrows(s, s, ceiling, a', a); }
  }

  lemma SmallerShare(a: real, a': real, p: real, m: nat, m': nat)
    requires 1 <= m <= m' && IsShare(a, p, m) && IsShare(a', p, m')
    ensures a' <= a
  {
    PowerFalls(1.0 - a, m, m');
    PowerOrder(1.0 - a, 1.0 - a', m');
  }

  lemma {:induction false} PowerFallsStrictly(x: real, m: nat, m': nat)
    requires 0.0 < x < 1.0 && m < m'
    ensures 0.0 < Power(x, m') < Power(x, m)
    decreases m'
  {
    PowerPositive(x, m' - 1);
    RealMulOrder(x, 1.0, Power(x, m' - 1));
    if m < m' - 1 { PowerFallsStrictly(x, m, m' - 1); }
    RealMulOrder(0.0, x, Power(x, m' - 1));
  }

  lemma {:induction false} PowerPositive(x: real, m: nat)
    requires x > 0.0
    ensures Power(x, m) > 0.0
  {
    if m > 0 {
      PowerPositive(x, m - 1);
      RealMulOrder(0.0, x, Power(x, m - 1));
    }
  }

  lemma {:induction false} PowerOfNothing(m: nat)
    requires m >= 1
    ensures Power(0.0, m) == 0.0
  {
  }

  lemma SmallerStill(a: real, a': real, p: real, m: nat, m': nat)
    requires 1 <= m < m' && 0.0 < p < 1.0 && IsShare(a, p, m) && IsShare(a', p, m')
    ensures a' < a
  {
    PowerOfNothing(m);
    ShareIsPositive(a, p, m);
    PowerFallsStrictly(1.0 - a, m, m');
    PowerOrder(1.0 - a', 1.0 - a, m');
  }

  lemma CoverageIs(s: Sample, ceiling: int, a: real)
    requires Spread(s)
    ensures s.n >= 2 && Coverage(s, ceiling, a) == Max(1, Min(ceiling, Ceiling(Part(BandWidth(s.span, s.n), a))))
  {
    hide BandWidth, Ceiling, Part;
  }

  /** A larger part of a wider band is no less. */
  lemma CoverageGrows(s: Sample, s': Sample, ceiling: int, a: real, a': real)
    requires Spread(s) && Spread(s') && BandWidth(s.span, s.n) <= BandWidth(s'.span, s'.n) && 0.0 <= a <= a'
    ensures Coverage(s, ceiling, a) <= Coverage(s', ceiling, a')
  {
    BandPositive(s.span, s.n);
    CoverageIs(s, ceiling, a);
    CoverageIs(s', ceiling, a');
    PartGrows(BandWidth(s.span, s.n), BandWidth(s'.span, s'.n), a, a');
    CeilingMonotone(Part(BandWidth(s.span, s.n), a), Part(BandWidth(s'.span, s'.n), a'));
    hide BandWidth, Ceiling, Part, Coverage;
  }

  lemma CeilingMonotone(x: real, y: real)
    requires x <= y
    ensures Ceiling(x) <= Ceiling(y)
  {
  }

  lemma BandMonotone(n: nat, span: int, span': int)
    requires n >= 2 && span <= span'
    ensures BandWidth(span, n) <= BandWidth(span', n)
  {
    var f, d := (n + 1) as real, (n - 1) as real;
    RealMulMonotone(span as real, span' as real, f);
    QuotientMonotone(span as real * f, span' as real * f, d);
  }

  lemma QuotientMonotone(x: real, y: real, d: real)
    requires x <= y && d > 0.0
    ensures x / d <= y / d
  {
    assert x / d * d == x && y / d * d == y;
    RealMulOrder(y / d, x / d, d);
  }

  lemma Excess(s: real, d: real)
    requires d > 0.0
    ensures (s * (d + 2.0)) / d == s + (2.0 * s) / d
  {
    var p, q := (s * (d + 2.0)) / d, (2.0 * s) / d;
    assert p * d == s * (d + 2.0) == s * d + 2.0 * s && q * d == 2.0 * s;
    assert (s + q) * d == s * d + q * d;
    RealMulOrder(p, s + q, d);
    RealMulOrder(s + q, p, d);
  }

  lemma QuotientFalls(x: real, d: real, e: real)
    requires x >= 0.0 && 0.0 < d <= e
    ensures 0.0 <= x / e <= x / d
  {
    var p, q := x / d, x / e;
    assert p * d == x && q * e == x;
    RealMulOrder(q, 0.0, e);
    RealMulOrder(p, 0.0, d);
    RealMulMonotone(d, e, p);
    assert d * p == p * d && e * p == p * e;
    RealMulOrder(p, q, e);
  }

  lemma WidthIs(span: int, n: nat)
    requires n >= 2
    ensures BandWidth(span, n) * (n - 1) as real == span as real * (n + 1) as real
    ensures BandWidth(span, n) == span as real + (2.0 * span as real) / (n - 1) as real
  {
    Excess(span as real, (n - 1) as real);
    assert (n + 1) as real == (n - 1) as real + 2.0;
  }

  /** The band is wider than the span seen in it by the n - 1 th part on either side, so the less
      the more probes there are. */
  lemma BandOutgrowsSpan(span: int, n: nat, n': nat)
    requires span >= 0 && 2 <= n <= n'
    ensures BandWidth(span, n) == span as real + (2.0 * span as real) / (n - 1) as real
    ensures span as real <= BandWidth(span, n') <= BandWidth(span, n)
  {
    hide BandWidth;
    WidthIs(span, n);
    WidthIs(span, n');
    QuotientFalls(2.0 * span as real, (n - 1) as real, (n' - 1) as real);
  }

  /** The share of the estimated band that was seen is the rate the analysis gives a band. */
  lemma RateIsSeenShare(ports: seq<int>)
    requires |ports| >= 2
    ensures var span := NatEstimate.MaxOf(ports) - NatEstimate.MinOf(ports);
            NatEstimate.EstimateBand(ports).rate * BandWidth(span, |ports|) == span as real
  {
    hide *;
    var span, n := NatEstimate.MaxOf(ports) - NatEstimate.MinOf(ports), |ports|;
    RateIs(ports);
    WidthIs(span, n);
    TakenBack(span as real, (n - 1) as real, (n + 1) as real, NatEstimate.EstimateBand(ports).rate, BandWidth(span, n));
  }

  lemma RateIs(ports: seq<int>)
    requires |ports| >= 2
    ensures NatEstimate.EstimateBand(ports).rate * (|ports| + 1) as real == (|ports| - 1) as real
  {
    hide NatEstimate.MinOf, NatEstimate.MaxOf;
  }

  lemma TakenBack(s: real, d: real, f: real, u: real, w: real)
    requires f > 0.0 && u * f == d && w * d == s * f
    ensures u * w == s
  {
    assert w * (u * f) == (u * w) * f;
    RealMulOrder(u * w, s, f);
    RealMulOrder(s, u * w, f);
  }

  /** The same spread seen with more probes never calls for more; too few to know it call for all
      that is allowed. */
  lemma MoreProbesNeedLess(span: int, n: nat, n': nat, ceiling: int, a: real)
    requires n <= n' && 0.0 <= a && 1 <= ceiling
    ensures Coverage(Sample(true, n', span), ceiling, a) <= Coverage(Sample(true, n, span), ceiling, a)
  {
    if n >= 2 && span > 0 {
      BandOutgrowsSpan(span, n, n');
      CoverageGrows(Sample(true, n', span), Sample(true, n, span), ceiling, a, a);
    }
    hide BandWidth, Ceiling, Part;
  }

  /** A wider spread of as many probes never calls for less. */
  lemma WiderNeedsMore(n: nat, span: int, span': int, ceiling: int, a: real)
    requires span <= span' && 0.0 <= a
    ensures Coverage(Sample(true, n, span), ceiling, a) <= Coverage(Sample(true, n, span'), ceiling, a)
  {
    if n >= 2 && span > 0 {
      BandMonotone(n, span, span');
      CoverageGrows(Sample(true, n, span), Sample(true, n, span'), ceiling, a, a);
    }
    hide BandWidth, Ceiling, Part;
  }
}
