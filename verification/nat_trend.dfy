/** Does the external port rise with time, and demonstrably so? The sign test and the
    least-squares fit of server/nat_analyzer.py, over exact reals. */
module NatTrend {
  import opened Wrappers
  import opened Rounding

  const TREND_ALPHA: real := 0.05
  const TREND_MIN_R2: real := 0.5
  const PREDICTION_DELAY: real := 2.0
  const RATE_DAMPING: real := 0.5
  const MAX_RATE_SHIFT: int := 32

  // ---------- sign test ----------

  function Choose(n: nat, k: nat): nat {
    if k == 0 then 1 else if n == 0 then 0 else Choose(n - 1, k - 1) + Choose(n - 1, k)
  }

  /** The sum of Choose(n, i) for i from k to n. */
  function Tail(k: nat, n: nat): nat
    decreases n + 1 - k
  {
    if k > n then 0 else Choose(n, k) + Tail(k + 1, n)
  }

  function PowerOfTwo(n: nat): (p: nat)
    ensures p >= 1
  {
    if n == 0 then 1 else 2 * PowerOfTwo(n - 1)
  }

  /** `_binom_p_mindestens`: at least k heads in n fair tosses. */
  function AtLeast(k: nat, n: int): real {
    if n <= 0 then 1.0 else Tail(k, n) as real / PowerOfTwo(n) as real
  }

  /** Of all outcomes of n tosses, those with at least k heads, toss by toss. */
  function Outcomes(k: nat, n: nat): nat {
    if n == 0 then (if k == 0 then 1 else 0)
    else Outcomes(k, n - 1) + Outcomes(if k == 0 then 0 else k - 1, n - 1)
  }

  lemma {:induction false} ChooseBeyond(n: nat, k: nat)
    requires k > n
    ensures Choose(n, k) == 0
  {
    if n > 0 {
      ChooseBeyond(n - 1, k - 1);
      ChooseBeyond(n - 1, k);
    }
  }

  lemma {:induction false} TailStep(k: nat, n: nat)
    requires n > 0
    ensures Tail(k, n) == Tail(k, n - 1) + Tail(if k == 0 then 0 else k - 1, n - 1)
    decreases n + 1 - k
  {
    if k <= n {
      TailStep(k + 1, n);
      if k == n { ChooseBeyond(n - 1, n); }
    }
  }

  /** The sum of binomial coefficients counts the outcomes. */
  lemma {:induction false} TailCountsOutcomes(k: nat, n: nat)
    ensures Tail(k, n) == Outcomes(k, n)
    decreases n
  {
    if n > 0 {
      TailStep(k, n);
      TailCountsOutcomes(k, n - 1);
      TailCountsOutcomes(if k == 0 then 0 else k - 1, n - 1);
    } else if k == 0 {
      assert Tail(0, 0) == Choose(0, 0) + Tail(1, 0);
    }
  }

  lemma {:induction false} OutcomesBounds(k: nat, n: nat)
    ensures Outcomes(k + 1, n) <= Outcomes(k, n) <= Outcomes(0, n) == PowerOfTwo(n)
    ensures k <= n ==> Outcomes(k, n) >= 1
    decreases n
  {
    if n > 0 {
      OutcomesBounds(k, n - 1);
      if k > 0 { OutcomesBounds(k - 1, n - 1); }
    }
  }

  /** A probability, certain for no heads at all, and never growing with k. */
  lemma TailProbability(k: nat, n: int)
    ensures 0.0 <= AtLeast(k, n) <= 1.0 && AtLeast(0, n) == 1.0
    ensures AtLeast(k + 1, n) <= AtLeast(k, n)
  {
    if n > 0 {
      var d := PowerOfTwo(n) as real;
      OutcomesBounds(k, n);
      TailCountsOutcomes(k, n);
      TailCountsOutcomes(k + 1, n);
      TailCountsOutcomes(0, n);
      QuotientOrder(Tail(k + 1, n) as real, Tail(k, n) as real, d);
      QuotientOrder(Tail(k, n) as real, d, d);
    }
  }

  lemma QuotientOrder(x: real, y: real, d: real)
    requires x <= y && d > 0.0
    ensures x / d <= y / d && d / d == 1.0
  {
    var f := (y - x) / d;
    assert f * d == y - x;
    assert y / d == x / d + f;
    if f < 0.0 { RealMulOrder(f, 0.0, d); }
  }

  // ---------- least squares ----------

  function Sum(s: seq<real>): real
    decreases |s|
  {
    if s == [] then 0.0 else Sum(s[..|s| - 1]) + s[|s| - 1]
  }

  function Mean(s: seq<real>): real
    requires s != []
  {
    Sum(s) / |s| as real
  }

  function Times(x: real, y: real): real {
    x * y
  }

  /** The sum of (x - mx)(y - my). */
  function Products(xs: seq<real>, ys: seq<real>, mx: real, my: real): real
    requires |xs| == |ys|
    decreases |xs|
  {
    if xs == [] then 0.0
    else
      var n := |xs| - 1;
      Products(xs[..n], ys[..n], mx, my) + Times(xs[n] - mx, ys[n] - my)
  }

  /** How many values exceed the one before. */
  function Rises(ports: seq<int>): (r: nat)
    ensures r <= Max(0, |ports| - 1)
    decreases |ports|
  {
    if |ports| < 2 then 0
    else Rises(ports[..|ports| - 1]) + if ports[|ports| - 1] > ports[|ports| - 2] then 1 else 0
  }

  function AsReals(s: seq<int>): (r: seq<real>)
    ensures |r| == |s| && forall i :: 0 <= i < |s| ==> r[i] == s[i] as real
  {
    seq(|s|, i requires 0 <= i < |s| => s[i] as real)
  }

  datatype Verdict = Verdict(significant: bool, rate: real, r2: real)

  function Judge(sxx: real, sxy: real, syy: real): Verdict {
    if sxx <= 0.0 then Verdict(false, 0.0, 0.0)
    else
      var slope := sxy / sxx;
      var r2 := if syy > 0.0 then (sxy * sxy) / (sxx * syy) else 0.0;
      if r2 < TREND_MIN_R2 || slope <= 0.0 then Verdict(false, 0.0, r2) else Verdict(true, slope, r2)
  }

  function Fit(times: seq<real>, ports: seq<real>): Verdict
    requires |times| == |ports| > 0
  {
    var mx, my := Mean(times), Mean(ports);
    Judge(Products(times, times, mx, mx), Products(times, ports, mx, my), Products(ports, ports, my, my))
  }

  /** `_trend`, for times in ascending order. */
  function Trend(times: seq<real>, ports: seq<int>): Verdict
    requires |times| == |ports|
  {
    var n := |times|;
    if n < 4 then Verdict(false, 0.0, 0.0)
    else if times[n - 1] - times[0] <= 0.0 then Verdict(false, 0.0, 0.0)
    else if AtLeast(Rises(ports), n - 1) > TREND_ALPHA then Verdict(false, 0.0, 0.0)
    else Fit(times, AsReals(ports))
  }

  /** The shift the analysis applies to its prediction. */
  function Shift(v: Verdict): int {
    if v.significant then Max(0, Min(MAX_RATE_SHIFT, RoundReal(v.rate * PREDICTION_DELAY * RATE_DAMPING))) else 0
  }

  // ---------- r2 is a share ----------

  function Quadratic(t: real, a: real, b: real, c: real): real {
    t * (t * a) + 2.0 * (t * b) + c
  }

  lemma SquareNonNegative(x: real)
    ensures x * x >= 0.0
  {
  }

  lemma SquareAdded(t: real, a: real, b: real, c: real, dx: real, dy: real)
    ensures Quadratic(t, a + Times(dx, dx), b + Times(dx, dy), c + Times(dy, dy)) >= Quadratic(t, a, b, c)
  {
    var u := t * dx;
    SquareNonNegative(u + dy);
    assert (u + dy) * (u + dy) == u * u + 2.0 * (u * dy) + dy * dy;
    assert u * u == t * (t * (dx * dx)) && u * dy == t * (dx * dy);
    assert t * (t * (a + dx * dx)) == t * (t * a) + u * u;
    assert t * (b + dx * dy) == t * b + u * dy;
  }

  lemma ProductsStep(xs: seq<real>, ys: seq<real>, mx: real, my: real)
    requires |xs| == |ys| > 0
    ensures var n := |xs| - 1;
            Products(xs, ys, mx, my) == Products(xs[..n], ys[..n], mx, my) + Times(xs[n] - mx, ys[n] - my)
  {
    hide Times;
  }

  /** A sum of squares, at any t. */
  lemma {:induction false} SquaresAdd(xs: seq<real>, ys: seq<real>, mx: real, my: real, t: real)
    requires |xs| == |ys|
    ensures Quadratic(t, Products(xs, xs, mx, mx), Products(xs, ys, mx, my), Products(ys, ys, my, my)) >= 0.0
    decreases |xs|
  {
    if xs == [] {
      hide Times;
    } else {
      hide Quadratic, Times, Products;
      var n := |xs| - 1;
      SquaresAdd(xs[..n], ys[..n], mx, my, t);
      ProductsStep(xs, xs, mx, mx);
      ProductsStep(xs, ys, mx, my);
      ProductsStep(ys, ys, my, my);
      SquareAdded(t, Products(xs[..n], xs[..n], mx, mx), Products(xs[..n], ys[..n], mx, my),
                  Products(ys[..n], ys[..n], my, my), xs[n] - mx, ys[n] - my);
    }
  }

  lemma Discriminant(a: real, b: real, c: real)
    requires a > 0.0 && Quadratic(-b / a, a, b, c) >= 0.0
    ensures b * b <= a * c
  {
    var t := -b / a;
    assert t * a == -b;
    assert t * (t * a) == t * -b == -(t * b);
    assert t * b + c >= 0.0;
    RealMulMonotone(0.0, t * b + c, a);
    assert (t * b + c) * a == (t * a) * b + c * a;
    assert (t * a) * b == -b * b;
  }

  /** Cauchy and Schwarz. */
  lemma CauchySchwarz(xs: seq<real>, ys: seq<real>, mx: real, my: real)
    requires |xs| == |ys| && Products(xs, xs, mx, mx) > 0.0
    ensures Products(xs, ys, mx, my) * Products(xs, ys, mx, my)
         <= Products(xs, xs, mx, mx) * Products(ys, ys, my, my)
  {
    hide Products, Quadratic;
    var a, b, c := Products(xs, xs, mx, mx), Products(xs, ys, mx, my), Products(ys, ys, my, my);
    SquaresAdd(xs, ys, mx, my, -b / a);
    Discriminant(a, b, c);
  }

  lemma ShareOf(a: real, b: real, c: real)
    requires a > 0.0 && c > 0.0 && b * b <= a * c
    ensures 0.0 <= (b * b) / (a * c) <= 1.0
  {
    RealMulOrder(0.0, c, a);
    var d, q := a * c, b * b;
    assert d > 0.0 && q >= 0.0;
    QuotientOrder(0.0, q, d);
    QuotientOrder(q, d, d);
  }

  lemma JudgedShare(sxx: real, sxy: real, syy: real)
    requires sxx > 0.0 ==> sxy * sxy <= sxx * syy
    ensures SoundVerdict(Judge(sxx, sxy, syy))
  {
    if sxx > 0.0 && syy > 0.0 { ShareOf(sxx, sxy, syy); }
  }

  predicate SoundVerdict(v: Verdict) {
    && 0.0 <= v.r2 <= 1.0 && (v.significant ==> v.r2 >= TREND_MIN_R2)
    && (v.significant <==> v.rate > 0.0) && v.rate >= 0.0
  }

  /** For all inputs r2 lies between 0 and 1; a significant trend has a positive rate,
      any other the rate 0. */
  lemma R2IsShare(times: seq<real>, ports: seq<int>)
    requires |times| == |ports|
    ensures SoundVerdict(Trend(times, ports))
  {
    if |times| >= 4 {
      var ys := AsReals(ports);
      var mx, my := Mean(times), Mean(ys);
      var a, b, c := Products(times, times, mx, mx), Products(times, ys, mx, my), Products(ys, ys, my, my);
      if a > 0.0 { CauchySchwarz(times, ys, mx, my); }
      hide Products, Mean, AsReals, AtLeast, Rises, Judge;
      JudgedShare(a, b, c);
    }
  }

  /** A trend takes at least six probes, and more rises than chance explains. */
  lemma TrendNeedsEvidence(times: seq<real>, ports: seq<int>)
    requires |times| == |ports| && Trend(times, ports).significant
    ensures |times| >= 6 && AtLeast(Rises(ports), |ports| - 1) <= TREND_ALPHA
  {
    assert AtLeast(Rises(ports), |ports| - 1) <= TREND_ALPHA && |ports| >= 4 by { hide AtLeast, Fit; }
    hide Trend, Fit;
    var k, d: nat := Rises(ports), |ports| - 1;
    OutcomesBounds(k, d);
    TailCountsOutcomes(k, d);
    if d < 5 { LikelyWhenFew(k, d); }
  }

  lemma LikelyWhenFew(k: nat, d: nat)
    requires 1 <= d < 5 && Tail(k, d) >= 1
    ensures AtLeast(k, d) > TREND_ALPHA
  {
    var p := PowerOfTwo(d) as real;
    assert PowerOfTwo(2) == 4;
    assert 0.0 < p <= 16.0 by { assert PowerOfTwo(d) <= 16; }
    QuotientOrder(1.0, Tail(k, d) as real, p);
    assert 1.0 / p * p == 1.0;
    if 1.0 / p <= TREND_ALPHA { RealMulMonotone(1.0 / p, TREND_ALPHA, p); }
  }

  /** The applied shift is at most 32 ports, never back, and none without a trend. */
  lemma ShiftBounded(v: Verdict)
    ensures 0 <= Shift(v) <= MAX_RATE_SHIFT && (!v.significant ==> Shift(v) == 0)
  {
  }

  // ---------- neither the clock's zero nor the port's matters ----------

  function Moved(s: seq<real>, d: real): (r: seq<real>)
    ensures |r| == |s| && forall i :: 0 <= i < |s| ==> r[i] == s[i] + d
  {
    seq(|s|, i requires 0 <= i < |s| => s[i] + d)
  }

  function MovedPorts(s: seq<int>, d: int): (r: seq<int>)
    ensures |r| == |s| && forall i :: 0 <= i < |s| ==> r[i] == s[i] + d
  {
    seq(|s|, i requires 0 <= i < |s| => s[i] + d)
  }

  lemma {:induction false} SumMoves(s: seq<real>, d: real)
    ensures Sum(Moved(s, d)) == Sum(s) + |s| as real * d
    decreases |s|
  {
    if s != [] {
      var n := |s| - 1;
      assert Moved(s, d)[..n] == Moved(s[..n], d);
      SumMoves(s[..n], d);
      assert |s| as real * d == n as real * d + d;
    }
  }

  lemma MeanMoves(s: seq<real>, d: real)
    requires s != []
    ensures Mean(Moved(s, d)) == Mean(s) + d
  {
    SumMoves(s, d);
    var n := |s| as real;
    assert Sum(s) / n * n == Sum(s);
    assert (Sum(s) / n + d) * n == Sum(s) + n * d;
  }

  lemma {:induction false} ProductsMove(xs: seq<real>, ys: seq<real>, mx: real, my: real, a: real, b: real)
    requires |xs| == |ys|
    ensures Products(Moved(xs, a), Moved(ys, b), mx + a, my + b) == Products(xs, ys, mx, my)
    decreases |xs|
  {
    if xs != [] {
      var n := |xs| - 1;
      assert Moved(xs, a)[..n] == Moved(xs[..n], a) && Moved(ys, b)[..n] == Moved(ys[..n], b);
      ProductsMove(xs[..n], ys[..n], mx, my, a, b);
      hide Times;
      assert (xs[n] + a) - (mx + a) == xs[n] - mx && (ys[n] + b) - (my + b) == ys[n] - my;
    }
  }

  lemma {:induction false} RisesMove(ports: seq<int>, d: int)
    ensures Rises(MovedPorts(ports, d)) == Rises(ports)
    decreases |ports|
  {
    if |ports| >= 2 {
      var n := |ports| - 1;
      assert MovedPorts(ports, d)[..n] == MovedPorts(ports[..n], d);
      RisesMove(ports[..n], d);
    }
  }

  /** Verdict, rate and r2 stay the same when a constant is added to all times, or to all
      ports. */
  lemma TrendIgnoresOrigin(times: seq<real>, ports: seq<int>, a: real, b: int)
    requires |times| == |ports|
    ensures Trend(Moved(times, a), MovedPorts(ports, b)) == Trend(times, ports)
  {
    if |times| >= 4 {
      var ys := AsReals(ports);
      assert AsReals(MovedPorts(ports, b)) == Moved(ys, b as real);
      RisesMove(ports, b);
      MeanMoves(times, a);
      MeanMoves(ys, b as real);
      ProductsMove(times, times, Mean(times), Mean(times), a, a);
      ProductsMove(times, ys, Mean(times), Mean(ys), a, b as real);
      ProductsMove(ys, ys, Mean(ys), Mean(ys), b as real, b as real);
      hide Products, Mean, Rises, AtLeast, Judge;
    }
  }
}
