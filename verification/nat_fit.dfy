/** What the fit of the trend test stands for: no straight line comes closer to the ports than the
    one it finds, and its share r2 says how much closer it comes (server/nat_analyzer.py). */
module NatFit {
  import opened Wrappers
  import opened NatTrend

  /** The sum of squared distances of the points from a line. */
  function Errors(xs: seq<real>, ys: seq<real>, k: real, c: real): real
    requires |xs| == |ys|
    decreases |xs|
  {
    if xs == [] then 0.0
    else
      var n := |xs| - 1;
      Errors(xs[..n], ys[..n], k, c) + Times(ys[n] - (Times(k, xs[n]) + c), ys[n] - (Times(k, xs[n]) + c))
  }

  /** The same sum, by the moments around a centre: `d` is how far the line passes above it. */
  function ByMoments(k: real, d: real, sxx: real, sxy: real, syy: real, dx: real, dy: real, n: real): real {
    syy - 2.0 * Times(k, sxy) + Times(k, Times(k, sxx)) - 2.0 * Times(d, dy - Times(k, dx)) + Times(n, Times(d, d))
  }

  lemma Distribute(a: real, x: real, y: real)
    ensures Times(a, x + y) == Times(a, x) + Times(a, y) && Times(a, x - y) == Times(a, x) - Times(a, y)
    ensures Times(x + y, a) == Times(x, a) + Times(y, a) && Times(x - y, a) == Times(x, a) - Times(y, a)
  {
  }

  lemma Rearrange(a: real, x: real, y: real)
    ensures Times(Times(a, x), y) == Times(a, Times(x, y)) && Times(x, Times(a, y)) == Times(a, Times(x, y))
    ensures Times(x, y) == Times(y, x)
  {
    assert (a * x) * y == a * (x * y);
    assert x * (a * y) == a * (x * y);
  }

  /** The square of one distance. */
  lemma OneError(k: real, d: real, x: real, y: real)
    ensures var e := y - Times(k, x) - d;
            Times(e, e) == Times(y, y) - 2.0 * Times(k, Times(x, y)) + Times(k, Times(k, Times(x, x)))
                           - 2.0 * Times(d, y - Times(k, x)) + Times(d, d)
  {
    var u := Times(k, x);
    var v := y - u;
    hide Times;
    Distribute(v - d, v, d);
    Distribute(v, v, d);
    Distribute(d, v, d);
    Distribute(v, y, u);
    Distribute(y, y, u);
    Distribute(u, y, u);
    Rearrange(k, x, y);
    Rearrange(k, x, u);
    Rearrange(k, x, x);
    Rearrange(1.0, u, y);
    Rearrange(1.0, v, d);
  }

  lemma MomentsAdd(
    k: real, d: real, sxx: real, sxy: real, syy: real, dx: real, dy: real, n: real, x: real, y: real)
    ensures var e := y - Times(k, x) - d;
            ByMoments(k, d, sxx + Times(x, x), sxy + Times(x, y), syy + Times(y, y), dx + x, dy + y, n + 1.0)
            == ByMoments(k, d, sxx, sxy, syy, dx, dy, n) + Times(e, e)
  {
    OneError(k, d, x, y);
    Distribute(k, sxy, Times(x, y));
    Distribute(k, sxx, Times(x, x));
    Distribute(k, Times(k, sxx), Times(k, Times(x, x)));
    Distribute(k, dx, x);
    Distribute(d, dy - Times(k, dx), y - Times(k, x));
    Distribute(Times(d, d), n, 1.0);
    assert Times(1.0, Times(d, d)) == Times(d, d);
    hide Times;
  }

  lemma {:induction false} ErrorsByMoments(
    xs: seq<real>, ys: seq<real>, k: real, c: real, mx: real, my: real, d: real)
    requires |xs| == |ys| && d == c - (my - Times(k, mx))
    ensures Errors(xs, ys, k, c)
         == ByMoments(k, d, Products(xs, xs, mx, mx), Products(xs, ys, mx, my), Products(ys, ys, my, my),
                      Sum(xs) - Times(|xs| as real, mx), Sum(ys) - Times(|ys| as real, my), |xs| as real)
    decreases |xs|
  {
    if xs == [] {
      NoMoments(k, d, mx, my);
    } else {
      var n := |xs| - 1;
      ErrorsByMoments(xs[..n], ys[..n], k, c, mx, my, d);
      var x, y := xs[n] - mx, ys[n] - my;
      MomentsAdd(k, d, Products(xs[..n], xs[..n], mx, mx), Products(xs[..n], ys[..n], mx, my),
                 Products(ys[..n], ys[..n], my, my), Sum(xs[..n]) - Times(n as real, mx),
                 Sum(ys[..n]) - Times(n as real, my), n as real, x, y);
      Distribute(k, xs[n], mx);
      Distribute(mx, n as real, 1.0);
      Distribute(my, n as real, 1.0);
      assert Times(1.0, mx) == mx && Times(1.0, my) == my;
      assert |xs| as real == n as real + 1.0;
      ProductsStep(xs, xs, mx, mx);
      ProductsStep(xs, ys, mx, my);
      ProductsStep(ys, ys, my, my);
      assert Sum(xs) == Sum(xs[..n]) + xs[n] && Sum(ys) == Sum(ys[..n]) + ys[n];
      hide Times, ByMoments, Products, Sum;
      assert Sum(xs) - Times(|xs| as real, mx) == Sum(xs[..n]) - Times(n as real, mx) + x;
      assert Sum(ys) - Times(|ys| as real, my) == Sum(ys[..n]) - Times(n as real, my) + y;
      assert ys[n] - (Times(k, xs[n]) + c) == y - Times(k, x) - d;
    }
  }

  lemma NoMoments(k: real, d: real, mx: real, my: real)
    ensures ByMoments(k, d, 0.0, 0.0, 0.0, 0.0 - Times(0.0, mx), 0.0 - Times(0.0, my), 0.0) == 0.0
  {
    assert Times(k, 0.0) == 0.0 && Times(0.0, mx) == 0.0 && Times(0.0, my) == 0.0 && Times(0.0, Times(d, d)) == 0.0;
    assert 0.0 - Times(k, 0.0) == 0.0 && Times(d, 0.0) == 0.0;
  }

  lemma AroundTheMean(s: seq<real>)
    requires s != []
    ensures Sum(s) - Times(|s| as real, Mean(s)) == 0.0
  {
  }

  /** Around the means, only the slope and the height above the centre are left. */
  lemma ErrorsAroundMeans(xs: seq<real>, ys: seq<real>, k: real, c: real)
    requires |xs| == |ys| > 0
    ensures var mx, my := Mean(xs), Mean(ys);
            var d := c - (my - Times(k, mx));
            Errors(xs, ys, k, c)
            == Products(ys, ys, my, my) - 2.0 * Times(k, Products(xs, ys, mx, my))
               + Times(k, Times(k, Products(xs, xs, mx, mx))) + Times(|xs| as real, Times(d, d))
  {
    var mx, my := Mean(xs), Mean(ys);
    var d := c - (my - Times(k, mx));
    AroundTheMean(xs);
    AroundTheMean(ys);
    assert Times(k, 0.0) == 0.0 && Times(d, 0.0) == 0.0;
    hide Times, Errors, Products, Mean, Sum;
    ErrorsByMoments(xs, ys, k, c, mx, my, d);
  }

  lemma NotNegative(n: real, d: real)
    requires n >= 0.0
    ensures Times(n, Times(d, d)) >= 0.0 && Times(n, Times(0.0, 0.0)) == 0.0
  {
    SquareNonNegative(d);
    RealMulMonotone(0.0, d * d, n);
    assert Times(0.0, 0.0) == 0.0;
    assert Times(n, 0.0) == 0.0;
  }

  /** With `rate * sxx == sxy`, another slope costs its distance from that rate. */
  lemma SlopeCosts(k: real, rate: real, sxx: real, sxy: real)
    requires Times(rate, sxx) == sxy
    ensures Times(k, Times(k, sxx)) - 2.0 * Times(k, sxy) + Times(rate, sxy) == Times(sxx, Times(k - rate, k - rate))
  {
    var e := k - rate;
    hide Times;
    Distribute(e, k, rate);
    Distribute(sxx, Times(k, e), Times(rate, e));
    Distribute(k, k, rate);
    Distribute(rate, k, rate);
    Distribute(sxx, Times(k, k), Times(k, rate));
    Distribute(sxx, Times(rate, k), Times(rate, rate));
    Rearrange(k, sxx, k);
    Rearrange(k, sxx, rate);
    Rearrange(rate, sxx, k);
    Rearrange(rate, sxx, rate);
    Rearrange(1.0, k, sxx);
    Rearrange(1.0, rate, sxx);
    Rearrange(1.0, k, rate);
    Rearrange(k, rate, sxx);
    Rearrange(rate, k, sxx);
  }

  function Rate(xs: seq<real>, ys: seq<real>): real
    requires |xs| == |ys| > 0 && Products(xs, xs, Mean(xs), Mean(xs)) > 0.0
  {
    Products(xs, ys, Mean(xs), Mean(ys)) / Products(xs, xs, Mean(xs), Mean(xs))
  }

  lemma RateTimes(a: real, b: real)
    requires a > 0.0
    ensures Times(b / a, a) == b
  {
  }

  /** No line comes closer than the one with the fitted rate through the means, and what is left of
      the variation is what its part of it leaves. */
  lemma NoLineFitsBetter(xs: seq<real>, ys: seq<real>, k: real, c: real)
    requires |xs| == |ys| > 0 && Products(xs, xs, Mean(xs), Mean(xs)) > 0.0
    ensures var rate := Rate(xs, ys);
            var base := Mean(ys) - Times(rate, Mean(xs));
            && Errors(xs, ys, rate, base) <= Errors(xs, ys, k, c)
            && Errors(xs, ys, rate, base) == Products(ys, ys, Mean(ys), Mean(ys))
                                             - Times(rate, Products(xs, ys, Mean(xs), Mean(ys)))
  {
    var mx, my := Mean(xs), Mean(ys);
    var sxx, sxy, rate, n := Products(xs, xs, mx, mx), Products(xs, ys, mx, my), Rate(xs, ys), |xs| as real;
    var base := my - Times(rate, mx);
    RateTimes(sxx, sxy);
    var d := c - (my - Times(k, mx));
    hide Times, Errors, Products, Mean, Rate;
    ErrorsAroundMeans(xs, ys, k, c);
    ErrorsAroundMeans(xs, ys, rate, base);
    NotNegative(n, d);
    NotNegative(sxx, k - rate);
    SlopeCosts(k, rate, sxx, sxy);
    Rearrange(1.0, rate, sxx);
  }

  lemma HalfExplained(sxx: real, sxy: real, syy: real)
    requires sxx > 0.0 && syy >= 0.0
    ensures Judge(sxx, sxy, syy).significant <==> sxy > 0.0 && syy > 0.0 && 2.0 * Times(sxy / sxx, sxy) >= syy
  {
    var slope := sxy / sxx;
    assert slope * sxx == sxy;
    RealMulOrder(0.0, slope, sxx);
    if syy > 0.0 {
      RealMulOrder(0.0, sxx, syy);
      var d := sxx * syy;
      var r2 := (sxy * sxy) / d;
      assert r2 * d == sxy * sxy;
      assert sxy * sxy == (slope * sxy) * sxx by { assert (slope * sxx) * sxy == (slope * sxy) * sxx; }
      RealMulOrder(r2, 0.5, d);
      RealMulOrder(2.0 * (slope * sxy), syy, sxx);
      assert syy * sxx == sxx * syy;
      assert (2.0 * (slope * sxy)) * sxx == 2.0 * ((slope * sxy) * sxx);
    }
  }

  lemma SpreadIsPositive(xs: seq<real>, ys: seq<real>)
    requires |xs| == |ys| > 0
    ensures Products(xs, xs, Mean(xs), Mean(xs)) >= 0.0
  {
    SquaresSum(xs, Mean(xs));
  }

  lemma {:induction false} SquaresSum(xs: seq<real>, mx: real)
    ensures Products(xs, xs, mx, mx) >= 0.0
    decreases |xs|
  {
    if xs != [] {
      SquaresSum(xs[..|xs| - 1], mx);
      SquareNonNegative(xs[|xs| - 1] - mx);
    }
  }

  /** The trend is found exactly if there are at least four probes over some time, chance explains so many
      rises badly enough, the fitted line rises, and it leaves at most half of the ports' variation. */
  lemma TrendMeans(times: seq<real>, ports: seq<int>)
    requires |times| == |ports| >= 4 && times[|times| - 1] > times[0]
    requires Products(times, times, Mean(times), Mean(times)) > 0.0
    ensures var n, ys := |times|, AsReals(ports);
            var rate := Rate(times, ys);
            var left := Errors(times, ys, rate, Mean(ys) - Times(rate, Mean(times)));
            var all := Products(ys, ys, Mean(ys), Mean(ys));
            && (Trend(times, ports).significant
                <==> AtLeast(Rises(ports), n - 1) <= TREND_ALPHA && rate > 0.0 && 2.0 * left <= all && all > 0.0)
            && (Trend(times, ports).significant ==> Trend(times, ports).rate == rate)
  {
    var ys := AsReals(ports);
    var mx, my := Mean(times), Mean(ys);
    var sxx, sxy, syy := Products(times, times, mx, mx), Products(times, ys, mx, my), Products(ys, ys, my, my);
    SpreadIsPositive(ys, ys);
    HalfExplained(sxx, sxy, syy);
    RateTimes(sxx, sxy);
    RatePositive(sxy / sxx, sxx);
    NoLineFitsBetter(times, ys, 0.0, 0.0);
    RateIsKept(sxx, sxy, syy);
    assert Fit(times, ys) == Judge(sxx, sxy, syy);
    assert times[|times| - 1] - times[0] > 0.0;
    hide Products, Mean, AtLeast, Rises, Judge, AsReals, Times, Errors, Fit;
  }

  lemma RateIsKept(sxx: real, sxy: real, syy: real)
    requires sxx > 0.0
    ensures Judge(sxx, sxy, syy).significant ==> Judge(sxx, sxy, syy).rate == sxy / sxx
  {
  }

  lemma RatePositive(rate: real, a: real)
    requires a > 0.0
    ensures Times(rate, a) > 0.0 <==> rate > 0.0
  {
    RealMulOrder(0.0, rate, a);
  }
}
