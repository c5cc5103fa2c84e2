/** The trend test on ports that do rise in proportion to time: it finds exactly that rate
    (server/nat_analyzer.py). */
module NatLine {
  import opened Wrappers
  import opened Rounding
  import opened NatTrend

  predicate Ascends(times: seq<real>) {
    forall i, j :: 0 <= i < j < |times| ==> times[i] < times[j]
  }

  predicate OnLine(times: seq<real>, ports: seq<int>, a: real, b: real) {
    |times| == |ports| && forall i :: 0 <= i < |times| ==> ports[i] as real == Times(a, times[i]) + b
  }

  // ---------- the sign test ----------

  lemma {:induction false} AllRise(ports: seq<int>)
    requires ports != [] && forall i :: 0 <= i < |ports| - 1 ==> ports[i] < ports[i + 1]
    ensures Rises(ports) == |ports| - 1
    decreases |ports|
  {
    if |ports| >= 2 { AllRise(ports[..|ports| - 1]); }
  }

  lemma {:induction false} NoneRises(ports: seq<int>)
    requires forall i :: 0 <= i < |ports| - 1 ==> ports[i] >= ports[i + 1]
    ensures Rises(ports) == 0
    decreases |ports|
  {
    if |ports| >= 2 { NoneRises(ports[..|ports| - 1]); }
  }

  lemma {:induction false} AllHeads(n: nat)
    ensures Tail(n, n) == 1
  {
    TailCountsOutcomes(n, n);
    AllHeadsOnce(n);
  }

  lemma {:induction false} AllHeadsOnce(n: nat)
    ensures Outcomes(n, n) == 1 && Outcomes(n + 1, n) == 0
  {
    if n > 0 {
      AllHeadsOnce(n - 1);
      TooMany(n + 1, n - 1);
    }
  }

  lemma {:induction false} TooMany(k: nat, n: nat)
    requires k > n
    ensures Outcomes(k, n) == 0
  {
    if n > 0 {
      TooMany(k, n - 1);
      TooMany(k - 1, n - 1);
    }
  }

  lemma {:induction false} PowerAtLeast(n: nat)
    requires n >= 5
    ensures PowerOfTwo(n) >= 32
  {
    if n == 5 {
      assert PowerOfTwo(2) == 4;
      assert PowerOfTwo(5) == 2 * PowerOfTwo(4) == 4 * PowerOfTwo(3);
    } else {
      PowerAtLeast(n - 1);
    }
  }

  /** Five rises out of five are more than chance explains. */
  lemma RisesSuffice(n: nat)
    requires n >= 5
    ensures AtLeast(n, n) <= TREND_ALPHA
  {
    AllHeads(n);
    PowerAtLeast(n);
    var p := PowerOfTwo(n) as real;
    assert 1.0 / p * p == 1.0;
    if 1.0 / p > TREND_ALPHA { RealMulOrder(TREND_ALPHA, 1.0 / p, p); }
    hide PowerOfTwo, Tail;
  }

  // ---------- the sums ----------

  lemma {:induction false} SumOnLine(times: seq<real>, ys: seq<real>, a: real, b: real)
    requires |times| == |ys| && forall i :: 0 <= i < |times| ==> ys[i] == Times(a, times[i]) + b
    ensures Sum(ys) == a * Sum(times) + |times| as real * b
    decreases |times|
  {
    if times != [] {
      var n := |times| - 1;
      SumOnLine(times[..n], ys[..n], a, b);
      assert |times| as real * b == n as real * b + b;
      assert a * (Sum(times[..n]) + times[n]) == a * Sum(times[..n]) + a * times[n];
    }
  }

  lemma MeanOnLine(times: seq<real>, ys: seq<real>, a: real, b: real)
    requires |times| == |ys| > 0 && forall i :: 0 <= i < |times| ==> ys[i] == Times(a, times[i]) + b
    ensures Mean(ys) == a * Mean(times) + b
  {
    SumOnLine(times, ys, a, b);
    hide Sum;
    var n, m := |times| as real, Mean(times);
    assert m * n == Sum(times);
    assert (a * m + b) * n == a * (m * n) + n * b;
    assert Mean(ys) * n == Sum(ys);
    RealMulOrder(Mean(ys), a * m + b, n);
    RealMulOrder(a * m + b, Mean(ys), n);
  }

  lemma OnePoint(a: real, b: real, x: real, mx: real, y: real, my: real)
    requires y == Times(a, x) + b && my == Times(a, mx) + b
    ensures Times(x - mx, y - my) == Times(a, Times(x - mx, x - mx))
    ensures Times(y - my, y - my) == Times(a, Times(a, Times(x - mx, x - mx)))
  {
    var d := x - mx;
    assert y - my == a * d;
    Associates(a, d, d);
    Squares(a, d);
  }

  lemma Associates(a: real, d: real, e: real)
    ensures d * (a * e) == a * (d * e)
  {
  }

  lemma Squares(a: real, d: real)
    ensures (a * d) * (a * d) == a * (a * (d * d))
  {
    Associates(a, a * d, d);
    Associates(a, d, d);
  }

  lemma Distributes(a: real, s: real, q: real)
    ensures Times(a, s + q) == Times(a, s) + Times(a, q)
  {
  }

  lemma {:induction false} ProductsOnLine(times: seq<real>, ys: seq<real>, a: real, b: real, mx: real, my: real)
    requires |times| == |ys| && my == Times(a, mx) + b
    requires forall i :: 0 <= i < |times| ==> ys[i] == Times(a, times[i]) + b
    ensures Products(times, ys, mx, my) == Times(a, Products(times, times, mx, mx))
    ensures Products(ys, ys, my, my) == Times(a, Times(a, Products(times, times, mx, mx)))
    decreases |times|
  {
    if times != [] {
      hide Times;
      var n := |times| - 1;
      ProductsOnLine(times[..n], ys[..n], a, b, mx, my);
      OnePoint(a, b, times[n], mx, ys[n], my);
      var s, q := Products(times[..n], times[..n], mx, mx), Times(times[n] - mx, times[n] - mx);
      Distributes(a, s, q);
      Distributes(a, Times(a, s), Times(a, q));
    }
  }

  lemma TimesPositive(x: real, y: real)
    requires (x > 0.0 && y > 0.0) || (x < 0.0 && y < 0.0)
    ensures Times(x, y) > 0.0
  {
    if x < 0.0 { assert -x * -y > 0.0; }
  }

  lemma {:induction false} SquaresPositive(xs: seq<real>, mx: real)
    ensures Products(xs, xs, mx, mx) >= 0.0
    ensures (exists i :: 0 <= i < |xs| && xs[i] != mx) ==> Products(xs, xs, mx, mx) > 0.0
    decreases |xs|
  {
    if xs != [] {
      var n := |xs| - 1;
      SquaresPositive(xs[..n], mx);
      SquareNonNegative(xs[n] - mx);
      if xs[n] == mx {
        assert forall i :: 0 <= i < |xs| && xs[i] != mx ==> i < n && xs[..n][i] != mx;
      } else {
        TimesPositive(xs[n] - mx, xs[n] - mx);
      }
    }
  }

  lemma JudgedLine(sxx: real, sxy: real, syy: real, a: real)
    requires sxx > 0.0 && a > 0.0 && sxy == a * sxx && syy == a * sxy
    ensures Judge(sxx, sxy, syy) == Verdict(true, a, 1.0)
  {
    RealMulOrder(0.0, a, sxx);
    RealMulOrder(0.0, a, sxy);
    RealMulOrder(0.0, sxy, sxy);
    SlopeOf(sxx, sxy, a);
    assert sxx * syy == sxy * sxy by { assert sxx * (a * sxy) == (a * sxx) * sxy; }
    Same(sxy * sxy, sxx * syy);
    JudgedBy(sxx, sxy, syy);
  }

  lemma JudgedBy(sxx: real, sxy: real, syy: real)
    requires sxx > 0.0 && syy > 0.0 && sxx * syy != 0.0 && (sxy * sxy) / (sxx * syy) == 1.0 && sxy / sxx > 0.0
    ensures Judge(sxx, sxy, syy) == Verdict(true, sxy / sxx, 1.0)
  {
  }

  lemma Same(x: real, y: real)
    requires x == y > 0.0
    ensures x / y == 1.0
  {
    QuotientOrder(0.0, x, x);
  }

  lemma SlopeOf(sxx: real, sxy: real, a: real)
    requires sxx > 0.0 && sxy == a * sxx
    ensures sxy / sxx == a
  {
    var k := sxy / sxx;
    assert k * sxx == sxy;
    RealMulOrder(k, a, sxx);
    RealMulOrder(a, k, sxx);
  }

  // ---------- the verdict ----------

  lemma StepsRise(times: seq<real>, ports: seq<int>, a: real, b: real)
    requires OnLine(times, ports, a, b) && Ascends(times)
    ensures a > 0.0 ==> forall i :: 0 <= i < |ports| - 1 ==> ports[i] < ports[i + 1]
    ensures a <= 0.0 ==> forall i :: 0 <= i < |ports| - 1 ==> ports[i] >= ports[i + 1]
  {
    forall i | 0 <= i < |ports| - 1
      ensures (a > 0.0 ==> ports[i] < ports[i + 1]) && (a <= 0.0 ==> ports[i] >= ports[i + 1])
    {
      var t, u := times[i], times[i + 1];
      assert t < u && a * u - a * t == (u - t) * a;
      if a > 0.0 { RealMulOrder(0.0, u - t, a); } else { RealMulMonotone(0.0, u - t, -a); }
      assert (u - t) * -a == -((u - t) * a);
    }
  }

  lemma FitOnLine(times: seq<real>, ys: seq<real>, a: real, b: real)
    requires |times| == |ys| >= 2 && times[0] < times[1] && a > 0.0
    requires forall i :: 0 <= i < |times| ==> ys[i] == Times(a, times[i]) + b
    ensures Fit(times, ys) == Verdict(true, a, 1.0)
  {
    MeanOnLine(times, ys, a, b);
    var mx, my := Mean(times), Mean(ys);
    ProductsOnLine(times, ys, a, b, mx, my);
    SquaresPositive(times, mx);
    assert times[0] != mx || times[1] != mx;
    JudgedLine(Products(times, times, mx, mx), Products(times, ys, mx, my), Products(ys, ys, my, my), a);
    hide Products, Mean, Judge;
  }

  /** Six probes or more whose ports rise in proportion to time: the trend is found, with exactly
      their rate, and explains everything. */
  lemma RisingLineIsFound(times: seq<real>, ports: seq<int>, a: real, b: real)
    requires OnLine(times, ports, a, b) && Ascends(times) && a > 0.0 && |times| >= 6
    ensures Trend(times, ports) == Verdict(true, a, 1.0)
  {
    StepsRise(times, ports, a, b);
    AllRise(ports);
    RisesSuffice(|ports| - 1);
    FitOnLine(times, AsReals(ports), a, b);
    hide Rises, AtLeast, Fit, Times;
  }

  /** Ports that stay or fall show none. */
  lemma FallingLineIsNone(times: seq<real>, ports: seq<int>, a: real, b: real)
    requires OnLine(times, ports, a, b) && Ascends(times) && a <= 0.0
    ensures !Trend(times, ports).significant
  {
    StepsRise(times, ports, a, b);
    NoneRises(ports);
    TailProbability(0, |times| - 1);
    hide Rises, AtLeast, Fit;
  }

  /** The applied shift is the rise within one second, rounded, up to the largest one. */
  lemma ShiftIsOneSecond(v: Verdict)
    requires v.significant && v.rate > 0.0
    ensures if v.rate >= 32.5 then Shift(v) == MAX_RATE_SHIFT else v.rate - 0.5 <= Shift(v) as real <= v.rate + 0.5
  {
    assert v.rate * PREDICTION_DELAY * RATE_DAMPING == v.rate;
    var r := RoundReal(v.rate);
    if v.rate >= 32.5 { RoundMonotone(32.0, v.rate); RoundOfInt(32); }
    else { RoundMonotone(0.0, v.rate); RoundOfInt(0); RoundMonotone(v.rate, 32.5); }
  }
}
