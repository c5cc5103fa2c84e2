/** The two ways the system rounds: Python's `round` takes a half to the even
    neighbour, Rust's `f64::round` away from zero. Ratios and reals are exact here. */
module Rounding {
  import opened Wrappers

  /** The quotient, its rest, and the next multiple. */
  lemma Division(num: int, den: int)
    requires den > 0
    ensures (num / den) * den + num % den == num && 0 <= num % den < den
    ensures (num / den + 1) * den == (num / den) * den + den
  {
  }

  /** Python's `round` of num / den. */
  function HalfEven(num: int, den: int): (r: int)
    requires den > 0
    ensures 2 * num - den <= 2 * (r * den) <= 2 * num + den
    ensures num % den == 0 ==> r * den == num
  {
    Division(num, den);
    var q, rem := num / den, num % den;
    if 2 * rem < den || (2 * rem == den && q % 2 == 0) then q else q + 1
  }

  /** Rust's `round` of num / den, for what is not negative. */
  function HalfAway(num: nat, den: int): (r: nat)
    requires den > 0
    ensures 2 * num - den < 2 * (r * den) <= 2 * num + den
    ensures num % den == 0 ==> r * den == num
  {
    Division(num, den);
    var q, rem := num / den, num % den;
    NotNegative(num, den);
    if 2 * rem < den then q else q + 1
  }

  lemma NotNegative(num: nat, den: int)
    requires den > 0
    ensures num / den >= 0
  {
  }

  /** Python's `round` of a real. */
  function RoundReal(x: real): (r: int)
    ensures x - 0.5 <= r as real <= x + 0.5
  {
    var q := x.Floor;
    var rem := x - q as real;
    if rem < 0.5 || (rem == 0.5 && q % 2 == 0) then q else q + 1
  }

  lemma RoundMonotone(x: real, y: real)
    requires x <= y
    ensures RoundReal(x) <= RoundReal(y)
  {
    assert x.Floor <= y.Floor;
  }

  lemma RoundOfInt(n: int)
    ensures RoundReal(n as real) == n
  {
  }

  /** A mean or median of ports stays between whole bounds when it is rounded. */
  lemma RoundBetween(x: real, lo: int, hi: int)
    requires lo as real <= x <= hi as real
    ensures lo <= RoundReal(x) <= hi
  {
    RoundMonotone(lo as real, x);
    RoundMonotone(x, hi as real);
    RoundOfInt(lo);
    RoundOfInt(hi);
  }

  lemma QuotientSplit(num: int, den: int, q: int, rem: int)
    requires den > 0 && q * den + rem == num
    ensures num as real / den as real == q as real + rem as real / den as real
  {
    var d := den as real;
    assert num as real == q as real * d + rem as real;
    assert (q as real + rem as real / d) * d == num as real;
  }

  lemma FloorOf(q: int, f: real)
    requires 0.0 <= f < 1.0
    ensures (q as real + f).Floor == q
  {
  }

  lemma FractionOf(rem: int, den: int)
    requires 0 <= rem < den
    ensures var f := rem as real / den as real;
            0.0 <= f < 1.0 && (f < 0.5 <==> 2 * rem < den) && (f == 0.5 <==> 2 * rem == den)
  {
    var f, d := rem as real / den as real, den as real;
    assert f * d == rem as real;
    RealMulOrder(f, 1.0, d);
    RealMulOrder(f, 0.5, d);
    RealMulOrder(0.5, f, d);
    RealMulOrder(f, 0.0, d);
  }

  /** The ratio and the real version agree on what is closest and on ties. */
  lemma RatioIsReal(num: int, den: int)
    requires den > 0
    ensures HalfEven(num, den) == RoundReal(num as real / den as real)
  {
    var q, rem := num / den, num % den;
    assert q * den + rem == num;
    QuotientSplit(num, den, q, rem);
    FractionOf(rem, den);
    FloorOf(q, rem as real / den as real);
  }

  // ---------- points spread in proportion ----------

  /** Further apart than one: the rounded points differ. */
  lemma StepUp(num: int, num': int, den: int)
    requires den > 0 && num' > num + den
    ensures HalfEven(num', den) > HalfEven(num, den)
  {
    MulOrder(HalfEven(num, den), HalfEven(num', den), den);
  }

  lemma HalfEvenMonotone(num: int, num': int, den: int)
    requires den > 0 && num <= num'
    ensures HalfEven(num, den) <= HalfEven(num', den)
  {
    var r, r' := HalfEven(num, den), HalfEven(num', den);
    if num < num' { MulOrder(r', r, den); MulOrder(r' + 1, r, den); assert (r' + 1) * den == r' * den + den; }
  }

  /** At most the step rounded up. */
  lemma StepBounded(num: int, num': int, den: int, ceil: int)
    requires den > 0 && num' < num + ceil * den
    ensures HalfEven(num', den) <= HalfEven(num, den) + ceil
  {
    var r, r' := HalfEven(num, den), HalfEven(num', den);
    assert (r + ceil + 1) * den == r * den + ceil * den + den;
    MulOrder(r + ceil, r', den);
    MulOrder(r + ceil + 1, r', den);
  }
}
