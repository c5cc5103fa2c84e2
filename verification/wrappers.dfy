/** Result types and small arithmetic shared by the other modules. */
module Wrappers {

  datatype Option<+T> = None | Some(value: T)

  datatype Result<+R, +E> = Ok(value: R) | Err(error: E)

  function Min(a: int, b: int): (m: int)
    ensures m <= a && m <= b && (m == a || m == b)
  {
    if a <= b then a else b
  }

  function Max(a: int, b: int): (m: int)
    ensures a <= m && b <= m && (m == a || m == b)
  {
    if a <= b then b else a
  }

  lemma MulMonotone(x: int, y: int, b: nat)
    requires x <= y
    ensures x * b <= y * b
  {
    assert (y - x) * b >= 0;
  }

  /** Products by a positive factor are ordered as the other factors are. */
  lemma MulOrder(x: int, y: int, b: nat)
    requires b > 0
    ensures x < y <==> x * b < y * b
  {
    if x < y { MulMonotone(x + 1, y, b); } else { MulMonotone(y, x, b); }
  }

  lemma RealMulMonotone(x: real, y: real, b: real)
    requires x <= y && b >= 0.0
    ensures x * b <= y * b
  {
    assert (y - x) * b >= 0.0;
  }

  lemma RealMulOrder(x: real, y: real, b: real)
    requires b > 0.0
    ensures x < y <==> x * b < y * b
  {
    if x < y { assert (y - x) * b > 0.0; } else { RealMulMonotone(y, x, b); }
  }
}
