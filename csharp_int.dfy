/** The parts of C#'s 32-bit `int` arithmetic that the agent relies on. */
module CSharpInt {

  const INT32_MIN: int := -0x8000_0000
  const INT32_MAX: int := 0x7FFF_FFFF

  /** A value that a C# `int` can hold. */
  predicate InInt32(x: int) {
    INT32_MIN <= x <= INT32_MAX
  }

  /**
   * C#'s `/` on `int`: the quotient truncated toward zero, so that the remainder
   * takes the sign of the dividend (Dafny's own `/` is Euclidean).
   */
  function Div(a: int, b: int): (q: int)
    requires b > 0
    ensures a >= 0 ==> 0 <= a - q * b < b
    ensures a < 0 ==> -b < a - q * b <= 0
  {
    if a >= 0 then a / b else -((-a) / b)
  }

  /** Math.Max on two ints. */
  function Max(a: int, b: int): (m: int)
    ensures m >= a && m >= b
    ensures m == a || m == b
  {
    if a >= b then a else b
  }

  /** Truncating division is monotone in the dividend. */
  lemma {:induction false} DivMonotone(a1: int, a2: int, b: int)
    requires a1 <= a2 && b > 0
    ensures Div(a1, b) <= Div(a2, b)
  {
    if a1 >= 0 {
      QuotientMonotone(a1, a2, b);
    } else if a2 < 0 {
      QuotientMonotone(-a2, -a1, b);
    } else {
      // a1 < 0 <= a2: the one quotient is at most zero, the other at least zero
      QuotientMonotone(0, -a1, b);
      QuotientMonotone(0, a2, b);
    }
  }

  /** Euclidean division of non-negative values is monotone. */
  lemma {:induction false} QuotientMonotone(x: int, y: int, b: int)
    requires 0 <= x <= y && b > 0
    ensures x / b <= y / b
  {
    var qx, qy := x / b, y / b;
    assert qx * b <= x;
    assert y < qy * b + b;
    if qx > qy {
      MulStep(qx, qy, b);
    }
  }

  lemma {:induction false} MulStep(k1: int, k2: int, b: int)
    requires k1 > k2 && b > 0
    ensures k1 * b >= k2 * b + b
  {
    MulAtLeast(k1 - k2, b);
    assert (k1 - k2) * b == k1 * b - k2 * b;
  }

  lemma {:induction false} MulAtLeast(k: int, b: int)
    requires k >= 1 && b > 0
    ensures k * b >= b
    decreases k
  {
    if k > 1 {
      MulAtLeast(k - 1, b);
      assert k * b == (k - 1) * b + b;
    }
  }

  /** The quotient of a value in the Int32 range stays in that range. */
  lemma DivInRange(a: int, b: int)
    requires InInt32(a) && b > 0
    ensures InInt32(Div(a, b))
  {
  }
}
