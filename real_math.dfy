/** Exact real arithmetic standing in for the floating-point operations the game
    uses: `**` with an integer exponent, `math.ceil`, and `int()` on a float. */
module RealMath {

  /** b raised to a natural power. */
  function Pow(b: real, n: nat): (r: real)
    ensures b > 0.0 ==> r > 0.0
    ensures b >= 1.0 ==> r >= 1.0
  {
    if n == 0 then 1.0
    else
      var p := Pow(b, n - 1);
      MulAtLeast(b, p);
      b * p
  }

  lemma MulAtLeast(x: real, y: real)
    ensures x > 0.0 && y > 0.0 ==> x * y > 0.0
    ensures x >= 1.0 && y >= 1.0 ==> x * y >= y >= 1.0
  {
    if x >= 1.0 && y >= 1.0 {
      assert x * y - y == (x - 1.0) * y;
    }
  }

  /** b raised to an integer power; a negative exponent gives the reciprocal,
      as Python's `1.15 ** -2` does. */
  function IntPow(b: real, e: int): (r: real)
    requires b > 0.0
    ensures r > 0.0
    ensures e >= 0 && b >= 1.0 ==> r >= 1.0
  {
    if e >= 0 then Pow(b, e) else 1.0 / Pow(b, -e)
  }

  /** Growing the exponent by one multiplies by the base, on both sides of zero. */
  lemma {:induction false} IntPowSucc(b: real, e: int)
    requires b > 0.0
    ensures IntPow(b, e + 1) == b * IntPow(b, e)
  {
    if e < 0 {
      var k := -e;
      assert Pow(b, k) == b * Pow(b, k - 1);
      var q := Pow(b, k - 1);
      assert q > 0.0;
      if e + 1 >= 0 {
        assert k == 1 && q == 1.0;
        assert IntPow(b, e) == 1.0 / b;
      } else {
        assert IntPow(b, e + 1) == 1.0 / q;
        assert IntPow(b, e) == 1.0 / (b * q);
        assert b * (1.0 / (b * q)) == 1.0 / q;
      }
    }
  }

  /** The least integer not below x (Python's `math.ceil`). */
  function Ceil(x: real): (c: int)
    ensures x <= c as real < x + 1.0
  {
    -((-x).Floor)
  }

  /** Rounding towards zero (Python's `int()` on a float). */
  function Trunc(x: real): (t: int)
    ensures x >= 0.0 ==> 0.0 <= t as real <= x < t as real + 1.0
    ensures x < 0.0 ==> t as real - 1.0 < x <= t as real <= 0.0
  {
    if x >= 0.0 then x.Floor else -((-x).Floor)
  }

  /** Every integer-valued real is its own ceiling. */
  lemma CeilOfInt(k: int)
    ensures Ceil(k as real) == k
  {
  }

  /** Ceil is monotone, and a gap of at least one lifts it by at least one. */
  lemma CeilGap(x: real, y: real)
    ensures x <= y ==> Ceil(x) <= Ceil(y)
    ensures x + 1.0 <= y ==> Ceil(x) < Ceil(y)
  {
  }
}
