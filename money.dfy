/**
 * Whole-currency arithmetic. Amounts are Vietnamese dong, which have no
 * minor unit, so every amount is an `int`; JavaScript's `Math.round` of a
 * quotient becomes an exact round-half-up integer division.
 */
module Money {
  import opened Common

  /** `Math.max(lo, Math.min(hi, n))`. */
  function Clamp(n: int, lo: int, hi: int): (r: int)
    ensures lo <= hi ==> lo <= r <= hi
    ensures lo <= n <= hi ==> r == n
    ensures hi < n ==> r == Max(lo, hi)
    ensures n < lo ==> r == lo
  {
    Max(lo, Min(hi, n))
  }

  /**
   * `roundVND`: `Math.max(0, Math.round(n))`. On whole amounts the
   * rounding is the identity, leaving the clamp at zero.
   */
  function RoundVnd(n: int): (r: int)
    ensures r >= 0
    ensures n >= 0 ==> r == n
    ensures n < 0 ==> r == 0
  {
    Max(0, n)
  }

  /**
   * `Math.round(n / d)`: the integer nearest to n/d, halves rounded up
   * (toward positive infinity, as `Math.round` does for negatives too).
   */
  function RoundDiv(n: int, d: int): (r: int)
    requires d > 0
    ensures 2 * d * r - d <= 2 * n < 2 * d * r + d
  {
    var q := (2 * n + d) / (2 * d);
    DivBounds(2 * n + d, 2 * d);
    q
  }

  /** `Math.ceil(n / d)`: the least integer r with n <= d * r. */
  function CeilDiv(n: int, d: int): (r: int)
    requires d > 0
    ensures d * r - d < n <= d * r
  {
    DivBounds(-n, d);
    -((-n) / d)
  }

  /** `Math.round(x)` on an exact rational. */
  function RoundReal(x: real): (r: int)
    ensures r as real - 0.5 <= x < r as real + 0.5
  {
    (x + 0.5).Floor
  }

  lemma DivBounds(n: int, d: int)
    requires d > 0
    ensures d * (n / d) <= n < d * (n / d) + d
  {
  }

  /** Rounding a quotient is monotone in the numerator. */
  lemma {:induction false} RoundDivMonotone(n1: int, n2: int, d: int)
    requires d > 0 && n1 <= n2
    ensures RoundDiv(n1, d) <= RoundDiv(n2, d)
  {
    var q1, q2 := RoundDiv(n1, d), RoundDiv(n2, d);
    if q1 > q2 {
      MulMonotone(d, q2 + 1, q1);
      assert false;
    }
  }

  /** A multiple of d leaves no remainder. */
  lemma {:induction false} MulModZero(q: int, d: int)
    requires d > 0
    ensures (q * d) % d == 0
  {
    var k, r := (q * d) / d, (q * d) % d;
    assert q * d == d * k + r;
    assert d * (q - k) == r;
    if q - k >= 1 {
      MulMonotone(d, 1, q - k);
      assert false;
    } else if q - k <= -1 {
      MulMonotone(d, q - k, -1);
      assert false;
    }
  }

  lemma MulAddDistributes(a: int, b: int, c: int)
    ensures a * (b + c) == a * b + a * c
  {
  }

  lemma MulMonotone(d: int, a: int, b: int)
    requires d >= 0 && a <= b
    ensures d * a <= d * b
  {
  }

  /**
   * `Math.round(n * p / 100)`: p percent of n, to the nearest whole amount;
   * for a percentage 0..100 of a non-negative whole it lies within the whole.
   */
  function PercentShare(n: int, p: int): (r: int)
    ensures 200 * r - 100 <= 2 * n * p < 200 * r + 100
    ensures n >= 0 && 0 <= p <= 100 ==> 0 <= r <= n
  {
    if n >= 0 && 0 <= p <= 100 then
      RoundedShareAtMostWhole(n, p);
      RoundDiv(n * p, 100)
    else
      RoundDiv(n * p, 100)
  }

  /** Rounding n*p/100 for a percentage 0 <= p <= 100 never exceeds n. */
  lemma {:induction false} RoundedShareAtMostWhole(n: int, p: int)
    requires n >= 0 && 0 <= p <= 100
    ensures 0 <= RoundDiv(n * p, 100) <= n
  {
    MulMonotone(n, p, 100);
    MulMonotone(n, 0, p);
    RoundDivMonotone(n * p, n * 100, 100);
    RoundDivMonotone(0, n * p, 100);
    assert RoundDiv(n * 100, 100) == n;
    assert RoundDiv(0, 100) == 0;
  }
}
