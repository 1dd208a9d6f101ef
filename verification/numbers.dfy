/**
 * Integer stand-ins for the few floating-point expressions of the program:
 * `Math.round(p / q)` and the percentages built from it.
 */
module Numbers {

  /**
   * `Math.round(p / q)` for a positive divisor: the integer nearest to p/q,
   * halves rounded up (towards +infinity), as JavaScript does.
   */
  function Round(p: int, q: int): (r: int)
    requires q > 0
    ensures 2 * q * r <= 2 * p + q < 2 * q * r + 2 * q
  {
    (2 * p + q) / (2 * q)
  }

  /** `Math.round(part / whole * 100)`, with 0 for an empty whole. */
  function Percent(part: int, whole: int): (r: int)
    requires whole >= 0
    ensures whole == 0 ==> r == 0
    ensures whole > 0 ==> 2 * whole * r <= 200 * part + whole < 2 * whole * r + 2 * whole
  {
    if whole == 0 then 0 else Round(100 * part, whole)
  }

  /** Division has one quotient: if `a = d * k + m` with `0 <= m < d`, then `a / d` is `k`. */
  lemma DivUnique(a: int, d: int, k: int, m: int)
    requires d > 0 && 0 <= m < d && a == d * k + m
    ensures a / d == k
  {
    var k0, m0 := a / d, a % d;
    assert a == d * k0 + m0 && 0 <= m0 < d;
    assert d * (k - k0) == m0 - m;
    if k > k0 {
      MulAtLeast(d, k - k0);
    } else if k < k0 {
      MulAtLeast(d, k0 - k);
    }
  }

  /** A positive multiple of `d` is at least `d`. */
  lemma MulAtLeast(d: int, n: int)
    requires d > 0 && n >= 1
    ensures d * n >= d
  {
    assert d * n == d + d * (n - 1);
    assert d * (n - 1) >= 0;
  }

  /** Multiplying by a positive factor keeps the order. */
  lemma MulMonotone(d: int, a: int, b: int)
    requires d > 0 && a <= b
    ensures d * a <= d * b
  {
    if a < b {
      MulAtLeast(d, b - a);
      assert d * b == d * a + d * (b - a);
    }
  }

  /** Exact quotients are returned as they are. */
  lemma RoundExact(k: int, q: int)
    requires q > 0
    ensures Round(k * q, q) == k
  {
    assert 2 * (k * q) + q == (2 * q) * k + q;
    DivUnique(2 * (k * q) + q, 2 * q, k, q);
  }

  /** A part no larger than its whole is at most 100 percent, and a non-negative part at least 0. */
  lemma PercentBounds(part: int, whole: int)
    requires whole > 0 && 0 <= part <= whole
    ensures 0 <= Percent(part, whole) <= 100
  {
    var r := Percent(part, whole);
    assert 2 * whole * r <= 200 * part + whole < 2 * whole * r + 2 * whole;
    if r > 100 {
      MulAtLeast(2 * whole, r - 100);
    }
    if r < 0 {
      MulAtLeast(2 * whole, -r);
    }
  }

  /** `Math.max(0, c - 1)` */
  function DecrementFloor(c: int): (r: int)
    ensures r >= 0
    ensures c >= 1 ==> r == c - 1
    ensures c <= 1 ==> r == 0
  {
    if c - 1 > 0 then c - 1 else 0
  }
}
