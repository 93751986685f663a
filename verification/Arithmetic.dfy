/** 64-bit arithmetic, and integer division for the modules that count days, periods and checkpoints. */
module Arithmetic {
  const INT_LIMIT := 0x8000_0000_0000_0000

  predicate IsInt64(x: int) { -INT_LIMIT <= x < INT_LIMIT }

  /** Two's-complement wrap-around. */
  function Wrap64(x: int): (r: int)
    ensures IsInt64(r)
    ensures IsInt64(x) ==> r == x
    ensures INT_LIMIT <= x < 3 * INT_LIMIT ==> r == x - 2 * INT_LIMIT
  {
    (x + INT_LIMIT) % (2 * INT_LIMIT) - INT_LIMIT
  }

  lemma Scales(d: int, k: int)
    requires k > 0
    ensures d >= 1 ==> d * k >= k && d * k >= d
    ensures d <= -1 ==> d * k <= -k
  {
  }

  /** Quotient and remainder are the only ones that fit. */
  lemma QuotientIs(a: int, k: int, q: int, r: int)
    requires k > 0 && 0 <= r < k && a == q * k + r
    ensures a / k == q && a % k == r
  {
    var d := a / k - q;
    assert d * k == r - a % k;
    Scales(d, k);
  }

  lemma QuotientBounds(a: int, p: int)
    requires 0 <= a && 0 < p
    ensures 0 <= a / p <= a && a / p * p <= a
  {
    var q := a / p;
    assert a == q * p + a % p;
    Scales(q, p);
  }
}
