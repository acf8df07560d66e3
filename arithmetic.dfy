/** Facts about multiplication and Euclidean division by a positive divisor. */
module Arithmetic {

  lemma MulMono(a: int, b: int, c: int)
    requires a > 0 && b <= c
    ensures a * b <= a * c
  {
    assert a * c - a * b == a * (c - b);
  }

  /** Multiplying by a positive factor keeps a strict order at least one factor apart. */
  lemma MulStep(d: int, a: int, b: int)
    requires d > 0
    ensures a < b ==> d * a + d <= d * b
  {
    if a < b {
      MulMono(d, 1, b - a);
      assert d * (b - a) == d * b - d * a;
    }
  }

  /** `n` fits `limit / d` times when `d * n` does not exceed `limit`. */
  lemma DivAtLeast(n: int, limit: int, d: int)
    requires d > 0 && d * n <= limit
    ensures n <= limit / d
  {
    assert limit == d * (limit / d) + limit % d;
    MulStep(d, limit / d, n);
  }

  /** `limit / d` is at most `n` when `limit` falls short of `d * (n + 1)`. */
  lemma DivBelow(n: int, limit: int, d: int)
    requires d > 0 && limit < d * n + d
    ensures limit / d <= n
  {
    assert limit == d * (limit / d) + limit % d;
    MulStep(d, n, limit / d);
  }
}
