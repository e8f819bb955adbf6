/** Facts on products, quotients, powers of two and the division of C. */
module Arithmetic {
  const TWO_32: int := 0x1_0000_0000
  const SECS_PER_MIN: real := 60.0

  type U32 = x: int | 0 <= x < TWO_32

  /** Subtraction of 32-bit unsigned words. */
  function Sub32(a: int, b: int): U32 {
    (a - b) % TWO_32
  }

  lemma MulMonotone(a: int, b: int, n: nat)
    requires a <= b
    ensures a * n <= b * n
  {
  }

  lemma MulCancel(x: int, y: int, n: nat)
    requires x * n < y * n
    ensures x < y
  {
  }

  /** Floor division is the greatest integer whose product stays below. */
  lemma QuotientAtLeast(q: int, a: int, n: nat)
    requires n > 0 && q * n <= a
    ensures q <= a / n
  {
    assert a == (a / n) * n + a % n;
    assert (a / n + 1) * n == (a / n) * n + n;
    MulCancel(q, a / n + 1, n);
  }

  lemma QuotientAtMost(q: int, a: int, n: nat)
    requires n > 0 && a <= q * n
    ensures a / n <= q
  {
  }

  /** A multiple of the period below the period is zero. */
  lemma SmallMultiple(k: int, period: nat, r: int)
    requires 0 - period < k * period == r < period
    ensures k == 0 && r == 0
  {
  }

  lemma QuotientUnique(x: int, n: nat, q: int, r: int)
    requires 0 <= r < n && x == q * n + r
    ensures x / n == q && x % n == r
  {
    assert x == (x / n) * n + x % n;
    assert (x / n - q) * n == r - x % n;
    SmallMultiple(x / n - q, n, r - x % n);
  }

  lemma MultipleQuotient(k: int, period: nat)
    requires period > 0
    ensures k * period / period == k && k * period % period == 0
  {
    QuotientUnique(k * period, period, k, 0);
  }

  function Pow2(n: nat): (p: nat)
    ensures p > 0
  {
    if n == 0 then 1 else 2 * Pow2(n - 1)
  }

  lemma {:induction false} Pow2Monotone(j: nat, k: nat)
    requires j <= k
    ensures Pow2(j) <= Pow2(k)
    decreases k - j
  {
    if j < k {
      Pow2Monotone(j + 1, k);
    }
  }

  lemma DoubleProduct(x: int, y: int)
    ensures (2 * x) * y == 2 * (x * y)
  {
  }

  lemma {:induction false} Pow2Sum(j: nat, k: nat)
    ensures Pow2(j + k) == Pow2(j) * Pow2(k)
  {
    if j > 0 {
      Pow2Sum(j - 1, k);
      DoubleProduct(Pow2(j - 1), Pow2(k));
      assert Pow2(j + k) == 2 * Pow2(j - 1 + k);
    }
  }

  /** Division of the C language: towards zero. */
  function TruncDiv(a: int, b: int): int
    requires b > 0
  {
    if a >= 0 then a / b else -((-a) / b)
  }
}
