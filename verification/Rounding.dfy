/** Whole-currency rounding. JavaScript's Math.round(a / b), taken over exact integers,
    is the floor of a / b + 1/2. Every amount the ledger posts passes through it. */
module Rounding {
  const MAX_MONEY := 2147483647
  const BPS := 10000

  function Round(num: int, den: int): int
    requires den > 0
  {
    (2 * num + den) / (2 * den)
  }

  /** An amount the ledger can hold. */
  predicate IsMoney(n: int) { 0 <= n <= MAX_MONEY }

  function Min(a: int, b: int): int { if a <= b then a else b }

  function Max(a: int, b: int): int { if a <= b then b else a }

  /** `Round` picks the only integer whose distance to num/den is at most one half, ties going up. */
  lemma RoundNearest(num: int, den: int, r: int)
    requires den > 0
    ensures r == Round(num, den) <==> 2 * den * r <= 2 * num + den < 2 * den * r + 2 * den
  {
    QuotientUnique(2 * num + den, 2 * den, r);
  }

  lemma MulOrder(x: int, y: int, b: int)
    requires x <= y && 0 <= b
    ensures b * x <= b * y
  {
    assert b * y == b * x + b * (y - x);
  }

  lemma QuotientUnique(a: int, b: int, q: int)
    requires b > 0
    ensures q == a / b <==> b * q <= a < b * q + b
  {
    var t := a / b;
    assert a == b * t + a % b;
    if q < t {
      MulOrder(q + 1, t, b);
    } else if q > t {
      MulOrder(t + 1, q, b);
    }
  }

  /** Scaling by a factor between 0 and 1 and rounding never moves further than its argument
      does: it is monotone and, over integers, expands no gap. Discount shares, retentions and
      withholding all rest on this. */
  lemma ScaleGap(x: int, y: int, num: int, den: int)
    requires x <= y && 0 <= num <= den && den > 0
    ensures 0 <= Round(y * num, den) - Round(x * num, den) <= y - x
  {
    hide Round;
    ScaleOrder(x, y, num, den);
    RoundMonotone(x * num, y * num, den);
    RoundMonotone(y * num, x * num + (y - x) * den, den);
    RoundShift(x * num, y - x, den);
  }

  lemma ScaleOrder(x: int, y: int, num: int, den: int)
    requires x <= y && 0 <= num <= den
    ensures x * num <= y * num <= x * num + (y - x) * den
  {
    assert y * num == x * num + (y - x) * num;
    MulOrder(0, num, y - x);
    MulOrder(num, den, y - x);
  }

  lemma RoundShift(a: int, d: int, den: int)
    requires den > 0
    ensures Round(a + d * den, den) == Round(a, den) + d
  {
    hide Round;
    RoundNearest(a, den, Round(a, den));
    RoundNearest(a + d * den, den, Round(a, den) + d);
    assert 2 * den * (Round(a, den) + d) == 2 * den * Round(a, den) + 2 * (d * den);
  }

  lemma RoundMonotone(a: int, b: int, den: int)
    requires a <= b && den > 0
    ensures Round(a, den) <= Round(b, den)
  {
    var ra, rb := Round(a, den), Round(b, den);
    RoundNearest(a, den, ra);
    RoundNearest(b, den, rb);
    if rb < ra {
      MulOrder(rb + 1, ra, 2 * den);
    }
  }

  lemma RoundZero(den: int)
    requires den > 0
    ensures Round(0, den) == 0
  {
    RoundNearest(0, den, 0);
  }

  /** A rounded share of a non-negative amount stays within it. */
  lemma ScaleWithin(x: int, num: int, den: int)
    requires 0 <= x && 0 <= num <= den && den > 0
    ensures 0 <= Round(x * num, den) <= x
  {
    ScaleGap(0, x, num, den);
    RoundZero(den);
  }

  lemma RoundWhole(x: int, den: int)
    requires den > 0
    ensures Round(x * den, den) == x
  {
    RoundNearest(x * den, den, x);
  }
}
