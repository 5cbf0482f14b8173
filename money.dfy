/**
 * Decimal arithmetic as the booking engine uses it: Python `Decimal` values with a
 * non-negative exponent, and `quantize(Decimal("0.01"))` under the default context,
 * whose rounding mode is ROUND_HALF_EVEN.
 */
module Money {

  function Pow10(n: nat): (r: nat)
    ensures r >= 1
  {
    if n == 0 then 1 else 10 * Pow10(n - 1)
  }

  /** A decimal number `units / 10^exp` (the coefficient and negated exponent of a Python Decimal). */
  datatype Dec = Dec(units: int, exp: nat)

  /**
   * `n / d` rounded to the nearest integer, ties going to the even neighbour.
   * With `n` a count of 1/d cents this is `quantize(Decimal("0.01"))` in cents.
   */
  function RoundHalfEven(n: int, d: int): int
    requires d > 0
  {
    var fl := n / d;
    var rem := n % d;
    if 2 * rem < d then fl
    else if 2 * rem > d then fl + 1
    else if fl % 2 == 0 then fl
    else fl + 1
  }

  /** The rounded quotient is within half a unit of `n / d`, and on an exact tie it is even. */
  lemma RoundHalfEvenNearest(n: int, d: int)
    requires d > 0
    ensures var q := RoundHalfEven(n, d);
      && -d <= 2 * (n - q * d) <= d
      && (2 * (n - q * d) == d || 2 * (n - q * d) == -d ==> q % 2 == 0)
  {
    FloorStep(n, d);
  }

  /** Euclidean division of `n` by `d`: the floor and the next integer up leave `rem` and `rem - d`. */
  lemma FloorStep(n: int, d: int)
    requires d > 0
    ensures n - (n / d) * d == n % d && 0 <= n % d < d
    ensures n - (n / d + 1) * d == n % d - d
  {
    assert (n / d + 1) * d == (n / d) * d + d;
  }

  /** Facts about multiplying two neighbouring or distant integers by a positive `d`. */
  lemma MulGap(x: int, y: int, d: int)
    requires d > 0
    ensures x == y + 1 ==> x * d == y * d + d
    ensures x >= y + 2 ==> x * d >= y * d + 2 * d
    ensures x >= y ==> x * d >= y * d
  {
    var k := x - y;
    assert x * d == y * d + k * d;
    if k >= 2 {
      assert (k - 2) * d >= 0;
      assert k * d == (k - 2) * d + 2 * d;
    }
    if k >= 0 {
      assert k * d >= 0;
    }
  }

  /** The two postconditions of RoundHalfEven determine its result. */
  lemma {:induction false} RoundHalfEvenUnique(n: int, d: int, q: int)
    requires d > 0
    requires -d <= 2 * (n - q * d) <= d
    requires 2 * (n - q * d) == d || 2 * (n - q * d) == -d ==> q % 2 == 0
    ensures q == RoundHalfEven(n, d)
  {
    var r := RoundHalfEven(n, d);
    RoundHalfEvenNearest(n, d);
    if r > q {
      MulGap(r, q, d);
    } else if q > r {
      MulGap(q, r, d);
    }
  }

  /** Quantizing a value that is already a whole number of units changes nothing. */
  lemma RoundHalfEvenExact(k: int, d: int)
    requires d > 0
    ensures RoundHalfEven(k * d, d) == k
  {
    RoundHalfEvenUnique(k * d, d, k);
  }

  /** Rounding is monotone. */
  lemma {:induction false} RoundHalfEvenMonotone(n1: int, n2: int, d: int)
    requires d > 0
    requires n1 <= n2
    ensures RoundHalfEven(n1, d) <= RoundHalfEven(n2, d)
  {
    var q1 := RoundHalfEven(n1, d);
    var q2 := RoundHalfEven(n2, d);
    RoundHalfEvenNearest(n1, d);
    RoundHalfEvenNearest(n2, d);
    if q1 > q2 {
      MulGap(q1, q2, d);
    }
  }

  /** Rounding a non-negative amount never gives a negative result. */
  lemma RoundHalfEvenNonNegative(n: int, d: int)
    requires d > 0
    ensures n >= 0 ==> RoundHalfEven(n, d) >= 0
  {
    if n >= 0 {
      RoundHalfEvenExact(0, d);
      RoundHalfEvenMonotone(0, n, d);
    }
  }

  /** A non-negative amount scaled by a factor in [0, 1] rounds into [0, amount]. */
  lemma RoundedFractionBounds(total: int, num: int, den: int)
    requires total >= 0 && den > 0 && 0 <= num <= den
    ensures 0 <= RoundHalfEven(total * num, den) <= total
  {
    assert 0 <= total * num <= total * den by {
      assert total * (den - num) >= 0;
    }
    RoundHalfEvenExact(0, den);
    RoundHalfEvenMonotone(0, total * num, den);
    RoundHalfEvenExact(total, den);
    RoundHalfEvenMonotone(total * num, total * den, den);
  }

  /** Euclidean division and remainder by a positive divisor. */
  lemma DivMod(n: int, d: int)
    requires d > 0
    ensures n - (n / d) * d == n % d
    ensures 0 <= n % d < d
    ensures n >= 0 ==> n / d >= 0
  {
  }

  /** Integer division truncating toward zero, as Python's `int()` of a quotient does. */
  function TruncDiv(n: int, p: int): int
    requires p > 0
  {
    if n >= 0 then n / p else -((-n) / p)
  }

  /** Truncation leaves a remainder with the sign of `n` and smaller than `p`. */
  lemma TruncDivRemainder(n: int, p: int)
    requires p > 0
    ensures var r := TruncDiv(n, p);
      && (n >= 0 ==> r >= 0 && 0 <= n - r * p < p)
      && (n < 0 ==> r <= 0 && -p < n - r * p <= 0)
  {
    if n >= 0 {
      DivMod(n, p);
    } else {
      DivMod(-n, p);
      var t := (-n) / p;
      assert n - (-t) * p == -(-n - t * p);
    }
  }

  /** Python's `int(Decimal)`: truncation toward zero. */
  function TruncateToInt(x: Dec): int
  {
    TruncDiv(x.units, Pow10(x.exp))
  }

  /** A Decimal value is at most 100 and at least 0 (a percentage the admin form accepts). */
  predicate IsPercentage(x: Dec)
  {
    0 <= x.units <= 100 * Pow10(x.exp)
  }
}
