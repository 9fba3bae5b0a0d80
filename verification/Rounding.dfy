/** Small arithmetic: greater and lesser numbers, and Python's `round`, where a tie goes to the even neighbour. */
module Rounding {

  function Max(a: int, b: int): int {
    if a < b then b else a
  }

  function Min(a: int, b: int): int {
    if a < b then a else b
  }

  function Abs(x: real): real {
    if x < 0.0 then -x else x
  }

  function MaxR(a: real, b: real): real {
    if a < b then b else a
  }

  function MinR(a: real, b: real): real {
    if a < b then a else b
  }

  function RoundHalfEven(x: real): (n: int)
    ensures IsRounding(x, n)
  {
    var f := x.Floor;
    var frac := x - f as real;
    if frac < 0.5 then f
    else if frac > 0.5 then f + 1
    else if f % 2 == 0 then f
    else f + 1
  }

  /** `round(x, 4)`. */
  function Round4(x: real): real {
    RoundHalfEven(x * 10000.0) as real / 10000.0
  }

  /** `n` is a nearest integer of `x`, and an even one when `x` lies half way between two. */
  ghost predicate IsRounding(x: real, n: int) {
    && n as real - 0.5 <= x <= n as real + 0.5
    && (x == n as real - 0.5 || x == n as real + 0.5 ==> n % 2 == 0)
  }

  /** Rounding to four decimals gives a whole number of ten-thousandths, half of one away at most. */
  lemma Round4IsNearest(x: real)
    ensures var r := Round4(x); (r * 10000.0).Floor as real == r * 10000.0 && -0.00005 <= r - x <= 0.00005
  {
    var n := RoundHalfEven(x * 10000.0);
    assert Round4(x) * 10000.0 == n as real;
  }

  /** The two conditions determine the rounded value. */
  lemma RoundingIsUnique(x: real, n: int)
    requires IsRounding(x, n)
    ensures n == RoundHalfEven(x)
  {
    var m := RoundHalfEven(x);
    assert m - 1 <= n <= m + 1;
  }

  /** An increment that is not positive leaves the price as it is. */
  function RoundStrike(price: real, increment: real): real {
    if increment <= 0.0 then price else RoundHalfEven(price / increment) as real * increment
  }

  ghost predicate IsMultiple(x: real, increment: real) {
    exists k: int :: x == Times(k, increment)
  }

  function Times(k: int, increment: real): real {
    k as real * increment
  }

  /** A product under a name. */
  function Scaled(a: real, c: real): real {
    a * c
  }

  lemma ScaledQuotient(a: real, c: real)
    requires c != 0.0
    ensures Scaled(a / c, c) == a
  {
  }

  lemma ScaledDifference(a: real, b: real, c: real)
    ensures Scaled(a - b, c) == Scaled(a, c) - Scaled(b, c)
  {
  }

  lemma ScaledOrder(a: real, b: real, c: real)
    requires c > 0.0
    ensures a <= b ==> Scaled(a, c) <= Scaled(b, c)
    ensures a < b ==> Scaled(a, c) < Scaled(b, c)
  {
    if a < b {
      assert Scaled(b - a, c) > 0.0;
      ScaledDifference(b, a, c);
    }
  }

  /** A rounded strike is a multiple of the increment, at most half an increment away from the price. */
  lemma RoundStrikeIsNearestMultiple(price: real, increment: real)
    requires increment > 0.0
    ensures IsMultiple(RoundStrike(price, increment), increment)
    ensures -increment / 2.0 <= RoundStrike(price, increment) - price <= increment / 2.0
  {
    var q := price / increment;
    var n := RoundHalfEven(q);
    assert RoundStrike(price, increment) == Times(n, increment) == Scaled(n as real, increment);
    hide RoundStrike, Scaled, Times, RoundHalfEven;
    ScaledQuotient(price, increment);
    ScaledDifference(n as real, q, increment);
    HalfAtMost(n as real - q, increment);
  }

  lemma HalfAtMost(gap: real, c: real)
    requires -0.5 <= gap <= 0.5 && c > 0.0
    ensures -c / 2.0 <= Scaled(gap, c) <= c / 2.0
  {
    ScaledOrder(-0.5, gap, c);
    ScaledOrder(gap, 0.5, c);
  }

  lemma Scale(a: real, b: real, c: real)
    requires a <= b && c >= 0.0
    ensures a * c <= b * c
  {
  }

  lemma Distribute(a: real, b: real, c: real)
    ensures (a - b) * c == a * c - b * c
  {
  }
}
