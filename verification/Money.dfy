/** Python's round(x, 2) read on exact amounts in paise, ties to even, and its int(x). */
module Money {

  function RoundHalfEven(x: real): (r: int)
    ensures -0.5 <= r as real - x <= 0.5
    ensures r as real - x == 0.5 || r as real - x == -0.5 ==> r % 2 == 0
  {
    var f := x.Floor;
    var part := x - f as real;
    if part < 0.5 then f
    else if part > 0.5 then f + 1
    else if f % 2 == 0 then f
    else f + 1
  }

  /** The two clauses above leave no freedom: they characterise the rounded value. */
  lemma RoundUnique(x: real, r: int)
    requires -0.5 <= r as real - x <= 0.5
    requires r as real - x == 0.5 || r as real - x == -0.5 ==> r % 2 == 0
    ensures r == RoundHalfEven(x)
  {
    var q := RoundHalfEven(x);
    assert -1.0 <= (r - q) as real <= 1.0;
    assert r == q || r == q + 1 || r == q - 1;
  }

  lemma RoundWhole(n: int)
    ensures RoundHalfEven(n as real) == n
  {
    RoundUnique(n as real, n);
  }

  lemma RoundMonotone(x: real, y: real)
    requires x <= y
    ensures RoundHalfEven(x) <= RoundHalfEven(y)
  {
    var a, b := RoundHalfEven(x), RoundHalfEven(y);
    assert (a - b) as real <= 1.0;
    assert a <= b + 1;
  }

  /** A whole-paise interval is closed under rounding. */
  lemma RoundWithin(x: real, lo: int, hi: int)
    requires lo as real <= x <= hi as real
    ensures lo <= RoundHalfEven(x) <= hi
  {
    RoundMonotone(lo as real, x);
    RoundMonotone(x, hi as real);
    RoundWhole(lo);
    RoundWhole(hi);
  }

  /** int(): rounds towards zero. */
  function Truncate(x: real): (r: int)
    ensures x >= 0.0 ==> r as real <= x < r as real + 1.0
    ensures x <= 0.0 ==> r as real - 1.0 < x <= r as real
  {
    if x >= 0.0 then x.Floor else -((-x).Floor)
  }
}
