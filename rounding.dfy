/** Python's built-in `round(x)` (no digits argument) on exact reals:
    the nearest integer, with exact halves going to the even neighbour
    ("banker's rounding"), and the strike grid built on it. */
module PyRound {

  /** round(x): the integer nearest to x; a tie goes to the even integer. */
  function RoundHalfEven(x: real): (n: int)
    ensures x - 0.5 <= n as real <= x + 0.5
    ensures (n as real - x == 0.5 || x - n as real == 0.5) ==> n % 2 == 0
  {
    var f := x.Floor;
    var frac := x - f as real;
    if frac < 0.5 then f
    else if frac > 0.5 then f + 1
    else if f % 2 == 0 then f
    else f + 1
  }

  /** The two ensures of RoundHalfEven pin its result down: any integer
      that is within one half of x, and even on a tie, is that result. */
  lemma RoundHalfEvenUnique(x: real, k: int)
    requires x - 0.5 <= k as real <= x + 0.5
    requires (k as real - x == 0.5 || x - k as real == 0.5) ==> k % 2 == 0
    ensures k == RoundHalfEven(x)
  {
  }

  /** The rounded value is at least as close to x as any other integer. */
  lemma RoundHalfEvenNearest(x: real, k: int)
    ensures Distance(RoundHalfEven(x) as real, x) <= Distance(k as real, x)
  {
    var n := RoundHalfEven(x);
    if k < n {
      assert k as real <= n as real - 1.0;
    } else if k > n {
      assert k as real >= n as real + 1.0;
    }
  }

  function Distance(a: real, b: real): real
  {
    if a >= b then a - b else b - a
  }

  /** Rounding never reverses the order of its arguments. */
  lemma RoundHalfEvenMonotone(x: real, y: real)
    requires x <= y
    ensures RoundHalfEven(x) <= RoundHalfEven(y)
  {
  }

  /** An integral argument is returned unchanged. */
  lemma RoundHalfEvenOfInteger(k: int)
    ensures RoundHalfEven(k as real) == k
  {
  }

  /** round(x / 5) * 5: the multiple of five nearest to x (a tie between two
      multiples goes to the one whose quotient by five is even). */
  function RoundToFive(x: real): (s: int)
    ensures s % 5 == 0
    ensures x - 2.5 <= s as real <= x + 2.5
  {
    RoundHalfEven(x / 5.0) * 5
  }

  lemma RoundToFiveMonotone(x: real, y: real)
    requires x <= y
    ensures RoundToFive(x) <= RoundToFive(y)
  {
    RoundHalfEvenMonotone(x / 5.0, y / 5.0);
  }
}
