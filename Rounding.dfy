/**
 * `Mathf.RoundToInt` on exact reals: the nearest integer, ties to the even
 * neighbour (the rounding `Math.Round` applies by default). Single-precision
 * representation error is not modelled.
 */
module Rounding {

  /** The distance between two reals. */
  function Distance(x: real, y: real): real {
    if x < y then y - x else x - y
  }

  /** `Mathf.RoundToInt(x)`. */
  function RoundToInt(x: real): (r: int)
    ensures Distance(x, r as real) <= 0.5
    ensures Distance(x, r as real) == 0.5 ==> r % 2 == 0
  {
    var f := x.Floor;
    var frac := x - f as real;
    if frac < 0.5 then f
    else if frac > 0.5 then f + 1
    else if f % 2 == 0 then f
    else f + 1
  }

  /** The two conditions of `RoundToInt` pick out one integer. */
  lemma RoundToIntUnique(x: real, k: int)
    requires Distance(x, k as real) <= 0.5
    requires Distance(x, k as real) == 0.5 ==> k % 2 == 0
    ensures k == RoundToInt(x)
  {
  }

  /** An integer rounds to itself. */
  lemma RoundToIntOfInt(n: int)
    ensures RoundToInt(n as real) == n
  {
  }
}
