/**
 * JavaScript's Math.round over exact reals. Math.round rounds to the nearest
 * integer and sends halves toward +infinity (Math.round(-2.5) is -2), which is
 * exactly floor(x + 1/2).
 */
module JsMath {

  /** Math.round(x): the unique integer r with r - 1/2 <= x < r + 1/2. */
  function Round(x: real): (r: int)
    ensures r as real - 0.5 <= x < r as real + 0.5
  {
    (x + 0.5).Floor
  }

  /** Any integer r within half a unit below/above x in that sense is Math.round(x). */
  lemma RoundUnique(x: real, r: int)
    requires r as real - 0.5 <= x < r as real + 0.5
    ensures Round(x) == r
  {
  }

  /** Rounding is non-decreasing. */
  lemma RoundMonotone(x: real, y: real)
    requires x <= y
    ensures Round(x) <= Round(y)
  {
  }

  /** Rounding keeps a value inside any interval with integer end points. */
  lemma RoundWithin(x: real, lo: int, hi: int)
    requires lo as real <= x <= hi as real
    ensures lo <= Round(x) <= hi
  {
  }
}
