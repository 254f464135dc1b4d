/** JavaScript's `Math.round` on exact reals. */
module JsMath {

  /** `Math.round`: the nearest integer, halves rounded towards +infinity. */
  function Round(x: real): (n: int)
    ensures n as real - 0.5 <= x < n as real + 0.5
  {
    (x + 0.5).Floor
  }

  /** The bound in Round's contract pins the result down: no other integer
      lies within it. */
  lemma RoundUnique(x: real, n: int)
    requires n as real - 0.5 <= x < n as real + 0.5
    ensures Round(x) == n
  {
  }

  /** Rounding never reverses the order of two numbers. */
  lemma RoundMonotone(x: real, y: real)
    requires x <= y
    ensures Round(x) <= Round(y)
  {
  }
}
