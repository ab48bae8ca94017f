/** Rounding to the nearest integer, half away from zero: Go's `math.Round` and SQL's `ROUND`. */
module Rounding {
  function Round(x: real): int {
    if x >= 0.0 then (x + 0.5).Floor else -(-x + 0.5).Floor
  }

  lemma RoundMonotone(x: real, y: real)
    requires x <= y
    ensures Round(x) <= Round(y)
  {
  }

  lemma RoundExact(n: int)
    ensures Round(n as real) == n
  {
  }

  lemma RoundNear(x: real)
    ensures -0.5 <= Round(x) as real - x <= 0.5
  {
  }
}
