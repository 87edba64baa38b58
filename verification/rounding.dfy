/** JavaScript's `Math.round` on exact reals, shared by the fare engine and
    the price display. */
module Rounding {

  /** `Math.round`: floor(x + 1/2), so half-way cases go up. */
  function RoundHalfUp(x: real): (n: int)
    ensures x - 0.5 < n as real <= x + 0.5
  {
    (x + 0.5).Floor
  }
}
