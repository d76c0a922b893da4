/** The integer roundings the code relies on. */
module Rounding {

  function Ceiling(r: real): int {
    -((-r).Floor)
  }

  /** Toward zero. */
  function Truncate(x: real): int {
    if x >= 0.0 then x.Floor else -((-x).Floor)
  }

  /** Ties away from zero. */
  function RoundHalfUp(r: real): int {
    if r >= 0.0 then (r + 0.5).Floor else -((-r + 0.5).Floor)
  }

  /** Ties to the even neighbour. */
  function RoundHalfEven(r: real): int {
    var f := r.Floor;
    var d := r - f as real;
    if d < 0.5 then f else if d > 0.5 then f + 1 else if f % 2 == 0 then f else f + 1
  }
}
