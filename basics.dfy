/** Small shared vocabulary of both engines: an optional value (the
    source's `null`) and the absolute value of a real (`Math.abs`). */
module Basics {

  datatype Option<+T> = None | Some(value: T)

  /** `Math.abs` on exact reals. */
  function Abs(x: real): (r: real)
    ensures r >= 0.0
    ensures r == x || r == -x
  {
    if x < 0.0 then -x else x
  }
}
