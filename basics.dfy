/** Small value types and real-number helpers shared by the viewport modules. */
module Basics {

  /** A value that may be absent: JavaScript's `undefined`/`null` for a missing field or item. */
  datatype Option<+T> = None | Some(value: T)

  /** A point or offset in CSS pixels (or, for scene placement, in arcseconds). */
  datatype Point = Point(x: real, y: real)

  /** `Math.abs` on reals. */
  function Abs(x: real): (r: real)
    ensures r >= 0.0
    ensures r == x || r == -x
  {
    if x < 0.0 then -x else x
  }

  /** `Math.min` on reals. */
  function Min(a: real, b: real): (r: real)
    ensures r <= a && r <= b
    ensures r == a || r == b
  {
    if a <= b then a else b
  }

  /** `Math.max` on reals. */
  function Max(a: real, b: real): (r: real)
    ensures r >= a && r >= b
    ensures r == a || r == b
  {
    if a >= b then a else b
  }
}
