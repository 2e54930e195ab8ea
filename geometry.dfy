/** Integer geometry shared by the placement resolver and the bubble shape:
    points, rectangles, an optional value, and Kotlin's `Int / 2`. */
module Geometry {

  datatype Option<T> = None | Some(value: T)

  /** A pixel point (android.graphics.Point read as a value). */
  datatype Point = Point(x: int, y: int)

  /** A rectangle in integer pixel coordinates. */
  datatype Rect = Rect(left: int, top: int, right: int, bottom: int) {
    function Width(): int { right - left }
    function Height(): int { bottom - top }
  }

  /** Kotlin's `a / 2` on Int: the quotient truncated toward zero, so the
      remainder takes the sign of the dividend (Dafny's `/` is Euclidean). */
  function Half(a: int): (h: int)
    ensures a >= 0 ==> 0 <= a - 2 * h <= 1
    ensures a < 0 ==> -1 <= a - 2 * h <= 0
  {
    if a >= 0 then a / 2 else -((-a) / 2)
  }
}
