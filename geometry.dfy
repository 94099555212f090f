/** Shared values of the viewer: optional DOM references, points, bounding
    rectangles, and the `Math.max(lo, Math.min(hi, v))` clamp every handler uses. */
module Geometry {

  /** A nullable reference (`ref.current`) or an absent value. */
  datatype Option<T> = None | Some(value: T)

  datatype Point = Point(x: real, y: real)

  /** The result of `getBoundingClientRect()`: the element's offset in the
      page and its size. */
  datatype Rect = Rect(left: real, top: real, width: real, height: real)

  function Min(a: real, b: real): (r: real)
    ensures r <= a && r <= b
    ensures r == a || r == b
  {
    if a <= b then a else b
  }

  function Max(a: real, b: real): (r: real)
    ensures r >= a && r >= b
    ensures r == a || r == b
  {
    if a >= b then a else b
  }

  /** `Math.max(lo, Math.min(hi, v))`. When the interval is empty the lower
      end wins, as it does in the source expression. */
  function Clamp(lo: real, hi: real, v: real): (r: real)
    ensures r >= lo
    ensures lo <= hi ==> r <= hi
    ensures lo <= v <= hi ==> r == v
    ensures v <= lo ==> r == lo
    ensures lo <= hi <= v ==> r == hi
    ensures hi < lo ==> r == lo
  {
    Max(lo, Min(hi, v))
  }

  /** Position of a pointer relative to the top-left corner of an element. */
  function Relative(clientX: real, clientY: real, rect: Rect): (p: Point)
    ensures p.x + rect.left == clientX && p.y + rect.top == clientY
  {
    Point(clientX - rect.left, clientY - rect.top)
  }
}
