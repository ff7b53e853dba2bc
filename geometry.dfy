/** The arithmetic of dragging: the `width || 100` fallback and the
    `Math.max(0, Math.min(v, max))` clamp of `onMouseMove`. */
module Geometry {
  import opened Optional

  /** The part of `getBoundingClientRect()` the board uses. */
  datatype Rect = Rect(left: real, top: real, width: real, height: real)

  /** The size assumed for an item without one. */
  const FallbackSize: real := 100.0

  /** `size || 100`: an absent size and a size of 0 both count as 100. */
  function EffectiveSize(size: Option<real>): real {
    if size.None? || size.value == 0.0 then FallbackSize else size.value
  }

  /** `Math.max(0, Math.min(v, hi))`: a coordinate never below 0, and never
      beyond `hi` unless `hi` itself is below 0. */
  function Clamp(v: real, hi: real): (r: real)
    ensures 0.0 <= r
    ensures 0.0 <= hi ==> r <= hi
    ensures hi < 0.0 ==> r == 0.0
    ensures 0.0 <= v <= hi ==> r == v
    ensures 0.0 <= hi < v ==> r == hi
    ensures v < 0.0 ==> r == 0.0
    ensures r == 0.0 || r == v || r == hi
  {
    var m := if v < hi then v else hi;
    if 0.0 < m then m else 0.0
  }
}
