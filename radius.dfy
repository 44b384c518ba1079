/** The brush radius change a mouse-wheel scroll performs. */
module Radius {
  import opened Unity

  /** minRadius */
  const MinRadius: real := 0.1

  /** A mouse-wheel event without Alt held changes the radius. */
  predicate IsRadiusScroll(ev: Event) {
    ev.kind == ScrollWheel && !ev.altHeld
  }

  /** The relative change of one scroll step. */
  const ScrollStep: real := 0.05

  /** The radius after one scroll with vertical delta deltaY: scaled by
      1 + Sign(deltaY) * 0.05, then clamped to [minRadius, float.MaxValue]. */
  function ScrolledRadius(r: real, deltaY: real): (r': real)
    ensures MinRadius <= r' <= FloatMax
    ensures var scaled := r * (if deltaY >= 0.0 then 1.05 else 0.95);
            && (r' == scaled || r' == MinRadius || r' == FloatMax)
            && (MinRadius <= scaled <= FloatMax ==> r' == scaled)
            && (scaled < MinRadius ==> r' == MinRadius)
            && (scaled > FloatMax ==> r' == FloatMax)
  {
    Clamp(r * (1.0 + Sign(deltaY) * ScrollStep), MinRadius, FloatMax)
  }

  /** Without clamping in the way, scrolling with a negative delta shrinks
      the brush and any other scroll (a zero delta included) grows it. */
  lemma ScrollDirection(r: real, deltaY: real)
    requires MinRadius <= r <= FloatMax
    ensures deltaY < 0.0 ==> ScrolledRadius(r, deltaY) <= r
    ensures deltaY >= 0.0 ==> ScrolledRadius(r, deltaY) >= r
  {
  }
}
