/**
  Axis-aligned rectangles with inclusive edges, as the canvas's hit test and
  rubber-band selection compute them inline with Math.min / Math.max.
 */
module Geometry {

  /** A rectangle given by its least and greatest corner. */
  datatype Box = Box(minX: int, minY: int, maxX: int, maxY: int)

  function Min(a: int, b: int): (m: int) { if a <= b then a else b }

  function Max(a: int, b: int): (m: int) { if a <= b then b else a }

  /** A box whose least corner really is least on both axes. */
  predicate Normal(b: Box) {
    b.minX <= b.maxX && b.minY <= b.maxY
  }

  /** Inclusive point-in-box test (touching an edge counts as inside). */
  predicate InBox(b: Box, x: int, y: int) {
    b.minX <= x <= b.maxX && b.minY <= y <= b.maxY
  }

  /**
    The normalised box spanned by two opposite corners, which may be given
    in either order on either axis.
   */
  function Span(x0: int, y0: int, x1: int, y1: int): (b: Box)
    ensures Normal(b)
    ensures InBox(b, x0, y0) && InBox(b, x1, y1)
    ensures (b.minX == x0 || b.minX == x1) && (b.maxX == x0 || b.maxX == x1)
    ensures (b.minY == y0 || b.minY == y1) && (b.maxY == y0 || b.maxY == y1)
  {
    Box(Min(x0, x1), Min(y0, y1), Max(x0, x1), Max(y0, y1))
  }

  /** Swapping the two corners spans the same box. */
  lemma SpanSymmetric(x0: int, y0: int, x1: int, y1: int)
    ensures Span(x0, y0, x1, y1) == Span(x1, y1, x0, y0)
  {
  }

  /**
    The selection test: neither box lies strictly to one side of the other,
    on either axis. For normalised boxes this says the overlap of the two
    boxes is non-empty on both axes.
   */
  function Intersects(a: Box, b: Box): (r: bool)
    ensures Normal(a) && Normal(b) ==>
              (r <==> Max(a.minX, b.minX) <= Min(a.maxX, b.maxX) && Max(a.minY, b.minY) <= Min(a.maxY, b.maxY))
  {
    !(a.maxX < b.minX || b.maxX < a.minX) && !(a.maxY < b.minY || b.maxY < a.minY)
  }

  /** For normalised boxes the test says exactly that the two boxes share a point. */
  lemma IntersectsIffCommonPoint(a: Box, b: Box)
    requires Normal(a) && Normal(b)
    ensures Intersects(a, b) <==> exists x, y :: InBox(a, x, y) && InBox(b, x, y)
  {
    if Intersects(a, b) {
      var x, y := Max(a.minX, b.minX), Max(a.minY, b.minY);
      assert InBox(a, x, y) && InBox(b, x, y);
    }
  }
}
