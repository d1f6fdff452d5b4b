/** Plane geometry shared by the collision rules, the tiles, the props and the UI
    layout. The source stores coordinates as 32-bit floats; here they are reals,
    so the decision rules are exact and rounding is not modelled. */
module Geometry {

  /** A 2D vector: a position or a velocity. */
  datatype Vec2 = Vec2(x: real, y: real)

  /** An axis-aligned rectangle given by its top-left corner and its size
      (screen coordinates: y grows downwards). */
  datatype Rect = Rect(x: real, y: real, width: real, height: real)
  {
    function Right(): real { x + width }
    function Bottom(): real { y + height }
  }

  const ZeroRect := Rect(0.0, 0.0, 0.0, 0.0)

  /** Strict axis-aligned overlap: rectangles that only share an edge or a
      corner do not overlap. This is the test written out in
      collisions/collisions.go, and the one the model assumes for the graphics
      library's CheckCollisionRecs. */
  predicate Overlaps(a: Rect, b: Rect)
  {
    a.x < b.Right() && a.Right() > b.x && a.y < b.Bottom() && a.Bottom() > b.y
  }

  /** Overlap does not depend on the order of the two rectangles. */
  lemma OverlapsSymmetric(a: Rect, b: Rect)
    ensures Overlaps(a, b) <==> Overlaps(b, a)
  {
  }

  /** Two rectangles that share only a vertical or a horizontal edge do not
      overlap. */
  lemma SharedEdgeDoesNotOverlap(a: Rect, b: Rect)
    requires a.Right() == b.x || b.Right() == a.x || a.Bottom() == b.y || b.Bottom() == a.y
    ensures !Overlaps(a, b)
  {
  }
}
