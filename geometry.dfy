/** Points, rectangles and the axis-aligned bounding-box (AABB) collision test. */
module Geometry {
  /** raylib's Vector2 with exact reals instead of floats. */
  datatype Vec2 = Vec2(x: real, y: real)

  /** An axis-aligned rectangle: top-left corner and extent (y grows downwards). */
  datatype Rect = Rect(pos: Vec2, size: Vec2)

  /** Strict AABB overlap: both extents intersect, with strict comparisons on all four sides. */
  predicate Overlaps(a: Rect, b: Rect)
  {
    a.pos.x < b.pos.x + b.size.x && a.pos.x + a.size.x > b.pos.x &&
    a.pos.y < b.pos.y + b.size.y && a.pos.y + a.size.y > b.pos.y
  }

  /** `p` lies strictly inside `r`. */
  predicate Inside(p: Vec2, r: Rect)
  {
    r.pos.x < p.x < r.pos.x + r.size.x && r.pos.y < p.y < r.pos.y + r.size.y
  }

  predicate HasArea(r: Rect)
  {
    r.size.x > 0.0 && r.size.y > 0.0
  }

  function Max(a: real, b: real): real { if a < b then b else a }
  function Min(a: real, b: real): real { if a < b then a else b }

  /** The collision test does not depend on which rectangle is the player. */
  lemma OverlapsSymmetric(a: Rect, b: Rect)
    ensures Overlaps(a, b) <==> Overlaps(b, a)
  {
  }

  /** Rectangles that only share an edge line (or a corner) do not collide. */
  lemma TouchingDoesNotOverlap(a: Rect, b: Rect)
    requires a.pos.x + a.size.x == b.pos.x || b.pos.x + b.size.x == a.pos.x ||
             a.pos.y + a.size.y == b.pos.y || b.pos.y + b.size.y == a.pos.y
    ensures !Overlaps(a, b)
  {
  }

  /**
   * Reference definition of a collision: two rectangles with area overlap exactly
   * when some point lies strictly inside both.
   */
  lemma OverlapsIffCommonInteriorPoint(a: Rect, b: Rect)
    requires HasArea(a) && HasArea(b)
    ensures Overlaps(a, b) <==> exists p :: Inside(p, a) && Inside(p, b)
  {
    if Overlaps(a, b) {
      var left := Max(a.pos.x, b.pos.x);
      var right := Min(a.pos.x + a.size.x, b.pos.x + b.size.x);
      var top := Max(a.pos.y, b.pos.y);
      var bottom := Min(a.pos.y + a.size.y, b.pos.y + b.size.y);
      var p := Vec2((left + right) / 2.0, (top + bottom) / 2.0);
      assert Inside(p, a) && Inside(p, b);
    }
  }
}
