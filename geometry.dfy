/** Axis-aligned rectangles and the overlap test shared by every collision in the game. */
module Geometry {

  /** A rectangle with its top-left corner at (x, y); y grows downwards, as on the canvas. */
  datatype Rect = Rect(x: real, y: real, w: real, h: real)

  /** rectsOverlap: strict on all four sides, so rectangles that only touch do not overlap. */
  predicate Overlaps(a: Rect, b: Rect)
  {
    a.x < b.x + b.w &&
    a.x + a.w > b.x &&
    a.y < b.y + b.h &&
    a.y + a.h > b.y
  }

  /** (px, py) lies strictly inside r. */
  predicate Inside(px: real, py: real, r: Rect)
  {
    r.x < px < r.x + r.w && r.y < py < r.y + r.h
  }

  lemma OverlapsSymmetric(a: Rect, b: Rect)
    ensures Overlaps(a, b) <==> Overlaps(b, a)
  {
  }

  /** Rectangles that share only an edge or a corner do not overlap. */
  lemma TouchingIsNotOverlapping(a: Rect, b: Rect)
    requires a.x + a.w == b.x || b.x + b.w == a.x || a.y + a.h == b.y || b.y + b.h == a.y
    ensures !Overlaps(a, b)
  {
  }

  /**
   * The overlap test against an independent definition: for rectangles of positive size,
   * it holds exactly when some point lies strictly inside both.
   */
  lemma OverlapsIffCommonPoint(a: Rect, b: Rect)
    requires a.w > 0.0 && a.h > 0.0 && b.w > 0.0 && b.h > 0.0
    ensures Overlaps(a, b) <==> exists px: real, py: real :: Inside(px, py, a) && Inside(px, py, b)
  {
    if Overlaps(a, b) {
      var left := if a.x >= b.x then a.x else b.x;
      var right := if a.x + a.w <= b.x + b.w then a.x + a.w else b.x + b.w;
      var top := if a.y >= b.y then a.y else b.y;
      var bottom := if a.y + a.h <= b.y + b.h then a.y + a.h else b.y + b.h;
      var px, py := (left + right) / 2.0, (top + bottom) / 2.0;
      assert Inside(px, py, a) && Inside(px, py, b);
    }
  }
}
