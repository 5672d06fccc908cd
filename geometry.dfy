/** Screen bounds and the axis-aligned collision test shared by every actor. */
module Geometry {
  const SCREEN_WIDTH := 640
  const SCREEN_HEIGHT := 480

  /** An `SDL_Rect`: top-left corner and size in pixels. */
  datatype Rect = Rect(x: int, y: int, w: int, h: int)

  /** The pixel (px, py) lies in the half-open box [x, x + w) x [y, y + h). */
  predicate Covers(r: Rect, px: int, py: int)
  {
    r.x <= px < r.x + r.w && r.y <= py < r.y + r.h
  }

  /** The half-open intervals [lo1, lo1 + len1) and [lo2, lo2 + len2) have a common point. */
  predicate Overlap(lo1: int, len1: int, lo2: int, len2: int)
  {
    (if lo1 < lo2 then lo2 else lo1) < (if lo1 + len1 < lo2 + len2 then lo1 + len1 else lo2 + len2)
  }

  /**
   * `checkCollision`: four side tests, each rejecting with a non-strict comparison.
   * For boxes of positive size it reports a collision exactly when both the
   * horizontal and the vertical spans overlap. (A box of width or height 0 can
   * still be reported as colliding: the tests only compare edges.)
   */
  function CheckCollision(a: Rect, b: Rect): (r: bool)
    ensures a.w > 0 && a.h > 0 && b.w > 0 && b.h > 0 ==>
      (r <==> Overlap(a.x, a.w, b.x, b.w) && Overlap(a.y, a.h, b.y, b.h))
  {
    var leftA, rightA, topA, bottomA := a.x, a.x + a.w, a.y, a.y + a.h;
    var leftB, rightB, topB, bottomB := b.x, b.x + b.w, b.y, b.y + b.h;
    if bottomA <= topB then false
    else if topA >= bottomB then false
    else if rightA <= leftB then false
    else if leftA >= rightB then false
    else true
  }

  /** For boxes of positive size, the test reports exactly the boxes that share a pixel. */
  lemma CollisionIffSharedPixel(a: Rect, b: Rect)
    requires a.w > 0 && a.h > 0 && b.w > 0 && b.h > 0
    ensures CheckCollision(a, b) <==> exists px, py :: Covers(a, px, py) && Covers(b, px, py)
  {
    if CheckCollision(a, b) {
      var px := if a.x < b.x then b.x else a.x;
      var py := if a.y < b.y then b.y else a.y;
      assert Covers(a, px, py) && Covers(b, px, py);
    }
  }

  /** The test does not depend on the order of its arguments. */
  lemma CollisionSymmetric(a: Rect, b: Rect)
    ensures CheckCollision(a, b) == CheckCollision(b, a)
  {
  }

  /** Boxes that only touch along a vertical or a horizontal edge do not collide. */
  lemma TouchingEdgesDoNotCollide(a: Rect, b: Rect)
    requires a.x + a.w == b.x || a.y + a.h == b.y
    ensures !CheckCollision(a, b) && !CheckCollision(b, a)
  {
  }

  /** The two 10 x 10 boxes side by side at x = 0 and x = 10 do not collide. */
  lemma AdjacentSquaresDoNotCollide()
    ensures !CheckCollision(Rect(0, 0, 10, 10), Rect(10, 0, 10, 10))
  {
    TouchingEdgesDoNotCollide(Rect(0, 0, 10, 10), Rect(10, 0, 10, 10));
  }
}
