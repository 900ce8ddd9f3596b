/** Canvas geometry shared by the entities and the collision tests: pixel
    quantities are reals, rectangles have their top-left corner at (x, y). */
module Geometry {

  /** An axis-aligned rectangle on the canvas (a collider or a sprite's bounds). */
  datatype Rect = Rect(x: real, y: real, width: real, height: real) {

    /** Horizontal centre, the only centre the timing code ever measures. */
    function CenterX(): real {
      x + width / 2.0
    }

    /** The point (px, py) lies in the open interior of the rectangle. */
    predicate Contains(px: real, py: real) {
      x < px < x + width && y < py < y + height
    }
  }

  function Abs(v: real): (r: real)
    ensures r >= 0.0 && (r == v || r == -v)
  {
    if v < 0.0 then -v else v
  }

  function Min(a: real, b: real): (r: real)
    ensures r <= a && r <= b && (r == a || r == b)
  {
    if a <= b then a else b
  }

  function Max(a: real, b: real): (r: real)
    ensures r >= a && r >= b && (r == a || r == b)
  {
    if a >= b then a else b
  }

  /** The strict AABB test of CollisionDetector.rectanglesOverlap and of the
      inline test in GameManager.processInputAndHits: touching edges do not overlap. */
  predicate Overlaps(a: Rect, b: Rect) {
    a.x < b.x + b.width && a.x + a.width > b.x &&
    a.y < b.y + b.height && a.y + a.height > b.y
  }

  /** An independent reading of the strict test: two rectangles with a
      non-empty interior overlap exactly when some point lies inside both. */
  lemma OverlapsIffCommonPoint(a: Rect, b: Rect)
    requires a.width > 0.0 && a.height > 0.0 && b.width > 0.0 && b.height > 0.0
    ensures Overlaps(a, b) <==> exists px, py :: a.Contains(px, py) && b.Contains(px, py)
  {
    if Overlaps(a, b) {
      var px := (Max(a.x, b.x) + Min(a.x + a.width, b.x + b.width)) / 2.0;
      var py := (Max(a.y, b.y) + Min(a.y + a.height, b.y + b.height)) / 2.0;
      assert a.Contains(px, py) && b.Contains(px, py);
    }
  }

  /** Sum of a sequence of reals (frame durations, progress awards). */
  function Sum(xs: seq<real>): real
    decreases |xs|
  {
    if xs == [] then 0.0 else xs[0] + Sum(xs[1..])
  }

  lemma {:induction false} SumNonNegative(xs: seq<real>)
    requires forall i :: 0 <= i < |xs| ==> xs[i] >= 0.0
    ensures Sum(xs) >= 0.0
    decreases |xs|
  {
    if xs != [] {
      assert forall i :: 0 <= i < |xs[1..]| ==> xs[1..][i] == xs[i + 1];
      SumNonNegative(xs[1..]);
    }
  }
}
