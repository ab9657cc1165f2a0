/**
 * Plane geometry shared by the platformer track: points and axis-aligned
 * rectangles over reals (the source's float `QPointF` / `QRectF`), integer
 * rectangles (`QRect`), and the C++ `static_cast<int>` of a real.
 */
module Geometry {

  datatype Point = Point(x: real, y: real)

  /** A `QRectF`: top-left corner and (possibly negative) extent. */
  datatype Rect = Rect(x: real, y: real, w: real, h: real) {
    function Left(): real { x }
    function Top(): real { y }
    /** `QRectF::right()` is `x + width`, not the last covered column. */
    function Right(): real { x + w }
    function Bottom(): real { y + h }

    /** `QRectF::adjusted(dx1, dy1, dx2, dy2)` moves each edge independently. */
    function Adjusted(dx1: real, dy1: real, dx2: real, dy2: real): (r: Rect)
      ensures r.Left() == Left() + dx1 && r.Right() == Right() + dx2
      ensures r.Top() == Top() + dy1 && r.Bottom() == Bottom() + dy2
    {
      Rect(x + dx1, y + dy1, w + dx2 - dx1, h + dy2 - dy1)
    }
  }

  /** A `QRect` with integer corner and extent. */
  datatype IntRect = IntRect(x: int, y: int, w: int, h: int)

  function Min(a: real, b: real): real { if a <= b then a else b }
  function Max(a: real, b: real): real { if a <= b then b else a }

  /**
   * `QRectF::intersects`: a rectangle of zero width or height never
   * intersects, and edges that only touch do not count; negative extents
   * are normalised first.
   */
  predicate Intersects(a: Rect, b: Rect) {
    && a.w != 0.0 && a.h != 0.0 && b.w != 0.0 && b.h != 0.0
    && Min(a.x, a.Right()) < Max(b.x, b.Right())
    && Min(b.x, b.Right()) < Max(a.x, a.Right())
    && Min(a.y, a.Bottom()) < Max(b.y, b.Bottom())
    && Min(b.y, b.Bottom()) < Max(a.y, a.Bottom())
  }

  /** For rectangles with positive extent, intersection is strict overlap on both axes. */
  lemma IntersectsPositive(a: Rect, b: Rect)
    requires a.w > 0.0 && a.h > 0.0 && b.w > 0.0 && b.h > 0.0
    ensures Intersects(a, b) <==>
      a.Left() < b.Right() && b.Left() < a.Right() && a.Top() < b.Bottom() && b.Top() < a.Bottom()
  {
  }

  /** C++ `static_cast<int>(r)`: truncation toward zero (Dafny's `Floor` rounds down). */
  function Trunc(r: real): (n: int)
    ensures r >= 0.0 ==> n as real <= r < n as real + 1.0
    ensures r < 0.0 ==> n as real - 1.0 < r <= n as real
  {
    if r >= 0.0 then r.Floor else -((-r).Floor)
  }

  /** Truncation and flooring differ exactly on the negative non-integers. */
  lemma TruncVersusFloor(r: real)
    ensures Trunc(r) == r.Floor <==> r >= 0.0 || r == r.Floor as real
  {
    if r < 0.0 && r != r.Floor as real {
      assert r.Floor as real < r;
      assert Trunc(r) as real >= r;
    }
  }

  /** `static_cast<int>(-10.0f / 32)` is 0 where floor division gives -1. */
  lemma TruncOfSmallNegative()
    ensures Trunc(-10.0 / 32.0) == 0 && (-10.0 / 32.0).Floor == -1
  {
  }
}
