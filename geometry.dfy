/** Axis-aligned boxes with the semantics of java.awt.Rectangle, on unbounded integers. */
module Geometry {

  /** A rectangle: top-left corner (x, y), extent width x height. */
  datatype Rect = Rect(x: int, y: int, width: int, height: int)
  {
    function Right(): int { x + width }
    function Bottom(): int { y + height }

    /** The same box moved by (dx, dy). */
    function Translate(dx: int, dy: int): (r: Rect)
      ensures r.width == width && r.height == height
      ensures r.x - x == dx && r.y - y == dy
    {
      Rect(x + dx, y + dy, width, height)
    }
  }

  /** Rectangle.intersects: both boxes are non-empty and their interiors overlap;
      boxes that only touch along an edge do not intersect. */
  predicate Intersects(a: Rect, b: Rect)
  {
    a.width > 0 && a.height > 0 && b.width > 0 && b.height > 0 &&
    a.x < b.x + b.width && b.x < a.x + a.width &&
    a.y < b.y + b.height && b.y < a.y + a.height
  }

  lemma IntersectsSymmetric(a: Rect, b: Rect)
    ensures Intersects(a, b) <==> Intersects(b, a)
  {
  }

  function Min(a: int, b: int): int { if a <= b then a else b }
  function Max(a: int, b: int): int { if a >= b then a else b }

  /** Length of the intersection of the two boxes' x-ranges (negative when apart). */
  function OverlapX(a: Rect, b: Rect): (o: int)
    ensures Intersects(a, b) ==> 0 < o <= a.width && o <= b.width
  {
    Min(a.x + a.width, b.x + b.width) - Max(a.x, b.x)
  }

  /** Length of the intersection of the two boxes' y-ranges (negative when apart). */
  function OverlapY(a: Rect, b: Rect): (o: int)
    ensures Intersects(a, b) ==> 0 < o <= a.height && o <= b.height
  {
    Min(a.y + a.height, b.y + b.height) - Max(a.y, b.y)
  }

  /** True iff some box of rs intersects b (a stream anyMatch over a list). */
  predicate AnyIntersects(rs: seq<Rect>, b: Rect)
  {
    exists i :: 0 <= i < |rs| && Intersects(rs[i], b)
  }

  /** Index of the first box of rs that intersects b, as a loop with an early break finds it. */
  function FirstIntersecting(rs: seq<Rect>, b: Rect): (k: int)
    ensures -1 <= k < |rs|
    ensures k >= 0 ==> Intersects(rs[k], b)
    ensures forall j :: 0 <= j < |rs| && (k < 0 || j < k) ==> !Intersects(rs[j], b)
    ensures k < 0 <==> !AnyIntersects(rs, b)
  {
    if |rs| == 0 then -1
    else if Intersects(rs[0], b) then 0
    else
      var k := FirstIntersecting(rs[1..], b);
      assert forall j :: 1 <= j < |rs| ==> rs[j] == rs[1..][j - 1];
      if k < 0 then -1 else k + 1
  }

  /** A grid tile: the square of side tileSize at row r, column c. */
  function Tile(r: int, c: int, tileSize: int): Rect
  {
    Rect(c * tileSize, r * tileSize, tileSize, tileSize)
  }
}
