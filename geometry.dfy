/** Clamping, pygame-style integer rectangles and the circle-versus-rectangle test. */
module Geometry {

  /** Python's abs on a real. */
  function Abs(v: real): (r: real)
    ensures r >= 0.0 && (r == v || r == -v)
  {
    if v < 0.0 then -v else v
  }

  /**
   * max(a, min(v, b)). When a <= b the result lies in [a, b] and is v itself
   * whenever v already does; when a > b the lower bound wins.
   */
  function Clamp(v: real, a: real, b: real): (r: real)
    ensures a <= b ==> a <= r <= b
    ensures a <= v <= b ==> r == v
    ensures v <= a ==> r == a
    ensures a <= b <= v ==> r == b
    ensures b < a ==> r == a
  {
    var m := if v <= b then v else b;
    if a >= m then a else m
  }

  /** Squared Euclidean distance between two points. */
  function SqDist(px: real, py: real, qx: real, qy: real): real
  {
    (px - qx) * (px - qx) + (py - qy) * (py - qy)
  }

  /** A pygame Rect: integer top-left corner, width and height. */
  datatype Rect = Rect(left: int, top: int, w: int, h: int)
  {
    function Right(): int { left + w }
    function Bottom(): int { top + h }
    /** pygame rounds the centre down: left + w // 2. */
    function CenterX(): int { left + w / 2 }
    function CenterY(): int { top + h / 2 }

    /** The closed rectangle contains the point (px, py). */
    predicate Covers(px: real, py: real)
    {
      left as real <= px <= Right() as real && top as real <= py <= Bottom() as real
    }
  }

  /** pygame's colliderect: the open interiors of the two rectangles meet. */
  predicate Overlap(a: Rect, b: Rect)
  {
    a.left < b.Right() && b.left < a.Right() && a.top < b.Bottom() && b.top < a.Bottom()
  }

  /**
   * circle_rect: clamp the centre onto the rectangle and compare the squared
   * distance to that point with r * r. A centre inside the rectangle always hits.
   */
  function CircleRect(cx: real, cy: real, r: real, rect: Rect): (hit: bool)
    ensures rect.Covers(cx, cy) ==> hit
  {
    var nx := Clamp(cx, rect.left as real, rect.Right() as real);
    var ny := Clamp(cy, rect.top as real, rect.Bottom() as real);
    SqDist(cx, cy, nx, ny) <= r * r
  }

  /** On one axis the clamped coordinate is the point of [lo, hi] nearest to c. */
  lemma ClampIsNearest(c: real, lo: real, hi: real, p: real)
    requires lo <= p <= hi
    ensures (c - Clamp(c, lo, hi)) * (c - Clamp(c, lo, hi)) <= (c - p) * (c - p)
  {
    var n := Clamp(c, lo, hi);
    if c < lo {
      var d, e := n - c, p - c;
      assert 0.0 < d <= e;
      assert e * e - d * d == (e - d) * (e + d);
      assert (e - d) * (e + d) >= 0.0;
    } else if c > hi {
      var d, e := c - n, c - p;
      assert 0.0 < d <= e;
      assert e * e - d * d == (e - d) * (e + d);
      assert (e - d) * (e + d) >= 0.0;
    } else {
      assert n == c;
      assert (c - p) * (c - p) >= 0.0;
    }
  }

  /**
   * The circle test is exact for a proper rectangle: it holds if and only if
   * some point of the closed rectangle lies within distance |r| of the centre.
   */
  lemma CircleRectMeansNearPoint(cx: real, cy: real, r: real, rect: Rect)
    requires rect.w >= 0 && rect.h >= 0
    ensures CircleRect(cx, cy, r, rect) <==>
            exists px: real, py: real :: rect.Covers(px, py) && SqDist(cx, cy, px, py) <= r * r
  {
    var l, t, ri, b := rect.left as real, rect.top as real, rect.Right() as real, rect.Bottom() as real;
    var nx := Clamp(cx, l, ri);
    var ny := Clamp(cy, t, b);
    assert rect.Covers(nx, ny);
    forall px: real, py: real | rect.Covers(px, py)
      ensures SqDist(cx, cy, nx, ny) <= SqDist(cx, cy, px, py)
    {
      ClampIsNearest(cx, l, ri, px);
      ClampIsNearest(cy, t, b, py);
    }
  }
}
