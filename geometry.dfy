/** Screen geometry and the Java arithmetic the game relies on. */
module Geometry {

  /** Java's `/` on `int`: the quotient truncated toward zero (Dafny's own
      `/` is Euclidean, which differs for a negative dividend). Every divisor
      the game uses on screen sizes is a positive constant. */
  function JavaDiv(a: int, b: int): (q: int)
    requires b > 0
    ensures a >= 0 ==> 0 <= q * b <= a < q * b + b
    ensures a < 0 ==> q * b - b < a <= q * b <= 0
  {
    if a >= 0 then
      var p := a / b;
      assert p * b + a % b == a;
      assert 0 <= p * b by { QuotientNonNegative(a, b); }
      p
    else
      var p := (-a) / b;
      assert p * b + (-a) % b == -a;
      assert 0 <= p * b by { QuotientNonNegative(-a, b); }
      assert (-p) * b == -(p * b);
      -p
  }

  lemma QuotientNonNegative(a: int, b: int)
    requires a >= 0 && b > 0
    ensures 0 <= a / b && 0 <= (a / b) * b
  {
  }

  function Abs(v: real): (r: real)
    ensures r >= 0.0 && (r == v || r == -v)
  {
    if v < 0.0 then -v else v
  }

  /** Android's RectF: four float edges, modelled as exact reals. */
  datatype Rect = Rect(left: real, top: real, right: real, bottom: real)
  {
    function Width(): real { right - left }
    function CentreX(): real { left + Width() / 2.0 }
  }

  /** RectF.intersects(a, b): strict overlap on both axes, so rectangles that
      only share an edge do not intersect. */
  predicate Intersects(a: Rect, b: Rect)
  {
    a.left < b.right && b.left < a.right && a.top < b.bottom && b.top < a.bottom
  }

  /** The point (x, y) lies strictly inside r. */
  predicate Inside(r: Rect, x: real, y: real)
  {
    r.left < x < r.right && r.top < y < r.bottom
  }

  /** Left edge before right edge and top edge above bottom edge. */
  predicate Proper(r: Rect)
  {
    r.left < r.right && r.top < r.bottom
  }

  /** A point strictly inside both rectangles makes them intersect; for proper
      rectangles the converse holds too. (The test alone does not look at each
      rectangle's own edges, so an inverted rectangle can pass it while
      containing no point.) */
  lemma IntersectsIffSharedPoint(a: Rect, b: Rect)
    ensures (exists x, y :: Inside(a, x, y) && Inside(b, x, y)) ==> Intersects(a, b)
    ensures Proper(a) && Proper(b) && Intersects(a, b) ==> exists x, y :: Inside(a, x, y) && Inside(b, x, y)
  {
    if Proper(a) && Proper(b) && Intersects(a, b) {
      var lo := if a.left < b.left then b.left else a.left;
      var hi := if a.right < b.right then a.right else b.right;
      var top := if a.top < b.top then b.top else a.top;
      var bottom := if a.bottom < b.bottom then a.bottom else b.bottom;
      assert Inside(a, (lo + hi) / 2.0, (top + bottom) / 2.0) && Inside(b, (lo + hi) / 2.0, (top + bottom) / 2.0);
    }
  }

  lemma IntersectsSymmetric(a: Rect, b: Rect)
    ensures Intersects(a, b) <==> Intersects(b, a)
  {
  }

  /** Touching edges do not count as an overlap. */
  lemma TouchingIsNotIntersecting(a: Rect, b: Rect)
    requires a.right == b.left || a.bottom == b.top
    ensures !Intersects(a, b)
  {
  }
}
