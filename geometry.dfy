/** Points on the unit square and the Euclidean distance between them, shared by
    js/coreGameLogic.js, game_logic.py and script.js. Math.sqrt / math.sqrt is taken
    as a parameter `sqrt` that returns the exact non-negative root. */
module Geometry {

  datatype Point = Point(x: real, y: real)

  function SquaredDistance(p: Point, q: Point): real
  {
    (q.x - p.x) * (q.x - p.x) + (q.y - p.y) * (q.y - p.y)
  }

  /** `sqrt` is the exact square root on the non-negative reals; in particular the root
      of 0 is 0, as Math.sqrt(0) and math.sqrt(0.0) are. */
  ghost predicate IsSqrt(sqrt: real -> real)
  {
    && sqrt(0.0) == 0.0
    && forall s :: 0.0 <= s ==> 0.0 <= sqrt(s) && sqrt(s) * sqrt(s) == s
  }

  /** `d` is the Euclidean distance between `p` and `q`. */
  predicate IsDistanceBetween(d: real, p: Point, q: Point)
  {
    0.0 <= d && d * d == SquaredDistance(p, q)
  }

  lemma SquaredDistanceNonNegative(p: Point, q: Point)
    ensures 0.0 <= SquaredDistance(p, q)
  {
    SumOfSquaresNonNegative(q.x - p.x, q.y - p.y);
  }

  lemma SquaredDistanceToItself(p: Point)
    ensures SquaredDistance(p, p) == 0.0
  {
    var zero := p.x - p.x;
    assert zero == 0.0;
  }

  lemma SumOfSquaresNonNegative(a: real, b: real)
    ensures 0.0 <= a * a + b * b
  {
  }

  /** calculateDistance / calculate_euclidean_distance: the non-negative root of the
      squared distance; a point is at distance 0 from itself, so a non-zero distance
      means two different points. */
  function CalculateDistance(p: Point, q: Point, sqrt: real -> real): (d: real)
    requires IsSqrt(sqrt)
    ensures IsDistanceBetween(d, p, q)
    ensures p == q ==> d == 0.0
  {
    SquaredDistanceNonNegative(p, q);
    if p == q then
      SquaredDistanceToItself(p);
      sqrt(SquaredDistance(p, q))
    else
      sqrt(SquaredDistance(p, q))
  }
}
