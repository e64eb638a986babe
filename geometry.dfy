/**
 * Coordinates and the planar distance approximation of `_calculate_distance`:
 * longitude degrees scaled by 85000 m, latitude degrees by 111000 m, then the
 * Euclidean norm. The square root is not computed: a distance function is
 * passed in, and `IsPlanarDistance` says it is the square root of `SquaredDistance`.
 */
module Geometry {

  datatype Coord = Coord(lng: real, lat: real)

  const METERS_PER_LNG_DEGREE: real := 85000.0
  const METERS_PER_LAT_DEGREE: real := 111000.0

  function SquaredDistance(p: Coord, q: Coord): (d: real)
    ensures d >= 0.0
  {
    var x := (q.lng - p.lng) * METERS_PER_LNG_DEGREE;
    var y := (q.lat - p.lat) * METERS_PER_LAT_DEGREE;
    x * x + y * y
  }

  /** `dist` is `sqrt` of the squared planar distance. */
  ghost predicate IsPlanarDistance(dist: (Coord, Coord) -> real) {
    forall p: Coord, q: Coord :: dist(p, q) >= 0.0 && dist(p, q) * dist(p, q) == SquaredDistance(p, q)
  }

  lemma SquareLess(a: real, b: real)
    requires 0.0 <= a < b
    ensures a * a < b * b
  {
    var p, q, r := a * a, a * b, b * b;
    assert p <= q;
    assert q < r;
  }

  /** For non-negative reals, `a < b` exactly when `a * a < b * b`. */
  lemma SquareStrict(a: real, b: real)
    requires 0.0 <= a && 0.0 <= b
    ensures a < b <==> a * a < b * b
  {
    if a < b {
      SquareLess(a, b);
    } else if b < a {
      SquareLess(b, a);
    }
  }

  /** The planar distance is symmetric. */
  lemma DistanceSymmetric(dist: (Coord, Coord) -> real, p: Coord, q: Coord)
    requires IsPlanarDistance(dist)
    ensures dist(p, q) == dist(q, p)
  {
    assert SquaredDistance(p, q) == SquaredDistance(q, p);
    SquareStrict(dist(p, q), dist(q, p));
    SquareStrict(dist(q, p), dist(p, q));
  }

  /** A threshold on the distance is the same threshold on the squared distance. */
  lemma {:induction false} DistanceAbove(dist: (Coord, Coord) -> real, p: Coord, q: Coord, limit: real)
    requires IsPlanarDistance(dist) && limit >= 0.0
    ensures dist(p, q) > limit <==> SquaredDistance(p, q) > limit * limit
  {
    SquareStrict(limit, dist(p, q));
  }
}
