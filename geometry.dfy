/** Points of the scene: the parts of Point3d that the bird's logic uses. */
module Geometry {

  /** A point or vector in world space, exact over the reals. */
  datatype Point = Point(x: real, y: real, z: real)

  const Origin: Point := Point(0.0, 0.0, 0.0)

  /** Componentwise difference `p - q`; it is the zero vector exactly when the points coincide. */
  function Sub(p: Point, q: Point): (r: Point)
    ensures r == Origin <==> p == q
  {
    Point(p.x - q.x, p.y - q.y, p.z - q.z)
  }

  /**
   * What the model relies on of Point3d's `norm()`: a length is never
   * negative, and it is zero exactly for the zero vector.
   */
  ghost predicate IsNorm(norm: Point -> real)
  {
    forall v :: norm(v) >= 0.0 && (norm(v) == 0.0 <==> v == Origin)
  }

  /** The distance between two points under a norm is zero exactly when they coincide. */
  lemma DistanceZero(norm: Point -> real, p: Point, q: Point)
    requires IsNorm(norm)
    ensures norm(Sub(q, p)) >= 0.0
    ensures norm(Sub(q, p)) == 0.0 <==> p == q
  {
    assert norm(Sub(q, p)) == 0.0 <==> Sub(q, p) == Origin;
  }
}
