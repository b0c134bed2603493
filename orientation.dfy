/**
 * The bird's orientation test: the sign of the cross product of
 * `mid - a` and `b - a` in the horizontal (x/z) plane, with a small
 * dead zone around zero in which the three points count as collinear.
 */
module Orientation {
  import opened Geometry

  /** Half-width of the band around zero that counts as collinear. */
  const DeadZone: real := 0.0001

  /** The x/z cross product of `mid - a` and `b - a`; y is never read. */
  function Cross(a: Point, mid: Point, b: Point): real
  {
    (mid.x - a.x) * (b.z - a.z) - (mid.z - a.z) * (b.x - a.x)
  }

  /**
   * -1 for a right turn, 1 for a left turn, 0 for collinear: the negative
   * threshold is tested first, then the positive one.
   */
  function OrientationTest(a: Point, mid: Point, b: Point): (r: int)
    ensures r == -1 || r == 0 || r == 1
    ensures r == -1 <==> Cross(a, mid, b) < -DeadZone
    ensures r == 1 <==> Cross(a, mid, b) > DeadZone
    ensures r == 0 <==> -DeadZone <= Cross(a, mid, b) <= DeadZone
  {
    var cross := Cross(a, mid, b);
    if cross < -0.0001 then -1
    else if cross > 0.0001 then 1
    else 0
  }

  /** Swapping `mid` and `b` negates the cross product. */
  lemma CrossSwap(a: Point, mid: Point, b: Point)
    ensures Cross(a, b, mid) == -Cross(a, mid, b)
  {
    var u, v, w, q := mid.x - a.x, b.z - a.z, mid.z - a.z, b.x - a.x;
    assert Cross(a, mid, b) == u * v - w * q;
    assert Cross(a, b, mid) == q * w - v * u;
  }

  /** Swapping `mid` and `b` negates the result of the test. */
  lemma SwapNegates(a: Point, mid: Point, b: Point)
    ensures OrientationTest(a, b, mid) == -OrientationTest(a, mid, b)
  {
    CrossSwap(a, mid, b);
  }

  /** A `mid` that coincides with `a` makes the three points collinear. */
  lemma MidAtStart(a: Point, b: Point)
    ensures OrientationTest(a, a, b) == 0
  {
    assert Cross(a, a, b) == 0.0 * (b.z - a.z) - 0.0 * (b.x - a.x);
  }

  /** A `b` that coincides with `a` makes the three points collinear. */
  lemma EndAtStart(a: Point, mid: Point)
    ensures OrientationTest(a, mid, a) == 0
  {
    assert Cross(a, mid, a) == (mid.x - a.x) * 0.0 - (mid.z - a.z) * 0.0;
  }

  /** The cross product depends only on the x/z differences from `a`. */
  lemma SameDifferences(a: Point, mid: Point, b: Point, a': Point, mid': Point, b': Point)
    requires mid.x - a.x == mid'.x - a'.x && mid.z - a.z == mid'.z - a'.z
    requires b.x - a.x == b'.x - a'.x && b.z - a.z == b'.z - a'.z
    ensures Cross(a, mid, b) == Cross(a', mid', b')
  {
    var u, v, w, q := mid.x - a.x, b.z - a.z, mid.z - a.z, b.x - a.x;
    assert Cross(a, mid, b) == u * v - w * q;
    assert Cross(a', mid', b') == u * v - w * q;
  }

  /** Points that differ only in y give the same answer: only x and z are read. */
  lemma OnlyXZ(a: Point, mid: Point, b: Point, a': Point, mid': Point, b': Point)
    requires a.x == a'.x && a.z == a'.z
    requires mid.x == mid'.x && mid.z == mid'.z
    requires b.x == b'.x && b.z == b'.z
    ensures OrientationTest(a, mid, b) == OrientationTest(a', mid', b')
  {
    SameDifferences(a, mid, b, a', mid', b');
  }

  /** Shifting all three points by the same vector does not change the answer. */
  lemma TranslationInvariant(a: Point, mid: Point, b: Point, d: Point)
    ensures OrientationTest(Sub(a, d), Sub(mid, d), Sub(b, d)) == OrientationTest(a, mid, b)
  {
    SameDifferences(a, mid, b, Sub(a, d), Sub(mid, d), Sub(b, d));
  }

  /**
   * A left turn: going from (0,0,0) to (1,0,0) and then towards (1,0,1)
   * has cross product 1.
   */
  lemma LeftTurnExample()
    ensures OrientationTest(Origin, Point(1.0, 0.0, 0.0), Point(1.0, 0.0, 1.0)) == 1
  {
  }
}
