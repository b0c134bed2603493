/** The uniform Catmull-Rom cubic that `flyPath` evaluates on X and Z. */
module Spline {
  import opened Geometry

  /**
   * One coordinate of the segment between `p2` and `p3`, with `p1` before and
   * `p4` after it, at parameter `t` (salsa/Bird.cpp:263-268).
   */
  function CatmullRom(p1: real, p2: real, p3: real, p4: real, t: real): (r: real)
    ensures t == 0.0 ==> r == p2
    ensures t == 1.0 ==> r == p3
    ensures p1 == p2 == p3 == p4 ==> r == p1
  {
    p2 + 0.5 * t * (-p1 + p3)
    + t * t * (p1 - 2.5 * p2 + 2.0 * p3 - 0.5 * p4)
    + t * t * t * (-0.5 * p1 + 1.5 * p2 - 1.5 * p3 + 0.5 * p4)
  }

  /** The four basis polynomials of the uniform Catmull-Rom spline. */
  function Basis1(t: real): real { -0.5 * t + t * t - 0.5 * t * t * t }
  function Basis2(t: real): real { 1.0 - 2.5 * t * t + 1.5 * t * t * t }
  function Basis3(t: real): real { 0.5 * t + 2.0 * t * t - 1.5 * t * t * t }
  function Basis4(t: real): real { -0.5 * t * t + 0.5 * t * t * t }

  /** The cubic is the blend of the control points by the basis polynomials. */
  lemma BasisForm(p1: real, p2: real, p3: real, p4: real, t: real)
    ensures CatmullRom(p1, p2, p3, p4, t)
         == Basis1(t) * p1 + Basis2(t) * p2 + Basis3(t) * p3 + Basis4(t) * p4
  {
  }

  /** The basis is a partition of unity: the weights sum to one at every `t`. */
  lemma PartitionOfUnity(t: real)
    ensures Basis1(t) + Basis2(t) + Basis3(t) + Basis4(t) == 1.0
  {
  }

  /** Shifting all four control points shifts the curve by the same amount. */
  lemma TranslationInvariant(p1: real, p2: real, p3: real, p4: real, c: real, t: real)
    ensures CatmullRom(p1 + c, p2 + c, p3 + c, p4 + c, t) == CatmullRom(p1, p2, p3, p4, t) + c
  {
    BasisForm(p1, p2, p3, p4, t);
    BasisForm(p1 + c, p2 + c, p3 + c, p4 + c, t);
    PartitionOfUnity(t);
    assert Basis1(t) * (p1 + c) + Basis2(t) * (p2 + c) + Basis3(t) * (p3 + c) + Basis4(t) * (p4 + c)
        == Basis1(t) * p1 + Basis2(t) * p2 + Basis3(t) * p3 + Basis4(t) * p4
           + (Basis1(t) + Basis2(t) + Basis3(t) + Basis4(t)) * c;
  }

  /** Scaling all four control points scales the curve. */
  lemma ScaleInvariant(p1: real, p2: real, p3: real, p4: real, k: real, t: real)
    ensures CatmullRom(k * p1, k * p2, k * p3, k * p4, t) == k * CatmullRom(p1, p2, p3, p4, t)
  {
    BasisForm(p1, p2, p3, p4, t);
    BasisForm(k * p1, k * p2, k * p3, k * p4, t);
  }

  /**
   * The point `flyPath` returns for parameter `t`: the cubic on X and Z, and
   * Y fixed at 0 (salsa/Bird.cpp:263-272).
   */
  function SplinePoint(p1: Point, p2: Point, p3: Point, p4: Point, t: real): (r: Point)
    ensures r.y == 0.0
    ensures t == 0.0 ==> r == Point(p2.x, 0.0, p2.z)
    ensures t == 1.0 ==> r == Point(p3.x, 0.0, p3.z)
    ensures p1 == p2 == p3 == p4 ==> r == Point(p1.x, 0.0, p1.z)
  {
    Point(CatmullRom(p1.x, p2.x, p3.x, p4.x, t), 0.0, CatmullRom(p1.z, p2.z, p3.z, p4.z, t))
  }
}
