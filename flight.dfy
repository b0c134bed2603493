/**
 * The path cursor of `Bird::flyPath` (salsa/Bird.cpp:244-273): a position
 * in a closed loop of waypoints, advanced one step per call, and the
 * Catmull-Rom point it yields.
 */
module Flight {
  import opened Geometry
  import opened Spline
  import opened SegmentSteps

  datatype Option<T> = None | Some(value: T)

  // ---------------------------------------------------------------------
  // Cyclic indices. The source writes them with `%`; the model uses the
  // equivalent successor below and proves the two agree.
  // ---------------------------------------------------------------------

  /** The index after `i` in a cycle of length `m`. */
  function Succ(i: int, m: int): (r: int)
    requires 0 <= i < m
    ensures 0 <= r < m
    ensures r == 0 <==> i == m - 1
  {
    if i + 1 == m then 0 else i + 1
  }

  /** The index before `i` in a cycle of length `m` (salsa/Bird.cpp:249). */
  function Prev(i: int, m: int): (r: int)
    requires 0 <= i < m
    ensures 0 <= r < m
    ensures Succ(r, m) == i
  {
    if i == 0 then m - 1 else i - 1
  }

  lemma ModBelow(x: int, m: int)
    requires 0 <= x < m
    ensures x % m == x
  {
  }

  lemma ModWrap(x: int, m: int)
    requires m <= x < 2 * m
    ensures x % m == x - m
  {
    assert x == 1 * m + (x - m);
  }

  /** The successor is the source's `(i + 1) % m`. */
  lemma SuccIsMod(i: int, m: int)
    requires 0 <= i < m
    ensures Succ(i, m) == (i + 1) % m
  {
    if i + 1 < m { ModBelow(i + 1, m); } else { ModWrap(i + 1, m); }
  }

  /** Two successors are the source's `(i + 2) % m` (salsa/Bird.cpp:253). */
  lemma Succ2IsMod(i: int, m: int)
    requires 0 <= i < m
    ensures Succ(Succ(i, m), m) == (i + 2) % m
  {
    var j := Succ(i, m);
    SuccIsMod(j, m);
    if i + 2 < m {
      ModBelow(i + 2, m);
    } else if i + 2 < 2 * m {
      ModWrap(i + 2, m);
    } else {
      // m == 1: every index is 0
      assert m == 1 && (i + 2) % 1 == 0;
    }
  }

  /** The predecessor is `(i + m - 1) % m`. */
  lemma PrevIsMod(i: int, m: int)
    requires 0 <= i < m
    ensures Prev(i, m) == (i + m - 1) % m
  {
    if i == 0 { ModBelow(m - 1, m); } else { ModWrap(i + m - 1, m); }
  }

  /** The index `k` places after `i`. */
  function Ahead(i: int, k: nat, m: int): (r: int)
    requires 0 <= i < m
    ensures 0 <= r < m
  {
    if k == 0 then i else Succ(Ahead(i, k - 1, m), m)
  }

  /** Within one lap, `k` places after `i` is `i + k` wrapped once. */
  lemma {:induction false} AheadClosedForm(i: int, k: nat, m: int)
    requires 0 <= i < m && k <= m
    ensures Ahead(i, k, m) == if i + k < m then i + k else i + k - m
  {
    if k > 0 {
      AheadClosedForm(i, k - 1, m);
    }
  }

  /** `k` places after `i` is the source's `(i + k) % m`, for a step of up to one lap. */
  lemma AheadIsMod(i: int, k: nat, m: int)
    requires 0 <= i < m && k <= m
    ensures Ahead(i, k, m) == (i + k) % m
  {
    AheadClosedForm(i, k, m);
    if i + k < m { ModBelow(i + k, m); } else { ModWrap(i + k, m); }
  }

  // ---------------------------------------------------------------------
  // The cursor and one call of flyPath.
  // ---------------------------------------------------------------------

  /**
   * The fields `flyPath` updates: the waypoint that starts the current
   * segment, the step within the segment and the segment's step count.
   */
  datatype Cursor = Cursor(indexPath: int, pathT: int, speed: int)

  /** The cursor ranges every call keeps, for a loop of `maxPath` waypoints. */
  predicate ValidCursor(maxPath: int, c: Cursor)
  {
    && 0 <= c.indexPath < maxPath
    && 0 <= c.pathT
    && (c.pathT == 0 || c.pathT < c.speed)
  }

  /** The step count of the segment from waypoint `i` to the next one (salsa/Bird.cpp:256-257). */
  function SegmentSpeed(path: seq<Point>, norm: Point -> real, i: int): (n: int)
    requires IsNorm(norm) && 0 <= i < |path|
    ensures n >= 0
    ensures n == 0 <==> path[i] == path[Succ(i, |path|)]
  {
    DistanceZero(norm, path[i], path[Succ(i, |path|)]);
    StepCount(norm(Sub(path[Succ(i, |path|)], path[i])))
  }

  /** The segment a call works on: the next one when the call starts a segment (salsa/Bird.cpp:247). */
  function EnteredIndex(maxPath: int, c: Cursor): (i: int)
    requires ValidCursor(maxPath, c)
    ensures 0 <= i < maxPath
  {
    if c.pathT == 0 then Succ(c.indexPath, maxPath) else c.indexPath
  }

  /** The step count a call divides by: recomputed only when the call starts a segment (salsa/Bird.cpp:255-259). */
  function CallSpeed(path: seq<Point>, norm: Point -> real, c: Cursor): int
    requires IsNorm(norm) && ValidCursor(|path|, c)
  {
    if c.pathT == 0 then SegmentSpeed(path, norm, EnteredIndex(|path|, c)) else c.speed
  }

  /**
   * The division at line 261 and the modulo at line 271 are defined: the
   * step count the call uses is positive. The source does not guard a
   * zero-length segment.
   */
  predicate CanFly(path: seq<Point>, norm: Point -> real, c: Cursor)
    requires IsNorm(norm)
  {
    ValidCursor(|path|, c) && CallSpeed(path, norm, c) >= 1
  }

  /** A call that starts a segment can go ahead exactly when the entered segment has two distinct ends. */
  lemma CanFlyAtSegmentStart(path: seq<Point>, norm: Point -> real, c: Cursor)
    requires IsNorm(norm) && ValidCursor(|path|, c) && c.pathT == 0
    ensures CanFly(path, norm, c) <==> path[EnteredIndex(|path|, c)] != path[Succ(EnteredIndex(|path|, c), |path|)]
  {
  }

  /** The interpolation parameter `t = pathT / speed` (salsa/Bird.cpp:261). */
  function Param(pathT: int, speed: int): (t: real)
    requires 0 <= pathT < speed
    ensures 0.0 <= t < 1.0
    ensures pathT == 0 ==> t == 0.0
  {
    pathT as real / speed as real
  }

  /** One call of `flyPath`: the new cursor and the point returned (salsa/Bird.cpp:244-273). */
  function FlyPathStep(path: seq<Point>, norm: Point -> real, c: Cursor): (r: (Cursor, Point))
    requires IsNorm(norm) && CanFly(path, norm, c)
    ensures ValidCursor(|path|, r.0) && 0 <= r.0.pathT < r.0.speed
    ensures c.pathT == 0 ==>
      && r.0.indexPath == Succ(c.indexPath, |path|)
      && r.0.speed == SegmentSpeed(path, norm, r.0.indexPath)
    ensures c.pathT != 0 ==> r.0.indexPath == c.indexPath && r.0.speed == c.speed
    ensures r.0.pathT == Succ(c.pathT, r.0.speed)
    ensures r.1.y == 0.0
    ensures c.pathT == 0 ==> r.1 == Point(path[r.0.indexPath].x, 0.0, path[r.0.indexPath].z)
  {
    var m := |path|;
    var i := EnteredIndex(m, c);
    var speed := CallSpeed(path, norm, c);
    var p := SplinePoint(path[Prev(i, m)], path[i], path[Succ(i, m)], path[Succ(Succ(i, m), m)],
                         Param(c.pathT, speed));
    (Cursor(i, Succ(c.pathT, speed), speed), p)
  }

  // ---------------------------------------------------------------------
  // Consecutive calls.
  // ---------------------------------------------------------------------

  /**
   * The cursor after `n` consecutive calls, or None when one of them would
   * divide by a zero step count.
   */
  function Run(path: seq<Point>, norm: Point -> real, c: Cursor, n: nat): (r: Option<Cursor>)
    requires IsNorm(norm) && ValidCursor(|path|, c)
    ensures r.Some? ==> ValidCursor(|path|, r.value)
    decreases n
  {
    if n == 0 then Some(c)
    else if !CanFly(path, norm, c) then None
    else Run(path, norm, FlyPathStep(path, norm, c).0, n - 1)
  }

  /** Continue a run that has not failed. */
  function AndThen(path: seq<Point>, norm: Point -> real, o: Option<Cursor>, n: nat): Option<Cursor>
    requires IsNorm(norm) && (o.Some? ==> ValidCursor(|path|, o.value))
  {
    match o
    case None => None
    case Some(c) => Run(path, norm, c, n)
  }

  /** Running `a + b` calls is running `a` calls and then `b` more. */
  lemma {:induction false} RunSplit(path: seq<Point>, norm: Point -> real, c: Cursor, a: nat, b: nat)
    requires IsNorm(norm) && ValidCursor(|path|, c)
    ensures Run(path, norm, c, a + b) == AndThen(path, norm, Run(path, norm, c, a), b)
    decreases a
  {
    if a > 0 && CanFly(path, norm, c) {
      RunSplit(path, norm, FlyPathStep(path, norm, c).0, a - 1, b);
    }
  }

  /** The first call of a segment enters it, at step 1 modulo its step count. */
  lemma EnterSegment(path: seq<Point>, norm: Point -> real, c: Cursor)
    requires IsNorm(norm) && CanFly(path, norm, c) && c.pathT == 0
    ensures Run(path, norm, c, 1)
         == Some(Cursor(Succ(c.indexPath, |path|), Succ(0, CallSpeed(path, norm, c)), CallSpeed(path, norm, c)))
  {
    assert Run(path, norm, c, 1) == Run(path, norm, FlyPathStep(path, norm, c).0, 0);
  }

  /** A call in the middle of a segment moves one step on and changes nothing else. */
  lemma StepWithinSegment(path: seq<Point>, norm: Point -> real, c: Cursor)
    requires IsNorm(norm) && ValidCursor(|path|, c) && 1 <= c.pathT < c.speed
    ensures Run(path, norm, c, 1) == Some(Cursor(c.indexPath, Succ(c.pathT, c.speed), c.speed))
  {
    assert CanFly(path, norm, c);
    assert Run(path, norm, c, 1) == Run(path, norm, FlyPathStep(path, norm, c).0, 0);
  }

  /**
   * From the start of a segment, the k-th call (1 <= k < speed) leaves the
   * cursor on the entered segment at step k, with the step count unchanged.
   */
  lemma {:induction false} SegmentProgress(path: seq<Point>, norm: Point -> real, c: Cursor, k: nat)
    requires IsNorm(norm) && CanFly(path, norm, c) && c.pathT == 0
    requires 1 <= k < CallSpeed(path, norm, c)
    ensures Run(path, norm, c, k)
         == Some(Cursor(Succ(c.indexPath, |path|), k, CallSpeed(path, norm, c)))
  {
    var s := CallSpeed(path, norm, c);
    var e := Succ(c.indexPath, |path|);
    if k == 1 {
      EnterSegment(path, norm, c);
    } else {
      SegmentProgress(path, norm, c, k - 1);
      RunSplit(path, norm, c, k - 1, 1);
      StepWithinSegment(path, norm, Cursor(e, k - 1, s));
    }
  }

  /**
   * A full segment: starting at step 0, exactly `speed` calls bring the step
   * back to 0, none of the calls in between does, and the segment index
   * advances exactly once.
   */
  lemma FullSegment(path: seq<Point>, norm: Point -> real, c: Cursor)
    requires IsNorm(norm) && CanFly(path, norm, c) && c.pathT == 0
    ensures Run(path, norm, c, CallSpeed(path, norm, c))
         == Some(Cursor(Succ(c.indexPath, |path|), 0, CallSpeed(path, norm, c)))
    ensures forall k :: 1 <= k < CallSpeed(path, norm, c) ==>
      var r := Run(path, norm, c, k);
      r.Some? && r.value.pathT == k && r.value.indexPath == Succ(c.indexPath, |path|)
  {
    var s := CallSpeed(path, norm, c);
    var e := Succ(c.indexPath, |path|);
    if s == 1 {
      EnterSegment(path, norm, c);
    } else {
      SegmentProgress(path, norm, c, s - 1);
      RunSplit(path, norm, c, s - 1, 1);
      StepWithinSegment(path, norm, Cursor(e, s - 1, s));
    }
    forall k | 1 <= k < s
      ensures var r := Run(path, norm, c, k);
        r.Some? && r.value.pathT == k && r.value.indexPath == e
    {
      SegmentProgress(path, norm, c, k);
    }
  }

  // ---------------------------------------------------------------------
  // A whole lap of the loop.
  // ---------------------------------------------------------------------

  /** The segment from waypoint `j` to the next one has two distinct ends. */
  predicate SegmentNonEmpty(path: seq<Point>, j: int)
    requires 0 <= j < |path|
  {
    path[j] != path[Succ(j, |path|)]
  }

  /** No two consecutive waypoints of the loop coincide, so no segment has zero length. */
  predicate NoDegenerateSegment(path: seq<Point>)
  {
    forall j :: 0 <= j < |path| ==> SegmentNonEmpty(path, j)
  }

  /** The total step count of the `k` segments that follow waypoint `i`. */
  function LapSteps(path: seq<Point>, norm: Point -> real, i: int, k: nat): nat
    requires IsNorm(norm) && 0 <= i < |path|
  {
    if k == 0 then 0 else LapSteps(path, norm, i, k - 1) + SegmentSpeed(path, norm, Ahead(i, k, |path|))
  }

  /**
   * Cyclic closure: from the start of a segment, the sum of the step
   * counts of the next `k` segments brings the cursor to the start of the
   * segment `k` waypoints further on, provided none of the `k` segments
   * it crosses has zero length.
   */
  lemma {:induction false} LoopClosure(path: seq<Point>, norm: Point -> real, c: Cursor, k: nat)
    requires IsNorm(norm) && ValidCursor(|path|, c) && c.pathT == 0
    requires k >= 1
    requires forall j :: 1 <= j <= k ==> SegmentNonEmpty(path, Ahead(c.indexPath, j, |path|))
    ensures var j := Ahead(c.indexPath, k, |path|);
      Run(path, norm, c, LapSteps(path, norm, c.indexPath, k)) == Some(Cursor(j, 0, SegmentSpeed(path, norm, j)))
  {
    var m := |path|;
    var i := c.indexPath;
    if k == 1 {
      assert Ahead(i, 1, m) == Succ(i, m);
      assert SegmentNonEmpty(path, Succ(i, m));
      FullSegment(path, norm, c);
    } else {
      var j := Ahead(i, k - 1, m);
      var mid := Cursor(j, 0, SegmentSpeed(path, norm, j));
      LoopClosure(path, norm, c, k - 1);
      assert Ahead(i, k, m) == Succ(j, m);
      assert SegmentNonEmpty(path, Succ(j, m));
      RunSplit(path, norm, c, LapSteps(path, norm, i, k - 1), SegmentSpeed(path, norm, Ahead(i, k, m)));
      FullSegment(path, norm, mid);
    }
  }

  /**
   * After one lap, the sum of all segments' step counts, the cursor is back
   * at its index and at step 0, with `speed` holding that segment's step
   * count; a cursor that already held that count is exactly where it started.
   */
  lemma FullLap(path: seq<Point>, norm: Point -> real, c: Cursor)
    requires IsNorm(norm) && ValidCursor(|path|, c) && c.pathT == 0
    requires NoDegenerateSegment(path)
    ensures Run(path, norm, c, LapSteps(path, norm, c.indexPath, |path|))
         == Some(Cursor(c.indexPath, 0, SegmentSpeed(path, norm, c.indexPath)))
    ensures c.speed == SegmentSpeed(path, norm, c.indexPath)
         ==> Run(path, norm, c, LapSteps(path, norm, c.indexPath, |path|)) == Some(c)
  {
    LoopClosure(path, norm, c, |path|);
    AheadClosedForm(c.indexPath, |path|, |path|);
  }

  /** A segment of length 4 is cut into 60 steps. */
  lemma LengthFourSegment(path: seq<Point>, norm: Point -> real, i: int)
    requires IsNorm(norm) && 0 <= i < |path|
    requires norm(Sub(path[Succ(i, |path|)], path[i])) == 4.0
    ensures SegmentSpeed(path, norm, i) == 60
  {
    assert StepCount(4.0) == 60;
  }

  /**
   * A cursor about to enter a segment of length 4 is at that segment's
   * start again, back at step 0, after exactly 60 calls.
   */
  lemma LengthFourScenario(path: seq<Point>, norm: Point -> real, c: Cursor)
    requires IsNorm(norm) && ValidCursor(|path|, c) && c.pathT == 0
    requires norm(Sub(path[Succ(Succ(c.indexPath, |path|), |path|)], path[Succ(c.indexPath, |path|)])) == 4.0
    ensures Run(path, norm, c, 60) == Some(Cursor(Succ(c.indexPath, |path|), 0, 60))
  {
    LengthFourSegment(path, norm, Succ(c.indexPath, |path|));
    FullSegment(path, norm, c);
  }

  // ---------------------------------------------------------------------
  // The bird's cursor fields and flyPath itself.
  // ---------------------------------------------------------------------

  /** The cursor part of the bird: its waypoint loop and the fields `flyPath` updates. */
  class Bird {
    const path: seq<Point>
    const norm: Point -> real
    const maxPath: int
    var indexPath: int
    var pathT: int
    var speed: int

    ghost predicate Valid()
      reads this
    {
      maxPath == |path| && IsNorm(norm) && ValidCursor(maxPath, State())
    }

    function State(): Cursor
      reads this
    {
      Cursor(indexPath, pathT, speed)
    }

    /** A bird on the given loop, about to enter the segment after `start`. */
    constructor (waypoints: seq<Point>, length: Point -> real, start: int)
      requires IsNorm(length) && 0 <= start < |waypoints|
      ensures Valid()
      ensures path == waypoints && norm == length && State() == Cursor(start, 0, 0)
    {
      path := waypoints;
      norm := length;
      maxPath := |waypoints|;
      indexPath := start;
      pathT := 0;
      speed := 0;
    }

    /**
     * Advance the cursor by one step and return the point on the spline
     * (salsa/Bird.cpp:244-273). `tau` is not read.
     */
    method FlyPath(tau: real) returns (p: Point)
      requires Valid() && CanFly(path, norm, State())
      modifies this
      ensures Valid()
      ensures (State(), p) == FlyPathStep(path, norm, old(State()))
      ensures 0 <= pathT < speed && 0 <= indexPath < maxPath
    {
      ghost var before := State();
      if pathT == 0 {
        SuccIsMod(indexPath, maxPath);
        indexPath := (indexPath + 1) % maxPath;
      }
      PrevIsMod(indexPath, maxPath);
      SuccIsMod(indexPath, maxPath);
      Succ2IsMod(indexPath, maxPath);
      var prev := if indexPath == 0 then maxPath - 1 else indexPath - 1;
      var p1 := path[prev];
      var p2 := path[indexPath];
      var p3 := path[(indexPath + 1) % maxPath];
      var p4 := path[(indexPath + 2) % maxPath];
      if pathT == 0 {
        var distance := norm(Sub(p3, p2));
        speed := StepCount(distance);
      }
      var t := pathT as real / speed as real;
      var xcr := CatmullRom(p1.x, p2.x, p3.x, p4.x, t);
      var zcr := CatmullRom(p1.z, p2.z, p3.z, p4.z, t);
      SuccIsMod(pathT, speed);
      pathT := (pathT + 1) % speed;
      p := Point(xcr, 0.0, zcr);
      assert (State(), p) == FlyPathStep(path, norm, before);
    }
  }
}
