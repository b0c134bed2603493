/**
 * The bird's drawing: the fixed placement of its seven parts, the flap
 * animation driven by `s` (the value of `sin(psi)`), and the matrix stack
 * on which `draw` works.
 */
module Figure {
  import opened DrawTrace

  // ---------------------------------------------------------------------
  // The scene: where each part is placed and how it flaps.
  // ---------------------------------------------------------------------

  /** The correction applied to the whole bird before anything is pushed. */
  const Tilt: Transform := Rotate(-6.0, 1.0, 0.0, 0.0)

  function HeadScope(): Scope
  {
    Scope([Translate(0.0, -0.5, 1.2)], [], Head, [])
  }

  function TailScope(): Scope
  {
    Scope([Translate(0.0, 0.0, -1.75)], [], Tail, [])
  }

  function LeftWingFarScope(s: real): Scope
  {
    Scope([Translate(1.6, 0.0, 1.0), Rotate(-12.0, 0.0, 0.0, 1.0)],
          [Rotate(16.0 * s, 0.0, 0.0, 1.0)], LeftWingFar, [])
  }

  function LeftWingScope(s: real): Scope
  {
    Scope([Translate(0.7, 0.2, 0.0), Rotate(16.0, 0.0, 0.0, 1.0), Rotate(-6.75, 0.0, 1.0, 0.0)],
          [Rotate(32.0 * s, 0.0, 0.0, 1.0)], LeftWingClose, [LeftWingFarScope(s)])
  }

  function RightWingFarScope(s: real): Scope
  {
    Scope([Translate(-1.25, 0.0, 0.5), Rotate(12.0, 0.0, 0.0, 1.0)],
          [Rotate(16.0 * s, 0.0, 0.0, -1.0)], RightWingFar, [])
  }

  function RightWingScope(s: real): Scope
  {
    Scope([Translate(-0.7, 0.2, 0.0), Rotate(-16.0, 0.0, 0.0, 1.0), Rotate(6.75, 0.0, 1.0, 0.0)],
          [Rotate(32.0 * s, 0.0, 0.0, -1.0)], RightWingClose, [RightWingFarScope(s)])
  }

  /** The body block, which holds the head, the tail and both wings, in that order. */
  function BodyScope(s: real): Scope
  {
    Scope([], [Translate(0.0, -0.1 * s, 0.0), Rotate(s, 1.0, 0.0, 0.0)], Body,
          [HeadScope(), TailScope(), LeftWingScope(s), RightWingScope(s)])
  }

  /** Everything `draw` emits: the tilt, then the body block. */
  function DrawEvents(animate: bool, s: real): seq<Event>
  {
    [Apply(Tilt)] + Emit(BodyScope(s), animate)
  }

  // ---------------------------------------------------------------------
  // What the drawing does with the stack.
  // ---------------------------------------------------------------------

  /** The body's nested blocks, one at a time. */
  lemma BodyInner(s: real, animate: bool, depth: int)
    ensures var inner := BodyScope(s).inner;
      && EmitAll(inner, animate)
         == Emit(HeadScope(), animate) + (Emit(TailScope(), animate) + (Emit(LeftWingScope(s), animate) + Emit(RightWingScope(s), animate)))
      && PartDepthsAll(inner, depth)
         == PartDepths(HeadScope(), depth) + (PartDepths(TailScope(), depth) + (PartDepths(LeftWingScope(s), depth) + PartDepths(RightWingScope(s), depth)))
      && ScopeCountAll(inner)
         == ScopeCount(HeadScope()) + ScopeCount(TailScope()) + ScopeCount(LeftWingScope(s)) + ScopeCount(RightWingScope(s))
      && FlapCountAll(inner)
         == FlapCount(HeadScope()) + FlapCount(TailScope()) + FlapCount(LeftWingScope(s)) + FlapCount(RightWingScope(s))
      && FlappedPartsAll(inner)
         == FlappedParts(HeadScope()) + (FlappedParts(TailScope()) + (FlappedParts(LeftWingScope(s)) + FlappedParts(RightWingScope(s))))
  {
    var h, t, l, r := HeadScope(), TailScope(), LeftWingScope(s), RightWingScope(s);
    assert BodyScope(s).inner == [h] + ([t] + ([l] + [r]));
    AllCons(h, [t] + ([l] + [r]), animate, depth);
    AllCons(t, [l] + [r], animate, depth);
    AllCons(l, [r], animate, depth);
    AllOne(r, animate, depth);
  }

  /** Each wing block holds its far part only. */
  lemma WingInner(s: real, animate: bool, depth: int)
    ensures EmitAll(LeftWingScope(s).inner, animate) == Emit(LeftWingFarScope(s), animate)
    ensures EmitAll(RightWingScope(s).inner, animate) == Emit(RightWingFarScope(s), animate)
    ensures PartDepthsAll(LeftWingScope(s).inner, depth) == PartDepths(LeftWingFarScope(s), depth)
    ensures PartDepthsAll(RightWingScope(s).inner, depth) == PartDepths(RightWingFarScope(s), depth)
    ensures ScopeCount(LeftWingScope(s)) == 2 && ScopeCount(RightWingScope(s)) == 2
    ensures FlapCount(LeftWingScope(s)) == 2 && FlapCount(RightWingScope(s)) == 2
    ensures FlappedParts(LeftWingScope(s)) == [LeftWingClose, LeftWingFar]
    ensures FlappedParts(RightWingScope(s)) == [RightWingClose, RightWingFar]
  {
    AllOne(LeftWingFarScope(s), animate, depth);
    AllOne(RightWingFarScope(s), animate, depth);
  }

  lemma BirdScopeCount(s: real)
    ensures ScopeCount(BodyScope(s)) == 7
  {
    BodyInner(s, false, 0);
    WingInner(s, false, 0);
  }

  /**
   * Drawing the bird pushes 7 times and pops 7 times, never goes below the
   * depth it starts at, and ends at that depth.
   */
  lemma BirdStack(animate: bool, s: real, d: int)
    ensures multiset(DrawEvents(animate, s))[Push] == 7
    ensures multiset(DrawEvents(animate, s))[Pop] == 7
    ensures Net(DrawEvents(animate, s)) == 0
    ensures StaysAtOrAbove(DrawEvents(animate, s), d, d)
  {
    var body := Emit(BodyScope(s), animate);
    BirdScopeCount(s);
    EmitCounts(BodyScope(s), animate);
    EmitDepth(BodyScope(s), animate, d);
    NetAppend([Apply(Tilt)], body);
    StaysAppend([Apply(Tilt)], body, d, d);
  }

  /**
   * The seven parts are drawn once each, in the order body, head, tail,
   * left close, left far, right close, right far, at nesting depths
   * 1, 2, 2, 2, 3, 2, 3 below the depth `draw` starts at.
   */
  lemma BirdDraws(animate: bool, s: real, d: int)
    ensures Draws(DrawEvents(animate, s), d)
         == [(Body, d + 1), (Head, d + 2), (Tail, d + 2), (LeftWingClose, d + 2),
             (LeftWingFar, d + 3), (RightWingClose, d + 2), (RightWingFar, d + 3)]
  {
    var body := Emit(BodyScope(s), animate);
    EmitDraws(BodyScope(s), animate, d);
    DrawsAppend([Apply(Tilt)], body, d);
    BirdPartDepths(s, d + 1);
  }

  lemma BirdPartDepths(s: real, depth: int)
    ensures PartDepths(BodyScope(s), depth)
         == [(Body, depth), (Head, depth + 1), (Tail, depth + 1), (LeftWingClose, depth + 1),
             (LeftWingFar, depth + 2), (RightWingClose, depth + 1), (RightWingFar, depth + 2)]
  {
    BodyInner(s, false, depth + 1);
    WingInner(s, false, depth + 2);
  }

  /**
   * The only transform applied outside every push is the -6 degree tilt
   * about X, so it stays in effect after `draw` returns.
   */
  lemma BirdTopLevel(animate: bool, s: real, d: int)
    ensures TransformsAt(DrawEvents(animate, s), d, d) == [Tilt]
    ensures forall level :: level < d ==> TransformsAt(DrawEvents(animate, s), d, level) == []
  {
    var body := Emit(BodyScope(s), animate);
    EmitNothingOutside(BodyScope(s), animate, d, d);
    TransformsAppend([Apply(Tilt)], body, d, d);
    forall level | level < d
      ensures TransformsAt(DrawEvents(animate, s), d, level) == []
    {
      EmitNothingOutside(BodyScope(s), animate, d, level);
      TransformsAppend([Apply(Tilt)], body, d, level);
    }
  }

  // ---------------------------------------------------------------------
  // What animation adds.
  // ---------------------------------------------------------------------

  lemma BirdFlapCount(s: real)
    ensures FlapCount(BodyScope(s)) == 6
  {
    BodyInner(s, false, 0);
    WingInner(s, false, 0);
  }

  /**
   * Animation only inserts transforms: the still trace is the animated one
   * with exactly six transform events taken out.
   */
  lemma AnimateOnlyInserts(s: real)
    ensures TransformsInserted(DrawEvents(false, s), DrawEvents(true, s))
    ensures |DrawEvents(true, s)| == |DrawEvents(false, s)| + 6
  {
    EmitInserted(BodyScope(s));
    BirdFlapCount(s);
    InsertedNothing([Apply(Tilt)]);
    InsertedAppend([Apply(Tilt)], [Apply(Tilt)], Emit(BodyScope(s), false), Emit(BodyScope(s), true));
  }

  /** The blocks that carry flap transforms are the body's and the four wing parts', never the head's or the tail's. */
  lemma HeadAndTailStill(s: real)
    ensures FlappedParts(BodyScope(s)) == [Body, LeftWingClose, LeftWingFar, RightWingClose, RightWingFar]
    ensures Head !in FlappedParts(BodyScope(s)) && Tail !in FlappedParts(BodyScope(s))
  {
    BodyInner(s, false, 0);
    WingInner(s, false, 0);
  }

  /** On each side the outer wing part flaps through half the angle of the inner one. */
  lemma OuterFlapIsHalf(s: real)
    ensures LeftWingFarScope(s).flap[0].angle == LeftWingScope(s).flap[0].angle / 2.0
    ensures RightWingFarScope(s).flap[0].angle == RightWingScope(s).flap[0].angle / 2.0
  {
  }

  /** The left wing flaps about +Z, the right wing about -Z, by the same angles. */
  lemma WingFlapAxes(s: real)
    ensures LeftWingScope(s).flap == [Rotate(32.0 * s, 0.0, 0.0, 1.0)]
    ensures RightWingScope(s).flap == [Rotate(32.0 * s, 0.0, 0.0, -1.0)]
    ensures LeftWingFarScope(s).flap == [Rotate(16.0 * s, 0.0, 0.0, 1.0)]
    ensures RightWingFarScope(s).flap == [Rotate(16.0 * s, 0.0, 0.0, -1.0)]
  {
  }

  // ---------------------------------------------------------------------
  // Left against right.
  // ---------------------------------------------------------------------

  /**
   * The transform seen in the mirror x -> -x: a translation's x is
   * negated; a rotation keeps its axis's mirror image, (-ax, ay, az),
   * and turns the other way.
   */
  function Mirror(xf: Transform): Transform
  {
    match xf
    case Translate(dx, dy, dz) => Translate(-dx, dy, dz)
    case Rotate(a, ax, ay, az) => Rotate(-a, -ax, ay, az)
  }

  /** The same GL transform: equal, or a rotation with both angle and axis negated. */
  predicate SameTransform(f: Transform, g: Transform)
  {
    f == g || (f.Rotate? && g == Rotate(-f.angle, -f.ax, -f.ay, -f.az))
  }

  /** `right` is the mirror image of `left`. */
  predicate MirrorOf(left: Transform, right: Transform)
  {
    SameTransform(Mirror(left), right)
  }

  /** Mirroring twice gives the transform back. */
  lemma MirrorInvolution(xf: Transform)
    ensures Mirror(Mirror(xf)) == xf
  {
  }

  /**
   * The inner wing parts mirror each other transform by transform, and so
   * do the outer parts' rotations and flaps.
   */
  lemma WingsMirror(s: real)
    ensures |LeftWingScope(s).fixed| == |RightWingScope(s).fixed| == 3
    ensures forall i :: 0 <= i < 3 ==> MirrorOf(LeftWingScope(s).fixed[i], RightWingScope(s).fixed[i])
    ensures MirrorOf(LeftWingScope(s).flap[0], RightWingScope(s).flap[0])
    ensures MirrorOf(LeftWingFarScope(s).fixed[1], RightWingFarScope(s).fixed[1])
    ensures MirrorOf(LeftWingFarScope(s).flap[0], RightWingFarScope(s).flap[0])
  {
    assert MirrorOf(LeftWingScope(s).fixed[0], RightWingScope(s).fixed[0]);
    assert MirrorOf(LeftWingScope(s).fixed[1], RightWingScope(s).fixed[1]);
    assert MirrorOf(LeftWingScope(s).fixed[2], RightWingScope(s).fixed[2]);
  }

  /** The outer wing offsets are not mirror images: (1.6, 0, 1) on the left, (-1.25, 0, 0.5) on the right. */
  lemma OuterOffsetsNotMirrored(s: real)
    ensures LeftWingFarScope(s).fixed[0] == Translate(1.6, 0.0, 1.0)
    ensures RightWingFarScope(s).fixed[0] == Translate(-1.25, 0.0, 0.5)
    ensures !MirrorOf(LeftWingFarScope(s).fixed[0], RightWingFarScope(s).fixed[0])
  {
  }

  // ---------------------------------------------------------------------
  // The matrix stack and draw itself.
  // ---------------------------------------------------------------------

  /** The GL matrix stack as `draw` sees it: the calls made so far and the current depth. */
  class MatrixStack {
    var log: Log
    var depth: int

    /** The depth is what the calls made so far add up to, and never negative. */
    ghost predicate Valid()
      reads this
    {
      depth == Depth(log) && depth >= 0
    }

    /** The calls made so far, in order. */
    ghost function Trace(): seq<Event>
      reads this
    {
      Events(log)
    }

    constructor ()
      ensures Valid() && log == Start && depth == 0
    {
      log := Start;
      depth := 0;
    }

    method PushMatrix()
      requires Valid()
      modifies this
      ensures Valid()
      ensures log == Then(old(log), Push) && depth == old(depth) + 1
    {
      log := Then(log, Push);
      depth := depth + 1;
    }

    /** Popping an empty stack is a GL error; `draw` never does it. */
    method PopMatrix()
      requires Valid() && depth >= 1
      modifies this
      ensures Valid()
      ensures log == Then(old(log), Pop) && depth == old(depth) - 1
    {
      log := Then(log, Pop);
      depth := depth - 1;
    }

    method Translate(dx: real, dy: real, dz: real)
      requires Valid()
      modifies this
      ensures Valid()
      ensures log == Then(old(log), Apply(DrawTrace.Translate(dx, dy, dz))) && depth == old(depth)
    {
      log := Then(log, Apply(DrawTrace.Translate(dx, dy, dz)));
    }

    method Rotate(angle: real, ax: real, ay: real, az: real)
      requires Valid()
      modifies this
      ensures Valid()
      ensures log == Then(old(log), Apply(DrawTrace.Rotate(angle, ax, ay, az))) && depth == old(depth)
    {
      log := Then(log, Apply(DrawTrace.Rotate(angle, ax, ay, az)));
    }

    method DrawPart(p: Part)
      requires Valid()
      modifies this
      ensures Valid()
      ensures log == Then(old(log), Draw(p)) && depth == old(depth)
    {
      log := Then(log, Draw(p));
    }
  }

  // ---------------------------------------------------------------------
  // The calls `draw` makes, one at a time, block by block.
  //
  // These functions are not a second scene: they render the blocks above
  // call by call, in the shape the methods below build their log, so that
  // each method's proof is a plain match. The `*IsBlock` lemmas and
  // `DrawLogIsTree` prove that they agree with the `*Scope` functions.
  // ---------------------------------------------------------------------

  /** A flap transform, made only when animating. */
  function Flapped(l: Log, animate: bool, xf: Transform): Log
  {
    if animate then Then(l, Apply(xf)) else l
  }

  function HeadLog(l: Log): Log
  {
    Then(Then(Then(Then(l, Push), Apply(Translate(0.0, -0.5, 1.2))), Draw(Head)), Pop)
  }

  function TailLog(l: Log): Log
  {
    Then(Then(Then(Then(l, Push), Apply(Translate(0.0, 0.0, -1.75))), Draw(Tail)), Pop)
  }

  function LeftWingFarLog(l: Log, animate: bool, s: real): Log
  {
    var placed := Then(Then(Then(l, Push), Apply(Translate(1.6, 0.0, 1.0))), Apply(Rotate(-12.0, 0.0, 0.0, 1.0)));
    Then(Then(Flapped(placed, animate, Rotate(16.0 * s, 0.0, 0.0, 1.0)), Draw(LeftWingFar)), Pop)
  }

  function LeftWingLog(l: Log, animate: bool, s: real): Log
  {
    var placed := Then(Then(Then(Then(l, Push), Apply(Translate(0.7, 0.2, 0.0))),
                            Apply(Rotate(16.0, 0.0, 0.0, 1.0))), Apply(Rotate(-6.75, 0.0, 1.0, 0.0)));
    var drawn := Then(Flapped(placed, animate, Rotate(32.0 * s, 0.0, 0.0, 1.0)), Draw(LeftWingClose));
    Then(LeftWingFarLog(drawn, animate, s), Pop)
  }

  function RightWingFarLog(l: Log, animate: bool, s: real): Log
  {
    var placed := Then(Then(Then(l, Push), Apply(Translate(-1.25, 0.0, 0.5))), Apply(Rotate(12.0, 0.0, 0.0, 1.0)));
    Then(Then(Flapped(placed, animate, Rotate(16.0 * s, 0.0, 0.0, -1.0)), Draw(RightWingFar)), Pop)
  }

  function RightWingLog(l: Log, animate: bool, s: real): Log
  {
    var placed := Then(Then(Then(Then(l, Push), Apply(Translate(-0.7, 0.2, 0.0))),
                            Apply(Rotate(-16.0, 0.0, 0.0, 1.0))), Apply(Rotate(6.75, 0.0, 1.0, 0.0)));
    var drawn := Then(Flapped(placed, animate, Rotate(32.0 * s, 0.0, 0.0, -1.0)), Draw(RightWingClose));
    Then(RightWingFarLog(drawn, animate, s), Pop)
  }

  /** The body's push, flap and draw. */
  function BodyOpenLog(l: Log, animate: bool, s: real): Log
  {
    var pushed := Then(l, Push);
    Then(if animate then Then(Then(pushed, Apply(Translate(0.0, -0.1 * s, 0.0))), Apply(Rotate(s, 1.0, 0.0, 0.0))) else pushed,
         Draw(Body))
  }

  /** Every call `draw` makes, in the order it makes them. */
  function DrawLog(l: Log, animate: bool, s: real): Log
  {
    var body := BodyOpenLog(Then(l, Apply(Tilt)), animate, s);
    Then(RightWingLog(LeftWingLog(TailLog(HeadLog(body)), animate, s), animate, s), Pop)
  }

  lemma HeadLogIsBlock(l: Log, animate: bool)
    ensures HeadLog(l) == EmitLog(l, HeadScope(), animate)
  {
    ApplyAllLogOne(Then(l, Push), Translate(0.0, -0.5, 1.2));
  }

  lemma TailLogIsBlock(l: Log, animate: bool)
    ensures TailLog(l) == EmitLog(l, TailScope(), animate)
  {
    ApplyAllLogOne(Then(l, Push), Translate(0.0, 0.0, -1.75));
  }

  lemma LeftWingLogIsBlock(l: Log, animate: bool, s: real)
    ensures LeftWingLog(l, animate, s) == EmitLog(l, LeftWingScope(s), animate)
  {
    var far := LeftWingFarScope(s);
    var sc := LeftWingScope(s);
    ApplyAllLogThree(Then(l, Push), sc.fixed[0], sc.fixed[1], sc.fixed[2]);
    ApplyAllLogOne(ApplyAllLog(Then(l, Push), sc.fixed), sc.flap[0]);
    var inside := OpeningLog(Then(l, Push), sc, animate);
    EmitAllLogOne(inside, far, animate);
    LeftWingFarIsBlock(inside, animate, s);
  }

  lemma LeftWingFarIsBlock(l: Log, animate: bool, s: real)
    ensures LeftWingFarLog(l, animate, s) == EmitLog(l, LeftWingFarScope(s), animate)
  {
    var far := LeftWingFarScope(s);
    ApplyAllLogTwo(Then(l, Push), far.fixed[0], far.fixed[1]);
    ApplyAllLogOne(ApplyAllLog(Then(l, Push), far.fixed), far.flap[0]);
  }

  lemma RightWingFarIsBlock(l: Log, animate: bool, s: real)
    ensures RightWingFarLog(l, animate, s) == EmitLog(l, RightWingFarScope(s), animate)
  {
    var far := RightWingFarScope(s);
    ApplyAllLogTwo(Then(l, Push), far.fixed[0], far.fixed[1]);
    ApplyAllLogOne(ApplyAllLog(Then(l, Push), far.fixed), far.flap[0]);
  }

  lemma RightWingLogIsBlock(l: Log, animate: bool, s: real)
    ensures RightWingLog(l, animate, s) == EmitLog(l, RightWingScope(s), animate)
  {
    var sc := RightWingScope(s);
    ApplyAllLogThree(Then(l, Push), sc.fixed[0], sc.fixed[1], sc.fixed[2]);
    ApplyAllLogOne(ApplyAllLog(Then(l, Push), sc.fixed), sc.flap[0]);
    var inside := OpeningLog(Then(l, Push), sc, animate);
    EmitAllLogOne(inside, RightWingFarScope(s), animate);
    RightWingFarIsBlock(inside, animate, s);
  }

  /** The body's nested blocks, made one call at a time. */
  lemma BodyLog(l: Log, s: real, animate: bool)
    ensures EmitAllLog(l, BodyScope(s).inner, animate)
         == EmitLog(EmitLog(EmitLog(EmitLog(l, HeadScope(), animate), TailScope(), animate),
                            LeftWingScope(s), animate), RightWingScope(s), animate)
  {
    var h, t, lw, rw := HeadScope(), TailScope(), LeftWingScope(s), RightWingScope(s);
    assert BodyScope(s).inner == [h] + ([t] + ([lw] + [rw]));
    EmitAllLogCons(l, h, [t] + ([lw] + [rw]), animate);
    var l1 := EmitLog(l, h, animate);
    EmitAllLogCons(l1, t, [lw] + [rw], animate);
    var l2 := EmitLog(l1, t, animate);
    EmitAllLogCons(l2, lw, [rw], animate);
    EmitAllLogOne(EmitLog(l2, lw, animate), rw, animate);
  }

  /** The calls `draw` makes are the tilt followed by the body block's tree. */
  lemma DrawLogIsTree(l: Log, animate: bool, s: real)
    ensures DrawLog(l, animate, s) == EmitLog(Then(l, Apply(Tilt)), BodyScope(s), animate)
  {
    var sc := BodyScope(s);
    var t1 := Then(l, Apply(Tilt));
    ApplyAllLogTwo(Then(t1, Push), sc.flap[0], sc.flap[1]);
    var inside := OpeningLog(Then(t1, Push), sc, animate);
    assert inside == BodyOpenLog(t1, animate, s);
    BodyLog(inside, s, animate);
    HeadLogIsBlock(inside, animate);
    var l1 := HeadLog(inside);
    TailLogIsBlock(l1, animate);
    var l2 := TailLog(l1);
    LeftWingLogIsBlock(l2, animate, s);
    RightWingLogIsBlock(LeftWingLog(l2, animate, s), animate, s);
  }

  /** Made one call at a time, `draw` appends exactly `DrawEvents` to the calls made before. */
  lemma DrawLogEvents(l: Log, animate: bool, s: real)
    ensures Events(DrawLog(l, animate, s)) == Events(l) + DrawEvents(animate, s)
  {
    DrawLogIsTree(l, animate, s);
    EmitLogEvents(Then(l, Apply(Tilt)), BodyScope(s), animate);
    var e := Emit(BodyScope(s), animate);
    assert Events(l) + [Apply(Tilt)] + e == Events(l) + ([Apply(Tilt)] + e);
  }

  /** The left wing's close part and, nested in it, its far part. */
  method DrawLeftWing(gl: MatrixStack, animate: bool, s: real)
    requires gl.Valid()
    modifies gl
    ensures gl.Valid()
    ensures gl.log == LeftWingLog(old(gl.log), animate, s)
    ensures gl.depth == old(gl.depth)
  {
    ghost var t0 := gl.log;
    gl.PushMatrix();
    gl.Translate(0.7, 0.2, 0.0);
    gl.Rotate(16.0, 0.0, 0.0, 1.0);
    gl.Rotate(-6.75, 0.0, 1.0, 0.0);
    if animate {
      gl.Rotate(32.0 * s, 0.0, 0.0, 1.0);
    }
    gl.DrawPart(LeftWingClose);
    ghost var t1 := gl.log;
    gl.PushMatrix();
    gl.Translate(1.6, 0.0, 1.0);
    gl.Rotate(-12.0, 0.0, 0.0, 1.0);
    if animate {
      gl.Rotate(16.0 * s, 0.0, 0.0, 1.0);
    }
    gl.DrawPart(LeftWingFar);
    gl.PopMatrix();
    assert gl.log == LeftWingFarLog(t1, animate, s);
    gl.PopMatrix();
  }

  /** The right wing's close part and, nested in it, its far part. */
  method DrawRightWing(gl: MatrixStack, animate: bool, s: real)
    requires gl.Valid()
    modifies gl
    ensures gl.Valid()
    ensures gl.log == RightWingLog(old(gl.log), animate, s)
    ensures gl.depth == old(gl.depth)
  {
    ghost var t0 := gl.log;
    gl.PushMatrix();
    gl.Translate(-0.7, 0.2, 0.0);
    gl.Rotate(-16.0, 0.0, 0.0, 1.0);
    gl.Rotate(6.75, 0.0, 1.0, 0.0);
    if animate {
      gl.Rotate(32.0 * s, 0.0, 0.0, -1.0);
    }
    gl.DrawPart(RightWingClose);
    ghost var t1 := gl.log;
    gl.PushMatrix();
    gl.Translate(-1.25, 0.0, 0.5);
    gl.Rotate(12.0, 0.0, 0.0, 1.0);
    if animate {
      gl.Rotate(16.0 * s, 0.0, 0.0, -1.0);
    }
    gl.DrawPart(RightWingFar);
    gl.PopMatrix();
    assert gl.log == RightWingFarLog(t1, animate, s);
    gl.PopMatrix();
  }

  /**
   * `draw`: the tilt, then the body block with the head, tail and wing
   * blocks nested in it. The stack is back at its starting depth
   * afterwards, and the calls made are exactly `DrawEvents`, so the tilt
   * stays applied.
   */
  method DrawBird(gl: MatrixStack, animate: bool, s: real)
    requires gl.Valid()
    modifies gl
    ensures gl.Valid()
    ensures gl.log == DrawLog(old(gl.log), animate, s)
    ensures gl.Trace() == old(gl.Trace()) + DrawEvents(animate, s)
    ensures gl.depth == old(gl.depth)
  {
    ghost var t0 := gl.log;
    gl.Rotate(-6.0, 1.0, 0.0, 0.0);

    // body
    ghost var t1 := gl.log;
    gl.PushMatrix();
    if animate {
      gl.Translate(0.0, -0.1 * s, 0.0);
      gl.Rotate(s, 1.0, 0.0, 0.0);
    }
    gl.DrawPart(Body);
    assert gl.log == BodyOpenLog(t1, animate, s);

    // head
    ghost var t2 := gl.log;
    gl.PushMatrix();
    gl.Translate(0.0, -0.5, 1.2);
    gl.DrawPart(Head);
    gl.PopMatrix();
    assert gl.log == HeadLog(t2);

    // tail
    ghost var t3 := gl.log;
    gl.PushMatrix();
    gl.Translate(0.0, 0.0, -1.75);
    gl.DrawPart(Tail);
    gl.PopMatrix();
    assert gl.log == TailLog(t3);

    // the two wings, each with its far part nested inside the close part
    ghost var t4 := gl.log;
    DrawLeftWing(gl, animate, s);
    DrawRightWing(gl, animate, s);
    assert gl.log == RightWingLog(LeftWingLog(t4, animate, s), animate, s);

    gl.PopMatrix();
    DrawLogEvents(t0, animate, s);
  }
}
