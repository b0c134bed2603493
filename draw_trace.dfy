/**
 * Traces of matrix-stack calls. The matrices themselves are not computed:
 * each GL call is an event, and the stack is a depth counter. A drawing
 * made of nested push/pop blocks is described by a tree of scopes.
 */
module DrawTrace {

  /** The seven meshes of the bird. */
  datatype Part = Body | Head | Tail | LeftWingClose | LeftWingFar | RightWingClose | RightWingFar

  /** A `glTranslatef` or a `glRotatef` (angle in degrees about an axis). */
  datatype Transform =
    | Translate(dx: real, dy: real, dz: real)
    | Rotate(angle: real, ax: real, ay: real, az: real)

  /** One GL call made while drawing. */
  datatype Event = Push | Pop | Apply(xf: Transform) | Draw(part: Part)

  // ---------------------------------------------------------------------
  // Reading a trace: stack depth, draws and transforms per depth.
  // ---------------------------------------------------------------------

  /** How an event changes the matrix-stack depth. */
  function Delta(e: Event): int
  {
    match e
    case Push => 1
    case Pop => -1
    case _ => 0
  }

  /** The net change of stack depth over a trace. */
  function Net(t: seq<Event>): int
  {
    if t == [] then 0 else Delta(t[0]) + Net(t[1..])
  }

  /** Starting at depth `d`, the depth never falls below `lo`. */
  predicate StaysAtOrAbove(t: seq<Event>, d: int, lo: int)
  {
    d >= lo && (t == [] || StaysAtOrAbove(t[1..], d + Delta(t[0]), lo))
  }

  /** The parts drawn, each with the stack depth at which it is drawn, starting at depth `d`. */
  function Draws(t: seq<Event>, d: int): seq<(Part, int)>
  {
    if t == [] then []
    else (if t[0].Draw? then [(t[0].part, d)] else []) + Draws(t[1..], d + Delta(t[0]))
  }

  /** The transforms applied while the depth is exactly `level`, starting at depth `d`. */
  function TransformsAt(t: seq<Event>, d: int, level: int): seq<Transform>
  {
    if t == [] then []
    else (if t[0].Apply? && d == level then [t[0].xf] else []) + TransformsAt(t[1..], d + Delta(t[0]), level)
  }

  /** The depth change of a concatenation is the sum of its parts'. */
  lemma {:induction false} NetAppend(a: seq<Event>, b: seq<Event>)
    ensures Net(a + b) == Net(a) + Net(b)
  {
    if a == [] {
      assert a + b == b;
    } else {
      assert (a + b)[1..] == a[1..] + b;
      NetAppend(a[1..], b);
    }
  }

  /** A concatenation stays above `lo` exactly when both parts do, the second from where the first ends. */
  lemma {:induction false} StaysAppend(a: seq<Event>, b: seq<Event>, d: int, lo: int)
    ensures StaysAtOrAbove(a + b, d, lo) <==> StaysAtOrAbove(a, d, lo) && StaysAtOrAbove(b, d + Net(a), lo)
  {
    if a == [] {
      assert a + b == b;
    } else {
      assert (a + b)[1..] == a[1..] + b;
      StaysAppend(a[1..], b, d + Delta(a[0]), lo);
    }
  }

  /** The draws of a concatenation are those of its parts, the second read from where the first ends. */
  lemma {:induction false} DrawsAppend(a: seq<Event>, b: seq<Event>, d: int)
    ensures Draws(a + b, d) == Draws(a, d) + Draws(b, d + Net(a))
  {
    if a == [] {
      assert a + b == b;
    } else {
      assert (a + b)[1..] == a[1..] + b;
      DrawsAppend(a[1..], b, d + Delta(a[0]));
    }
  }

  /** The transforms at a level of a concatenation are those of its parts. */
  lemma {:induction false} TransformsAppend(a: seq<Event>, b: seq<Event>, d: int, level: int)
    ensures TransformsAt(a + b, d, level) == TransformsAt(a, d, level) + TransformsAt(b, d + Net(a), level)
  {
    if a == [] {
      assert a + b == b;
    } else {
      assert (a + b)[1..] == a[1..] + b;
      TransformsAppend(a[1..], b, d + Delta(a[0]), level);
    }
  }

  /** A trace that stays above `level` applies nothing at `level`. */
  lemma {:induction false} NothingBelow(t: seq<Event>, d: int, lo: int, level: int)
    requires StaysAtOrAbove(t, d, lo) && level < lo
    ensures TransformsAt(t, d, level) == []
  {
    if t != [] {
      NothingBelow(t[1..], d + Delta(t[0]), lo, level);
    }
  }

  // ---------------------------------------------------------------------
  // The drawing as nested push/pop scopes.
  // ---------------------------------------------------------------------

  /** The events of `glTranslatef`/`glRotatef` calls, in order. */
  function Applies(xs: seq<Transform>): (t: seq<Event>)
    ensures |t| == |xs|
    ensures forall i :: 0 <= i < |xs| ==> t[i] == Apply(xs[i])
  {
    if xs == [] then [] else [Apply(xs[0])] + Applies(xs[1..])
  }

  /**
   * One push/pop block: its fixed placement, the flap transforms applied
   * only when animating, the part it draws, then the blocks nested in it.
   */
  datatype Scope = Scope(fixed: seq<Transform>, flap: seq<Transform>, part: Part, inner: seq<Scope>)

  /** What a block does between its push and the blocks nested in it. */
  function Opening(sc: Scope, animate: bool): seq<Event>
  {
    Applies(sc.fixed) + (if animate then Applies(sc.flap) else []) + [Draw(sc.part)]
  }

  /** The events of a block: push, placement, optional flap, draw, nested blocks, pop. */
  function Emit(sc: Scope, animate: bool): seq<Event>
    decreases sc
  {
    [Push] + Opening(sc, animate) + EmitAll(sc.inner, animate) + [Pop]
  }

  /** The events of sibling blocks, one after the other. */
  function EmitAll(scs: seq<Scope>, animate: bool): seq<Event>
    decreases scs
  {
    if scs == [] then [] else Emit(scs[0], animate) + EmitAll(scs[1..], animate)
  }

  /** The parts of a block tree in drawing order, each with its nesting depth. */
  function PartDepths(sc: Scope, depth: int): seq<(Part, int)>
    decreases sc
  {
    [(sc.part, depth)] + PartDepthsAll(sc.inner, depth + 1)
  }

  function PartDepthsAll(scs: seq<Scope>, depth: int): seq<(Part, int)>
    decreases scs
  {
    if scs == [] then [] else PartDepths(scs[0], depth) + PartDepthsAll(scs[1..], depth)
  }

  /** The number of blocks in a tree. */
  function ScopeCount(sc: Scope): nat
    decreases sc
  {
    1 + ScopeCountAll(sc.inner)
  }

  function ScopeCountAll(scs: seq<Scope>): nat
    decreases scs
  {
    if scs == [] then 0 else ScopeCount(scs[0]) + ScopeCountAll(scs[1..])
  }

  /** The number of flap transforms in a tree. */
  function FlapCount(sc: Scope): nat
    decreases sc
  {
    |sc.flap| + FlapCountAll(sc.inner)
  }

  function FlapCountAll(scs: seq<Scope>): nat
    decreases scs
  {
    if scs == [] then 0 else FlapCount(scs[0]) + FlapCountAll(scs[1..])
  }

  /** The parts whose own block carries flap transforms. */
  function FlappedParts(sc: Scope): seq<Part>
    decreases sc
  {
    (if sc.flap != [] then [sc.part] else []) + FlappedPartsAll(sc.inner)
  }

  function FlappedPartsAll(scs: seq<Scope>): seq<Part>
    decreases scs
  {
    if scs == [] then [] else FlappedParts(scs[0]) + FlappedPartsAll(scs[1..])
  }

  /** A run of transform events has no stack effect and draws nothing. */
  lemma {:induction false} TransformsOnly(t: seq<Event>, d: int)
    requires forall i :: 0 <= i < |t| ==> t[i].Apply?
    ensures Net(t) == 0 && StaysAtOrAbove(t, d, d) && Draws(t, d) == []
    ensures multiset(t)[Push] == 0 && multiset(t)[Pop] == 0
  {
    if t != [] {
      assert t == [t[0]] + t[1..];
      TransformsOnly(t[1..], d);
    }
  }

  /** Transforms followed by one draw: no stack effect, and that one draw at the current depth. */
  lemma TransformsThenDraw(xs: seq<Event>, p: Part, d: int)
    requires forall i :: 0 <= i < |xs| ==> xs[i].Apply?
    ensures Net(xs + [Draw(p)]) == 0
    ensures StaysAtOrAbove(xs + [Draw(p)], d, d)
    ensures Draws(xs + [Draw(p)], d) == [(p, d)]
    ensures multiset(xs + [Draw(p)])[Push] == 0 && multiset(xs + [Draw(p)])[Pop] == 0
  {
    TransformsOnly(xs, d);
    NetAppend(xs, [Draw(p)]);
    StaysAppend(xs, [Draw(p)], d, d);
    DrawsAppend(xs, [Draw(p)], d);
  }

  /** The readers of a block list, split at its first block. */
  lemma AllCons(x: Scope, xs: seq<Scope>, animate: bool, depth: int)
    ensures EmitAll([x] + xs, animate) == Emit(x, animate) + EmitAll(xs, animate)
    ensures PartDepthsAll([x] + xs, depth) == PartDepths(x, depth) + PartDepthsAll(xs, depth)
    ensures ScopeCountAll([x] + xs) == ScopeCount(x) + ScopeCountAll(xs)
    ensures FlapCountAll([x] + xs) == FlapCount(x) + FlapCountAll(xs)
    ensures FlappedPartsAll([x] + xs) == FlappedParts(x) + FlappedPartsAll(xs)
  {
    assert ([x] + xs)[0] == x && ([x] + xs)[1..] == xs;
  }

  /** The readers of a block list of one. */
  lemma AllOne(x: Scope, animate: bool, depth: int)
    ensures EmitAll([x], animate) == Emit(x, animate)
    ensures PartDepthsAll([x], depth) == PartDepths(x, depth)
    ensures ScopeCountAll([x]) == ScopeCount(x)
    ensures FlapCountAll([x]) == FlapCount(x)
    ensures FlappedPartsAll([x]) == FlappedParts(x)
  {
    AllCons(x, [], animate, depth);
    assert [x] + [] == [x];
  }

  /** The opening of a block never touches the stack and draws only its own part. */
  lemma OpeningFacts(sc: Scope, animate: bool, d: int)
    ensures Net(Opening(sc, animate)) == 0
    ensures StaysAtOrAbove(Opening(sc, animate), d, d)
    ensures Draws(Opening(sc, animate), d) == [(sc.part, d)]
    ensures multiset(Opening(sc, animate))[Push] == 0 && multiset(Opening(sc, animate))[Pop] == 0
  {
    var xs := Applies(sc.fixed) + (if animate then Applies(sc.flap) else []);
    assert forall i :: 0 <= i < |xs| ==> xs[i].Apply?;
    TransformsThenDraw(xs, sc.part, d);
  }

  /** The events between a block's push and its pop. */
  function Inside(sc: Scope, animate: bool): seq<Event>
  {
    Opening(sc, animate) + EmitAll(sc.inner, animate)
  }

  lemma EmitInside(sc: Scope, animate: bool)
    ensures Emit(sc, animate) == [Push] + Inside(sc, animate) + [Pop]
  {
    var o, n := Opening(sc, animate), EmitAll(sc.inner, animate);
    assert [Push] + o + n == [Push] + (o + n);
  }

  /** Around a body, a push and a pop keep the body's depth facts one level up. */
  lemma Bracket(body: seq<Event>, d: int)
    requires Net(body) == 0 && StaysAtOrAbove(body, d + 1, d + 1)
    ensures Net([Push] + body + [Pop]) == 0
    ensures StaysAtOrAbove([Push] + body + [Pop], d, d)
  {
    NetAppend([Push], body);
    NetAppend([Push] + body, [Pop]);
    StaysAppend([Push], body, d, d);
    StaysAppend([Push] + body, [Pop], d, d);
    assert StaysAtOrAbove(body, d + 1, d) by {
      StaysWeaken(body, d + 1, d + 1, d);
    }
  }

  /** Around a body, a push and a pop put the body's draws one level deeper. */
  lemma BracketDraws(body: seq<Event>, d: int)
    ensures Draws([Push] + body + [Pop], d) == Draws(body, d + 1)
  {
    DrawsAppend([Push], body, d);
    DrawsAppend([Push] + body, [Pop], d);
    NetAppend([Push], body);
  }

  /** Staying above a bound implies staying above any lower one. */
  lemma {:induction false} StaysWeaken(t: seq<Event>, d: int, lo: int, lo': int)
    requires StaysAtOrAbove(t, d, lo) && lo' <= lo
    ensures StaysAtOrAbove(t, d, lo')
  {
    if t != [] {
      StaysWeaken(t[1..], d + Delta(t[0]), lo, lo');
    }
  }

  /**
   * A block, entered at depth `d`, runs at depth `d + 1` or more
   * between its push and its pop, and returns to `d`.
   */
  lemma {:induction false} EmitDepth(sc: Scope, animate: bool, d: int)
    ensures Net(Inside(sc, animate)) == 0
    ensures StaysAtOrAbove(Inside(sc, animate), d + 1, d + 1)
    ensures Net(Emit(sc, animate)) == 0
    ensures StaysAtOrAbove(Emit(sc, animate), d, d)
    decreases sc, 1
  {
    var o, n := Opening(sc, animate), EmitAll(sc.inner, animate);
    OpeningFacts(sc, animate, d + 1);
    EmitAllDepth(sc.inner, animate, d + 1);
    NetAppend(o, n);
    StaysAppend(o, n, d + 1, d + 1);
    EmitInside(sc, animate);
    Bracket(o + n, d);
  }

  lemma {:induction false} EmitAllDepth(scs: seq<Scope>, animate: bool, d: int)
    ensures Net(EmitAll(scs, animate)) == 0
    ensures StaysAtOrAbove(EmitAll(scs, animate), d, d)
    decreases scs, 0
  {
    if scs != [] {
      EmitDepth(scs[0], animate, d);
      EmitAllDepth(scs[1..], animate, d);
      NetAppend(Emit(scs[0], animate), EmitAll(scs[1..], animate));
      StaysAppend(Emit(scs[0], animate), EmitAll(scs[1..], animate), d, d);
    }
  }

  /** A block entered at depth `d` applies nothing at depth `d` or below. */
  lemma EmitNothingOutside(sc: Scope, animate: bool, d: int, level: int)
    requires level <= d
    ensures TransformsAt(Emit(sc, animate), d, level) == []
  {
    var body := Inside(sc, animate);
    EmitDepth(sc, animate, d);
    EmitInside(sc, animate);
    NothingBelow(body, d + 1, d + 1, level);
    TransformsAppend([Push], body, d, level);
    TransformsAppend([Push] + body, [Pop], d, level);
    NetAppend([Push], body);
  }

  /** A block entered at depth `d` draws its tree's parts in order, at their nesting depths. */
  lemma {:induction false} EmitDraws(sc: Scope, animate: bool, d: int)
    ensures Draws(Emit(sc, animate), d) == PartDepths(sc, d + 1)
    decreases sc, 1
  {
    var o, n := Opening(sc, animate), EmitAll(sc.inner, animate);
    OpeningFacts(sc, animate, d + 1);
    EmitAllDraws(sc.inner, animate, d + 1);
    DrawsAppend(o, n, d + 1);
    assert Draws(o + n, d + 1) == PartDepths(sc, d + 1);
    EmitInside(sc, animate);
    BracketDraws(o + n, d);
  }

  lemma {:induction false} EmitAllDraws(scs: seq<Scope>, animate: bool, d: int)
    ensures Draws(EmitAll(scs, animate), d) == PartDepthsAll(scs, d + 1)
    decreases scs, 0
  {
    if scs != [] {
      EmitDepth(scs[0], animate, d);
      EmitDraws(scs[0], animate, d);
      EmitAllDraws(scs[1..], animate, d);
      DrawsAppend(Emit(scs[0], animate), EmitAll(scs[1..], animate), d);
    }
  }

  /** A block tree pushes once and pops once per block. */
  lemma {:induction false} EmitCounts(sc: Scope, animate: bool)
    ensures multiset(Emit(sc, animate))[Push] == ScopeCount(sc)
    ensures multiset(Emit(sc, animate))[Pop] == ScopeCount(sc)
    decreases sc, 1
  {
    OpeningFacts(sc, animate, 0);
    EmitAllCounts(sc.inner, animate);
  }

  lemma {:induction false} EmitAllCounts(scs: seq<Scope>, animate: bool)
    ensures multiset(EmitAll(scs, animate))[Push] == ScopeCountAll(scs)
    ensures multiset(EmitAll(scs, animate))[Pop] == ScopeCountAll(scs)
    decreases scs, 0
  {
    if scs != [] {
      EmitCounts(scs[0], animate);
      EmitAllCounts(scs[1..], animate);
    }
  }

  // ---------------------------------------------------------------------
  // What the animate flag changes.
  // ---------------------------------------------------------------------

  /** `long` is `short` with some transform events inserted. */
  predicate TransformsInserted(short: seq<Event>, long: seq<Event>)
    decreases |long|
  {
    if long == [] then short == []
    else
      || (long[0].Apply? && TransformsInserted(short, long[1..]))
      || (short != [] && short[0] == long[0] && TransformsInserted(short[1..], long[1..]))
  }

  lemma {:induction false} InsertedNothing(t: seq<Event>)
    ensures TransformsInserted(t, t)
  {
    if t != [] {
      InsertedNothing(t[1..]);
    }
  }

  lemma {:induction false} InsertedApplies(xs: seq<Transform>)
    ensures TransformsInserted([], Applies(xs))
  {
    if xs != [] {
      InsertedApplies(xs[1..]);
    }
  }

  /** Insertions into two traces are insertions into their concatenation. */
  lemma {:induction false} InsertedAppend(a: seq<Event>, b: seq<Event>, c: seq<Event>, e: seq<Event>)
    requires TransformsInserted(a, b) && TransformsInserted(c, e)
    ensures TransformsInserted(a + c, b + e)
    decreases |b|
  {
    if b == [] {
      assert a + c == c && b + e == e;
    } else {
      assert (b + e)[0] == b[0] && (b + e)[1..] == b[1..] + e;
      if b[0].Apply? && TransformsInserted(a, b[1..]) {
        InsertedAppend(a, b[1..], c, e);
      } else {
        assert (a + c)[0] == a[0] && (a + c)[1..] == a[1..] + c;
        InsertedAppend(a[1..], b[1..], c, e);
      }
    }
  }

  /** Without animation a block's trace is its animated trace with the flap transforms taken out. */
  lemma {:induction false} EmitInserted(sc: Scope)
    ensures TransformsInserted(Emit(sc, false), Emit(sc, true))
    ensures |Emit(sc, true)| == |Emit(sc, false)| + FlapCount(sc)
    decreases sc, 1
  {
    var fixed := Applies(sc.fixed);
    InsertedNothing(fixed);
    InsertedApplies(sc.flap);
    InsertedAppend(fixed, fixed, [], Applies(sc.flap));
    assert fixed + [] == fixed;
    InsertedNothing([Draw(sc.part)]);
    InsertedAppend(fixed, fixed + Applies(sc.flap), [Draw(sc.part)], [Draw(sc.part)]);
    assert TransformsInserted(Opening(sc, false), Opening(sc, true));
    EmitAllInserted(sc.inner);
    InsertedAppend(Opening(sc, false), Opening(sc, true), EmitAll(sc.inner, false), EmitAll(sc.inner, true));
    InsertedNothing([Push]);
    InsertedNothing([Pop]);
    EmitInside(sc, false);
    EmitInside(sc, true);
    InsertedAppend([Push], [Push], Inside(sc, false), Inside(sc, true));
    InsertedAppend([Push] + Inside(sc, false), [Push] + Inside(sc, true), [Pop], [Pop]);
  }

  lemma {:induction false} EmitAllInserted(scs: seq<Scope>)
    ensures TransformsInserted(EmitAll(scs, false), EmitAll(scs, true))
    ensures |EmitAll(scs, true)| == |EmitAll(scs, false)| + FlapCountAll(scs)
    decreases scs, 0
  {
    if scs == [] {
      InsertedNothing([]);
    } else {
      EmitInserted(scs[0]);
      EmitAllInserted(scs[1..]);
      InsertedAppend(Emit(scs[0], false), Emit(scs[0], true), EmitAll(scs[1..], false), EmitAll(scs[1..], true));
    }
  }

  // ---------------------------------------------------------------------
  // The same drawing, one call at a time.
  // ---------------------------------------------------------------------

  /** The calls made so far, the latest last. */
  datatype Log = Start | Then(before: Log, last: Event)

  /** The calls of a log, in order. */
  function Events(l: Log): seq<Event>
  {
    match l
    case Start => []
    case Then(b, e) => Events(b) + [e]
  }

  /** The stack depth after the calls of a log, starting from an empty stack. */
  function Depth(l: Log): int
  {
    match l
    case Start => 0
    case Then(b, e) => Depth(b) + Delta(e)
  }

  /** Transforms applied one call at a time. */
  function ApplyAllLog(l: Log, xs: seq<Transform>): Log
    decreases |xs|
  {
    if xs == [] then l else ApplyAllLog(Then(l, Apply(xs[0])), xs[1..])
  }

  /** A block's opening, one call at a time. */
  function OpeningLog(l: Log, sc: Scope, animate: bool): Log
  {
    var placed := ApplyAllLog(l, sc.fixed);
    Then(if animate then ApplyAllLog(placed, sc.flap) else placed, Draw(sc.part))
  }

  /** A block, one call at a time. */
  function EmitLog(l: Log, sc: Scope, animate: bool): Log
    decreases sc
  {
    Then(EmitAllLog(OpeningLog(Then(l, Push), sc, animate), sc.inner, animate), Pop)
  }

  function EmitAllLog(l: Log, scs: seq<Scope>, animate: bool): Log
    decreases scs
  {
    if scs == [] then l else EmitAllLog(EmitLog(l, scs[0], animate), scs[1..], animate)
  }

  lemma ApplyAllLogOne(l: Log, a: Transform)
    ensures ApplyAllLog(l, [a]) == Then(l, Apply(a))
  {
    assert [a][1..] == [];
  }

  lemma ApplyAllLogTwo(l: Log, a: Transform, b: Transform)
    ensures ApplyAllLog(l, [a, b]) == Then(Then(l, Apply(a)), Apply(b))
  {
    assert [a, b][1..] == [b];
    ApplyAllLogOne(Then(l, Apply(a)), b);
  }

  lemma ApplyAllLogThree(l: Log, a: Transform, b: Transform, c: Transform)
    ensures ApplyAllLog(l, [a, b, c]) == Then(Then(Then(l, Apply(a)), Apply(b)), Apply(c))
  {
    assert [a, b, c][1..] == [b, c];
    ApplyAllLogTwo(Then(l, Apply(a)), b, c);
  }

  lemma EmitAllLogCons(l: Log, x: Scope, xs: seq<Scope>, animate: bool)
    ensures EmitAllLog(l, [x] + xs, animate) == EmitAllLog(EmitLog(l, x, animate), xs, animate)
  {
    assert ([x] + xs)[0] == x && ([x] + xs)[1..] == xs;
  }

  lemma EmitAllLogOne(l: Log, x: Scope, animate: bool)
    ensures EmitAllLog(l, [x], animate) == EmitLog(l, x, animate)
  {
    assert [x][1..] == [];
  }

  lemma {:induction false} ApplyAllLogEvents(l: Log, xs: seq<Transform>)
    ensures Events(ApplyAllLog(l, xs)) == Events(l) + Applies(xs)
    decreases |xs|
  {
    if xs == [] {
      assert Events(l) + [] == Events(l);
    } else {
      ApplyAllLogEvents(Then(l, Apply(xs[0])), xs[1..]);
      assert Events(l) + [Apply(xs[0])] + Applies(xs[1..]) == Events(l) + ([Apply(xs[0])] + Applies(xs[1..]));
    }
  }

  lemma OpeningLogEvents(l: Log, sc: Scope, animate: bool)
    ensures Events(OpeningLog(l, sc, animate)) == Events(l) + Opening(sc, animate)
  {
    var placed := ApplyAllLog(l, sc.fixed);
    var flapped := if animate then ApplyAllLog(placed, sc.flap) else placed;
    var f, g := Applies(sc.fixed), (if animate then Applies(sc.flap) else []);
    ApplyAllLogEvents(l, sc.fixed);
    if animate {
      ApplyAllLogEvents(placed, sc.flap);
    }
    assert Events(flapped) == Events(placed) + g;
    assert Events(OpeningLog(l, sc, animate)) == Events(flapped) + [Draw(sc.part)];
    Regroup4(Events(l), f, g, [Draw(sc.part)]);
  }

  /** Making a block's calls one at a time appends exactly the block's events. */
  lemma {:induction false} EmitLogEvents(l: Log, sc: Scope, animate: bool)
    ensures Events(EmitLog(l, sc, animate)) == Events(l) + Emit(sc, animate)
    decreases sc, 1
  {
    var inside := OpeningLog(Then(l, Push), sc, animate);
    OpeningLogEvents(Then(l, Push), sc, animate);
    EmitAllLogEvents(inside, sc.inner, animate);
    var o, n := Opening(sc, animate), EmitAll(sc.inner, animate);
    Regroup(Events(l), [Push], o, n, [Pop]);
  }

  /** Concatenation regrouped: what follows `a` is one piece. */
  lemma Regroup4(a: seq<Event>, b: seq<Event>, c: seq<Event>, d: seq<Event>)
    ensures a + b + c + d == a + (b + c + d)
  {
  }

  /** Concatenation regrouped: what follows `a` is one block. */
  lemma Regroup(a: seq<Event>, b: seq<Event>, c: seq<Event>, d: seq<Event>, e: seq<Event>)
    ensures a + b + c + d + e == a + (b + c + d + e)
  {
    assert a + b + c == a + (b + c);
    assert a + (b + c) + d == a + (b + c + d);
    assert a + (b + c + d) + e == a + (b + c + d + e);
  }

  lemma {:induction false} EmitAllLogEvents(l: Log, scs: seq<Scope>, animate: bool)
    ensures Events(EmitAllLog(l, scs, animate)) == Events(l) + EmitAll(scs, animate)
    decreases scs, 0
  {
    if scs == [] {
      assert Events(l) + [] == Events(l);
    } else {
      EmitLogEvents(l, scs[0], animate);
      EmitAllLogEvents(EmitLog(l, scs[0], animate), scs[1..], animate);
      var e, r := Emit(scs[0], animate), EmitAll(scs[1..], animate);
      assert Events(l) + e + r == Events(l) + (e + r);
    }
  }

  /** The depth after a log is what its calls add up to. */
  lemma {:induction false} DepthIsNet(l: Log)
    ensures Depth(l) == Net(Events(l))
  {
    if l.Then? {
      DepthIsNet(l.before);
      NetAppend(Events(l.before), [l.last]);
    }
  }
}
