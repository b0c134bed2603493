# A verified model of the bird of `salsa`

The `Bird` class of `salsa` draws an eagle built from seven parts and flies
it along a closed loop of waypoints. This project models three of its
operations in Dafny and proves the properties its code promises.

- **`flyPath`** (`salsa/Bird.cpp:244-273`) is a path cursor of three fields:
  - `indexPath`, the waypoint that starts the current segment;
  - `pathT`, the step within that segment;
  - `speed`, the segment's step count.

  Each call does three things. At step 0 it moves on to the next segment,
  and reads that segment's length to set `speed = ceil(15 * length)`. It
  evaluates a uniform Catmull-Rom cubic on X and Z at `t = pathT / speed`,
  with Y fixed at 0. It then advances `pathT` modulo `speed`. The model has
  two layers. `Flight.FlyPathStep`, and `Flight.Run` for consecutive calls,
  are functions on a `Cursor` value. `Flight.Bird` is a class whose
  `FlyPath` method works on the fields step by step, as the C++ does, and
  is proved equal to `FlyPathStep`.
- **`orientationTest`** (`salsa/Bird.cpp:186-195`) is the sign of the x/z
  cross product of `mid - a` and `b - a`. It returns 0 inside a dead zone of
  ±0.0001, and is modelled as a pure function.
- **`draw`** (`salsa/Bird.cpp:37-152`) is a straight-line sequence of GL
  matrix stack calls. Matrix maths is not modelled: each call is recorded
  as an event (push, pop, a transform, or the drawing of a part), and the
  stack depth is tracked. `Figure.MatrixStack` is the stack, with one
  method per GL call. `Figure.DrawBird` makes exactly the calls `draw`
  makes, in the same order. Its reference definition is a tree of blocks
  (`DrawTrace.Scope`): each block has fixed transforms, flap transforms
  applied only when animating, a part, and nested blocks. The scene,
  `Figure.BodyScope`, gives every constant of the C++. `DrawBird` is proved
  to append exactly the events of that tree, after the -6° tilt.
  - The flag `animate` is an input.
  - `s` stands for `sin(psi)`, an opaque real.

The modules follow the program's structure:

| module | file | content |
|---|---|---|
| `Geometry` | `geometry.dfy` | points, vector difference, what is assumed of `Point3d::norm()` |
| `Spline` | `spline.dfy` | the Catmull-Rom cubic of lines 263-268 |
| `SegmentSteps` | `segment_steps.dfy` | the step count of lines 256-257 |
| `Flight` | `flight.dfy` | cyclic indices, the cursor, `flyPath`, runs of calls, whole segments and laps |
| `Orientation` | `orientation.dfy` | `orientationTest` |
| `DrawTrace` | `draw_trace.dfy` | events, depth, and the block tree with its generic lemmas |
| `Figure` | `figure.dfy` | the bird's scene, the matrix stack class, and `draw` |

Two things in the code are modelled as written, against what one might
expect:

- **Zero-length segments.** A segment whose two ends coincide gets
  `speed == 0`. This also happens to every segment of a one-waypoint loop.
  The code does not guard against it, so the division at line 261 and the
  modulo at line 271 are then undefined. Clamping such a segment to one step
  would avoid this; the code does not do it. The model follows the code:
  - `Flight.Bird.FlyPath` requires the step count it will use to be
    positive (`Flight.CanFly`);
  - `Flight.Run` yields `None` where a call would divide by zero;
  - `Flight.CanFlyAtSegmentStart` shows that this is exactly the
    coincident-ends case.
- **Mirror symmetry.** The two wings are not exact mirror images. Their
  outer offsets are (1.6, 0, 1) on the left and (-1.25, 0, 0.5) on the
  right (`Figure.OuterOffsetsNotMirrored`). Every other wing transform
  mirrors (`Figure.WingsMirror`).

## Model

| member | source | states |
|---|---|---|
| `Geometry.Sub` | salsa/Bird.cpp:256 | the difference `p3 - p2` is the zero vector exactly when the two points coincide |
| `Geometry.DistanceZero` | salsa/Bird.cpp:256 | a segment's length is never negative, and it is zero exactly when its two ends coincide |
| `SegmentSteps.Ceil` | salsa/Bird.cpp:257 | `ceil` gives an integer `c` with `c - 1 < x <= c` |
| `SegmentSteps.CeilLeast` | salsa/Bird.cpp:257 | the ceiling is the least such integer |
| `SegmentSteps.StepCount` | salsa/Bird.cpp:256-257 | `ceil(15 * distance)` is non-negative, lies in `[15d, 15d + 1)`, and is zero exactly for a zero distance |
| `SegmentSteps.PositiveLengthHasSteps` | salsa/Bird.cpp:257 | a segment of positive length gets at least one step |
| `SegmentSteps.StepCountMonotone` | salsa/Bird.cpp:257 | a longer segment never gets fewer steps |
| `SegmentSteps.StepCountDoubled` | salsa/Bird.cpp:257 | a segment twice as long gets twice the steps, give or take one |
| `Spline.CatmullRom` | salsa/Bird.cpp:263-268 | the cubic passes through `p2` at `t = 0` and `p3` at `t = 1`, and is constant on constant control points |
| `Spline.BasisForm` | salsa/Bird.cpp:263-268 | the cubic is the blend of the four control points by the Catmull-Rom basis polynomials |
| `Spline.PartitionOfUnity` | salsa/Bird.cpp:263-268 | the four basis weights sum to 1 for every `t` |
| `Spline.TranslationInvariant` | salsa/Bird.cpp:263-268 | shifting the control points shifts the curve by the same amount |
| `Spline.ScaleInvariant` | salsa/Bird.cpp:263-268 | scaling the control points scales the curve |
| `Spline.SplinePoint` | salsa/Bird.cpp:263-272 | the returned point has Y = 0; at `t = 0` it is `p2` and at `t = 1` it is `p3`, each projected onto the x/z plane |
| `Flight.Succ` | salsa/Bird.cpp:247 | the next index stays in `[0, maxPath)` and wraps to 0 exactly from the last index |
| `Flight.Prev` | salsa/Bird.cpp:249 | the ternary predecessor stays in range and is the index whose successor is `i` |
| `Flight.SuccIsMod` | salsa/Bird.cpp:252 | the successor equals the code's `(i + 1) % maxPath` |
| `Flight.Succ2IsMod` | salsa/Bird.cpp:253 | two successors equal the code's `(i + 2) % maxPath`, including for a one-waypoint loop |
| `Flight.PrevIsMod` | salsa/Bird.cpp:249 | the ternary predecessor equals `(i + maxPath - 1) % maxPath` |
| `Flight.Ahead` | salsa/Bird.cpp:247 | `k` successors of a valid index is a valid index |
| `Flight.AheadClosedForm` | salsa/Bird.cpp:247 | within one lap, `k` successors of `i` is `i + k`, wrapped once |
| `Flight.AheadIsMod` | salsa/Bird.cpp:247 | within one lap, `k` successors of `i` is `(i + k) % maxPath` |
| `Flight.SegmentSpeed` | salsa/Bird.cpp:255-257 | a segment's step count is non-negative, and zero exactly when its ends coincide |
| `Flight.EnteredIndex` | salsa/Bird.cpp:247 | the segment a call works on is a valid index |
| `Flight.CanFlyAtSegmentStart` | salsa/Bird.cpp:255-261 | a call at step 0 has a defined division exactly when the entered segment's two ends differ |
| `Flight.Param` | salsa/Bird.cpp:261 | `t = pathT / speed` lies in `[0, 1)`, and is 0 at step 0 |
| `Flight.FlyPathStep` | salsa/Bird.cpp:244-273 | one call keeps the cursor ranges. At step 0 it moves to the next index and recomputes `speed` from that segment; otherwise `indexPath` and `speed` stay. `pathT` becomes `(pathT + 1) % speed`. The point has Y = 0, and at step 0 it is the entered waypoint |
| `Flight.Run` | salsa/Bird.cpp:244-273 | consecutive calls that all succeed keep the cursor ranges |
| `Flight.RunSplit` | salsa/Bird.cpp:244-273 | `a + b` calls are `a` calls followed by `b` calls, failure included |
| `Flight.EnterSegment` | salsa/Bird.cpp:247-271 | the first call of a segment moves to the next index, takes that segment's step count, and goes to step 1 modulo it |
| `Flight.StepWithinSegment` | salsa/Bird.cpp:261-271 | a call in mid-segment moves the step on by one and changes neither the index nor `speed` |
| `Flight.SegmentProgress` | salsa/Bird.cpp:244-273 | from step 0, after `k` calls with `1 <= k < speed`, the cursor is at step `k` of the entered segment |
| `Flight.FullSegment` | salsa/Bird.cpp:244-273 | from step 0, exactly `speed` calls bring the step back to 0, none of the calls in between does, and the index moves on exactly once |
| `Flight.LoopClosure` | salsa/Bird.cpp:244-273 | when none of the `k` segments crossed has zero length, the sum of their step counts brings the cursor to the start of the segment `k` waypoints on |
| `Flight.FullLap` | salsa/Bird.cpp:244-273 | after one lap's worth of calls the cursor is back at its index and at step 0, with `speed` holding that segment's step count; a cursor whose `speed` already held that count is exactly the starting cursor |
| `Flight.LengthFourSegment` | salsa/Bird.cpp:256-257 | a segment of length 4 is cut into 60 steps |
| `Flight.LengthFourScenario` | salsa/Bird.cpp:244-273 | a cursor about to enter a segment of length 4 is back at step 0 of it after exactly 60 calls |
| `Flight.Bird.FlyPath` | salsa/Bird.cpp:244-273 | the imperative `flyPath` updates `indexPath`, `pathT` and `speed` exactly as `FlyPathStep` does and returns its point; the result does not depend on `tau` |
| `Orientation.OrientationTest` | salsa/Bird.cpp:186-195 | the result is -1, 0 or 1: -1 exactly when the cross product is below -0.0001, 1 exactly when it is above 0.0001, and 0 exactly in the dead zone between |
| `Orientation.CrossSwap` | salsa/Bird.cpp:191 | swapping `mid` and `b` negates the cross product |
| `Orientation.SwapNegates` | salsa/Bird.cpp:191-194 | swapping `mid` and `b` negates the result |
| `Orientation.MidAtStart` | salsa/Bird.cpp:191-194 | a `mid` that coincides with `a` gives 0 |
| `Orientation.EndAtStart` | salsa/Bird.cpp:191-194 | a `b` that coincides with `a` gives 0 |
| `Orientation.SameDifferences` | salsa/Bird.cpp:191 | the cross product depends only on the x/z differences from `a` |
| `Orientation.OnlyXZ` | salsa/Bird.cpp:187-194 | points that differ only in y give the same result |
| `Orientation.TranslationInvariant` | salsa/Bird.cpp:191-194 | shifting all three points by one vector does not change the result |
| `Orientation.LeftTurnExample` | salsa/Bird.cpp:189-193 | the turn (0,0,0) → (1,0,0) → (1,0,1) is a left turn (1) |
| `DrawTrace.EmitDepth` | salsa/Bird.cpp:62-151 | between its push and its matching pop, a block stays at least one level deeper than where it started, and it ends at its starting depth |
| `DrawTrace.EmitNothingOutside` | salsa/Bird.cpp:62-151 | a block applies no transform at its own starting depth or at any shallower level (at or below, in the stack's sense) |
| `DrawTrace.EmitDraws` | salsa/Bird.cpp:62-151 | a block draws its tree's parts in tree order, each at its nesting depth |
| `DrawTrace.EmitCounts` | salsa/Bird.cpp:62-151 | a block pushes once and pops once for each block in its tree |
| `DrawTrace.EmitInserted` | salsa/Bird.cpp:63-145 | the animated events are the still ones with transforms inserted, one for each flap transform |
| `DrawTrace.EmitLogEvents` | salsa/Bird.cpp:62-151 | making a block's calls one at a time appends exactly the block's events to the calls made before |
| `DrawTrace.DepthIsNet` | salsa/Bird.cpp:62-151 | the depth after a sequence of calls is its pushes minus its pops |
| `Figure.BirdScopeCount` | salsa/Bird.cpp:62-149 | the bird has 7 blocks |
| `Figure.BirdStack` | salsa/Bird.cpp:55-151 | `draw` pushes 7 times and pops 7 times, never goes below the depth it starts at, and returns to it |
| `Figure.BirdDraws` | salsa/Bird.cpp:55-151 | the parts are drawn once each, in the order body, head, tail, left close, left far, right close, right far, at depths 1, 2, 2, 2, 3, 2, 3 below the starting depth |
| `Figure.BirdPartDepths` | salsa/Bird.cpp:62-151 | the block tree lists the seven parts in that order at those depths |
| `Figure.BirdTopLevel` | salsa/Bird.cpp:55 | the only transform applied outside every push is the -6° tilt about X, so it stays in effect after `draw`; nothing is applied at any level shallower than the starting depth (below it, in the stack's sense) |
| `Figure.BirdFlapCount` | salsa/Bird.cpp:63-145 | the bird has six flap transforms |
| `Figure.AnimateOnlyInserts` | salsa/Bird.cpp:63-145 | with `animate` set, the events are those without it plus exactly six inserted transforms; pushes, pops and draws are unchanged |
| `Figure.HeadAndTailStill` | salsa/Bird.cpp:62-145 | the flapped blocks are the body and the four wing parts; the head and tail never get an animated transform |
| `Figure.OuterFlapIsHalf` | salsa/Bird.cpp:99-145 | on each side the outer wing part flaps through half the inner part's angle (16·s against 32·s) |
| `Figure.WingFlapAxes` | salsa/Bird.cpp:99-145 | the left wing flaps about +Z and the right wing about -Z, by the same angles |
| `Figure.MirrorInvolution` | salsa/Bird.cpp:94-149 | mirroring a transform twice gives it back |
| `Figure.WingsMirror` | salsa/Bird.cpp:94-149 | the inner wing parts' transforms mirror each other one by one, and so do the outer parts' rotations and flaps |
| `Figure.OuterOffsetsNotMirrored` | salsa/Bird.cpp:108-139 | the outer offsets are (1.6, 0, 1) and (-1.25, 0, 0.5), and they are not mirror images |
| `Figure.MatrixStack.PushMatrix` | salsa/Bird.cpp:62 | `glPushMatrix` records a push and goes one level deeper |
| `Figure.MatrixStack.PopMatrix` | salsa/Bird.cpp:151 | `glPopMatrix`, on a non-empty stack, records a pop and goes one level up |
| `Figure.MatrixStack.Translate` | salsa/Bird.cpp:64 | `glTranslatef` records the translation and keeps the depth |
| `Figure.MatrixStack.Rotate` | salsa/Bird.cpp:55 | `glRotatef` records the rotation and keeps the depth |
| `Figure.MatrixStack.DrawPart` | salsa/Bird.cpp:67 | drawing a part records it and keeps the depth |
| `Figure.HeadLogIsBlock` | salsa/Bird.cpp:74-77 | the head's four calls are the head block of the tree |
| `Figure.TailLogIsBlock` | salsa/Bird.cpp:84-87 | the tail's four calls are the tail block of the tree |
| `Figure.LeftWingFarIsBlock` | salsa/Bird.cpp:107-116 | the left far part's calls are its block |
| `Figure.LeftWingLogIsBlock` | salsa/Bird.cpp:94-118 | the left wing's calls, with the far part nested, are the left wing block |
| `Figure.RightWingFarIsBlock` | salsa/Bird.cpp:138-147 | the right far part's calls are its block |
| `Figure.RightWingLogIsBlock` | salsa/Bird.cpp:125-149 | the right wing's calls, with the far part nested, are the right wing block |
| `Figure.BodyLog` | salsa/Bird.cpp:74-149 | the body's nested blocks are head, tail, left wing and right wing, in that order |
| `Figure.DrawLogIsTree` | salsa/Bird.cpp:55-151 | `draw`'s calls are the tilt followed by the body block's tree |
| `Figure.DrawLogEvents` | salsa/Bird.cpp:55-151 | `draw`'s calls append exactly the tilt and the body block's events |
| `Figure.DrawLeftWing` | salsa/Bird.cpp:94-118 | makes exactly the left wing's calls, in the code's order, and leaves the depth as it was |
| `Figure.DrawRightWing` | salsa/Bird.cpp:125-149 | makes exactly the right wing's calls, in the code's order, and leaves the depth as it was |
| `Figure.DrawBird` | salsa/Bird.cpp:37-152 | `draw` appends to the stack's trace exactly the tilt followed by the body block's events, animated or not, and leaves the depth unchanged |

## Left out

- The constructor and `init()` (`salsa/Bird.h:14-23`, `salsa/Bird.cpp:7-20`) are not modelled: they load OBJ and texture files and initialise parts through `ObjModel`. `Flight.Bird.constructor` only takes a start index, with `pathT` and `speed` at 0, because the fields' first values are not set in the code shown.
- `fly()` (`salsa/Bird.cpp:161-184`) is not modelled: it relies on `Point3d::normalized`, `getAngle` (acos) and `copysign` over floats, from a class that is not part of this model.
- `inc()` (`salsa/Bird.cpp:157-159`) is not modelled: it is a float accumulation of `psi`. `draw` takes `s = sin(psi)` as an input instead.
- The debug print at `salsa/Bird.cpp:258` is output only and is not modelled. The commented-out `test()` and second `flyPath` are dead code.
- Float and double rounding are not modelled: all arithmetic is over exact reals. `ceil` is exact. The `int` that holds `speed` does not overflow.
- `Point3d::norm()` is not defined here. It is a parameter that is only assumed non-negative and zero exactly for the zero vector (`Geometry.IsNorm`).
- OpenGL matrix maths is not modelled: each GL call is a recorded event. The GL limit on stack depth is not modelled.
- `flyPath` on a zero-length segment divides by zero in the code. The model requires a positive step count instead (see above), and `Flight.Run` reports `None`.
- `Figure.MatrixStack` keeps its calls as a snoc list (`DrawTrace.Log`) rather than `seq<Event>`, so that each call adds one constructor. `Trace()` gives the same calls as a sequence.
- `Figure.DrawLeftWing` and `Figure.DrawRightWing` are the wing blocks of `draw` as separate methods. The calls and their order are those of the single C++ function.
