/** The per-segment step count of `flyPath`: `speed = ceil(distance * 15)`. */
module SegmentSteps {

  /** Interpolation steps per unit of segment length (salsa/Bird.cpp:257). */
  const Scale: real := 15.0

  /** The ceiling of a real: the least integer not below it. */
  function Ceil(x: real): (c: int)
    ensures c as real - 1.0 < x <= c as real
  {
    -((-x).Floor)
  }

  /** Any integer at or above `x` is at or above its ceiling. */
  lemma CeilLeast(x: real, n: int)
    requires x <= n as real
    ensures Ceil(x) <= n
  {
  }

  /**
   * The number of steps a segment of the given length is divided into
   * (salsa/Bird.cpp:256-257): enough that each step covers at most
   * 1/15 of a unit, and no more than that.
   */
  function StepCount(distance: real): (n: int)
    requires distance >= 0.0
    ensures n >= 0
    ensures Scale * distance <= n as real < Scale * distance + 1.0
    ensures n == 0 <==> distance == 0.0
  {
    Ceil(Scale * distance)
  }

  /** A segment of positive length gets at least one step. */
  lemma PositiveLengthHasSteps(distance: real)
    requires distance > 0.0
    ensures StepCount(distance) >= 1
  {
  }

  /** A longer segment never gets fewer steps. */
  lemma StepCountMonotone(d1: real, d2: real)
    requires 0.0 <= d1 <= d2
    ensures StepCount(d1) <= StepCount(d2)
  {
  }

  /** Doubling a segment's length doubles its step count, up to the rounding of the ceiling. */
  lemma StepCountDoubled(distance: real)
    requires distance >= 0.0
    ensures 2 * StepCount(distance) - 1 <= StepCount(2.0 * distance) <= 2 * StepCount(distance)
  {
  }
}
