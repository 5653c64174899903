/**
 * What the player and the autonomous optimizer share: the level being played, as
 * far as motion is concerned, the world box every position is clamped into, and
 * the recorded trail of positions with their heights.
 */
module Motion {
  import opened RealMath
  import opened Levels
  import opened Terrain

  /** One recorded position together with the height measured there. */
  datatype Sample = Sample(pos: Vec, h: real)

  /**
   * The parts of a forged level that motion depends on. `height` is the terrain's
   * height function, `maxHeight` its recorded maximum and `dynamicTarget` the
   * height the player must reach.
   */
  datatype Course = Course(
    dimension: Dim,
    optimizer: Optimizer,
    scheduler: Scheduler,
    height: Vec -> real,
    maxHeight: real,
    dynamicTarget: real)

  /** Fraction of the maximum height that counts as having reached the summit. */
  const SUMMIT_RATIO: real := 0.985

  /** Whether a height is within 1.5% of the course's maximum. */
  predicate AtSummit(c: Course, h: real)
  {
    h >= c.maxHeight * SUMMIT_RATIO
  }

  predicate InWorld(v: Vec)
  {
    && 0.0 <= v.x <= WORLD_SIZE
    && 0.0 <= v.y <= WORLD_SIZE
    && 0.0 <= v.z <= WORLD_SIZE
  }

  /** Every coordinate clamped into the world box independently. */
  function ClampVec(v: Vec): (r: Vec)
    ensures InWorld(r)
    ensures InWorld(v) ==> r == v
    ensures r.x == ClampToWorld(v.x) && r.y == ClampToWorld(v.y) && r.z == ClampToWorld(v.z)
  {
    Vec(ClampToWorld(v.x), ClampToWorld(v.y), ClampToWorld(v.z))
  }

  /** The sample recorded at `p`: the position with its height. */
  function Measure(c: Course, p: Vec): (s: Sample)
    ensures s.pos == p && s.h == c.height(p)
  {
    Sample(p, c.height(p))
  }

  /** Every sample records the course's height at its own position. */
  ghost predicate Measured(c: Course, trail: seq<Sample>)
  {
    forall i :: 0 <= i < |trail| ==> trail[i].h == c.height(trail[i].pos)
  }

  /** Exponential average of a squared gradient. */
  function SquareAverage(decay: real, s: real, g: real): real
  {
    decay * s + (1.0 - decay) * g * g
  }

  /** `1 - beta^t`, Adam's bias correction, positive from the first step on. */
  function BiasCorrection(beta: real, t: nat): (bc: real)
    requires 0.0 < beta < 1.0 && t >= 1
    ensures 0.0 < bc < 1.0
  {
    PowUnitBounds(beta, t);
    PowStrictlyDecreasing(beta, 0, t);
    1.0 - Pow(beta, t)
  }

  /** An optimizer's update: new velocity and moment estimates, and the move to apply. */
  datatype Update = Update(velocity: Vec, gradSqAvg: Vec, gradAvg: Vec, move: Vec)

  function Add(a: Vec, b: Vec): Vec
  {
    Vec(a.x + b.x, a.y + b.y, a.z + b.z)
  }

  const Zero: Vec := Vec(0.0, 0.0, 0.0)
}
