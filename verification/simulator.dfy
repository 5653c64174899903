/**
 * The autonomous optimizer that checks a level can be climbed: it follows the
 * normalised forward-difference gradient under the level's optimizer and schedule,
 * records every position it lands on, kicks itself out of stalls with random
 * jitter, and stops at the summit, when the learning rate has decayed away, or
 * after a fixed number of steps.
 */
module Simulator {
  import opened RealMath
  import opened Random
  import opened Levels
  import opened Terrain
  import opened Schedule
  import opened Motion

  const BASE_LR: real := 10.0

  /** Forward-difference distance of the gradient estimate. */
  const DELTA: real := 5.0

  /** Floor of the gradient length, so that a flat spot still yields a direction. */
  const MIN_LENGTH: real := 0.0001

  /** A height change below this counts as no progress. */
  const STALL_EPS: real := 0.001

  /** After this many steps without progress the optimizer is jittered. */
  const STALL_LIMIT: nat := 50

  /** The run stops once the learning rate falls below this. */
  const MIN_LR: real := 0.01

  /** Steps `verifyLevel` grants the optimizer. */
  const VERIFY_STEPS: nat := 1500

  /**
   * The optimizer's state between iterations. `perturbed` records whether the last
   * iteration jittered the position away from the last recorded sample.
   */
  datatype Sim = Sim(pos: Vec, velocity: Vec, gradSqAvg: Vec, gradAvg: Vec, stuck: nat, prevH: real, perturbed: bool)

  /** Why a run ended. */
  datatype Stop = Reached | Cooled | Exhausted

  datatype Run = Run(path: seq<Sample>, stop: Stop, last: Sim, rng: Rng)

  /** What `verifyLevel` reports. */
  datatype Verdict = Verdict(reached: bool, steps: nat)

  /** The scheduled learning rate of iteration `step`. */
  function Rate(m: Math, sched: Scheduler, step: nat): (lr: real)
    ensures 0.0 <= lr <= BASE_LR
  {
    BASE_LR * Multiplier(m, sched, step)
  }

  /** Forward differences along the axes the level has; 0 along the others. */
  function Probe(c: Course, pos: Vec, h: real): (g: Vec)
    ensures c.dimension < 2 ==> g.y == 0.0
    ensures c.dimension < 3 ==> g.z == 0.0
  {
    Vec(
      c.height(Vec(pos.x + DELTA, pos.y, pos.z)) - h,
      if c.dimension >= 2 then c.height(Vec(pos.x, pos.y + DELTA, pos.z)) - h else 0.0,
      if c.dimension >= 3 then c.height(Vec(pos.x, pos.y, pos.z + DELTA)) - h else 0.0)
  }

  /** The gradient's length, floored at 0.0001. */
  function Length(m: Math, g: Vec): (l: real)
    ensures l >= MIN_LENGTH
  {
    var len := m.sqrt(g.x * g.x + g.y * g.y + g.z * g.z);
    if len < MIN_LENGTH then MIN_LENGTH else len
  }

  /** Dividing by a positive length keeps the sign and can be undone. */
  lemma QuotientSign(a: real, l: real)
    requires l > 0.0
    ensures (a / l) * l == a
    ensures Sign(a / l) == Sign(a)
  {
    if a > 0.0 {
      assert a / l > 0.0;
    } else if a < 0.0 {
      assert (-a) / l > 0.0;
      assert a / l == -((-a) / l);
    }
  }

  /**
   * The gradient divided by its floored length: on every axis the same sign as the
   * gradient, and the gradient again once multiplied back by the length.
   */
  function Direction(m: Math, g: Vec): (d: Vec)
    ensures var l := Length(m, g); d.x * l == g.x && d.y * l == g.y && d.z * l == g.z
    ensures Sign(d.x) == Sign(g.x) && Sign(d.y) == Sign(g.y) && Sign(d.z) == Sign(g.z)
    ensures g.x == 0.0 ==> d.x == 0.0
    ensures g.y == 0.0 ==> d.y == 0.0
    ensures g.z == 0.0 ==> d.z == 0.0
  {
    var l := Length(m, g);
    QuotientSign(g.x, l);
    QuotientSign(g.y, l);
    QuotientSign(g.z, l);
    Vec(g.x / l, g.y / l, g.z / l)
  }

  function RmsStep(m: Math, lr: real, d: real, s: real): real
  {
    lr * d / (m.sqrt(s) + 0.01)
  }

  /** `lr * mHat / (sqrt(vHat) + 0.01)` with both moments bias-corrected at time `t`. */
  function AdamStep(m: Math, lr: real, avg: real, sq: real, t: nat): real
    requires t >= 1
  {
    var mHat := avg / BiasCorrection(0.9, t);
    var vHat := sq / BiasCorrection(0.999, t);
    lr * mHat / (m.sqrt(vHat) + 0.01)
  }

  /** The four optimizers' updates, driven by the normalised direction `d`. */
  function Step(m: Math, opt: Optimizer, s: Sim, g: Vec, d: Vec, lr: real, step: nat): (u: Update)
    ensures d.y == 0.0 && s.velocity.y == 0.0 && s.gradAvg.y == 0.0 ==>
      u.move.y == 0.0 && u.velocity.y == 0.0 && u.gradAvg.y == 0.0
    ensures d.z == 0.0 && s.velocity.z == 0.0 && s.gradAvg.z == 0.0 ==>
      u.move.z == 0.0 && u.velocity.z == 0.0 && u.gradAvg.z == 0.0
  {
    match opt
    case SGD => Update(s.velocity, s.gradSqAvg, s.gradAvg, Vec(d.x * lr, d.y * lr, d.z * lr))
    case Momentum =>
      var v := Vec(0.9 * s.velocity.x + lr * d.x, 0.9 * s.velocity.y + lr * d.y, 0.9 * s.velocity.z + lr * d.z);
      Update(v, s.gradSqAvg, s.gradAvg, v)
    case RMSprop =>
      var sq := Vec(
        SquareAverage(0.9, s.gradSqAvg.x, g.x),
        SquareAverage(0.9, s.gradSqAvg.y, g.y),
        SquareAverage(0.9, s.gradSqAvg.z, g.z));
      Update(s.velocity, sq, s.gradAvg,
        Vec(RmsStep(m, lr, d.x, sq.x), RmsStep(m, lr, d.y, sq.y), RmsStep(m, lr, d.z, sq.z)))
    case Adam =>
      var a := Vec(0.9 * s.gradAvg.x + 0.1 * d.x, 0.9 * s.gradAvg.y + 0.1 * d.y, 0.9 * s.gradAvg.z + 0.1 * d.z);
      var sq := Vec(
        SquareAverage(0.999, s.gradSqAvg.x, g.x),
        SquareAverage(0.999, s.gradSqAvg.y, g.y),
        SquareAverage(0.999, s.gradSqAvg.z, g.z));
      Update(s.velocity, sq, a, Vec(
        AdamStep(m, lr, a.x, sq.x, step + 1),
        AdamStep(m, lr, a.y, sq.y, step + 1),
        AdamStep(m, lr, a.z, sq.z, step + 1)))
  }

  /** `30 + 0.1 step`: the jitter width grows with the iteration. */
  function JitterWidth(step: nat): (w: real)
    ensures w >= 30.0
  {
    30.0 + step as real * 0.1
  }

  /** The deterministic half of an iteration: gradient, update, clamp. */
  function Land(m: Math, c: Course, s: Sim, step: nat): (r: (Update, Vec))
    ensures InWorld(r.1)
  {
    var h := c.height(s.pos);
    var grad := Probe(c, s.pos, h);
    var u := Step(m, c.optimizer, s, grad, Direction(m, grad), Rate(m, c.scheduler, step), step);
    (u, ClampVec(Add(s.pos, u.move)))
  }

  /**
   * The stall escape: x and y move by `(Math.random() - 0.5) * width` whatever the
   * dimension, z only in 3D; the position is not clamped.
   */
  function Jitter(dim: Dim, pos: Vec, width: real, g: Rng): (r: (Vec, Rng))
    requires width >= 0.0
    ensures r.0.x == pos.x + (g.draw(g.cursor) - 0.5) * width
    ensures r.0.y == pos.y + (g.draw(g.cursor + 1) - 0.5) * width
    ensures r.0.z == (if dim >= 3 then pos.z + (g.draw(g.cursor + 2) - 0.5) * width else pos.z)
    ensures r.1.draw == g.draw && r.1.cursor == g.cursor + (if dim >= 3 then 3 else 2)
  {
    var (ox, g1) := Offset(g, width);
    var (oy, g2) := Offset(g1, width);
    var (oz, g3) := if dim >= 3 then Offset(g2, width) else (0.0, g2);
    (Vec(pos.x + ox, pos.y + oy, pos.z + oz), g3)
  }

  /** Even on a 1D level the jitter moves y, unless the draw is exactly one half. */
  lemma JitterMovesYInEveryDimension(dim: Dim, pos: Vec, width: real, g: Rng)
    requires width > 0.0 && g.draw(g.cursor + 1) != 0.5
    ensures Jitter(dim, pos, width, g).0.y != pos.y
  {
  }

  /**
   * One iteration of the loop body after the summit check: step, clamp, record,
   * update the stall counter and jitter once 50 stalled steps have accumulated.
   * Returns the new state, the recorded sample, the learning rate used and the stream.
   */
  function Advance(m: Math, c: Course, s: Sim, step: nat, g: Rng): (r: (Sim, Sample, real, Rng))
    requires s.stuck < STALL_LIMIT
    ensures r.1 == Measure(c, r.1.pos) && InWorld(r.1.pos)
    ensures r.2 == Rate(m, c.scheduler, step)
    ensures r.1.pos == Land(m, c, s, step).1
    ensures r.0.stuck < STALL_LIMIT
    ensures r.0.prevH == r.1.h
    ensures r.0.perturbed <==> Abs(r.1.h - s.prevH) < STALL_EPS && s.stuck + 1 == STALL_LIMIT
    ensures !r.0.perturbed ==> r.0.stuck == (if Abs(r.1.h - s.prevH) < STALL_EPS then s.stuck + 1 else 0)
    ensures !r.0.perturbed ==> r.0.pos == r.1.pos && r.3 == g
    ensures r.0.perturbed ==>
      && r.0.stuck == 0 && r.0.velocity == Zero
      && (r.0.pos, r.3) == Jitter(c.dimension, r.1.pos, JitterWidth(step), g)
  {
    var (u, pos) := Land(m, c, s, step);
    var newH := c.height(pos);
    var stuck := if Abs(newH - s.prevH) < STALL_EPS then s.stuck + 1 else 0;
    if stuck >= STALL_LIMIT then
      var (jittered, g') := Jitter(c.dimension, pos, JitterWidth(step), g);
      (Sim(jittered, Zero, u.gradSqAvg, u.gradAvg, 0, newH, true), Sample(pos, newH), Rate(m, c.scheduler, step), g')
    else
      (Sim(pos, u.velocity, u.gradSqAvg, u.gradAvg, stuck, newH, false), Sample(pos, newH), Rate(m, c.scheduler, step), g)
  }

  /** Every sample after the first lies in the world. */
  ghost predicate Landed(path: seq<Sample>)
  {
    forall i :: 1 <= i < |path| ==> InWorld(path[i].pos)
  }

  /** What holds of a run at the top of every iteration. */
  ghost predicate Running(c: Course, s: Sim, step: nat, path: seq<Sample>)
  {
    && |path| == step + 1
    && Measured(c, path)
    && Landed(path)
    && s.stuck < STALL_LIMIT
    && (!s.perturbed ==> s.pos == path[|path| - 1].pos)
  }

  /** Iterations `step` to `maxSim - 1` of the simulation loop. */
  function Loop(m: Math, c: Course, s: Sim, step: nat, maxSim: nat, path: seq<Sample>, g: Rng): (r: Run)
    requires step <= maxSim && Running(c, s, step, path)
    decreases maxSim - step
    ensures |path| <= |r.path| <= maxSim + 1
    ensures r.path[..|path|] == path
    ensures Running(c, r.last, |r.path| - 1, r.path)
    ensures r.stop == Exhausted ==> |r.path| == maxSim + 1
    ensures r.stop == Reached ==> AtSummit(c, c.height(r.last.pos))
    ensures r.stop == Cooled ==> |r.path| >= 2 && Rate(m, c.scheduler, |r.path| - 2) < MIN_LR
  {
    if step == maxSim then Run(path, Exhausted, s, g)
    else if AtSummit(c, c.height(s.pos)) then Run(path, Reached, s, g)
    else
      var (s', sample, lr, g') := Advance(m, c, s, step, g);
      var path' := path + [sample];
      assert Running(c, s', step + 1, path');
      if lr < MIN_LR then Run(path', Cooled, s', g')
      else
        var r := Loop(m, c, s', step + 1, maxSim, path', g');
        assert r.path[..|path|] == r.path[..|path'|][..|path|];
        r
  }

  /** `_simulateOptimizer(level, terrain, startPos, maxSim)`. */
  function Simulate(m: Math, c: Course, start: Vec, maxSim: nat, g: Rng): (r: Run)
    ensures 1 <= |r.path| <= maxSim + 1
    ensures r.path[0] == Measure(c, start)
    ensures Landed(r.path) && Measured(c, r.path)
    ensures r.last.stuck < STALL_LIMIT
    ensures !r.last.perturbed ==> r.last.pos == r.path[|r.path| - 1].pos
    ensures r.stop == Exhausted ==> |r.path| == maxSim + 1
    ensures r.stop == Reached ==> AtSummit(c, c.height(r.last.pos))
    ensures r.stop == Cooled ==> |r.path| >= 2 && Rate(m, c.scheduler, |r.path| - 2) < MIN_LR
  {
    var h0 := c.height(start);
    var path := [Sample(start, h0)];
    var r := Loop(m, c, Sim(start, Zero, Zero, Zero, 0, h0, false), 0, maxSim, path, g);
    assert r.path[0] == r.path[..1][0];
    r
  }

  /** The report of a finished run: reached iff its last sample is at the summit. */
  function VerdictOf(c: Course, run: Run): (v: Verdict)
    requires |run.path| >= 1
    ensures v.steps + 1 == |run.path|
    ensures v.reached <==> AtSummit(c, run.path[v.steps].h)
  {
    Verdict(AtSummit(c, run.path[|run.path| - 1].h), |run.path| - 1)
  }

  /** `verifyLevel`: 1500 simulated steps, judged by the last sample. */
  function Verify(m: Math, c: Course, start: Vec, g: Rng): (r: (Verdict, Rng))
    ensures r.0.steps <= VERIFY_STEPS
    ensures r == (VerdictOf(c, Simulate(m, c, start, VERIFY_STEPS, g)), Simulate(m, c, start, VERIFY_STEPS, g).rng)
  {
    var run := Simulate(m, c, start, VERIFY_STEPS, g);
    (VerdictOf(c, run), run.rng)
  }

  /** A start already at the summit is reported reached after zero steps. */
  lemma VerifyAtSummit(m: Math, c: Course, start: Vec, g: Rng)
    requires AtSummit(c, c.height(start))
    ensures Verify(m, c, start, g).0 == Verdict(true, 0)
  {
    var h0 := c.height(start);
    var s0 := Sim(start, Zero, Zero, Zero, 0, h0, false);
    assert Loop(m, c, s0, 0, VERIFY_STEPS, [Sample(start, h0)], g).path == [Sample(start, h0)];
  }

  /** A start below the summit can only be reported reached after at least one step. */
  lemma ReachedNeedsAStep(m: Math, c: Course, start: Vec, g: Rng)
    requires !AtSummit(c, c.height(start))
    ensures Verify(m, c, start, g).0.reached ==> Verify(m, c, start, g).0.steps >= 1
  {
  }

  /**
   * Stopping at the summit means a reached verdict unless a jitter in the final
   * iteration moved the optimizer off the last recorded sample.
   */
  lemma SummitStopIsReached(m: Math, c: Course, start: Vec, g: Rng)
    requires Simulate(m, c, start, VERIFY_STEPS, g).stop == Reached
    requires !Simulate(m, c, start, VERIFY_STEPS, g).last.perturbed
    ensures Verify(m, c, start, g).0.reached
  {
  }

  /** Without a decaying schedule (fixed or warmup) a run never stops for a vanished learning rate. */
  lemma SteadyScheduleNeverCools(m: Math, c: Course, start: Vec, maxSim: nat, g: Rng)
    requires c.scheduler == Fixed || c.scheduler == Warmup
    ensures Simulate(m, c, start, maxSim, g).stop != Cooled
  {
  }

  /** Below 3D the optimizer's z velocity and first moment are zero and its z is `z`. */
  ghost predicate FlatZ(c: Course, s: Sim, path: seq<Sample>, z: real)
  {
    && c.dimension < 3
    && s.velocity.z == 0.0 && s.gradAvg.z == 0.0 && s.pos.z == z
    && forall i :: 0 <= i < |path| ==> path[i].pos.z == z
  }

  lemma AdvanceKeepsZ(m: Math, c: Course, s: Sim, step: nat, g: Rng, z: real)
    requires s.stuck < STALL_LIMIT && c.dimension < 3
    requires s.velocity.z == 0.0 && s.gradAvg.z == 0.0 && s.pos.z == z && 0.0 <= z <= WORLD_SIZE
    ensures var r := Advance(m, c, s, step, g);
      r.0.velocity.z == 0.0 && r.0.gradAvg.z == 0.0 && r.0.pos.z == z && r.1.pos.z == z
  {
    var h := c.height(s.pos);
    var grad := Probe(c, s.pos, h);
    var d := Direction(m, grad);
    var u := Step(m, c.optimizer, s, grad, d, Rate(m, c.scheduler, step), step);
    assert u.move.z == 0.0 && u.velocity.z == 0.0 && u.gradAvg.z == 0.0;
    assert Land(m, c, s, step).1.z == z;
  }

  lemma {:induction false} LoopKeepsZ(m: Math, c: Course, s: Sim, step: nat, maxSim: nat, path: seq<Sample>, g: Rng, z: real)
    requires step <= maxSim && Running(c, s, step, path)
    requires FlatZ(c, s, path, z) && 0.0 <= z <= WORLD_SIZE
    ensures forall i :: 0 <= i < |Loop(m, c, s, step, maxSim, path, g).path| ==>
      Loop(m, c, s, step, maxSim, path, g).path[i].pos.z == z
    decreases maxSim - step
  {
    if step < maxSim && !AtSummit(c, c.height(s.pos)) {
      var (s', sample, lr, g') := Advance(m, c, s, step, g);
      AdvanceKeepsZ(m, c, s, step, g, z);
      var path' := path + [sample];
      assert FlatZ(c, s', path', z);
      if lr >= MIN_LR {
        LoopKeepsZ(m, c, s', step + 1, maxSim, path', g', z);
      }
    }
  }

  /** On 1D and 2D levels the optimizer never leaves the start's z plane, jitter included. */
  lemma SimulationStaysInPlane(m: Math, c: Course, start: Vec, maxSim: nat, g: Rng)
    requires c.dimension < 3 && 0.0 <= start.z <= WORLD_SIZE
    ensures forall i :: 0 <= i < |Simulate(m, c, start, maxSim, g).path| ==>
      Simulate(m, c, start, maxSim, g).path[i].pos.z == start.z
  {
    var h0 := c.height(start);
    LoopKeepsZ(m, c, Sim(start, Zero, Zero, Zero, 0, h0, false), 0, maxSim, [Sample(start, h0)], g, start.z);
  }
}
