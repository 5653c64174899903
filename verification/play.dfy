/**
 * The player's jump: one manual optimizer step along the axes the player pressed,
 * scaled by the power slider and the level's schedule, then clamped into the world
 * and checked against the summit.
 */
module Play {
  import opened RealMath
  import opened Levels
  import opened Terrain
  import opened Schedule
  import opened Motion

  datatype Phase = Menu | Playing | Paused | Won

  /** A signed unit along one axis, as every control issues. */
  type Unit = d: int | -1 <= d <= 1

  /** The `(dx, dy, dz)` arguments of a jump. */
  datatype Input = Input(dx: Unit, dy: Unit, dz: Unit)

  /** Mutable game state a jump reads and writes, as an immutable value. */
  datatype Player = Player(
    phase: Phase,
    pos: Vec,
    velocity: Vec,
    gradSqAvg: Vec,
    gradAvg: Vec,
    steps: nat,
    history: seq<Sample>)

  /** The result of one jump: the new state and what the step did. */
  datatype Jumped = Jumped(
    player: Player,
    effectiveStep: real,
    move: Vec,
    boundary: bool,
    won: bool)

  /** Distance from the position at which the gradient is probed along each pressed axis. */
  const PROBE: real := 5.0

  /** Escape: PLAYING and PAUSED swap, every other phase stays. */
  function TogglePause(ph: Phase): (r: Phase)
    ensures ph == Playing <==> r == Paused
    ensures ph == Paused <==> r == Playing
    ensures ph != Playing && ph != Paused ==> r == ph
  {
    match ph
    case Playing => Paused
    case Paused => Playing
    case _ => ph
  }

  /** `startLevel`: at the spawn, at rest, no steps taken, the spawn recorded. */
  function StartLevel(c: Course, spawn: Vec): (p: Player)
    ensures p.phase == Playing && p.steps == 0 && p.pos == spawn
    ensures p.history == [Measure(c, spawn)]
    ensures InWorld(spawn) ==> AtRest(c.dimension, p, spawn)
  {
    Player(Playing, spawn, Zero, Zero, Zero, 0, [Measure(c, spawn)])
  }

  /** The input with the axes beyond the level's dimension zeroed. */
  function Restrict(dim: Dim, ui: Input): (r: Input)
    ensures r.dx == ui.dx
    ensures r.dy == (if dim >= 2 then ui.dy else 0)
    ensures r.dz == (if dim >= 3 then ui.dz else 0)
  {
    Input(ui.dx, if dim >= 2 then ui.dy else 0, if dim >= 3 then ui.dz else 0)
  }

  /** Forward difference towards the pressed direction on each pressed axis; 0 elsewhere. */
  function Gradient(c: Course, pos: Vec, ui: Input): (g: Vec)
    ensures ui.dx == 0 ==> g.x == 0.0
    ensures ui.dy == 0 ==> g.y == 0.0
    ensures ui.dz == 0 ==> g.z == 0.0
    ensures ui.dx != 0 ==> g.x == c.height(Vec(pos.x + PROBE * ui.dx as real, pos.y, pos.z)) - c.height(pos)
    ensures ui.dy != 0 ==> g.y == c.height(Vec(pos.x, pos.y + PROBE * ui.dy as real, pos.z)) - c.height(pos)
    ensures ui.dz != 0 ==> g.z == c.height(Vec(pos.x, pos.y, pos.z + PROBE * ui.dz as real)) - c.height(pos)
  {
    var h0 := c.height(pos);
    Vec(
      if ui.dx != 0 then c.height(Vec(pos.x + PROBE * ui.dx as real, pos.y, pos.z)) - h0 else 0.0,
      if ui.dy != 0 then c.height(Vec(pos.x, pos.y + PROBE * ui.dy as real, pos.z)) - h0 else 0.0,
      if ui.dz != 0 then c.height(Vec(pos.x, pos.y, pos.z + PROBE * ui.dz as real)) - h0 else 0.0)
  }

  /**
   * The probe goes the way the player presses: pressing towards negative x reads
   * the slope of the five units behind, negated, not the slope ahead.
   */
  lemma BackwardPressReadsSlopeBehind(c: Course, pos: Vec)
    ensures Gradient(c, pos, Input(-1, 0, 0)).x
         == -Gradient(c, Vec(pos.x - PROBE, pos.y, pos.z), Input(1, 0, 0)).x
  {
    assert Vec(pos.x - PROBE + PROBE, pos.y, pos.z) == pos;
  }

  /** The input opposes the velocity on this axis: it is pressed and the signs differ. */
  predicate Reverses(d: Unit, v: real)
  {
    d != 0 && Sign(d as real) != Sign(v)
  }

  /** Momentum on one axis: halve a velocity the input opposes, then decay and push. */
  function MomentumAxis(v: real, d: Unit, base: real): real
  {
    var braked := if Reverses(d, v) then v * 0.5 else v;
    braked * 0.85 + d as real * base * 0.5
  }

  /** The velocity update Adam uses, which has no reversal penalty. */
  function CoastAxis(v: real, d: Unit, base: real): real
  {
    v * 0.85 + d as real * base * 0.5
  }

  /** RMSprop's step along one axis: the input direction scaled down by the root mean square. */
  function RmsMove(m: Math, d: Unit, base: real, s: real): real
  {
    d as real * base / (m.sqrt(s) + 0.01)
  }

  /** `Math.min(4, 1 / (sqrt(vHat) + 0.01))`: Adam's per-axis scale, capped at 4. */
  function AdamScale(m: Math, vHat: real): (k: real)
    ensures 0.0 < k <= 4.0
    ensures k * (m.sqrt(vHat) + 0.01) <= 1.0
    ensures k == 4.0 || k * (m.sqrt(vHat) + 0.01) == 1.0
  {
    var root := m.sqrt(vHat);
    Min(4.0, 1.0 / (root + 0.01))
  }

  /**
   * Momentum on one axis: 85% of the velocity is kept, 42.5% after a reversal, and
   * half the step is added in the pressed direction.
   */
  ghost predicate MomentumRule(v0: real, d: Unit, base: real, v1: real)
  {
    v1 == (if Reverses(d, v0) then 0.425 else 0.85) * v0 + 0.5 * d as real * base
  }

  /** RMSprop on one axis: the squared-gradient average decays by 0.9; the move times the root (plus 0.01) is the pressed step. */
  ghost predicate RmsRule(m: Math, s0: real, g: real, d: Unit, base: real, s1: real, mv: real)
  {
    s1 == 0.9 * s0 + 0.1 * g * g && mv * (m.sqrt(s1) + 0.01) == d as real * base
  }

  /**
   * Adam on one axis at time `t`: both moments decay (0.9 and 0.999), the velocity
   * keeps 85% with no reversal penalty and adds half the pressed step, and the move
   * is the velocity times the capped scale of the bias-corrected second moment.
   */
  ghost predicate AdamRule(m: Math, t: nat, a0: real, s0: real, v0: real, g: real, d: Unit, base: real,
                           a1: real, s1: real, v1: real, mv: real)
    requires t >= 1
  {
    && a1 == 0.9 * a0 + 0.1 * g
    && s1 == 0.999 * s0 + 0.001 * g * g
    && v1 == 0.85 * v0 + 0.5 * d as real * base
    && mv == v1 * AdamScale(m, s1 / BiasCorrection(0.999, t))
  }

  /** `x / k` times `k` is `x` for a positive `k`. */
  lemma Unscale(x: real, k: real)
    requires k > 0.0
    ensures x / k * k == x
  {
  }

  /** Momentum's update: the velocity, with the reversal penalty, is also the move. */
  function MomentumUpdate(p: Player, ui: Input, base: real): (u: Update)
    ensures u.move == u.velocity && u.gradSqAvg == p.gradSqAvg && u.gradAvg == p.gradAvg
    ensures MomentumRule(p.velocity.x, ui.dx, base, u.velocity.x)
    ensures MomentumRule(p.velocity.y, ui.dy, base, u.velocity.y)
    ensures MomentumRule(p.velocity.z, ui.dz, base, u.velocity.z)
  {
    var v := Vec(
      MomentumAxis(p.velocity.x, ui.dx, base),
      MomentumAxis(p.velocity.y, ui.dy, base),
      MomentumAxis(p.velocity.z, ui.dz, base));
    Update(v, p.gradSqAvg, p.gradAvg, v)
  }

  /** RMSprop's update: a new squared-gradient average and a move scaled down by its root. */
  function RmsUpdate(m: Math, p: Player, ui: Input, g: Vec, base: real): (u: Update)
    ensures u.velocity == p.velocity && u.gradAvg == p.gradAvg
    ensures RmsRule(m, p.gradSqAvg.x, g.x, ui.dx, base, u.gradSqAvg.x, u.move.x)
    ensures RmsRule(m, p.gradSqAvg.y, g.y, ui.dy, base, u.gradSqAvg.y, u.move.y)
    ensures RmsRule(m, p.gradSqAvg.z, g.z, ui.dz, base, u.gradSqAvg.z, u.move.z)
  {
    var s := Vec(
      SquareAverage(0.9, p.gradSqAvg.x, g.x),
      SquareAverage(0.9, p.gradSqAvg.y, g.y),
      SquareAverage(0.9, p.gradSqAvg.z, g.z));
    Unscale(ui.dx as real * base, m.sqrt(s.x) + 0.01);
    Unscale(ui.dy as real * base, m.sqrt(s.y) + 0.01);
    Unscale(ui.dz as real * base, m.sqrt(s.z) + 0.01);
    Update(p.velocity, s, p.gradAvg,
      Vec(RmsMove(m, ui.dx, base, s.x), RmsMove(m, ui.dy, base, s.y), RmsMove(m, ui.dz, base, s.z)))
  }

  /** Adam's update: both moments, the penalty-free velocity, and the capped, scaled move. */
  function AdamUpdate(m: Math, p: Player, ui: Input, g: Vec, base: real): (u: Update)
    ensures AdamRule(m, p.steps + 1, p.gradAvg.x, p.gradSqAvg.x, p.velocity.x, g.x, ui.dx, base,
                     u.gradAvg.x, u.gradSqAvg.x, u.velocity.x, u.move.x)
    ensures AdamRule(m, p.steps + 1, p.gradAvg.y, p.gradSqAvg.y, p.velocity.y, g.y, ui.dy, base,
                     u.gradAvg.y, u.gradSqAvg.y, u.velocity.y, u.move.y)
    ensures AdamRule(m, p.steps + 1, p.gradAvg.z, p.gradSqAvg.z, p.velocity.z, g.z, ui.dz, base,
                     u.gradAvg.z, u.gradSqAvg.z, u.velocity.z, u.move.z)
  {
    var a := Vec(0.9 * p.gradAvg.x + 0.1 * g.x, 0.9 * p.gradAvg.y + 0.1 * g.y, 0.9 * p.gradAvg.z + 0.1 * g.z);
    var s := Vec(
      SquareAverage(0.999, p.gradSqAvg.x, g.x),
      SquareAverage(0.999, p.gradSqAvg.y, g.y),
      SquareAverage(0.999, p.gradSqAvg.z, g.z));
    var bc := BiasCorrection(0.999, p.steps + 1);
    var v := Vec(
      CoastAxis(p.velocity.x, ui.dx, base),
      CoastAxis(p.velocity.y, ui.dy, base),
      CoastAxis(p.velocity.z, ui.dz, base));
    Update(v, s, a, Vec(
      v.x * AdamScale(m, s.x / bc),
      v.y * AdamScale(m, s.y / bc),
      v.z * AdamScale(m, s.z / bc)))
  }

  /** The player's optimizer update for the restricted input `ui`, probed gradient `g` and scheduled step `base`. */
  function Step(m: Math, opt: Optimizer, p: Player, ui: Input, g: Vec, base: real): (u: Update)
    ensures opt == SGD ==>
      && u.velocity == p.velocity && u.gradSqAvg == p.gradSqAvg && u.gradAvg == p.gradAvg
      && u.move.x == ui.dx as real * base && u.move.y == ui.dy as real * base && u.move.z == ui.dz as real * base
    ensures opt == Momentum ==>
      && u.move == u.velocity && u.gradSqAvg == p.gradSqAvg && u.gradAvg == p.gradAvg
      && MomentumRule(p.velocity.x, ui.dx, base, u.velocity.x)
      && MomentumRule(p.velocity.y, ui.dy, base, u.velocity.y)
      && MomentumRule(p.velocity.z, ui.dz, base, u.velocity.z)
    ensures opt == RMSprop ==>
      && u.velocity == p.velocity && u.gradAvg == p.gradAvg
      && RmsRule(m, p.gradSqAvg.x, g.x, ui.dx, base, u.gradSqAvg.x, u.move.x)
      && RmsRule(m, p.gradSqAvg.y, g.y, ui.dy, base, u.gradSqAvg.y, u.move.y)
      && RmsRule(m, p.gradSqAvg.z, g.z, ui.dz, base, u.gradSqAvg.z, u.move.z)
    ensures opt == Adam ==>
      && AdamRule(m, p.steps + 1, p.gradAvg.x, p.gradSqAvg.x, p.velocity.x, g.x, ui.dx, base,
                  u.gradAvg.x, u.gradSqAvg.x, u.velocity.x, u.move.x)
      && AdamRule(m, p.steps + 1, p.gradAvg.y, p.gradSqAvg.y, p.velocity.y, g.y, ui.dy, base,
                  u.gradAvg.y, u.gradSqAvg.y, u.velocity.y, u.move.y)
      && AdamRule(m, p.steps + 1, p.gradAvg.z, p.gradSqAvg.z, p.velocity.z, g.z, ui.dz, base,
                  u.gradAvg.z, u.gradSqAvg.z, u.velocity.z, u.move.z)
  {
    match opt
    case SGD =>
      Update(p.velocity, p.gradSqAvg, p.gradAvg,
        Vec(ui.dx as real * base, ui.dy as real * base, ui.dz as real * base))
    case Momentum => MomentumUpdate(p, ui, base)
    case RMSprop => RmsUpdate(m, p, ui, g, base)
    case Adam => AdamUpdate(m, p, ui, g, base)
  }

  /** Whether the player has won after landing at height `h`. */
  predicate Wins(c: Course, h: real)
  {
    h >= c.dynamicTarget || AtSummit(c, h)
  }

  /**
   * `jump(dx, dy, dz)`: nothing unless PLAYING; otherwise one optimizer step, clamped
   * into the world, counted, recorded, and compared with the dynamic target and the
   * summit.
   */
  function Jump(m: Math, c: Course, power: real, p: Player, input: Input): (r: Jumped)
    ensures p.phase != Playing ==> r.player == p && !r.boundary && !r.won
    ensures p.phase == Playing ==>
      && r.player.steps == p.steps + 1
      && r.player.pos == ClampVec(Add(p.pos, r.move))
      && InWorld(r.player.pos)
      && (r.boundary <==> !InWorld(Add(p.pos, r.move)))
      && r.player.history == p.history + [Measure(c, r.player.pos)]
      && (r.won <==> Wins(c, c.height(r.player.pos)))
      && r.player.phase == (if r.won then Won else Playing)
    ensures power >= 0.0 ==> 0.0 <= r.effectiveStep <= power / 100.0 * 20.0
  {
    if p.phase != Playing then Jumped(p, 0.0, Zero, false, false)
    else
      var ui := Restrict(c.dimension, input);
      var base := EffectiveStep(m, c.scheduler, power, p.steps);
      var g := Gradient(c, p.pos, ui);
      var u := Step(m, c.optimizer, p, ui, g, base);
      var raw := Add(p.pos, u.move);
      var pos := ClampVec(raw);
      var h := c.height(pos);
      var won := Wins(c, h);
      var after := Player(
        if won then Won else Playing, pos, u.velocity, u.gradSqAvg, u.gradAvg,
        p.steps + 1, p.history + [Sample(pos, h)]);
      Jumped(after, base, u.move, !InWorld(raw), won)
  }

  /** A run of inputs fed to `jump` one after another. */
  function Play(m: Math, c: Course, power: real, p: Player, inputs: seq<Input>): Player
    decreases |inputs|
  {
    if |inputs| == 0 then p
    else Play(m, c, power, Jump(m, c, power, p, inputs[0]).player, inputs[1..])
  }

  /**
   * The axes a level does not use are still at the spawn and carry no velocity:
   * y for 1D levels, z for 1D and 2D levels.
   */
  ghost predicate AtRest(dim: Dim, p: Player, spawn: Vec)
  {
    && 0.0 <= spawn.y <= WORLD_SIZE && 0.0 <= spawn.z <= WORLD_SIZE
    && (dim < 2 ==> p.velocity.y == 0.0 && p.pos.y == spawn.y)
    && (dim < 3 ==> p.velocity.z == 0.0 && p.pos.z == spawn.z)
  }

  /** One jump keeps the unused axes at rest. */
  lemma JumpKeepsRest(m: Math, c: Course, power: real, p: Player, input: Input, spawn: Vec)
    requires AtRest(c.dimension, p, spawn)
    ensures AtRest(c.dimension, Jump(m, c, power, p, input).player, spawn)
  {
    if p.phase == Playing {
      var ui := Restrict(c.dimension, input);
      var base := EffectiveStep(m, c.scheduler, power, p.steps);
      var g := Gradient(c, p.pos, ui);
      var u := Step(m, c.optimizer, p, ui, g, base);
      if c.dimension < 2 {
        assert u.velocity.y == 0.0 && u.move.y == 0.0;
      }
      if c.dimension < 3 {
        assert u.velocity.z == 0.0 && u.move.z == 0.0;
      }
    }
  }

  /**
   * However the player presses the controls, a level never moves the player along
   * an axis beyond its dimension.
   */
  lemma {:induction false} PlayKeepsRest(m: Math, c: Course, power: real, p: Player, inputs: seq<Input>, spawn: Vec)
    requires AtRest(c.dimension, p, spawn)
    ensures AtRest(c.dimension, Play(m, c, power, p, inputs), spawn)
    decreases |inputs|
  {
    if |inputs| > 0 {
      JumpKeepsRest(m, c, power, p, inputs[0], spawn);
      PlayKeepsRest(m, c, power, Jump(m, c, power, p, inputs[0]).player, inputs[1..], spawn);
    }
  }

  /** From a level's start, the unused axes stay at the spawn throughout play. */
  lemma StartedLevelStaysInDimension(m: Math, c: Course, power: real, spawn: Vec, inputs: seq<Input>)
    requires InWorld(spawn)
    ensures var p := Play(m, c, power, StartLevel(c, spawn), inputs);
      && (c.dimension < 2 ==> p.pos.y == spawn.y)
      && (c.dimension < 3 ==> p.pos.z == spawn.z)
  {
    PlayKeepsRest(m, c, power, StartLevel(c, spawn), inputs, spawn);
  }

  /** The history holds one sample per step plus the spawn, each measured where it was taken. */
  ghost predicate Recorded(c: Course, p: Player)
  {
    |p.history| == p.steps + 1 && Measured(c, p.history)
  }

  lemma {:induction false} PlayRecords(m: Math, c: Course, power: real, p: Player, inputs: seq<Input>)
    requires Recorded(c, p)
    ensures Recorded(c, Play(m, c, power, p, inputs))
    decreases |inputs|
  {
    if |inputs| > 0 {
      var q := Jump(m, c, power, p, inputs[0]).player;
      assert Recorded(c, q) by {
        if p.phase == Playing {
          assert q.history == p.history + [Measure(c, q.pos)];
        }
      }
      PlayRecords(m, c, power, q, inputs[1..]);
    }
  }

  /** Once a level is won or paused, further jumps change nothing. */
  lemma {:induction false} PlayFrozenUnlessPlaying(m: Math, c: Course, power: real, p: Player, inputs: seq<Input>)
    requires p.phase != Playing
    ensures Play(m, c, power, p, inputs) == p
    decreases |inputs|
  {
    if |inputs| > 0 {
      PlayFrozenUnlessPlaying(m, c, power, Jump(m, c, power, p, inputs[0]).player, inputs[1..]);
    }
  }

  /** Inputs beyond the level's dimension are discarded before anything else happens. */
  lemma ExtraAxesIgnored(m: Math, c: Course, power: real, p: Player, input: Input)
    ensures c.dimension == 1 ==>
      Jump(m, c, power, p, input) == Jump(m, c, power, p, Input(input.dx, 0, 0))
    ensures c.dimension == 2 ==>
      Jump(m, c, power, p, input) == Jump(m, c, power, p, Input(input.dx, input.dy, 0))
  {
  }

  lemma ScaledSign(d: Unit, base: real, denom: real, v: real)
    requires base >= 0.0 && denom > 0.0
    requires v == d as real * base / denom
    ensures d == 0 ==> v == 0.0
    ensures d > 0 ==> v >= 0.0
    ensures d < 0 ==> v <= 0.0
  {
    if d < 0 {
      assert v == -(base / denom);
    } else if d > 0 {
      assert v == base / denom;
    }
  }

  /** The move and velocity of a playing jump are those of the optimizer's update. */
  lemma JumpUpdate(m: Math, c: Course, power: real, p: Player, input: Input)
    requires p.phase == Playing
    ensures var ui := Restrict(c.dimension, input);
      var u := Step(m, c.optimizer, p, ui, Gradient(c, p.pos, ui), EffectiveStep(m, c.scheduler, power, p.steps));
      var r := Jump(m, c, power, p, input);
      r.move == u.move && r.player.velocity == u.velocity && r.player.gradSqAvg == u.gradSqAvg
  {
  }

  /** `d * base / denom` has the sign of `d` for a non-negative base and positive denominator. */
  predicate Follows(d: Unit, v: real)
  {
    (d == 0 ==> v == 0.0) && (d > 0 ==> v >= 0.0) && (d < 0 ==> v <= 0.0)
  }

  lemma RmsMoveFollows(m: Math, d: Unit, base: real, s: real)
    requires base >= 0.0
    ensures Follows(d, RmsMove(m, d, base, s))
  {
    ScaledSign(d, base, m.sqrt(s) + 0.01, RmsMove(m, d, base, s));
  }

  lemma SgdMoveFollows(d: Unit, base: real)
    requires base >= 0.0
    ensures Follows(d, d as real * base)
  {
    ScaledSign(d, base, 1.0, d as real * base);
  }

  /** An SGD or RMSprop move along an axis has the sign of the input on that axis. */
  lemma StepFollowsInput(m: Math, opt: Optimizer, p: Player, ui: Input, g: Vec, base: real)
    requires opt == SGD || opt == RMSprop
    requires base >= 0.0
    ensures var u := Step(m, opt, p, ui, g, base);
      Follows(ui.dx, u.move.x) && Follows(ui.dy, u.move.y) && Follows(ui.dz, u.move.z)
  {
    var u := Step(m, opt, p, ui, g, base);
    if opt == SGD {
      SgdMoveFollows(ui.dx, base);
      SgdMoveFollows(ui.dy, base);
      SgdMoveFollows(ui.dz, base);
    } else {
      var sq := u.gradSqAvg;
      assert u.move == Vec(RmsMove(m, ui.dx, base, sq.x), RmsMove(m, ui.dy, base, sq.y), RmsMove(m, ui.dz, base, sq.z));
      RmsMoveFollows(m, ui.dx, base, sq.x);
      RmsMoveFollows(m, ui.dy, base, sq.y);
      RmsMoveFollows(m, ui.dz, base, sq.z);
    }
  }

  /**
   * Without momentum (SGD, RMSprop) a jump moves each active axis only in the
   * direction pressed, for a non-negative power.
   */
  lemma MoveFollowsInput(m: Math, c: Course, power: real, p: Player, input: Input)
    requires p.phase == Playing && power >= 0.0
    requires c.optimizer == SGD || c.optimizer == RMSprop
    ensures var r := Jump(m, c, power, p, input);
      && (input.dx == 0 ==> r.move.x == 0.0)
      && (input.dx > 0 ==> r.move.x >= 0.0)
      && (input.dx < 0 ==> r.move.x <= 0.0)
      && (input.dy == 0 || c.dimension < 2 ==> r.move.y == 0.0)
      && (input.dz == 0 || c.dimension < 3 ==> r.move.z == 0.0)
  {
    var ui := Restrict(c.dimension, input);
    JumpUpdate(m, c, power, p, input);
    StepFollowsInput(m, c.optimizer, p, ui, Gradient(c, p.pos, ui), EffectiveStep(m, c.scheduler, power, p.steps));
  }

  lemma CappedScale(v: real, k: real, w: real)
    requires 0.0 < k <= 4.0 && w == v * k
    ensures Abs(w) <= 4.0 * Abs(v)
  {
    if v >= 0.0 {
      assert 4.0 * v - w == v * (4.0 - k);
      ProductNonNegative(v, 4.0 - k);
    } else {
      assert 4.0 * (-v) + w == (-v) * (4.0 - k);
      ProductNonNegative(-v, 4.0 - k);
    }
  }

  /** Adam never moves an axis more than four times its velocity. */
  lemma AdamMoveCapped(m: Math, c: Course, power: real, p: Player, input: Input)
    requires p.phase == Playing && c.optimizer == Adam
    ensures var r := Jump(m, c, power, p, input);
      && Abs(r.move.x) <= 4.0 * Abs(r.player.velocity.x)
      && Abs(r.move.y) <= 4.0 * Abs(r.player.velocity.y)
      && Abs(r.move.z) <= 4.0 * Abs(r.player.velocity.z)
  {
    var ui := Restrict(c.dimension, input);
    var g := Gradient(c, p.pos, ui);
    var base := EffectiveStep(m, c.scheduler, power, p.steps);
    JumpUpdate(m, c, power, p, input);
    assert Step(m, Adam, p, ui, g, base) == AdamUpdate(m, p, ui, g, base);
    AdamUpdateCapped(m, p, ui, g, base);
  }

  /** Each axis of Adam's move is its new velocity times a scale in (0, 4]. */
  lemma AdamUpdateCapped(m: Math, p: Player, ui: Input, g: Vec, base: real)
    ensures var u := AdamUpdate(m, p, ui, g, base);
      && Abs(u.move.x) <= 4.0 * Abs(u.velocity.x)
      && Abs(u.move.y) <= 4.0 * Abs(u.velocity.y)
      && Abs(u.move.z) <= 4.0 * Abs(u.velocity.z)
  {
    var u := AdamUpdate(m, p, ui, g, base);
    var bc := BiasCorrection(0.999, p.steps + 1);
    CappedScale(u.velocity.x, AdamScale(m, u.gradSqAvg.x / bc), u.move.x);
    CappedScale(u.velocity.y, AdamScale(m, u.gradSqAvg.y / bc), u.move.y);
    CappedScale(u.velocity.z, AdamScale(m, u.gradSqAvg.z / bc), u.move.z);
  }

  /** Adam's first moment is maintained but never influences where the player goes. */
  lemma AdamFirstMomentUnused(m: Math, c: Course, power: real, p: Player, input: Input, avg: Vec)
    requires c.optimizer == Adam
    ensures var r1 := Jump(m, c, power, p, input);
      var r2 := Jump(m, c, power, p.(gradAvg := avg), input);
      && r1.move == r2.move && r1.player.pos == r2.player.pos
      && r1.player.velocity == r2.player.velocity && r1.won == r2.won
  {
    var q := p.(gradAvg := avg);
    if p.phase == Playing {
      var ui := Restrict(c.dimension, input);
      var base := EffectiveStep(m, c.scheduler, power, p.steps);
      var g := Gradient(c, p.pos, ui);
      assert q.pos == p.pos && q.velocity == p.velocity && q.gradSqAvg == p.gradSqAvg && q.steps == p.steps;
      assert Step(m, Adam, p, ui, g, base) == AdamUpdate(m, p, ui, g, base);
      assert Step(m, Adam, q, ui, g, base) == AdamUpdate(m, q, ui, g, base);
      AdamUpdateIgnoresFirstMoment(m, p, avg, ui, g, base);
    }
  }

  /** Adam's velocity, second moment and move do not read the stored first moment. */
  lemma AdamUpdateIgnoresFirstMoment(m: Math, p: Player, avg: Vec, ui: Input, g: Vec, base: real)
    ensures var u1 := AdamUpdate(m, p, ui, g, base);
      var u2 := AdamUpdate(m, p.(gradAvg := avg), ui, g, base);
      u1.velocity == u2.velocity && u1.gradSqAvg == u2.gradSqAvg && u1.move == u2.move
  {
  }
}
