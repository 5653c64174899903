/**
 * Level forging: generate a terrain, look for a spawn point near the world centre
 * that is low, far from the peak and provably climbable by the optimizer, retry
 * with fresh terrains, and fall back to a simple terrain spawned at the centre.
 */
module Forge {
  import opened RealMath
  import opened Random
  import opened Levels
  import opened Terrain
  import opened Generator
  import opened Motion
  import opened Simulator

  const SPAWN_CENTER: real := 2500.0
  const CENTER: Vec := Vec(SPAWN_CENTER, SPAWN_CENTER, SPAWN_CENTER)

  /** Terrains generated before giving up. */
  const TERRAIN_ATTEMPTS: nat := 5

  /** Spawn candidates drawn per terrain. */
  const SPAWN_ATTEMPTS: nat := 15

  /** The player wins at 97% of the terrain's maximum height. */
  const TARGET_RATIO: real := 0.97

  /** Candidates are drawn over a 400-wide window around the centre. */
  const SPAWN_WINDOW: real := 400.0

  /** A forged level: its terrain, spawn, win height and the optimizer's step count. */
  datatype Forged = Forged(
    field: Field,
    spawn: Vec,
    dynamicTarget: real,
    minStepsRequired: nat,
    fallback: bool,
    verifications: nat,
    verifiedFrom: Rng)

  /** The course the player and the optimizer face on a generated field. */
  function CourseOf(m: Math, level: Level, f: Field, dynamicTarget: real): (c: Course)
    requires Evaluable(f)
    ensures c.dimension == level.dimension && c.maxHeight == f.maxHeight
    ensures c.dynamicTarget == dynamicTarget
    ensures forall p :: c.height(p) == Height(m, f, p)
  {
    Course(level.dimension, level.optimizer, level.scheduler, p => Height(m, f, p), f.maxHeight, dynamicTarget)
  }

  /** Within 200 of the centre on the level's axes, exactly at the centre on the others. */
  ghost predicate NearCenter(dim: Dim, p: Vec)
  {
    && SPAWN_CENTER - 200.0 <= p.x <= SPAWN_CENTER + 200.0
    && (if dim >= 2 then SPAWN_CENTER - 200.0 <= p.y <= SPAWN_CENTER + 200.0 else p.y == SPAWN_CENTER)
    && (if dim >= 3 then SPAWN_CENTER - 200.0 <= p.z <= SPAWN_CENTER + 200.0 else p.z == SPAWN_CENTER)
  }

  /** A candidate spawn: x always drawn, y only from 2D on, z only in 3D. */
  function Candidate(dim: Dim, g: Rng): (r: (Vec, Rng))
    ensures NearCenter(dim, r.0)
  {
    var (ox, g1) := Offset(g, SPAWN_WINDOW);
    var (oy, g2) := if dim >= 2 then Offset(g1, SPAWN_WINDOW) else (0.0, g1);
    var (oz, g3) := if dim >= 3 then Offset(g2, SPAWN_WINDOW) else (0.0, g2);
    (Vec(SPAWN_CENTER + ox, SPAWN_CENTER + oy, SPAWN_CENTER + oz), g3)
  }

  /** Higher than 25, below 70% of the win height, and more than 500 from the target. */
  predicate Acceptable(m: Math, f: Field, dynamicTarget: real, p: Vec)
    requires Evaluable(f)
  {
    var h := Height(m, f, p);
    var dx := p.x - f.target.x;
    var dy := p.y - f.target.y;
    var dz := p.z - f.target.z;
    h > 25.0 && h < dynamicTarget * 0.7 && m.sqrt(dx * dx + dy * dy + dz * dz) > 500.0
  }

  /** A spawn the optimizer climbed, with the stream its verification started from. */
  datatype Found = Found(spawn: Vec, verdict: Verdict, from: Rng)

  /** What a successful search guarantees about its spawn. */
  ghost predicate Winnable(m: Math, level: Level, f: Field, dynamicTarget: real, s: Found)
    requires Evaluable(f)
  {
    && NearCenter(level.dimension, s.spawn)
    && Acceptable(m, f, dynamicTarget, s.spawn)
    && s.verdict == Verify(m, CourseOf(m, level, f, dynamicTarget), s.spawn, s.from).0
    && s.verdict.reached
  }

  /** The inner loop: spawn candidates `attempt` to 14 on one terrain. */
  function SearchSpawn(m: Math, level: Level, f: Field, dynamicTarget: real, attempt: nat, g: Rng)
    : (r: (Option<Found>, nat, Rng))
    requires Evaluable(f) && attempt <= SPAWN_ATTEMPTS
    decreases SPAWN_ATTEMPTS - attempt
    ensures r.1 <= SPAWN_ATTEMPTS - attempt
    ensures r.0.Some? ==> Winnable(m, level, f, dynamicTarget, r.0.value)
  {
    if attempt == SPAWN_ATTEMPTS then (None, 0, g)
    else
      var (p, g1) := Candidate(level.dimension, g);
      if Acceptable(m, f, dynamicTarget, p) then
        var (v, g2) := Verify(m, CourseOf(m, level, f, dynamicTarget), p, g1);
        if v.reached then (Some(Found(p, v, g1)), 1, g2)
        else
          var (r, n, g3) := SearchSpawn(m, level, f, dynamicTarget, attempt + 1, g2);
          (r, n + 1, g3)
      else SearchSpawn(m, level, f, dynamicTarget, attempt + 1, g1)
  }

  /** A terrain together with a winnable spawn on it. */
  datatype Placement = Placement(field: Field, dynamicTarget: real, found: Found)

  /** The outer loop: terrains `attempt` to 4, each searched for a spawn. */
  function SearchTerrain(m: Math, level: Level, attempt: nat, g: Rng): (r: (Option<Placement>, nat, Rng))
    requires 0.0 <= level.difficulty <= 1.0 && attempt <= TERRAIN_ATTEMPTS
    decreases TERRAIN_ATTEMPTS - attempt
    ensures r.1 <= SPAWN_ATTEMPTS * (TERRAIN_ATTEMPTS - attempt)
    ensures r.0.Some? ==>
      var l := r.0.value;
      && WellFormed(l.field) && l.field.kind == level.terrain
      && l.field.maxHeight == Height(m, l.field, l.field.target)
      && l.dynamicTarget == TARGET_RATIO * l.field.maxHeight
      && Winnable(m, level, l.field, l.dynamicTarget, l.found)
  {
    if attempt == TERRAIN_ATTEMPTS then (None, 0, g)
    else
      var (f, g1) := Generate(m, level, CENTER, g);
      var target := TARGET_RATIO * f.maxHeight;
      var (found, n, g2) := SearchSpawn(m, level, f, target, 0, g1);
      if found.Some? then (Some(Placement(f, target, found.value)), n, g2)
      else
        var (r, n', g3) := SearchTerrain(m, level, attempt + 1, g2);
        (r, n + n', g3)
  }

  /**
   * `generateTerrainForLevel`: the first terrain and spawn the search finds, or else
   * a simple terrain with the spawn at the centre, whose verification result is
   * recorded without being required to succeed. `minStepsRequired` is the step
   * count of the final verification either way.
   */
  function ForgeLevel(m: Math, level: Level, g: Rng): (r: (Forged, Rng))
    requires 0.0 <= level.difficulty <= 1.0
    ensures var l := r.0;
      && WellFormed(l.field)
      && l.field.maxHeight == Height(m, l.field, l.field.target)
      && l.dynamicTarget == TARGET_RATIO * l.field.maxHeight
      && l.verifications <= SPAWN_ATTEMPTS * TERRAIN_ATTEMPTS + 1
      && l.minStepsRequired
         == Verify(m, CourseOf(m, level, l.field, l.dynamicTarget), l.spawn, l.verifiedFrom).0.steps
    ensures var l := r.0;
      !l.fallback ==>
        && l.field.kind == level.terrain
        && NearCenter(level.dimension, l.spawn)
        && Acceptable(m, l.field, l.dynamicTarget, l.spawn)
        && Verify(m, CourseOf(m, level, l.field, l.dynamicTarget), l.spawn, l.verifiedFrom).0.reached
    ensures var l := r.0;
      l.fallback ==> l.field.kind == Simple && l.spawn == CENTER && l.verifications >= 1
  {
    var (found, n, g1) := SearchTerrain(m, level, 0, g);
    if found.Some? then
      var p := found.value;
      (Forged(p.field, p.found.spawn, p.dynamicTarget, p.found.verdict.steps, false, n, p.found.from), g1)
    else
      var (f, g2) := Generate(m, level.(terrain := Simple), CENTER, g1);
      var f' := f.(maxHeight := Height(m, f, f.target));
      HeightIgnoresMaximum(m, f, Height(m, f, f.target), f.target);
      var target := TARGET_RATIO * f'.maxHeight;
      var (v, g3) := Verify(m, CourseOf(m, level, f', target), CENTER, g2);
      (Forged(f', CENTER, target, v.steps, true, n + 1, g2), g3)
  }

  /** Without the fallback the optimizer needed at least one step: the spawn is below the summit. */
  lemma ForgedLevelNeedsAStep(m: Math, level: Level, g: Rng)
    requires 0.0 <= level.difficulty <= 1.0
    requires !ForgeLevel(m, level, g).0.fallback
    ensures ForgeLevel(m, level, g).0.minStepsRequired >= 1
  {
    var l := ForgeLevel(m, level, g).0;
    var c := CourseOf(m, level, l.field, l.dynamicTarget);
    var h := Height(m, l.field, l.spawn);
    assert h > 25.0 && h < l.dynamicTarget * 0.7;
    assert l.field.maxHeight > 0.0;
    assert !AtSummit(c, c.height(l.spawn));
    ReachedNeedsAStep(m, c, l.spawn, l.verifiedFrom);
  }
}
