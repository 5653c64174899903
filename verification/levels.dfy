/**
 * The level catalog: a fixed table from level number to dimension, optimizer,
 * learning-rate scheduler, terrain archetype and difficulty, written in the
 * engine as integer range bands. Tutorial and narrative strings are not modelled.
 */
module Levels {

  const TOTAL_LEVELS: int := 110

  datatype Optimizer = SGD | Momentum | RMSprop | Adam

  datatype Scheduler = Fixed | StepDecay | Warmup | Cosine

  datatype TerrainKind =
    | Simple | Multimodal | Plateau | Saddle | Ridge | Rosenbrock | Noisy | Deceptive

  /** Number of spatial axes a level lets the player move along. */
  type Dim = d: int | 1 <= d <= 3 witness 1

  datatype Level = Level(
    level: int,
    dimension: Dim,
    optimizer: Optimizer,
    scheduler: Scheduler,
    terrain: TerrainKind,
    difficulty: real)

  /** The dimension band of level `i`. */
  function DimensionOf(i: int): Dim
  {
    if i <= 40 then 1 else if i <= 100 then 2 else 3
  }

  /** The difficulty curve, capped at 1. */
  function DifficultyOf(i: int): real
  {
    var raw :=
      if i <= 40 then (i - 1) as real / 120.0
      else if i <= 100 then 0.33 + (i - 40) as real / 100.0
      else 0.7 + (i - 100) as real / 35.0;
    if raw <= 1.0 then raw else 1.0
  }

  /** Optimizer, scheduler and terrain archetype of level `i`. */
  function MechanicsOf(i: int): (Optimizer, Scheduler, TerrainKind)
  {
    if 1 <= i <= 8 then (SGD, Fixed, Simple)
    else if 9 <= i <= 16 then (SGD, StepDecay, Multimodal)
    else if 17 <= i <= 24 then (Momentum, Fixed, Plateau)
    else if 25 <= i <= 32 then (Momentum, StepDecay, if i % 2 == 0 then Saddle else Plateau)
    else if 33 <= i <= 40 then (Adam, Fixed, if i <= 36 then Noisy else Multimodal)
    else if 41 <= i <= 50 then (SGD, Fixed, if i >= 46 then Multimodal else Simple)
    else if 51 <= i <= 58 then (SGD, StepDecay, if i >= 55 then Ridge else Multimodal)
    else if 59 <= i <= 66 then (Momentum, Fixed, if i >= 63 then Saddle else Plateau)
    else if 67 <= i <= 74 then (Momentum, StepDecay, Rosenbrock)
    else if 75 <= i <= 82 then (Momentum, Warmup, Deceptive)
    else if 83 <= i <= 90 then (RMSprop, Fixed, Ridge)
    else if 91 <= i <= 95 then (Adam, Fixed, Deceptive)
    else if 96 <= i <= 100 then (Adam, Cosine, Deceptive)
    else if 101 <= i <= 103 then (SGD, Fixed, Multimodal)
    else if 104 <= i <= 106 then (Momentum, Fixed, Saddle)
    else if 107 <= i <= 110 then (Adam, Cosine, Deceptive)
    else (SGD, Fixed, Simple)
  }

  /** The catalog entry for level `i`. */
  function LevelAt(i: int): (l: Level)
    requires 1 <= i <= TOTAL_LEVELS
    ensures l.level == i
    ensures 0.0 <= l.difficulty < 1.0
  {
    var (opt, sch, kind) := MechanicsOf(i);
    Level(i, DimensionOf(i), opt, sch, kind, DifficultyOf(i))
  }

  /** All 110 levels, in order. */
  function Catalog(): (c: seq<Level>)
    ensures |c| == TOTAL_LEVELS
    ensures forall k :: 0 <= k < |c| ==> c[k].level == k + 1
    ensures forall k :: 0 <= k < |c| ==> 0.0 <= c[k].difficulty <= 1.0
    ensures forall k :: 0 <= k < |c| ==>
      (c[k].dimension == 1 <==> k + 1 <= 40) &&
      (c[k].dimension == 2 <==> 41 <= k + 1 <= 100) &&
      (c[k].dimension == 3 <==> k + 1 > 100)
  {
    seq(TOTAL_LEVELS, k requires 0 <= k < TOTAL_LEVELS => LevelAt(k + 1))
  }

  /** Within one dimension band, later levels are never easier. */
  lemma DifficultyRisesWithinDimension(i: int, j: int)
    requires 1 <= i <= j <= TOTAL_LEVELS
    requires DimensionOf(i) == DimensionOf(j)
    ensures LevelAt(i).difficulty <= LevelAt(j).difficulty
  {
  }

  /** Entering the 3D band resets difficulty below the end of the 2D band. */
  lemma DifficultyDropsEntering3D()
    ensures LevelAt(101).difficulty < LevelAt(100).difficulty
  {
  }

  /**
   * Archetypes whose construction needs a second horizontal axis (the ridge chain,
   * the Rosenbrock valley) only appear on 2D levels, and the noisy archetype only in 1D.
   */
  lemma ArchetypesMatchDimension(i: int)
    requires 1 <= i <= TOTAL_LEVELS
    ensures LevelAt(i).terrain in {Ridge, Rosenbrock} ==> LevelAt(i).dimension == 2
    ensures LevelAt(i).terrain == Noisy ==> LevelAt(i).dimension == 1
  {
  }

  /** Cosine annealing is only ever paired with Adam, warmup only with Momentum. */
  lemma SchedulerPairings(i: int)
    requires 1 <= i <= TOTAL_LEVELS
    ensures LevelAt(i).scheduler == Cosine ==> LevelAt(i).optimizer == Adam
    ensures LevelAt(i).scheduler == Warmup ==> LevelAt(i).optimizer == Momentum
  {
  }
}
