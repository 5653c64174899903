/**
 * Learning-rate schedules. The player's jump and the autonomous optimizer scale
 * their base step by the same factor, a function of the scheduler and of how many
 * steps have already been taken.
 */
module Schedule {
  import opened RealMath
  import opened Levels

  /** Step decay multiplies the step by this factor once per step taken. */
  const DECAY: real := 0.995

  /** Warmup ramps the step up linearly over this many steps. */
  const WARMUP_STEPS: nat := 10

  /** Cosine annealing reaches its floor after this many steps and stays there. */
  const COSINE_PERIOD: nat := 500

  /** `0.5 * (1 + cos(PI * min(step, 500) / 500))`. */
  function CosineFactor(m: Math, step: nat): (k: real)
    ensures 0.0 <= k <= 1.0
  {
    var capped := if step <= COSINE_PERIOD then step else COSINE_PERIOD;
    0.5 * (1.0 + m.cos(PI * capped as real / COSINE_PERIOD as real))
  }

  /** The factor the scheduler applies to the base step at step `step`. */
  function Multiplier(m: Math, sched: Scheduler, step: nat): (k: real)
    ensures 0.0 <= k <= 1.0
    ensures sched == Fixed ==> k == 1.0
    ensures sched == StepDecay ==> 0.0 < k
    ensures sched == Warmup ==> 0.1 <= k
    ensures sched == Warmup && step >= WARMUP_STEPS ==> k == 1.0
  {
    match sched
    case Fixed => 1.0
    case StepDecay =>
      PowUnitBounds(DECAY, step);
      Pow(DECAY, step)
    case Warmup => if step < WARMUP_STEPS then (step + 1) as real / WARMUP_STEPS as real else 1.0
    case Cosine => CosineFactor(m, step)
  }

  /** The base step a jump moves with: `power / 100 * 20`, scaled by the schedule. */
  function EffectiveStep(m: Math, sched: Scheduler, power: real, step: nat): (e: real)
    ensures power >= 0.0 ==> 0.0 <= e <= power / 100.0 * 20.0
    ensures sched == Fixed ==> e == power / 100.0 * 20.0
  {
    var base := power / 100.0 * 20.0;
    var k := Multiplier(m, sched, step);
    assert base >= 0.0 ==> 0.0 <= base * k <= base by {
      if base >= 0.0 {
        ProductNonNegative(base, k);
        ProductNonNegative(base, 1.0 - k);
      }
    }
    base * k
  }

  /** Under step decay every further step is strictly shorter than all earlier ones. */
  lemma DecayStrictlyShrinks(m: Math, i: nat, j: nat)
    requires i < j
    ensures Multiplier(m, StepDecay, j) < Multiplier(m, StepDecay, i)
  {
    PowStrictlyDecreasing(DECAY, i, j);
  }

  /** Step decay starts at the full step, and each decayed step is exactly 0.995 of the one before it. */
  lemma DecayRatio(m: Math, i: nat)
    ensures Multiplier(m, StepDecay, 0) == 1.0
    ensures Multiplier(m, StepDecay, i + 1) == DECAY * Multiplier(m, StepDecay, i)
  {
  }

  /** During warmup the `i`-th jump (from 0) moves `(i + 1) / 10` of the unscheduled step. */
  lemma WarmupFraction(m: Math, power: real, i: nat)
    requires i < WARMUP_STEPS
    ensures 10.0 * EffectiveStep(m, Warmup, power, i) == (i + 1) as real * EffectiveStep(m, Fixed, power, i)
  {
  }

  /** Warmup never shrinks the step, and it is at full size from the tenth step on. */
  lemma WarmupRamp(m: Math, i: nat, j: nat)
    requires i <= j
    ensures Multiplier(m, Warmup, i) <= Multiplier(m, Warmup, j)
    ensures i + 1 < WARMUP_STEPS ==> Multiplier(m, Warmup, i) < Multiplier(m, Warmup, i + 1)
  {
  }

  /** Cosine annealing freezes once the period is over. */
  lemma CosineSettles(m: Math, i: nat)
    requires i >= COSINE_PERIOD
    ensures Multiplier(m, Cosine, i) == Multiplier(m, Cosine, COSINE_PERIOD)
  {
  }

  /** A step is never longer than the unscheduled one, for a non-negative power. */
  lemma ScheduleNeverBoosts(m: Math, sched: Scheduler, power: real, i: nat)
    requires power >= 0.0
    ensures EffectiveStep(m, sched, power, i) <= EffectiveStep(m, Fixed, power, i)
  {
  }
}
