/**
 * Real arithmetic shared by the whole model.
 *
 * The engine calls Math.exp, Math.sin, Math.cos and Math.sqrt. Their values are
 * irrelevant to the structural rules modelled here, so they are passed around as
 * an explicit `Math` value that promises nothing beyond the laws a proof needs.
 * Math.pow only ever receives a natural-number exponent in the engine, so it is
 * defined exactly as repeated multiplication.
 */
module RealMath {

  /** The transcendental functions the engine uses, as opaque parameters. */
  datatype Transcendentals = Transcendentals(
    exp: real -> real,
    sin: real -> real,
    cos: real -> real,
    sqrt: real -> real)

  /** The only facts the model relies on about the transcendental functions. */
  ghost predicate Lawful(t: Transcendentals)
  {
    && (forall x :: t.exp(x) > 0.0)
    && (forall x :: t.sqrt(x) >= 0.0)
    && (forall x :: -1.0 <= t.sin(x) <= 1.0)
    && (forall x :: -1.0 <= t.cos(x) <= 1.0)
  }

  type Math = t: Transcendentals | Lawful(t)
    witness Transcendentals(x => 1.0, x => 0.0, x => 0.0, x => 0.0)

  /** Math.PI as the engine's double literal. */
  const PI: real := 3.141592653589793

  /** The side of the cubic world; every coordinate is clamped into [0, WORLD_SIZE]. */
  const WORLD_SIZE: real := 5000.0

  function Min(a: real, b: real): real { if a <= b then a else b }

  function Max(a: real, b: real): real { if a >= b then a else b }

  function Abs(a: real): real { if a < 0.0 then -a else a }

  /** Math.sign on a finite real. */
  function Sign(a: real): int { if a > 0.0 then 1 else if a < 0.0 then -1 else 0 }

  /** `Math.max(0, Math.min(WORLD_SIZE, v))`. */
  function ClampToWorld(v: real): (r: real)
    ensures 0.0 <= r <= WORLD_SIZE
    ensures 0.0 <= v <= WORLD_SIZE ==> r == v
    ensures v < 0.0 ==> r == 0.0
    ensures v > WORLD_SIZE ==> r == WORLD_SIZE
  {
    Max(0.0, Min(WORLD_SIZE, v))
  }

  lemma SquareNonNegative(e: real)
    ensures e * e >= 0.0
  {
    if e < 0.0 {
      assert e * e == (-e) * (-e);
    }
  }

  lemma ProductNonNegative(a: real, b: real)
    requires a >= 0.0 && b >= 0.0
    ensures a * b >= 0.0
  {
  }

  /** `b` raised to a natural power, which is what Math.pow computes for integer exponents. */
  function Pow(b: real, n: nat): real
  {
    if n == 0 then 1.0 else b * Pow(b, n - 1)
  }

  /** A base strictly between 0 and 1 gives powers in (0, 1]. */
  lemma {:induction false} PowUnitBounds(b: real, n: nat)
    requires 0.0 < b < 1.0
    ensures 0.0 < Pow(b, n) <= 1.0
  {
    if n > 0 {
      PowUnitBounds(b, n - 1);
      assert Pow(b, n) == b * Pow(b, n - 1);
    }
  }

  /** Multiplying a positive quantity by a base below one shrinks it. */
  lemma ShrinkByBase(b: real, p: real, q: real)
    requires 0.0 < b < 1.0 && p > 0.0 && q == b * p
    ensures q < p
  {
    assert p - q == (1.0 - b) * p;
  }

  /** One more factor of a base below one makes the power strictly smaller. */
  lemma PowStep(b: real, n: nat)
    requires 0.0 < b < 1.0
    ensures Pow(b, n + 1) < Pow(b, n)
  {
    PowUnitBounds(b, n);
    ShrinkByBase(b, Pow(b, n), Pow(b, n + 1));
  }

  /** Powers of a base strictly between 0 and 1 strictly decrease with the exponent. */
  lemma {:induction false} PowStrictlyDecreasing(b: real, n: nat, k: nat)
    requires 0.0 < b < 1.0
    requires n < k
    ensures Pow(b, k) < Pow(b, n)
  {
    PowStep(b, k - 1);
    if k - 1 > n {
      PowStrictlyDecreasing(b, n, k - 1);
    }
  }
}
