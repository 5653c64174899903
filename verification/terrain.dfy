/**
 * The height field: the feature set a generated terrain holds and the closed-form
 * evaluation of its height at a point.
 */
module Terrain {
  import opened RealMath
  import opened Levels

  datatype Vec = Vec(x: real, y: real, z: real)

  datatype Option<T> = None | Some(value: T)

  /** Which axis a ridge terrain keeps narrow. */
  datatype Axis = AxisX | AxisY

  /**
   * A Gaussian bump. A negative amplitude digs a depression. `sigmaY`, when given
   * and non-zero, replaces `sigma` along the y axis only.
   */
  datatype Peak = Peak(center: Vec, amplitude: real, sigma: real, sigmaY: Option<real>)

  /** A hyperbolic saddle term, active within three units of 300 of its centre. */
  datatype SaddlePoint = SaddlePoint(center: Vec, strength: real)

  /** An inverted Rosenbrock bowl anchored at the target (tx, ty). */
  datatype Valley = Valley(cx: real, cy: real, tx: real, ty: real, a: real, b: real)

  /** Frequency and amplitude of the trigonometric texture of noisy terrains. */
  datatype Noise = Noise(freq: real, amp: real)

  datatype Field = Field(
    peaks: seq<Peak>,
    maxHeight: real,
    target: Vec,
    kind: TerrainKind,
    saddles: seq<SaddlePoint>,
    ridgeAxis: Option<Axis>,
    valley: Option<Valley>,
    noise: Option<Noise>)

  /** The y-axis sigma a peak actually uses: `p.sigmaY || p.sigma`. */
  function SigmaY(p: Peak): real
  {
    if p.sigmaY.Some? && p.sigmaY.value != 0.0 then p.sigmaY.value else p.sigma
  }

  /** What evaluation needs: no peak divides by a zero sigma, the valley is a bowl. */
  ghost predicate Evaluable(f: Field)
  {
    && (forall i :: 0 <= i < |f.peaks| ==> f.peaks[i].sigma != 0.0)
    && (f.valley.Some? ==> f.valley.value.b >= 0.0)
  }

  /** Every peak of `ps` has a positive width along every axis. */
  ghost predicate PositiveWidths(ps: seq<Peak>)
  {
    forall i :: 0 <= i < |ps| ==> ps[i].sigma > 0.0 && SigmaY(ps[i]) > 0.0
  }

  lemma PositiveWidthsConcat(a: seq<Peak>, b: seq<Peak>)
    requires PositiveWidths(a) && PositiveWidths(b)
    ensures PositiveWidths(a + b)
  {
    forall i | 0 <= i < |a + b|
      ensures (a + b)[i].sigma > 0.0 && SigmaY((a + b)[i]) > 0.0
    {
      if i >= |a| {
        assert (a + b)[i] == b[i - |a|];
      }
    }
  }

  /** What the generator promises: every peak has positive widths on every axis. */
  ghost predicate WellFormed(f: Field)
  {
    && Evaluable(f)
    && PositiveWidths(f.peaks)
  }

  /** Positive widths and a bowl-shaped valley are all evaluation needs. */
  lemma PositiveWidthsEvaluable(f: Field)
    requires PositiveWidths(f.peaks)
    requires f.valley.Some? ==> f.valley.value.b >= 0.0
    ensures WellFormed(f)
  {
  }

  /** Ambient undulation present everywhere. */
  function Base(m: Math, p: Vec): real
  {
    30.0 + m.sin(p.x * 0.004) * 6.0 + m.cos(p.y * 0.004) * 6.0
  }

  /** Three harmonics, only for noisy terrains with a non-zero frequency. */
  function NoiseTerm(m: Math, kind: TerrainKind, noise: Option<Noise>, p: Vec): real
  {
    if kind == Noisy && noise.Some? && noise.value.freq != 0.0 then
      var n := noise.value;
      m.sin(p.x * n.freq * 7.3 + p.y * 3.1) * n.amp * 0.4
      + m.cos(p.x * n.freq * 4.7 - p.y * 5.3) * n.amp * 0.3
      + m.sin((p.x + p.y) * n.freq * 2.1) * n.amp * 0.3
    else 0.0
  }

  function SaddleContribution(m: Math, s: SaddlePoint, p: Vec): real
  {
    var dx := (p.x - s.center.x) / 300.0;
    var dy := (p.y - s.center.y) / 300.0;
    var dz := (p.z - s.center.z) / 300.0;
    var dist := dx * dx + dy * dy + dz * dz;
    if dist < 9.0 then s.strength * (dx * dx - dy * dy) * m.exp(-dist * 0.3) else 0.0
  }

  function SaddleSum(m: Math, ss: seq<SaddlePoint>, p: Vec): real
  {
    if |ss| == 0 then 0.0 else SaddleContribution(m, ss[0], p) + SaddleSum(m, ss[1..], p)
  }

  function ValleyTerm(valley: Option<Valley>, p: Vec): real
    requires valley.Some? ==> valley.value.b >= 0.0
  {
    if valley.Some? then
      var v := valley.value;
      var dx := (p.x - v.tx) / 500.0;
      var dy := (p.y - v.ty) / 500.0;
      var bend := dy - dx * dx;
      var rosen := (v.a - dx) * (v.a - dx) + v.b * (bend * bend);
      assert rosen >= 0.0 by {
        SquareNonNegative(v.a - dx);
        SquareNonNegative(bend);
        ProductNonNegative(v.b, bend * bend);
      }
      80.0 / (1.0 + rosen * 0.5)
    else 0.0
  }

  function PeakContribution(m: Math, pk: Peak, p: Vec): real
    requires pk.sigma != 0.0
  {
    var dx := p.x - pk.center.x;
    var dy := p.y - pk.center.y;
    var dz := p.z - pk.center.z;
    var sx := pk.sigma;
    var sy := SigmaY(pk);
    var dSq := (dx * dx) / (sx * sx) + (dy * dy) / (sy * sy) + (dz * dz) / (sx * sx);
    pk.amplitude * m.exp(-dSq / 2.0)
  }

  function PeakSum(m: Math, ps: seq<Peak>, p: Vec): real
    requires forall i :: 0 <= i < |ps| ==> ps[i].sigma != 0.0
  {
    if |ps| == 0 then 0.0 else PeakContribution(m, ps[0], p) + PeakSum(m, ps[1..], p)
  }

  /** The unclamped sum of every term. */
  function RawHeight(m: Math, f: Field, p: Vec): real
    requires Evaluable(f)
  {
    Base(m, p) + NoiseTerm(m, f.kind, f.noise, p) + SaddleSum(m, f.saddles, p)
    + ValleyTerm(f.valley, p)
    + PeakSum(m, f.peaks, p)
  }

  /** `getHeight`: the raw sum floored at zero. */
  function Height(m: Math, f: Field, p: Vec): (h: real)
    requires Evaluable(f)
    ensures h >= 0.0
    ensures h >= RawHeight(m, f, p)
    ensures RawHeight(m, f, p) >= 0.0 ==> h == RawHeight(m, f, p)
    ensures RawHeight(m, f, p) < 0.0 ==> h == 0.0
  {
    Max(0.0, RawHeight(m, f, p))
  }

  /** The recorded maximum plays no part in evaluation. */
  lemma HeightIgnoresMaximum(m: Math, f: Field, h: real, p: Vec)
    requires Evaluable(f)
    ensures Evaluable(f.(maxHeight := h))
    ensures Height(m, f.(maxHeight := h), p) == Height(m, f, p)
  {
    assert RawHeight(m, f.(maxHeight := h), p) == RawHeight(m, f, p);
  }
}
