/**
 * The terrain generator: places the primary peak at a random bearing from the
 * spawn point and layers the features of the level's archetype on top of it.
 * Every random draw comes from the injected stream, in the engine's order.
 */
module Generator {
  import opened RealMath
  import opened Random
  import opened Levels
  import opened Terrain

  /** A drawn quantity `lo + u * span` for a draw `u` in [0, 1). */
  datatype Band = Band(lo: real, span: real)

  ghost predicate InBand(v: real, b: Band)
  {
    Min(b.lo, b.lo + b.span) <= v <= Max(b.lo, b.lo + b.span)
  }

  /** `w = u * s` lies between 0 and `s` for a draw `u` in [0, 1). */
  lemma ScaleWithin(u: real, s: real, w: real)
    requires 0.0 <= u < 1.0 && w == u * s
    ensures s >= 0.0 ==> 0.0 <= w <= s
    ensures s < 0.0 ==> s <= w <= 0.0
  {
    if s >= 0.0 {
      ProductNonNegative(u, s);
      ProductNonNegative(1.0 - u, s);
      assert s - w == (1.0 - u) * s;
    } else {
      ProductNonNegative(u, -s);
      ProductNonNegative(1.0 - u, -s);
      assert w - s == (1.0 - u) * (-s);
      assert -w == u * (-s);
    }
  }

  function Pick(b: Band, u: real): (v: real)
    requires 0.0 <= u < 1.0
    ensures InBand(v, b)
  {
    var w := u * b.span;
    ScaleWithin(u, b.span, w);
    b.lo + w
  }

  /** Draws the next value of a band from the stream. */
  function Draw(g: Rng, b: Band): (r: (real, Rng))
    ensures InBand(r.0, b)
  {
    var (u, g') := Next(g);
    (Pick(b, u), g')
  }

  /** A band whose every value is a positive width. */
  ghost predicate PositiveBand(b: Band)
  {
    b.lo > 0.0 && b.lo + b.span > 0.0
  }

  /** Facts every scattered peak satisfies. */
  ghost predicate Scattered(p: Peak, c: Vec, spread: real, scatterZ: bool, amp: Band, sigma: Band)
  {
    && Abs(p.center.x - c.x) <= spread / 2.0
    && Abs(p.center.y - c.y) <= spread / 2.0
    && (if scatterZ then Abs(p.center.z - c.z) <= spread / 2.0 else p.center.z == c.z)
    && InBand(p.amplitude, amp)
    && InBand(p.sigma, sigma)
    && p.sigmaY == None
  }

  /**
   * `count` peaks at `c + (Math.random() - 0.5) * spread` on x and y (and on z when
   * `scatterZ`), with amplitude and sigma drawn from their bands, drawn in that order.
   */
  function Scatter(g: Rng, count: nat, c: Vec, spread: real, scatterZ: bool, amp: Band, sigma: Band)
    : (r: (seq<Peak>, Rng))
    requires spread >= 0.0
    decreases count
    ensures |r.0| == count
    ensures forall i :: 0 <= i < count ==> Scattered(r.0[i], c, spread, scatterZ, amp, sigma)
    ensures PositiveBand(sigma) ==> PositiveWidths(r.0)
  {
    if count == 0 then ([], g)
    else
      var (ox, g1) := Offset(g, spread);
      var (oy, g2) := Offset(g1, spread);
      var (oz, g3) := if scatterZ then Offset(g2, spread) else (0.0, g2);
      var (a, g4) := Draw(g3, amp);
      var (s, g5) := Draw(g4, sigma);
      var p := Peak(Vec(c.x + ox, c.y + oy, c.z + oz), a, s, None);
      var (rest, g6) := Scatter(g5, count - 1, c, spread, scatterZ, amp, sigma);
      ([p] + rest, g6)
  }

  /** Multimodal ring: peak `i` of `n` at bearing `i/n` of a turn, distance 400 to 1200. */
  function Ring(m: Math, g: Rng, i: nat, n: nat, c: Vec): (r: (seq<Peak>, Rng))
    requires i <= n
    decreases n - i
    ensures |r.0| == n - i
    ensures forall k :: 0 <= k < |r.0| ==>
      r.0[k].center.z == c.z && InBand(r.0[k].amplitude, Band(60.0, 80.0))
      && InBand(r.0[k].sigma, Band(150.0, 200.0)) && r.0[k].sigmaY == None
    ensures PositiveWidths(r.0)
  {
    if i == n then ([], g)
    else
      var angle := (i as real / n as real) * PI * 2.0;
      var (d, g1) := Draw(g, Band(400.0, 800.0));
      var (a, g2) := Draw(g1, Band(60.0, 80.0));
      var (s, g3) := Draw(g2, Band(150.0, 200.0));
      var p := Peak(Vec(c.x + m.cos(angle) * d, c.y + m.sin(angle) * d, c.z), a, s, None);
      var (rest, g4) := Ring(m, g3, i + 1, n, c);
      ([p] + rest, g4)
  }

  /** The six fixed "moat" dips at radius 500 around the plateau centre. */
  function Moats(m: Math, i: nat, c: Vec): (ps: seq<Peak>)
    requires i <= 6
    decreases 6 - i
    ensures |ps| == 6 - i
    ensures forall k :: 0 <= k < |ps| ==>
      ps[k].amplitude == -30.0 && ps[k].sigma == 200.0 && ps[k].sigmaY == None
      && ps[k].center.z == c.z
    ensures PositiveWidths(ps)
  {
    if i == 6 then []
    else
      var a := (i as real / 6.0) * PI * 2.0;
      [Peak(Vec(c.x + m.cos(a) * 500.0, c.y + m.sin(a) * 500.0, c.z), -30.0, 200.0, None)]
      + Moats(m, i + 1, c)
  }

  /** Eight ridge peaks interpolated from spawn to target, narrow across `axis`. */
  function RidgeChain(i: nat, s: Vec, t: Vec, axis: Axis): (ps: seq<Peak>)
    requires i <= 8
    decreases 8 - i
    ensures |ps| == 8 - i
    ensures forall k :: 0 <= k < |ps| ==>
      && ps[k].center.z == s.z
      && 30.0 <= ps[k].amplitude <= 70.0
      && (axis == AxisX ==> ps[k].sigma == 30.0 && SigmaY(ps[k]) == 200.0)
      && (axis == AxisY ==> ps[k].sigma == 200.0 && SigmaY(ps[k]) == 30.0)
    ensures PositiveWidths(ps)
  {
    if i == 8 then []
    else
      var u := i as real / 7.0;
      assert 0.0 <= u <= 1.0;
      var p := Peak(
        Vec(s.x + (t.x - s.x) * u, s.y + (t.y - s.y) * u, s.z),
        30.0 + u * 40.0,
        if axis == AxisX then 30.0 else 200.0,
        Some(if axis == AxisX then 200.0 else 30.0));
      [p] + RidgeChain(i + 1, s, t, axis)
  }

  /** Eight small peaks jittered by up to 150 around points of the spawn-to-target segment. */
  function ValleyBumps(g: Rng, i: nat, s: Vec, t: Vec): (r: (seq<Peak>, Rng))
    requires i <= 8
    decreases 8 - i
    ensures |r.0| == 8 - i
    ensures forall k :: 0 <= k < |r.0| ==>
      r.0[k].center.z == s.z && InBand(r.0[k].amplitude, Band(20.0, 30.0))
      && InBand(r.0[k].sigma, Band(150.0, 100.0)) && r.0[k].sigmaY == None
    ensures PositiveWidths(r.0)
  {
    if i == 8 then ([], g)
    else
      var u := i as real / 7.0;
      var (jx, g1) := Offset(g, 300.0);
      var (jy, g2) := Offset(g1, 300.0);
      var (a, g3) := Draw(g2, Band(20.0, 30.0));
      var (sg, g4) := Draw(g3, Band(150.0, 100.0));
      var p := Peak(Vec(s.x + (t.x - s.x) * u + jx, s.y + (t.y - s.y) * u + jy, s.z), a, sg, None);
      var (rest, g5) := ValleyBumps(g4, i + 1, s, t);
      ([p] + rest, g5)
  }

  /** `primaryAmp * (0.7 + Math.random() * 0.25)`: within [0.7, 0.95) of the primary. */
  function RivalAmplitude(primaryAmp: real, u: real): (a: real)
    requires primaryAmp > 0.0 && 0.0 <= u < 1.0
    ensures 0.7 * primaryAmp <= a < 0.95 * primaryAmp
  {
    assert primaryAmp * (u * 0.25) < primaryAmp * 0.25 by {
      assert primaryAmp * 0.25 - primaryAmp * (u * 0.25) == primaryAmp * ((1.0 - u) * 0.25);
    }
    assert primaryAmp * (u * 0.25) >= 0.0;
    primaryAmp * (0.7 + u * 0.25)
  }

  /** Deceptive rivals: random bearing, distance 500 to 1700, z offset up to 300. */
  function Rivals(m: Math, g: Rng, count: nat, s: Vec, primaryAmp: real): (r: (seq<Peak>, Rng))
    requires primaryAmp > 0.0
    decreases count
    ensures |r.0| == count
    ensures forall k :: 0 <= k < count ==>
      && 0.7 * primaryAmp <= r.0[k].amplitude < 0.95 * primaryAmp
      && InBand(r.0[k].sigma, Band(150.0, 200.0))
      && r.0[k].sigmaY == None
    ensures PositiveWidths(r.0)
  {
    if count == 0 then ([], g)
    else
      var (ua, g1) := Next(g);
      var angle := ua * PI * 2.0;
      var (d, g2) := Draw(g1, Band(500.0, 1200.0));
      var (oz, g3) := Offset(g2, 600.0);
      var (uamp, g4) := Next(g3);
      var (sg, g5) := Draw(g4, Band(150.0, 200.0));
      var p := Peak(
        Vec(s.x + m.cos(angle) * d, s.y + m.sin(angle) * d, s.z + oz),
        RivalAmplitude(primaryAmp, uamp), sg, None);
      var (rest, g6) := Rivals(m, g5, count - 1, s, primaryAmp);
      ([p] + rest, g6)
  }


  function Midpoint(s: Vec, t: Vec): Vec
  {
    Vec((s.x + t.x) / 2.0, (s.y + t.y) / 2.0, s.z)
  }

  /** `base + Math.floor(d * scale)`. */
  function Count(base: nat, d: real, scale: real): nat
    requires 0.0 <= d && scale >= 0.0
  {
    ProductNonNegative(d, scale);
    base + (d * scale).Floor
  }

  /** The primary peak: at the target, amplitude 140 to 240 and sigma 250 to 350 with difficulty. */
  function Primary(t: Vec, difficulty: real): Peak
  {
    Peak(t, 140.0 + difficulty * 100.0, 250.0 + difficulty * 100.0, None)
  }

  /** Target at distance `600 + 1400 d` from the spawn; y only moves in 2D, z only in 3D. */
  function PlaceTarget(m: Math, level: Level, s: Vec, g: Rng): (r: (Vec, Rng))
    ensures level.dimension < 2 ==> r.0.y == s.y
    ensures level.dimension < 3 ==> r.0.z == s.z
    ensures r.1.draw == g.draw && r.1.cursor == g.cursor + 2
  {
    var dist := 600.0 + level.difficulty * 1400.0;
    var (u1, g1) := Next(g);
    var (u2, g2) := Next(g1);
    var angle := u1 * PI * 2.0;
    var angle2 := u2 * PI - PI / 2.0;
    var tx := s.x + m.cos(angle) * dist;
    var ty := if level.dimension >= 2 then s.y + m.sin(angle) * dist else s.y;
    var tz := if level.dimension >= 3 then s.z + m.sin(angle2) * dist * 0.6 else s.z;
    (Vec(tx, ty, tz), g2)
  }

  /** A field holding only the primary peak, as `generate` builds it before the archetype. */
  ghost predicate Seeded(f: Field, d: real)
  {
    && 0.0 <= d <= 1.0
    && f.peaks == [Primary(f.target, d)]
    && f.saddles == [] && f.valley == None && f.noise == None && f.ridgeAxis == None
  }

  /** `r` extends `f`: same target, kind, recorded maximum and primary peak. */
  ghost predicate Extends(r: Field, f: Field)
  {
    && r.target == f.target && r.kind == f.kind && r.maxHeight == f.maxHeight
    && |r.peaks| >= 1 && |f.peaks| >= 1 && r.peaks[0] == f.peaks[0]
  }

  /** No saddle, valley, noise or ridge axis. */
  ghost predicate OnlyPeaks(f: Field)
  {
    f.saddles == [] && f.valley == None && f.noise == None && f.ridgeAxis == None
  }

  /** Where the parts of `[primary] + a + b` land. */
  lemma LayoutIndices(p0: seq<Peak>, a: seq<Peak>, b: seq<Peak>)
    requires |p0| == 1
    ensures |p0 + a + b| == 1 + |a| + |b|
    ensures (p0 + a + b)[0] == p0[0]
    ensures forall i :: 1 <= i <= |a| ==> (p0 + a + b)[i] == a[i - 1]
    ensures forall i :: |a| < i < 1 + |a| + |b| ==> (p0 + a + b)[i] == b[i - 1 - |a|]
  {
  }

  // ----- simple: 5 + floor(15 d) scattered bumps -----

  ghost predicate SimpleShape(f: Field, d: real)
    requires 0.0 <= d
  {
    && OnlyPeaks(f)
    && |f.peaks| == 1 + Count(5, d, 15.0)
    && (forall i :: 1 <= i < |f.peaks| ==> InBand(f.peaks[i].amplitude, Band(20.0, 60.0)))
  }

  function AddSimple(f: Field, d: real, s: Vec, g: Rng): (r: (Field, Rng))
    requires Seeded(f, d)
    ensures Extends(r.0, f) && WellFormed(r.0) && SimpleShape(r.0, d)
  {
    var (ps, g1) := Scatter(g, Count(5, d, 15.0), s, 3000.0, true, Band(20.0, 60.0), Band(100.0, 200.0));
    PositiveWidthsConcat(f.peaks, ps);
    var r := f.(peaks := f.peaks + ps);
    assert forall i :: 1 <= i < |r.peaks| ==> r.peaks[i] == ps[i - 1];
    (r, g1)
  }

  // ----- multimodal: a ring of 3 + floor(5 d) rivals and 20 distractors -----

  ghost predicate MultimodalShape(f: Field, d: real)
    requires 0.0 <= d
  {
    && OnlyPeaks(f)
    && |f.peaks| == 1 + Count(3, d, 5.0) + 20
    && (forall i :: 1 <= i < |f.peaks| ==> f.peaks[i].amplitude > 0.0)
  }

  function AddMultimodal(m: Math, f: Field, d: real, s: Vec, g: Rng): (r: (Field, Rng))
    requires Seeded(f, d)
    ensures Extends(r.0, f) && WellFormed(r.0) && MultimodalShape(r.0, d)
  {
    var n := Count(3, d, 5.0);
    var (ring, g1) := Ring(m, g, 0, n, s);
    var (ps, g2) := Scatter(g1, 20, s, 3000.0, false, Band(10.0, 40.0), Band(50.0, 150.0));
    MultimodalField(f, d, ring, ps);
    (f.(peaks := f.peaks + ring + ps), g2)
  }

  /** The seeded field with a ring and distractors of positive amplitude appended has the multimodal shape. */
  lemma MultimodalField(f: Field, d: real, ring: seq<Peak>, ps: seq<Peak>)
    requires Seeded(f, d)
    requires |ring| == Count(3, d, 5.0) && PositiveWidths(ring)
    requires forall k :: 0 <= k < |ring| ==> ring[k].amplitude > 0.0
    requires |ps| == 20 && PositiveWidths(ps)
    requires forall k :: 0 <= k < |ps| ==> InBand(ps[k].amplitude, Band(10.0, 40.0))
    ensures var r := f.(peaks := f.peaks + ring + ps);
      Extends(r, f) && WellFormed(r) && MultimodalShape(r, d)
  {
    PositiveWidthsConcat(f.peaks, ring);
    PositiveWidthsConcat(f.peaks + ring, ps);
    LayoutIndices(f.peaks, ring, ps);
  }

  // ----- plateau: a wide flat bump, six moat dips and ten tiny bumps at the midpoint -----

  /** Peaks 1 to 17 of a plateau terrain: the flat bump, six moats, ten tiny bumps. */
  ghost predicate PlateauPeaks(ps: seq<Peak>)
  {
    && |ps| == 18
    && ps[1].amplitude == 50.0 && ps[1].sigma == 800.0
    && (forall i :: 2 <= i < 8 ==> ps[i].amplitude == -30.0 && ps[i].sigma == 200.0)
    && (forall i :: 8 <= i < 18 ==> InBand(ps[i].amplitude, Band(3.0, 5.0)))
  }

  ghost predicate PlateauShape(f: Field)
  {
    OnlyPeaks(f) && PlateauPeaks(f.peaks)
  }

  lemma PlateauLayout(p0: seq<Peak>, flat: Peak, moats: seq<Peak>, bumps: seq<Peak>)
    requires |p0| == 1 && PositiveWidths(p0)
    requires flat.amplitude == 50.0 && flat.sigma == 800.0 && flat.sigmaY == None
    requires |moats| == 6 && PositiveWidths(moats)
    requires forall k :: 0 <= k < 6 ==> moats[k].amplitude == -30.0 && moats[k].sigma == 200.0
    requires |bumps| == 10 && PositiveWidths(bumps)
    requires forall k :: 0 <= k < 10 ==> InBand(bumps[k].amplitude, Band(3.0, 5.0))
    ensures PlateauPeaks(p0 + ([flat] + moats) + bumps)
    ensures PositiveWidths(p0 + ([flat] + moats) + bumps)
  {
    var dips := [flat] + moats;
    PositiveWidthsConcat([flat], moats);
    PositiveWidthsConcat(p0, dips);
    PositiveWidthsConcat(p0 + dips, bumps);
    LayoutIndices(p0, dips, bumps);
    assert forall i :: 1 <= i < 7 ==> dips[i] == moats[i - 1];
  }

  function AddPlateau(m: Math, f: Field, d: real, s: Vec, g: Rng): (r: (Field, Rng))
    requires Seeded(f, d)
    ensures Extends(r.0, f) && WellFormed(r.0) && PlateauShape(r.0)
  {
    var mid := Midpoint(s, f.target);
    var flat := Peak(mid, 50.0, 800.0, None);
    var moats := Moats(m, 0, mid);
    var (bumps, g1) := Scatter(g, 10, mid, 600.0, false, Band(3.0, 5.0), Band(100.0, 100.0));
    PlateauField(f, d, flat, moats, bumps);
    (f.(peaks := f.peaks + ([flat] + moats) + bumps), g1)
  }

  /** The seeded field with the flat bump, the moats and the tiny bumps appended has the plateau shape. */
  lemma PlateauField(f: Field, d: real, flat: Peak, moats: seq<Peak>, bumps: seq<Peak>)
    requires Seeded(f, d)
    requires flat.amplitude == 50.0 && flat.sigma == 800.0 && flat.sigmaY == None
    requires |moats| == 6 && PositiveWidths(moats)
    requires forall k :: 0 <= k < 6 ==> moats[k].amplitude == -30.0 && moats[k].sigma == 200.0
    requires |bumps| == 10 && PositiveWidths(bumps)
    requires forall k :: 0 <= k < 10 ==> InBand(bumps[k].amplitude, Band(3.0, 5.0))
    ensures var r := f.(peaks := f.peaks + ([flat] + moats) + bumps);
      Extends(r, f) && WellFormed(r) && PlateauShape(r)
  {
    PlateauLayout(f.peaks, flat, moats, bumps);
  }

  // ----- saddle: one saddle point at the midpoint and ten distractors -----

  ghost predicate SaddleShape(f: Field, d: real)
  {
    && f.valley == None && f.noise == None && f.ridgeAxis == None
    && |f.peaks| == 11
    && |f.saddles| == 1
    && f.saddles[0].strength == 40.0 + d * 30.0
  }

  function AddSaddle(f: Field, d: real, s: Vec, g: Rng): (r: (Field, Rng))
    requires Seeded(f, d)
    ensures Extends(r.0, f) && WellFormed(r.0) && SaddleShape(r.0, d)
  {
    var sp := SaddlePoint(Midpoint(s, f.target), 40.0 + d * 30.0);
    var (ps, g1) := Scatter(g, 10, s, 2500.0, false, Band(20.0, 50.0), Band(100.0, 200.0));
    PositiveWidthsConcat(f.peaks, ps);
    (f.(saddles := [sp], peaks := f.peaks + ps), g1)
  }

  // ----- ridge: eight anisotropic peaks from spawn to target, fifteen negative walls -----

  /** Peaks 1 to 23 of a ridge terrain: eight anisotropic chain peaks, fifteen walls. */
  ghost predicate RidgePeaks(ps: seq<Peak>, axis: Axis)
  {
    && |ps| == 24
    && (forall i :: 1 <= i < 9 ==>
          (axis == AxisX ==> ps[i].sigma == 30.0 && SigmaY(ps[i]) == 200.0)
          && (axis == AxisY ==> ps[i].sigma == 200.0 && SigmaY(ps[i]) == 30.0))
    && (forall i :: 9 <= i < 24 ==> InBand(ps[i].amplitude, Band(-20.0, -30.0)))
  }

  ghost predicate RidgeShape(f: Field)
  {
    && f.saddles == [] && f.valley == None && f.noise == None
    && f.ridgeAxis.Some?
    && RidgePeaks(f.peaks, f.ridgeAxis.value)
  }

  lemma RidgeLayout(p0: seq<Peak>, chain: seq<Peak>, walls: seq<Peak>, axis: Axis)
    requires |p0| == 1 && PositiveWidths(p0)
    requires |chain| == 8 && PositiveWidths(chain)
    requires forall k :: 0 <= k < 8 ==>
      (axis == AxisX ==> chain[k].sigma == 30.0 && SigmaY(chain[k]) == 200.0)
      && (axis == AxisY ==> chain[k].sigma == 200.0 && SigmaY(chain[k]) == 30.0)
    requires |walls| == 15 && PositiveWidths(walls)
    requires forall k :: 0 <= k < 15 ==> InBand(walls[k].amplitude, Band(-20.0, -30.0))
    ensures RidgePeaks(p0 + chain + walls, axis)
    ensures PositiveWidths(p0 + chain + walls)
  {
    PositiveWidthsConcat(p0, chain);
    PositiveWidthsConcat(p0 + chain, walls);
    LayoutIndices(p0, chain, walls);
  }

  function AddRidge(f: Field, d: real, s: Vec, g: Rng): (r: (Field, Rng))
    requires Seeded(f, d)
    ensures Extends(r.0, f) && WellFormed(r.0) && RidgeShape(r.0)
  {
    var (u, g1) := Next(g);
    var axis := if u > 0.5 then AxisX else AxisY;
    var chain := RidgeChain(0, s, f.target, axis);
    var (walls, g2) := Scatter(g1, 15, Midpoint(s, f.target), 2000.0, false, Band(-20.0, -30.0), Band(100.0, 100.0));
    RidgeLayout(f.peaks, chain, walls, axis);
    (f.(ridgeAxis := Some(axis), peaks := f.peaks + chain + walls), g2)
  }

  // ----- rosenbrock: a valley from spawn to target and eight bumps along it -----

  ghost predicate RosenbrockShape(f: Field, d: real)
  {
    && f.saddles == [] && f.noise == None && f.ridgeAxis == None
    && f.valley.Some?
    && |f.peaks| == 9
    && f.valley.value.a == 1.0
    && f.valley.value.b == 100.0 * (0.5 + d * 0.5)
    && f.valley.value.tx == f.target.x && f.valley.value.ty == f.target.y
  }

  function AddRosenbrock(f: Field, d: real, s: Vec, g: Rng): (r: (Field, Rng))
    requires Seeded(f, d)
    ensures Extends(r.0, f) && WellFormed(r.0) && RosenbrockShape(r.0, d)
  {
    var v := Valley(s.x, s.y, f.target.x, f.target.y, 1.0, 100.0 * (0.5 + d * 0.5));
    var (ps, g1) := ValleyBumps(g, 0, s, f.target);
    PositiveWidthsConcat(f.peaks, ps);
    (f.(valley := Some(v), peaks := f.peaks + ps), g1)
  }

  // ----- noisy: trigonometric texture scaled by difficulty and fifteen distractors -----

  ghost predicate NoisyShape(f: Field, d: real)
  {
    && f.saddles == [] && f.valley == None && f.ridgeAxis == None
    && f.noise == Some(Noise(0.02 + d * 0.03, 8.0 + d * 15.0))
    && |f.peaks| == 16
  }

  function AddNoisy(f: Field, d: real, s: Vec, g: Rng): (r: (Field, Rng))
    requires Seeded(f, d)
    ensures Extends(r.0, f) && WellFormed(r.0) && NoisyShape(r.0, d)
  {
    var nz := Noise(0.02 + d * 0.03, 8.0 + d * 15.0);
    var (ps, g1) := Scatter(g, 15, s, 3000.0, false, Band(20.0, 50.0), Band(100.0, 200.0));
    PositiveWidthsConcat(f.peaks, ps);
    (f.(noise := Some(nz), peaks := f.peaks + ps), g1)
  }

  // ----- deceptive: 3 + floor(4 d) near-equal rivals and fifteen small distractors -----

  ghost predicate DeceptiveShape(f: Field, d: real)
    requires 0.0 <= d
  {
    var a0 := 140.0 + d * 100.0;
    var n := Count(3, d, 4.0);
    && OnlyPeaks(f)
    && |f.peaks| == 1 + n + 15
    && (forall i :: 1 <= i <= n ==> 0.7 * a0 <= f.peaks[i].amplitude < 0.95 * a0)
    && (forall i :: n < i < |f.peaks| ==> InBand(f.peaks[i].amplitude, Band(10.0, 25.0)))
  }

  /** The seeded field plus rivals and distractors with the deceptive bands has the deceptive shape. */
  lemma DeceptiveLayout(f: Field, d: real, rivals: seq<Peak>, ps: seq<Peak>)
    requires Seeded(f, d)
    requires |rivals| == Count(3, d, 4.0) && PositiveWidths(rivals)
    requires forall k :: 0 <= k < |rivals| ==>
      0.7 * f.peaks[0].amplitude <= rivals[k].amplitude < 0.95 * f.peaks[0].amplitude
    requires |ps| == 15 && PositiveWidths(ps)
    requires forall k :: 0 <= k < |ps| ==> InBand(ps[k].amplitude, Band(10.0, 25.0))
    ensures var r := f.(peaks := f.peaks + rivals + ps);
      Extends(r, f) && WellFormed(r) && DeceptiveShape(r, d)
  {
    PositiveWidthsConcat(f.peaks, rivals);
    PositiveWidthsConcat(f.peaks + rivals, ps);
    LayoutIndices(f.peaks, rivals, ps);
  }

  function AddDeceptive(m: Math, f: Field, d: real, s: Vec, g: Rng): (r: (Field, Rng))
    requires Seeded(f, d)
    ensures Extends(r.0, f) && WellFormed(r.0) && DeceptiveShape(r.0, d)
  {
    var n := Count(3, d, 4.0);
    var (rivals, g1) := Rivals(m, g, n, s, f.peaks[0].amplitude);
    var (ps, g2) := Scatter(g1, 15, s, 3000.0, false, Band(10.0, 25.0), Band(80.0, 150.0));
    DeceptiveLayout(f, d, rivals, ps);
    (f.(peaks := f.peaks + rivals + ps), g2)
  }

  /** The archetype-specific layout the generator promises for `kind`. */
  ghost predicate ArchetypeShape(f: Field, kind: TerrainKind, d: real)
    requires 0.0 <= d
  {
    match kind
    case Simple => SimpleShape(f, d)
    case Multimodal => MultimodalShape(f, d)
    case Plateau => PlateauShape(f)
    case Saddle => SaddleShape(f, d)
    case Ridge => RidgeShape(f)
    case Rosenbrock => RosenbrockShape(f, d)
    case Noisy => NoisyShape(f, d)
    case Deceptive => DeceptiveShape(f, d)
  }

  /** The `switch (level.terrainType)` of `generate`. */
  function AddFeatures(m: Math, kind: TerrainKind, d: real, s: Vec, f: Field, g: Rng): (r: (Field, Rng))
    requires Seeded(f, d)
    ensures Extends(r.0, f) && WellFormed(r.0) && ArchetypeShape(r.0, kind, d)
  {
    match kind
    case Simple => AddSimple(f, d, s, g)
    case Multimodal => AddMultimodal(m, f, d, s, g)
    case Plateau => AddPlateau(m, f, d, s, g)
    case Saddle => AddSaddle(f, d, s, g)
    case Ridge => AddRidge(f, d, s, g)
    case Rosenbrock => AddRosenbrock(f, d, s, g)
    case Noisy => AddNoisy(f, d, s, g)
    case Deceptive => AddDeceptive(m, f, d, s, g)
  }

  /** Recording the maximum does not change the archetype's layout. */
  lemma RecordMaximum(f: Field, kind: TerrainKind, d: real, h: real)
    requires 0.0 <= d && WellFormed(f) && ArchetypeShape(f, kind, d)
    ensures WellFormed(f.(maxHeight := h))
    ensures ArchetypeShape(f.(maxHeight := h), kind, d)
  {
    var g := f.(maxHeight := h);
    assert g.peaks == f.peaks && g.saddles == f.saddles && g.valley == f.valley;
    assert g.noise == f.noise && g.ridgeAxis == f.ridgeAxis && g.target == f.target;
    match kind
    case Simple => assert SimpleShape(g, d);
    case Multimodal => assert MultimodalShape(g, d);
    case Plateau => assert PlateauShape(g);
    case Saddle => assert SaddleShape(g, d);
    case Ridge => assert RidgeShape(g);
    case Rosenbrock => assert RosenbrockShape(g, d);
    case Noisy => assert NoisyShape(g, d);
    case Deceptive => assert DeceptiveShape(g, d);
  }

  /**
   * `TerrainGenerator.generate`: the primary peak at a random target, the archetype's
   * features, and the height at the target recorded as the field's maximum.
   */
  function Generate(m: Math, level: Level, s: Vec, g: Rng): (r: (Field, Rng))
    requires 0.0 <= level.difficulty <= 1.0
    ensures WellFormed(r.0)
    ensures r.0.kind == level.terrain
    ensures |r.0.peaks| >= 1 && r.0.peaks[0] == Primary(r.0.target, level.difficulty)
    ensures r.0.maxHeight == Height(m, r.0, r.0.target)
    ensures level.dimension < 2 ==> r.0.target.y == s.y
    ensures level.dimension < 3 ==> r.0.target.z == s.z
    ensures ArchetypeShape(r.0, level.terrain, level.difficulty)
  {
    var (t, g1) := PlaceTarget(m, level, s, g);
    var f0 := Field([Primary(t, level.difficulty)], 0.0, t, level.terrain, [], None, None, None);
    var (f1, g2) := AddFeatures(m, level.terrain, level.difficulty, s, f0, g1);
    var f2 := f1.(maxHeight := Height(m, f1, t));
    RecordMaximum(f1, level.terrain, level.difficulty, Height(m, f1, t));
    HeightIgnoresMaximum(m, f1, Height(m, f1, t), t);
    (f2, g2)
  }
}
