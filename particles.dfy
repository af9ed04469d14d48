/** The particle sphere of the visualisation: positions sampled once near a
    sphere's surface and stored flat in a buffer of 3 * count numbers, sizes
    drawn once, a pristine copy of the positions, and the frame loop that
    rewrites every position in place as the pristine position plus a small
    oscillation. */
module Particles {
  import opened MathModel

  /** `radius + (Math.random() - 0.5) * variability`: within half the
      variability of the nominal radius, and strictly below its upper end. */
  function SampleRadius(radius: real, variability: real, w: real): (r: real)
    requires IsDraw(w)
    ensures variability >= 0.0 ==> radius - variability / 2.0 <= r <= radius + variability / 2.0
    ensures variability > 0.0 ==> r < radius + variability / 2.0
  {
    OffsetWithinHalf(w, variability);
    radius + (w - 0.5) * variability
  }

  lemma OffsetWithinHalf(w: real, variability: real)
    requires IsDraw(w)
    ensures variability >= 0.0 ==> -variability / 2.0 <= (w - 0.5) * variability <= variability / 2.0
    ensures variability > 0.0 ==> (w - 0.5) * variability < variability / 2.0
  {
    if variability >= 0.0 {
      ProductNonNegative(w, variability);
      ProductNonNegative(1.0 - w, variability);
    }
    if variability > 0.0 {
      ProductPositive(1.0 - w, variability);
    }
  }

  /** The three draws of `randomPointOnSphere`: azimuth, polar and radius. */
  datatype SphereDraw = SphereDraw(u: real, v: real, w: real)
  {
    predicate Valid()
    {
      IsDraw(u) && IsDraw(v) && IsDraw(w)
    }
  }

  /** `randomPointOnSphere`: azimuth 2 pi u, polar angle acos(2v - 1), and the
      perturbed radius r: no coordinate exceeds |r| in magnitude. */
  function RandomPointOnSphere(radius: real, variability: real, d: SphereDraw, m: MathLib): (p: Vector3)
    requires d.Valid() && m.Valid()
    ensures Abs(p.x) <= Abs(SampleRadius(radius, variability, d.w))
    ensures Abs(p.y) <= Abs(SampleRadius(radius, variability, d.w))
    ensures Abs(p.z) <= Abs(SampleRadius(radius, variability, d.w))
  {
    var theta := 2.0 * Pi * d.u;
    var phi := m.acos(2.0 * d.v - 1.0);
    Cartesian(SampleRadius(radius, variability, d.w), m.sin(phi), m.cos(phi), m.sin(theta), m.cos(theta))
  }

  /** Particle i's sample at the call site: variability is 15% of the radius,
      so for a positive radius the sampled distance is below 107.5% of it and
      so is every coordinate's magnitude. */
  function ParticlePoint(radius: real, d: SphereDraw, m: MathLib): (p: Vector3)
    requires d.Valid() && m.Valid()
    ensures radius > 0.0 ==>
      Abs(p.x) < radius * 1.075 && Abs(p.y) < radius * 1.075 && Abs(p.z) < radius * 1.075
  {
    if radius > 0.0 then
      ParticleRadiusBand(radius, d.w);
      RandomPointOnSphere(radius, radius * 0.15, d, m)
    else
      RandomPointOnSphere(radius, radius * 0.15, d, m)
  }

  /** For a positive radius, the sampled distance lies within 7.5% of it. */
  lemma ParticleRadiusBand(radius: real, w: real)
    requires radius > 0.0 && IsDraw(w)
    ensures radius - radius * 0.075 <= SampleRadius(radius, radius * 0.15, w) < radius + radius * 0.075
  {
  }

  /** Slot j (0, 1 or 2) of a point in the flat buffer. */
  function Coordinate(p: Vector3, j: nat): real
  {
    if j == 0 then p.x else if j == 1 then p.y else p.z
  }

  /** `Math.pow(Math.random(), 2) * 0.5 + 0.08`: a size in [0.08, 0.58). */
  function ParticleSize(u: real): (s: real)
    requires IsDraw(u)
    ensures 0.08 <= s < 0.58
  {
    ProductNonNegative(u, u);
    ProductNonNegative(u, 1.0 - u);
    assert u * (1.0 - u) == u - u * u;
    u * u * 0.5 + 0.08
  }

  /** The `positions` memo: a fresh buffer of 3 * count numbers whose slots
      3i, 3i + 1 and 3i + 2 hold the coordinates of particle i. */
  method GeneratePositions(count: nat, radius: real, draws: seq<SphereDraw>, m: MathLib) returns (positions: array<real>)
    requires m.Valid()
    requires |draws| == count && forall i :: 0 <= i < count ==> draws[i].Valid()
    ensures fresh(positions) && positions.Length == 3 * count
    ensures forall j, c :: 0 <= j < count && 0 <= c < 3 ==>
      positions[3 * j + c] == Coordinate(ParticlePoint(radius, draws[j], m), c)
  {
    positions := new real[count * 3];
    for i := 0 to count
      invariant forall j, c :: 0 <= j < i && 0 <= c < 3 ==>
        positions[3 * j + c] == Coordinate(ParticlePoint(radius, draws[j], m), c)
    {
      var p := RandomPointOnSphere(radius, radius * 0.15, draws[i], m);
      positions[i * 3] := p.x;
      positions[i * 3 + 1] := p.y;
      positions[i * 3 + 2] := p.z;
    }
  }

  /** The `sizes` memo: a fresh buffer with one size per particle. */
  method GenerateSizes(count: nat, draws: seq<real>) returns (sizes: array<real>)
    requires |draws| == count && forall i :: 0 <= i < count ==> IsDraw(draws[i])
    ensures fresh(sizes) && sizes.Length == count
    ensures forall i :: 0 <= i < count ==> sizes[i] == ParticleSize(draws[i])
    ensures forall i :: 0 <= i < count ==> 0.08 <= sizes[i] < 0.58
  {
    sizes := new real[count];
    for i := 0 to count
      invariant forall j :: 0 <= j < i ==> sizes[j] == ParticleSize(draws[j])
    {
      sizes[i] := ParticleSize(draws[i]);
    }
  }

  /** `new Float32Array(positions)`: a fresh copy. */
  method CopyBuffer(source: array<real>) returns (copy: array<real>)
    ensures fresh(copy) && copy[..] == source[..]
  {
    copy := new real[source.Length];
    for k := 0 to source.Length
      invariant copy[..k] == source[..k]
    {
      copy[k] := source[k];
    }
  }

  /** The three oscillators of the frame loop, amplitude 0.02, frequency 0.15,
      with the phase `i * 0.01` scaled per axis. */
  function OffsetX(time: real, phase: real, m: MathLib): (d: real)
    requires m.Valid()
    ensures -0.02 <= d <= 0.02
  {
    m.sin(time * 0.15 + phase) * 0.02
  }

  function OffsetY(time: real, phase: real, m: MathLib): (d: real)
    requires m.Valid()
    ensures -0.02 <= d <= 0.02
  {
    m.cos(time * 0.15 + phase * 1.3) * 0.02
  }

  function OffsetZ(time: real, phase: real, m: MathLib): (d: real)
    requires m.Valid()
    ensures -0.02 <= d <= 0.02
  {
    m.sin(time * 0.15 * 0.7 + phase * 0.5) * 0.02
  }

  /** Coordinate c of particle j after a frame at `time`: its pristine value
      plus the oscillator of its axis with the phase j * 0.01. It depends on
      nothing but the time, the slot and the pristine buffer, and never moves
      a coordinate more than 0.02 from its pristine value. */
  function Animated(time: real, original: seq<real>, j: nat, c: nat, m: MathLib): (v: real)
    requires c < 3 && 3 * j + c < |original| && m.Valid()
    ensures original[3 * j + c] - 0.02 <= v <= original[3 * j + c] + 0.02
  {
    var phase := j as real * 0.01;
    if c == 0 then original[3 * j] + OffsetX(time, phase, m)
    else if c == 1 then original[3 * j + 1] + OffsetY(time, phase, m)
    else original[3 * j + 2] + OffsetZ(time, phase, m)
  }

  /** A mounted `ParticleSystem`: the position buffer the geometry shows,
      the size buffer and the pristine copy of the positions. */
  class ParticleSystem {
    const count: nat
    const positions: array<real>
    const sizes: array<real>
    const originalPositions: array<real>

    ghost predicate Valid()
      reads this
    {
      && positions.Length == 3 * count
      && originalPositions.Length == 3 * count
      && sizes.Length == count
      && positions != originalPositions
      && positions != sizes
    }

    /** The three memos, in the order React computes them. */
    constructor (count: nat, radius: real, pointDraws: seq<SphereDraw>, sizeDraws: seq<real>, m: MathLib)
      requires m.Valid()
      requires |pointDraws| == count && forall i :: 0 <= i < count ==> pointDraws[i].Valid()
      requires |sizeDraws| == count && forall i :: 0 <= i < count ==> IsDraw(sizeDraws[i])
      ensures Valid() && this.count == count
      ensures fresh(positions) && fresh(sizes) && fresh(originalPositions)
      ensures forall j, c :: 0 <= j < count && 0 <= c < 3 ==>
        positions[3 * j + c] == Coordinate(ParticlePoint(radius, pointDraws[j], m), c)
      ensures originalPositions[..] == positions[..]
      ensures forall i :: 0 <= i < count ==> 0.08 <= sizes[i] < 0.58
    {
      this.count := count;
      var p := GeneratePositions(count, radius, pointDraws, m);
      var s := GenerateSizes(count, sizeDraws);
      var o := CopyBuffer(p);
      positions, sizes, originalPositions := p, s, o;
    }

    /** The `useFrame` callback: while the points ref is null nothing
        changes; otherwise every slot of the position buffer, and only that
        buffer, is rewritten from the pristine copy. */
    method Frame(mounted: bool, time: real, m: MathLib)
      requires Valid() && m.Valid()
      modifies positions
      ensures originalPositions[..] == old(originalPositions[..])
      ensures !mounted ==> positions[..] == old(positions[..])
      ensures mounted ==> forall j, c :: 0 <= j < count && 0 <= c < 3 ==>
        positions[3 * j + c] == Animated(time, originalPositions[..], j, c, m)
    {
      if !mounted {
        return;
      }
      ghost var original := originalPositions[..];
      for i := 0 to count
        invariant originalPositions[..] == original
        invariant forall j, c :: 0 <= j < i && 0 <= c < 3 ==>
          positions[3 * j + c] == Animated(time, original, j, c, m)
      {
        var i3 := i * 3;
        var origX := originalPositions[i3];
        var origY := originalPositions[i3 + 1];
        var origZ := originalPositions[i3 + 2];
        var phase := i as real * 0.01;
        positions[i3] := origX + OffsetX(time, phase, m);
        positions[i3 + 1] := origY + OffsetY(time, phase, m);
        positions[i3 + 2] := origZ + OffsetZ(time, phase, m);
      }
    }
  }
}
