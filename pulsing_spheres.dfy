/** The pulsing spheres and glowing data nodes of the visualisation: the
    one-time generation of their parameters from random draws, the per-frame
    scale and opacity oscillators of a sphere, the glow "bounce" of a node,
    and this component's own copy of the hex-to-hue converter. */
module PulsingSpheres {
  import opened MathModel
  import HexHue

  /** This component's copy of the `baseColorHue` memo, written out again:
      lower-case, parse the three channels, six-case hue; 45 without `#`.
      It computes the same hue as the formations' converter, so both
      components colour themselves from one hue, in [0, 360). */
  function BaseColorHue(color: string): (r: real)
    requires HexHue.StartsWithHash(color) ==> HexHue.WellFormedHex(color)
    ensures r == HexHue.BaseColorHue(color)
    ensures 0.0 <= r < 360.0
  {
    HexHue.LowerCaseKeepsHash(color);
    var hex := HexHue.ToLower(color);
    if HexHue.StartsWithHash(hex) then
      var c := HexHue.Channels(hex);
      CopiedHue(c.r as real / 255.0, c.g as real / 255.0, c.b as real / 255.0)
    else 45.0
  }

  /** The copy's six-case formula on normalised channels: the formations'
      hue formula, case for case. */
  function CopiedHue(r: real, g: real, b: real): (h: real)
    ensures h == HexHue.Hue(r, g, b)
  {
    var max := HexHue.Max3(r, g, b);
    var min := HexHue.Min3(r, g, b);
    if max == min then 0.0
    else if max == r then 60.0 * ((g - b) / (max - min)) + (if g < b then 360.0 else 0.0)
    else if max == g then 60.0 * ((b - r) / (max - min)) + 120.0
    else 60.0 * ((r - g) / (max - min)) + 240.0
  }

  /** The scale of a sphere at `time`: 0.2 * sin(time * speed + phase) + 1,
      which stays in [0.8, 1.2] for every time. */
  function SphereScale(time: real, pulseSpeed: real, animationSpeed: real, phaseOffset: real, m: MathLib): (s: real)
    requires m.Valid()
    ensures 0.8 <= s <= 1.2
  {
    0.2 * m.sin(time * (pulseSpeed * animationSpeed) + phaseOffset) + 1.0
  }

  /** The opacity of a sphere at `time`: 0.3 * sin(time * speed * 0.7 + phase) + 0.5,
      which stays in [0.2, 0.8] for every time. */
  function SphereOpacity(time: real, pulseSpeed: real, animationSpeed: real, phaseOffset: real, m: MathLib): (o: real)
    requires m.Valid()
    ensures 0.2 <= o <= 0.8
  {
    0.3 * m.sin(time * (pulseSpeed * animationSpeed) * 0.7 + phaseOffset) + 0.5
  }

  /** A mounted `PulsingSphere`: its mesh scale and material opacity. */
  class PulsingSphere {
    const pulseSpeed: real
    const phaseOffset: real
    const animationSpeed: real
    var scale: real
    var opacity: real

    /** The mesh starts at scale 1 and the material at opacity 0.5. */
    constructor (pulseSpeed: real, phaseOffset: real, animationSpeed: real)
      ensures this.pulseSpeed == pulseSpeed && this.phaseOffset == phaseOffset
      ensures this.animationSpeed == animationSpeed
      ensures scale == 1.0 && opacity == 0.5
    {
      this.pulseSpeed, this.phaseOffset, this.animationSpeed := pulseSpeed, phaseOffset, animationSpeed;
      scale, opacity := 1.0, 0.5;
    }

    /** The `useFrame` callback; nothing changes while the mesh ref is null. */
    method Frame(mounted: bool, time: real, m: MathLib)
      requires m.Valid()
      modifies this
      ensures !mounted ==> scale == old(scale) && opacity == old(opacity)
      ensures mounted ==> scale == SphereScale(time, pulseSpeed, animationSpeed, phaseOffset, m)
      ensures mounted ==> opacity == SphereOpacity(time, pulseSpeed, animationSpeed, phaseOffset, m)
      ensures mounted ==> 0.8 <= scale <= 1.2 && 0.2 <= opacity <= 0.8
    {
      if !mounted {
        return;
      }
      scale := SphereScale(time, pulseSpeed, animationSpeed, phaseOffset, m);
      opacity := SphereOpacity(time, pulseSpeed, animationSpeed, phaseOffset, m);
    }
  }

  /** The glow intensity ref and the glow direction ref of a data node. */
  datatype Glow = Glow(intensity: real, direction: int)

  /** One glow step: move by glowSpeed in the current direction, then turn
      down above 1.2 and up below 0.7; in between keep the direction. */
  function GlowStep(g: Glow, glowSpeed: real): (r: Glow)
    ensures r.intensity == g.intensity + glowSpeed * g.direction as real
    ensures r.intensity > 1.2 ==> r.direction == -1
    ensures r.intensity < 0.7 ==> r.direction == 1
    ensures 0.7 <= r.intensity <= 1.2 ==> r.direction == g.direction
  {
    var i := g.intensity + glowSpeed * g.direction as real;
    Glow(i, if i > 1.2 then -1 else if i < 0.7 then 1 else g.direction)
  }

  /** The band a node's glow keeps to: within [0.7 - s, 1.2 + s], rising only
      from at most 1.2 and falling only from at least 0.7. */
  ghost predicate GlowBand(g: Glow, glowSpeed: real)
  {
    && (g.direction == 1 || g.direction == -1)
    && 0.7 - glowSpeed <= g.intensity <= 1.2 + glowSpeed
    && (g.direction == 1 ==> g.intensity <= 1.2)
    && (g.direction == -1 ==> g.intensity >= 0.7)
  }

  /** The glow after `n` frames. */
  function GlowAfter(g: Glow, glowSpeed: real, n: nat): Glow
    decreases n
  {
    if n == 0 then g else GlowAfter(GlowStep(g, glowSpeed), glowSpeed, n - 1)
  }

  /** The initial glow: intensity `u * 0.3 + 0.7`, direction up when `w > 0.5`. */
  function InitialGlow(u: real, w: real): (g: Glow)
    requires IsDraw(u) && IsDraw(w)
    ensures 0.7 <= g.intensity < 1.0
    ensures forall s :: s > 0.0 ==> GlowBand(g, s)
  {
    Glow(u * 0.3 + 0.7, if w > 0.5 then 1 else -1)
  }

  /** From any start in the band, and in particular from the initial glow,
      the intensity stays within [0.7 - s, 1.2 + s] for every number of frames. */
  lemma {:induction false} GlowStaysInBand(g: Glow, glowSpeed: real, n: nat)
    requires glowSpeed > 0.0 && GlowBand(g, glowSpeed)
    ensures GlowBand(GlowAfter(g, glowSpeed, n), glowSpeed)
    ensures 0.7 - glowSpeed <= GlowAfter(g, glowSpeed, n).intensity <= 1.2 + glowSpeed
    decreases n
  {
    if n > 0 {
      var next := GlowStep(g, glowSpeed);
      assert GlowBand(next, glowSpeed);
      GlowStaysInBand(next, glowSpeed, n - 1);
    }
  }

  /** A mounted `DataNode`: its glow refs and its material opacity. */
  class DataNode {
    const animationSpeed: real
    var glowIntensity: real
    var glowDirection: int
    var opacity: real

    function GlowSpeed(): real
    {
      0.01 * animationSpeed
    }

    ghost predicate Valid()
      reads this
    {
      animationSpeed > 0.0 && GlowBand(Glow(glowIntensity, glowDirection), GlowSpeed())
    }

    /** `u` and `w` are the two draws behind the initial glow refs; the
        material starts at opacity 0.8. */
    constructor (animationSpeed: real, u: real, w: real)
      requires animationSpeed > 0.0 && IsDraw(u) && IsDraw(w)
      ensures Valid() && this.animationSpeed == animationSpeed
      ensures Glow(glowIntensity, glowDirection) == InitialGlow(u, w) && opacity == 0.8
    {
      this.animationSpeed := animationSpeed;
      glowIntensity := u * 0.3 + 0.7;
      glowDirection := if w > 0.5 then 1 else -1;
      opacity := 0.8;
    }

    /** The `useFrame` callback; nothing changes while the mesh ref is null.
        The opacity written is the updated intensity. */
    method Frame(mounted: bool)
      requires Valid()
      modifies this
      ensures Valid()
      ensures !mounted ==> glowIntensity == old(glowIntensity) && glowDirection == old(glowDirection) && opacity == old(opacity)
      ensures mounted ==> Glow(glowIntensity, glowDirection) == GlowStep(old(Glow(glowIntensity, glowDirection)), GlowSpeed())
      ensures mounted ==> opacity == glowIntensity
    {
      if !mounted {
        return;
      }
      var glowSpeed := 0.01 * animationSpeed;
      glowIntensity := glowIntensity + glowSpeed * glowDirection as real;
      if glowIntensity > 1.2 {
        glowDirection := -1;
      } else if glowIntensity < 0.7 {
        glowDirection := 1;
      }
      opacity := glowIntensity;
    }
  }

  /** Hue, saturation and lightness of an `hsl(...)` colour string. */
  datatype Hsl = Hsl(hue: real, saturation: real, lightness: real)

  /** `2 + Math.random() * 1.5`: a sphere's distance from the axis. */
  function OrbitRadius(u: real): (r: real)
    requires IsDraw(u)
    ensures 2.0 <= r < 3.5
  {
    2.0 + u * 1.5
  }

  /** `(Math.random() - 0.5) * 2`: a sphere's height. */
  function OrbitHeight(u: real): (z: real)
    requires IsDraw(u)
    ensures -1.0 <= z < 1.0
  {
    (u - 0.5) * 2.0
  }

  /** `0.1 + Math.random() * 0.15`: a sphere's base radius. */
  function SphereBaseRadius(u: real): (r: real)
    requires IsDraw(u)
    ensures 0.1 <= r < 0.25
  {
    0.1 + u * 0.15
  }

  /** `55 + Math.random() * 15`: a sphere's lightness in percent. */
  function SphereLightness(u: real): (l: real)
    requires IsDraw(u)
    ensures 55.0 <= l < 70.0
  {
    55.0 + u * 15.0
  }

  /** `0.5 + Math.random() * 0.5`: a sphere's pulse speed. */
  function PulseSpeed(u: real): (s: real)
    requires IsDraw(u)
    ensures 0.5 <= s < 1.0
  {
    0.5 + u * 0.5
  }

  /** `Math.random() * Math.PI * 2`: a phase in [0, 2 pi). */
  function PhaseOffset(u: real): (p: real)
    requires IsDraw(u)
    ensures 0.0 <= p < 2.0 * Pi
  {
    u * Pi * 2.0
  }

  /** The six draws one sphere consumes, in the order the source makes them. */
  datatype SphereDraws = SphereDraws(radius: real, z: real, baseRadius: real, lightness: real, pulseSpeed: real, phase: real)
  {
    predicate Valid()
    {
      IsDraw(radius) && IsDraw(z) && IsDraw(baseRadius) && IsDraw(lightness) && IsDraw(pulseSpeed) && IsDraw(phase)
    }
  }

  datatype SphereParams = SphereParams(position: Vector3, baseRadius: real, color: Hsl, pulseSpeed: real, phaseOffset: real)

  /** The angle of sphere `i`: an equal third of a turn each. */
  function SphereAngle(i: nat): real
  {
    (Pi * 2.0 * i as real) / 3.0
  }

  /** The parameters of sphere `i` made from its draws; it sits less than
      3.5 from the axis in each horizontal coordinate. */
  function SphereFrom(i: nat, hue: real, d: SphereDraws, m: MathLib): (p: SphereParams)
    requires d.Valid() && m.Valid()
    ensures Abs(p.position.x) < 3.5 && Abs(p.position.y) < 3.5
  {
    var radius := OrbitRadius(d.radius);
    ShrinkingFactor(radius, m.cos(SphereAngle(i)));
    ShrinkingFactor(radius, m.sin(SphereAngle(i)));
    SphereParams(
      Vector3(radius * m.cos(SphereAngle(i)), radius * m.sin(SphereAngle(i)), OrbitHeight(d.z)),
      SphereBaseRadius(d.baseRadius),
      Hsl(hue, 95.0, SphereLightness(d.lightness)),
      PulseSpeed(d.pulseSpeed),
      PhaseOffset(d.phase))
  }

  /** The `spheres` memo: exactly three spheres, sphere `i` built from the
      i-th group of draws, all in the base hue and with every parameter in
      its documented range. */
  method GenerateSpheres(hue: real, draws: seq<SphereDraws>, m: MathLib) returns (spheres: seq<SphereParams>)
    requires |draws| == 3 && forall k :: 0 <= k < 3 ==> draws[k].Valid()
    requires m.Valid()
    ensures |spheres| == 3
    ensures forall k :: 0 <= k < 3 ==> spheres[k] == SphereFrom(k, hue, draws[k], m)
    ensures forall k :: 0 <= k < 3 ==>
      && spheres[k].color == Hsl(hue, 95.0, spheres[k].color.lightness)
      && 55.0 <= spheres[k].color.lightness < 70.0
      && -1.0 <= spheres[k].position.z < 1.0
      && 0.1 <= spheres[k].baseRadius < 0.25
      && 0.5 <= spheres[k].pulseSpeed < 1.0
      && 0.0 <= spheres[k].phaseOffset < 2.0 * Pi
      && Abs(spheres[k].position.x) < 3.5 && Abs(spheres[k].position.y) < 3.5
  {
    spheres := [];
    for i := 0 to 3
      invariant |spheres| == i
      invariant forall k :: 0 <= k < i ==> spheres[k] == SphereFrom(k, hue, draws[k], m)
    {
      var d := draws[i];
      var angle := SphereAngle(i);
      var radius := OrbitRadius(d.radius);
      var x := radius * m.cos(angle);
      var y := radius * m.sin(angle);
      var z := OrbitHeight(d.z);
      spheres := spheres + [SphereParams(
        Vector3(x, y, z),
        SphereBaseRadius(d.baseRadius),
        Hsl(hue, 95.0, SphereLightness(d.lightness)),
        PulseSpeed(d.pulseSpeed),
        PhaseOffset(d.phase))];
    }
  }

  /** `2 + Math.random() * 3`: a node's distance from the centre. */
  function NodeRadius(u: real): (r: real)
    requires IsDraw(u)
    ensures 2.0 <= r < 5.0
  {
    2.0 + u * 3.0
  }

  /** `0.03 + Math.random() * 0.04`: a node's size. */
  function NodeSize(u: real): (s: real)
    requires IsDraw(u)
    ensures 0.03 <= s < 0.07
  {
    0.03 + u * 0.04
  }

  /** `60 + Math.random() * 15`: a node's lightness in percent. */
  function NodeLightness(u: real): (l: real)
    requires IsDraw(u)
    ensures 60.0 <= l < 75.0
  {
    60.0 + u * 15.0
  }

  /** The five draws one node consumes, in the order the source makes them. */
  datatype NodeDraws = NodeDraws(theta: real, phi: real, radius: real, size: real, lightness: real)
  {
    predicate Valid()
    {
      IsDraw(theta) && IsDraw(phi) && IsDraw(radius) && IsDraw(size) && IsDraw(lightness)
    }
  }

  datatype NodeParams = NodeParams(position: Vector3, size: real, color: Hsl)

  /** A node placed on a sphere of radius `2 + u * 3` at the sampled angles,
      in the base hue: size and lightness in range, and no coordinate
      reaching 5 in magnitude. */
  function NodeFrom(hue: real, d: NodeDraws, m: MathLib): (n: NodeParams)
    requires d.Valid() && m.Valid()
    ensures n.color == Hsl(hue, 100.0, n.color.lightness)
    ensures 60.0 <= n.color.lightness < 75.0 && 0.03 <= n.size < 0.07
    ensures Abs(n.position.x) < 5.0 && Abs(n.position.y) < 5.0 && Abs(n.position.z) < 5.0
  {
    var theta := d.theta * Pi * 2.0;
    var phi := m.acos(2.0 * d.phi - 1.0);
    var r := NodeRadius(d.radius);
    NodeParams(
      Cartesian(r, m.sin(phi), m.cos(phi), m.sin(theta), m.cos(theta)),
      NodeSize(d.size),
      Hsl(hue, 100.0, NodeLightness(d.lightness)))
  }

  /** The node count of the `dataNodes` memo. */
  const NodeCount: nat := 40

  /** The `dataNodes` memo: exactly 40 nodes, node `i` built from the i-th
      group of draws, in the base hue, with size and lightness in range and
      every coordinate of magnitude below 5. */
  method GenerateNodes(hue: real, draws: seq<NodeDraws>, m: MathLib) returns (nodes: seq<NodeParams>)
    requires |draws| == NodeCount && forall k :: 0 <= k < NodeCount ==> draws[k].Valid()
    requires m.Valid()
    ensures |nodes| == 40
    ensures forall k :: 0 <= k < NodeCount ==> nodes[k] == NodeFrom(hue, draws[k], m)
    ensures forall k :: 0 <= k < NodeCount ==>
      && nodes[k].color == Hsl(hue, 100.0, nodes[k].color.lightness)
      && 60.0 <= nodes[k].color.lightness < 75.0
      && 0.03 <= nodes[k].size < 0.07
      && Abs(nodes[k].position.x) < 5.0 && Abs(nodes[k].position.y) < 5.0 && Abs(nodes[k].position.z) < 5.0
  {
    nodes := [];
    for i := 0 to NodeCount
      invariant |nodes| == i
      invariant forall k :: 0 <= k < i ==> nodes[k] == NodeFrom(hue, draws[k], m)
    {
      var d := draws[i];
      var theta := d.theta * Pi * 2.0;
      var phi := m.acos(2.0 * d.phi - 1.0);
      var r := NodeRadius(d.radius);
      var x := r * m.sin(phi) * m.cos(theta);
      var y := r * m.sin(phi) * m.sin(theta);
      var z := r * m.cos(phi);
      var node := NodeParams(Vector3(x, y, z), NodeSize(d.size), Hsl(hue, 100.0, NodeLightness(d.lightness)));
      assert node == NodeFrom(hue, d, m);
      nodes := nodes + [node];
    }
  }
}
