/** The pointer tracker of the visualisation page: a mouse-move handler that
    normalises the pointer to [-1, 1], smooths its velocity and points the
    orbit camera, and a momentum tick that, once the pointer is idle, decays
    the velocity and nudges the camera with it, clamping the polar angle.
    Both share the refs for velocity, last position, moving flag and last
    timestamp; times are `performance.now()` milliseconds. */
module PointerTracking {
  import opened MathModel

  /** client / extent lies in [0, 1] exactly when client lies in [0, extent]. */
  lemma QuotientInUnitRange(client: real, extent: real)
    requires extent > 0.0
    ensures 0.0 <= client / extent <==> 0.0 <= client
    ensures client / extent <= 1.0 <==> client <= extent
  {
    QuotientComparison(client, extent, 0.0);
    QuotientComparison(client, extent, 1.0);
  }

  /** Dividing by a positive extent preserves comparisons: client / extent
      sits above, at or below k exactly as client sits against k * extent. */
  lemma QuotientComparison(client: real, extent: real, k: real)
    requires extent > 0.0
    ensures client / extent < k <==> client < k * extent
    ensures client / extent == k <==> client == k * extent
  {
    var q := client / extent;
    assert q * extent == client;
    assert (q - k) * extent == client - k * extent;
    if q > k {
      ProductPositive(q - k, extent);
    } else if q < k {
      ProductPositive(k - q, extent);
      assert (k - q) * extent == k * extent - client;
    }
  }

  /** `(client / extent) * 2 - 1`: inside [-1, 1] exactly when the client
      coordinate lies within the viewport extent. */
  function NormalizedCoordinate(client: real, extent: real): (c: real)
    requires extent > 0.0
    ensures -1.0 <= c <= 1.0 <==> 0.0 <= client <= extent
    ensures c == 0.0 <==> client * 2.0 == extent
  {
    var q := client / extent;
    QuotientInUnitRange(client, extent);
    QuotientComparison(client, extent, 0.5);
    q * 2.0 - 1.0
  }

  /** `Math.max(deltaTime, 0.01)`: never below 0.01 seconds. */
  function Divisor(dt: real): (d: real)
    ensures d >= 0.01
    ensures dt >= 0.01 ==> d == dt
  {
    Max(dt, 0.01)
  }

  /** The instantaneous velocity on one axis: the displacement over the
      clamped time step, so at most 100 times the displacement. */
  function InstantVelocity(pos: real, last: real, dt: real): (v: real)
    ensures v * Divisor(dt) == pos - last
    ensures Abs(v) <= 100.0 * Abs(pos - last)
  {
    var d := Divisor(dt);
    var v := (pos - last) / d;
    assert v * d == pos - last;
    assert Abs(v) <= 100.0 * Abs(pos - last) by {
      if v >= 0.0 {
        ProductNonNegative(v, 100.0 * d - 1.0);
      } else {
        ProductNonNegative(-v, 100.0 * d - 1.0);
      }
    }
    v
  }

  /** Exponential smoothing `prev * 0.8 + instant * 0.2`: a convex combination. */
  function Smooth(prev: real, instant: real): (s: real)
    ensures Min(prev, instant) <= s <= Max(prev, instant)
    ensures Abs(s) <= Max(Abs(prev), Abs(instant))
  {
    prev * 0.8 + instant * 0.2
  }

  /** The camera's two angles, azimuthal and polar. */
  datatype Angles = Angles(azimuth: real, polar: real)

  predicate PolarInRange(p: real)
  {
    Pi / 4.0 <= p <= Pi * 3.0 / 4.0
  }

  /** The angles a mouse move sets: azimuth 0.5 x and polar pi/2 + 0.2 y; for a
      pointer inside the viewport the azimuth is within half a radian and the
      polar angle within the band the momentum clamp keeps. */
  function MoveCamera(x: real, y: real): (a: Angles)
    ensures -1.0 <= x <= 1.0 ==> -0.5 <= a.azimuth <= 0.5
    ensures -1.0 <= y <= 1.0 ==> PolarInRange(a.polar)
  {
    Angles(x * 0.5, Pi / 2.0 + y * 0.2)
  }

  /** `Math.min(Math.max(p, pi/4), 3pi/4)`. */
  function ClampPolar(p: real): (c: real)
    ensures PolarInRange(c)
    ensures PolarInRange(p) ==> c == p
    ensures p < Pi / 4.0 ==> c == Pi / 4.0
    ensures p > Pi * 3.0 / 4.0 ==> c == Pi * 3.0 / 4.0
  {
    Min(Max(p, Pi / 4.0), Pi * 3.0 / 4.0)
  }

  /** Clamping twice is clamping once. */
  lemma ClampPolarIdempotent(p: real)
    ensures ClampPolar(ClampPolar(p)) == ClampPolar(p)
  {
    var c := ClampPolar(p);
    assert PolarInRange(c);
  }

  /** `Math.pow(0.95, deltaTime * 60)`: a factor in (0, 1] for a non-negative step. */
  function Decay(dt: real, m: MathLib): (d: real)
    requires m.Valid()
    ensures dt >= 0.0 ==> 0.0 < d <= 1.0
  {
    m.pow(0.95, dt * 60.0)
  }

  lemma ScaledDown(b: real, d: real)
    ensures 0.0 <= d <= 1.0 ==> Abs(b * d) <= Abs(b)
  {
    if 0.0 <= d <= 1.0 {
      ShrinkingFactor(b, d);
    }
  }

  /** Both velocity components scaled by a factor in [0, 1] shrink or stay. */
  function Decayed(v: Vector2, d: real): (r: Vector2)
    ensures 0.0 <= d <= 1.0 ==> Abs(r.x) <= Abs(v.x) && Abs(r.y) <= Abs(v.y)
  {
    ScaledDown(v.x, d);
    ScaledDown(v.y, d);
    Vector2(v.x * d, v.y * d)
  }

  /** The momentum threshold: either component above 0.01 in magnitude. */
  predicate AboveThreshold(v: Vector2)
  {
    Abs(v.x) > 0.01 || Abs(v.y) > 0.01
  }

  /** The camera nudge of the momentum tick: above the threshold, the azimuth
      moves by 0.01 vx and the polar angle by 0.01 vy, clamped; below it the
      camera is left alone. */
  function Nudge(cam: Angles, v: Vector2): (r: Angles)
    ensures !AboveThreshold(v) ==> r == cam
    ensures AboveThreshold(v) ==> PolarInRange(r.polar)
    ensures AboveThreshold(v) && PolarInRange(cam.polar + v.y * 0.01) ==> r.polar == cam.polar + v.y * 0.01
  {
    if AboveThreshold(v) then Angles(cam.azimuth + v.x * 0.01, ClampPolar(cam.polar + v.y * 0.01))
    else cam
  }

  /** The four shared refs and the pointer position state. */
  datatype Pointer = Pointer(velocity: Vector2, last: Vector2, lastTime: real, moving: bool, mouse: Vector2)

  /** Seconds elapsed since the last event of either kind. */
  function Elapsed(p: Pointer, now: real): real
  {
    (now - p.lastTime) / 1000.0
  }

  /** `handleMouseMove` at `now` with normalised coordinates (x, y): the
      position is recorded, the flag set, the timestamp taken, and each
      velocity component smoothed towards the instantaneous one, so it
      stays within the larger of its old magnitude and 100 times the
      displacement. */
  function MouseMoveStep(p: Pointer, now: real, x: real, y: real): (r: Pointer)
    ensures r.moving && r.last == Vector2(x, y) && r.mouse == Vector2(x, y) && r.lastTime == now
    ensures Abs(r.velocity.x) <= Max(Abs(p.velocity.x), 100.0 * Abs(x - p.last.x))
    ensures Abs(r.velocity.y) <= Max(Abs(p.velocity.y), 100.0 * Abs(y - p.last.y))
  {
    var dt := Elapsed(p, now);
    var dx := InstantVelocity(x, p.last.x, dt);
    var dy := InstantVelocity(y, p.last.y, dt);
    Pointer(Vector2(Smooth(p.velocity.x, dx), Smooth(p.velocity.y, dy)), Vector2(x, y), now, true, Vector2(x, y))
  }

  /** `animateMomentum` at `now`, on the refs: the timestamp is always
      taken; while the pointer moves nothing else changes; once idle, the
      velocity is decayed, and for a non-negative step it never grows. */
  function TickStep(p: Pointer, now: real, m: MathLib): (r: Pointer)
    requires m.Valid()
    ensures r.lastTime == now
    ensures r.moving == p.moving && r.last == p.last && r.mouse == p.mouse
    ensures p.moving ==> r.velocity == p.velocity
    ensures now >= p.lastTime ==>
      Abs(r.velocity.x) <= Abs(p.velocity.x) && Abs(r.velocity.y) <= Abs(p.velocity.y)
  {
    if p.moving then p.(lastTime := now)
    else p.(lastTime := now, velocity := Decayed(p.velocity, Decay(Elapsed(p, now), m)))
  }

  /** `animateMomentum` at `now`, on the camera: unchanged while the
      pointer moves; once idle, nudged by the decayed velocity. */
  function TickCamera(p: Pointer, cam: Angles, now: real, m: MathLib): (r: Angles)
    requires m.Valid()
    ensures p.moving ==> r == cam
    ensures r == cam || PolarInRange(r.polar)
    ensures !p.moving && AboveThreshold(TickStep(p, now, m).velocity) ==> PolarInRange(r.polar)
  {
    if p.moving then cam else Nudge(cam, TickStep(p, now, m).velocity)
  }

  /** The state after ticks at the given times, in order. */
  function Ticks(p: Pointer, times: seq<real>, m: MathLib): Pointer
    requires m.Valid()
    decreases |times|
  {
    if |times| == 0 then p else Ticks(TickStep(p, times[0], m), times[1..], m)
  }

  predicate NonDecreasing(times: seq<real>)
  {
    forall i, j :: 0 <= i < j < |times| ==> times[i] <= times[j]
  }

  /** While the pointer stays idle, ticks at non-decreasing times never
      increase either velocity component. */
  lemma {:induction false} IdleVelocityNeverGrows(p: Pointer, times: seq<real>, m: MathLib)
    requires m.Valid() && !p.moving
    requires NonDecreasing(times) && (|times| > 0 ==> times[0] >= p.lastTime)
    ensures Abs(Ticks(p, times, m).velocity.x) <= Abs(p.velocity.x)
    ensures Abs(Ticks(p, times, m).velocity.y) <= Abs(p.velocity.y)
    decreases |times|
  {
    if |times| > 0 {
      var q := TickStep(p, times[0], m);
      assert |times[1..]| > 0 ==> times[1..][0] >= q.lastTime;
      IdleVelocityNeverGrows(q, times[1..], m);
    }
  }

  /** The `OrbitControls` instance, reduced to the two angles it is given. */
  class OrbitCamera {
    var azimuth: real
    var polar: real

    constructor (azimuth: real, polar: real)
      ensures this.azimuth == azimuth && this.polar == polar
    {
      this.azimuth := azimuth;
      this.polar := polar;
    }

    function Current(): Angles
      reads this
    {
      Angles(azimuth, polar)
    }
  }

  /** The component's refs and pointer state, with the camera it steers
      (absent while the controls ref is null). */
  class PointerTracker {
    var velocity: Vector2
    var lastMouse: Vector2
    var lastTime: real
    var moving: bool
    var mousePosition: Vector2
    const controls: OrbitCamera?

    ghost function State(): Pointer
      reads this
    {
      Pointer(velocity, lastMouse, lastTime, moving, mousePosition)
    }

    /** Mount at time `now`: zero velocity and positions, not moving. */
    constructor (now: real, controls: OrbitCamera?)
      ensures State() == Pointer(Vector2(0.0, 0.0), Vector2(0.0, 0.0), now, false, Vector2(0.0, 0.0))
      ensures this.controls == controls
    {
      velocity := Vector2(0.0, 0.0);
      lastMouse := Vector2(0.0, 0.0);
      lastTime := now;
      moving := false;
      mousePosition := Vector2(0.0, 0.0);
      this.controls := controls;
    }

    /** `handleMouseMove` for a pointer at (clientX, clientY) in a viewport of
        the given size. */
    method MouseMove(currentTime: real, clientX: real, clientY: real, width: real, height: real)
      requires width > 0.0 && height > 0.0
      modifies this, controls
      ensures State() == MouseMoveStep(old(State()), currentTime,
        NormalizedCoordinate(clientX, width), NormalizedCoordinate(clientY, height))
      ensures controls != null ==>
        controls.Current() == MoveCamera(NormalizedCoordinate(clientX, width), NormalizedCoordinate(clientY, height))
    {
      var deltaTime := (currentTime - lastTime) / 1000.0;
      lastTime := currentTime;
      var x := NormalizedCoordinate(clientX, width);
      var y := NormalizedCoordinate(clientY, height);
      var dx := InstantVelocity(x, lastMouse.x, deltaTime);
      var dy := InstantVelocity(y, lastMouse.y, deltaTime);
      lastMouse := Vector2(x, y);
      velocity := Vector2(Smooth(velocity.x, dx), Smooth(velocity.y, dy));
      mousePosition := Vector2(x, y);
      moving := true;
      if controls != null {
        var a := MoveCamera(x, y);
        controls.azimuth := a.azimuth;
        controls.polar := a.polar;
      }
    }

    /** The 100 ms timeout the handler arms: it clears the flag and nothing else. */
    method ClearMoving()
      modifies this
      ensures State() == old(State()).(moving := false)
    {
      moving := false;
    }

    /** One `animateMomentum` frame at `currentTime`. */
    method MomentumTick(currentTime: real, m: MathLib)
      requires m.Valid()
      modifies this, controls
      ensures State() == TickStep(old(State()), currentTime, m)
      ensures controls != null ==>
        controls.Current() == TickCamera(old(State()), old(controls.Current()), currentTime, m)
    {
      var deltaTime := (currentTime - lastTime) / 1000.0;
      lastTime := currentTime;
      if !moving {
        var decay := Decay(deltaTime, m);
        velocity := Decayed(velocity, decay);
        if AboveThreshold(velocity) {
          if controls != null {
            controls.azimuth := controls.azimuth + velocity.x * 0.01;
            controls.polar := ClampPolar(controls.polar + velocity.y * 0.01);
          }
        }
      }
    }
  }
}
