/** One rotating arc formation of the visualisation and its per-frame step:
    the rotation-axis transition scheduler, the eased blend of the live axis,
    the accumulation of the group's rotation angles and the opacity "fade
    bounce". React state (current and target axis, transition progress, next
    transition time) is read as it was at the start of the frame; the updates
    requested during the frame are what the next frame sees. */
module Formations {
  import opened MathModel

  /** `easeSineInOut`: -(cos(pi * t) - 1) / 2, which lies in [0, 1] for any t
      because cos does. */
  function EaseSineInOut(t: real, m: MathLib): (e: real)
    requires m.Valid()
    ensures 0.0 <= e <= 1.0
  {
    -(m.cos(Pi * t) - 1.0) / 2.0
  }

  /** a * (1 - t) + b * t, for t in [0, 1], lies between a and b. */
  function Lerp(a: real, b: real, t: real): (r: real)
    requires 0.0 <= t <= 1.0
    ensures Min(a, b) <= r <= Max(a, b)
    ensures t == 0.0 ==> r == a
  {
    assert a * (1.0 - t) + b * t == a + (b - a) * t;
    if a <= b then
      ProductNonNegative(b - a, t);
      ProductNonNegative(b - a, 1.0 - t);
      a * (1.0 - t) + b * t
    else
      ProductNonNegative(a - b, t);
      ProductNonNegative(a - b, 1.0 - t);
      a * (1.0 - t) + b * t
  }

  function LerpAxis(a: Vector3, b: Vector3, t: real): Vector3
    requires 0.0 <= t <= 1.0
  {
    Vector3(Lerp(a.x, b.x, t), Lerp(a.y, b.y, t), Lerp(a.z, b.z, t))
  }

  /** `Vector3.normalize`: multiply by 1 / length, or by 1 when the length
      is 0. The factor is positive, so every component keeps its sign. */
  function Normalize(v: Vector3, m: MathLib): (n: Vector3)
    requires m.Valid()
    ensures n.x > 0.0 <==> v.x > 0.0
    ensures n.x < 0.0 <==> v.x < 0.0
    ensures n.y > 0.0 <==> v.y > 0.0
    ensures n.y < 0.0 <==> v.y < 0.0
    ensures n.z > 0.0 <==> v.z > 0.0
    ensures n.z < 0.0 <==> v.z < 0.0
  {
    var len := m.sqrt(v.x * v.x + v.y * v.y + v.z * v.z);
    SumOfSquaresNonNegative(v.x, v.y, v.z);
    var k := 1.0 / (if len == 0.0 then 1.0 else len);
    PositiveScaleKeepsSigns(v, k);
    Scale(v, k)
  }

  lemma SumOfSquaresNonNegative(x: real, y: real, z: real)
    ensures 0.0 <= x * x + y * y + z * z
  {
  }

  /** Scaling by a positive factor keeps the sign of every component. */
  lemma PositiveScaleKeepsSigns(v: Vector3, k: real)
    requires k > 0.0
    ensures Scale(v, k).x > 0.0 <==> v.x > 0.0
    ensures Scale(v, k).x < 0.0 <==> v.x < 0.0
    ensures Scale(v, k).y > 0.0 <==> v.y > 0.0
    ensures Scale(v, k).y < 0.0 <==> v.y < 0.0
    ensures Scale(v, k).z > 0.0 <==> v.z > 0.0
    ensures Scale(v, k).z < 0.0 <==> v.z < 0.0
  {
    SignOfProduct(v.x, k);
    SignOfProduct(v.y, k);
    SignOfProduct(v.z, k);
  }

  lemma SignOfProduct(a: real, k: real)
    requires k > 0.0
    ensures a * k > 0.0 <==> a > 0.0
    ensures a * k < 0.0 <==> a < 0.0
  {
    if a > 0.0 {
      ProductPositive(a, k);
    } else if a < 0.0 {
      ProductPositive(-a, k);
    }
  }

  /** The five `Math.random()` draws a new transition consumes: three axis
      components, the magnitude and the delay to the next transition. */
  datatype TransitionDraws = TransitionDraws(ax: real, ay: real, az: real, magnitude: real, delay: real)
  {
    predicate Valid()
    {
      IsDraw(ax) && IsDraw(ay) && IsDraw(az) && IsDraw(magnitude) && IsDraw(delay)
    }
  }

  /** The un-normalised direction of a new target: each component uniform in [-1, 1). */
  function RawDirection(d: TransitionDraws): Vector3
  {
    Vector3((d.ax - 0.5) * 2.0, (d.ay - 0.5) * 2.0, (d.az - 0.5) * 2.0)
  }

  /** The raw direction, normalised and scaled by max(0.2, draw). Both
      factors are positive, so each component of the new axis is positive,
      negative or zero exactly as its draw is above, below or at 0.5; in
      particular the axis is zero only when all three draws are 0.5. */
  function NewTarget(d: TransitionDraws, m: MathLib): (t: Vector3)
    requires d.Valid() && m.Valid()
    ensures t.x > 0.0 <==> d.ax > 0.5
    ensures t.x < 0.0 <==> d.ax < 0.5
    ensures t.y > 0.0 <==> d.ay > 0.5
    ensures t.y < 0.0 <==> d.ay < 0.5
    ensures t.z > 0.0 <==> d.az > 0.5
    ensures t.z < 0.0 <==> d.az < 0.5
  {
    var n := Normalize(RawDirection(d), m);
    PositiveScaleKeepsSigns(n, Max(0.2, d.magnitude));
    Scale(n, Max(0.2, d.magnitude))
  }

  /** `time + Math.random() * 7 + 8`: between 8 and 15 seconds from now. */
  function NextTransitionTime(time: real, u: real): (t: real)
    requires IsDraw(u)
    ensures time + 8.0 <= t < time + 15.0
  {
    time + u * 7.0 + 8.0
  }

  /** `Math.min(progress + deltaTime * 0.2, 1)`. */
  function AdvanceProgress(p: real, deltaTime: real): (q: real)
    requires 0.0 <= deltaTime
    ensures q <= 1.0
    ensures p <= 1.0 ==> p <= q
    ensures q == 1.0 <==> p + deltaTime * 0.2 >= 1.0
  {
    Min(p + deltaTime * 0.2, 1.0)
  }

  /** The opacity ref and the fade direction ref. */
  datatype Fade = Fade(opacity: real, direction: int)

  /** One fade step: move the opacity by fadeSpeed in the current direction,
      then turn up at 0.2 or below, and turn down at 1 or above. */
  function FadeStep(f: Fade, fadeSpeed: real): (r: Fade)
    requires f.direction == 1 || f.direction == -1
    ensures r.opacity == f.opacity + fadeSpeed * f.direction as real
    ensures r.direction == 1 || r.direction == -1
    ensures r.direction != f.direction ==>
      (r.direction == 1 && r.opacity <= 0.2) || (r.direction == -1 && r.opacity >= 1.0)
    ensures f.direction == -1 && r.opacity <= 0.2 ==> r.direction == 1
    ensures f.direction == 1 && r.opacity >= 1.0 ==> r.direction == -1
  {
    if f.direction < 0 then
      var o := f.opacity - fadeSpeed;
      Fade(o, if o <= 0.2 then 1 else f.direction)
    else
      var o := f.opacity + fadeSpeed;
      Fade(o, if o >= 1.0 then -1 else f.direction)
  }

  /** The band the fade bounce keeps to: going down, the opacity is above 0.2
      and below 1 + fadeSpeed; going up, above 0.2 - fadeSpeed and below 1. */
  ghost predicate FadeBand(f: Fade, fadeSpeed: real)
  {
    || (f.direction == -1 && 0.2 < f.opacity < 1.0 + fadeSpeed)
    || (f.direction == 1 && 0.2 - fadeSpeed < f.opacity < 1.0)
  }

  lemma FadeStepKeepsBand(f: Fade, fadeSpeed: real)
    requires fadeSpeed > 0.0 && FadeBand(f, fadeSpeed)
    ensures FadeBand(FadeStep(f, fadeSpeed), fadeSpeed)
    ensures 0.2 - fadeSpeed < FadeStep(f, fadeSpeed).opacity < 1.0 + fadeSpeed
  {
  }

  /** The mouse's pull on one rotation angle: `angle += mouse * deltaTime * 0.5`. */
  function MouseTurn(angle: real, mouse: real, deltaTime: real): real
  {
    angle + mouse * deltaTime * 0.5
  }

  /** The axis's turn of one rotation angle: `angle += axis * effectiveSpeed * 0.01`. */
  function Spin(angle: real, axisComponent: real, effectiveSpeed: real): real
  {
    angle + axisComponent * effectiveSpeed * 0.01
  }

  /** The fixed props of a formation. */
  datatype FormationConfig = FormationConfig(rotationSpeed: real, animationSpeed: real, fadeInOut: bool)
  {
    function EffectiveSpeed(): real
    {
      rotationSpeed * animationSpeed
    }

    function FadeSpeed(): real
    {
      0.005 * animationSpeed
    }
  }

  /** Everything a frame can change: the group's rotation angles, the live
      rotation axis (the `rotationAxis` prop), the fade refs, the material's
      opacity and the four React state fields. */
  datatype FormationState = FormationState(
    rotation: Vector3,
    axis: Vector3,
    fade: Fade,
    shownOpacity: real,
    currentAxis: Vector3,
    targetAxis: Vector3,
    progress: real,
    nextTransitionTime: real)

  /** The inputs of one frame: elapsed time, the shared clock's delta, the
      mouse position prop and the draws a transition would use. */
  datatype FrameInput = FrameInput(time: real, deltaTime: real, mouse: Vector2, draws: TransitionDraws)
  {
    predicate Valid()
    {
      deltaTime >= 0.0 && draws.Valid()
    }
  }

  ghost predicate Inv(c: FormationConfig, s: FormationState)
  {
    && c.animationSpeed > 0.0
    && 0.0 <= s.progress <= 1.0
    && FadeBand(s.fade, c.FadeSpeed())
  }

  /** A transition starts when its time has come and the last one is over. */
  predicate Triggers(s: FormationState, time: real)
  {
    time > s.nextTransitionTime && s.progress >= 1.0
  }

  /** The state a mounted formation starts in: the axis copied into both
      state vectors, transition complete, first transition 5 to 15 seconds in. */
  function InitialState(axis: Vector3, u: real): (s: FormationState)
    requires IsDraw(u)
    ensures 5.0 <= s.nextTransitionTime < 15.0
  {
    FormationState(Vector3(0.0, 0.0, 0.0), axis, Fade(1.0, -1), 1.0, axis, axis, 1.0, u * 10.0 + 5.0)
  }

  /** The live axis after a frame's blend: while a transition runs, the
      current and target axes eased by the progress the frame started with. */
  function LiveAxis(s: FormationState, m: MathLib): Vector3
    requires m.Valid()
  {
    if s.progress < 1.0
    then LerpAxis(s.currentAxis, s.targetAxis, EaseSineInOut(s.progress, m))
    else s.axis
  }

  /** The group's rotation after the mouse pull and the turn about the live axis. */
  function Rotate(rotation: Vector3, axis: Vector3, mouse: Vector2, deltaTime: real, effectiveSpeed: real): Vector3
  {
    Vector3(Spin(MouseTurn(rotation.x, mouse.y, deltaTime), axis.x, effectiveSpeed),
            Spin(MouseTurn(rotation.y, mouse.x, deltaTime), axis.y, effectiveSpeed),
            Spin(rotation.z, axis.z, effectiveSpeed))
  }

  /** One frame of a mounted formation. It keeps the progress in [0, 1] and
      the opacity in its band, inside (0.2 - fadeSpeed, 1 + fadeSpeed). */
  function Step(c: FormationConfig, s: FormationState, i: FrameInput, m: MathLib): (r: FormationState)
    requires m.Valid()
    requires Inv(c, s) && i.Valid()
    ensures Inv(c, r)
    ensures 0.2 - c.FadeSpeed() < r.fade.opacity < 1.0 + c.FadeSpeed()
  {
    if c.fadeInOut then FadeStepKeepsBand(s.fade, c.FadeSpeed()); StepOf(c, s, i, m) else StepOf(c, s, i, m)
  }

  /** The frame's new state, field by field. */
  function StepOf(c: FormationConfig, s: FormationState, i: FrameInput, m: MathLib): FormationState
    requires m.Valid()
    requires Inv(c, s) && i.Valid()
  {
    var starts := Triggers(s, i.time);
    var axis := LiveAxis(s, m);
    var fade := if c.fadeInOut then FadeStep(s.fade, c.FadeSpeed()) else s.fade;
    FormationState(
      Rotate(s.rotation, axis, i.mouse, i.deltaTime, c.EffectiveSpeed()),
      axis,
      fade,
      if c.fadeInOut then fade.opacity else s.shownOpacity,
      if starts then s.targetAxis else s.currentAxis,
      if starts then NewTarget(i.draws, m) else s.targetAxis,
      if starts then 0.0 else if s.progress < 1.0 then AdvanceProgress(s.progress, i.deltaTime) else s.progress,
      if starts then NextTransitionTime(i.time, i.draws.delay) else s.nextTransitionTime)
  }

  lemma InitialStateInv(c: FormationConfig, axis: Vector3, u: real)
    requires c.animationSpeed > 0.0 && IsDraw(u)
    ensures Inv(c, InitialState(axis, u))
  {
  }

  /** A new transition starts exactly when the time has passed the scheduled
      one and the progress is complete; it then moves the old target into the
      current axis, restarts the progress and schedules the next transition
      8 to 15 seconds ahead. Otherwise the axes and the schedule are kept. */
  lemma TransitionScheduling(c: FormationConfig, s: FormationState, i: FrameInput, m: MathLib)
    requires m.Valid() && Inv(c, s) && i.Valid()
    ensures var s' := Step(c, s, i, m);
      if Triggers(s, i.time) then
        && s'.currentAxis == s.targetAxis
        && s'.targetAxis == NewTarget(i.draws, m)
        && s'.progress == 0.0
        && i.time + 8.0 <= s'.nextTransitionTime < i.time + 15.0
      else
        && s'.currentAxis == s.currentAxis
        && s'.targetAxis == s.targetAxis
        && s'.nextTransitionTime == s.nextTransitionTime
  {
  }

  /** During a transition the progress never decreases and stays at most 1;
      a complete transition stays complete until the next one starts. */
  lemma ProgressMonotone(c: FormationConfig, s: FormationState, i: FrameInput, m: MathLib)
    requires m.Valid() && Inv(c, s) && i.Valid()
    ensures s.progress < 1.0 ==> s.progress <= Step(c, s, i, m).progress <= 1.0
    ensures s.progress == 1.0 && !Triggers(s, i.time) ==> Step(c, s, i, m).progress == 1.0
  {
  }

  /** While a transition runs, each live axis component lies between the
      matching components of the current and the target axis; otherwise the
      live axis is left as it was. */
  lemma LiveAxisBetween(c: FormationConfig, s: FormationState, i: FrameInput, m: MathLib)
    requires m.Valid() && Inv(c, s) && i.Valid()
    ensures var a := Step(c, s, i, m).axis;
      if s.progress < 1.0 then
        && Min(s.currentAxis.x, s.targetAxis.x) <= a.x <= Max(s.currentAxis.x, s.targetAxis.x)
        && Min(s.currentAxis.y, s.targetAxis.y) <= a.y <= Max(s.currentAxis.y, s.targetAxis.y)
        && Min(s.currentAxis.z, s.targetAxis.z) <= a.z <= Max(s.currentAxis.z, s.targetAxis.z)
      else a == s.axis
  {
  }

  /** Frames applied one after another. */
  function Run(c: FormationConfig, s: FormationState, inputs: seq<FrameInput>, m: MathLib): FormationState
    requires m.Valid() && Inv(c, s)
    requires forall k :: 0 <= k < |inputs| ==> inputs[k].Valid()
    decreases |inputs|
  {
    if inputs == [] then s
    else
      Run(c, Step(c, s, inputs[0], m), inputs[1..], m)
  }

  /** However many frames run, the progress stays in [0, 1] and the opacity
      in (0.2 - fadeSpeed, 1 + fadeSpeed). */
  lemma {:induction false} RunKeepsInv(c: FormationConfig, s: FormationState, inputs: seq<FrameInput>, m: MathLib)
    requires m.Valid() && Inv(c, s)
    requires forall k :: 0 <= k < |inputs| ==> inputs[k].Valid()
    ensures Inv(c, Run(c, s, inputs, m))
    ensures 0.0 <= Run(c, s, inputs, m).progress <= 1.0
    ensures 0.2 - c.FadeSpeed() < Run(c, s, inputs, m).fade.opacity < 1.0 + c.FadeSpeed()
    decreases |inputs|
  {
    if inputs == [] {
      assert FadeBand(s.fade, c.FadeSpeed());
    } else {
      RunKeepsInv(c, Step(c, s, inputs[0], m), inputs[1..], m);
    }
  }

  /** The `rotationAxis` prop: a `THREE.Vector3` the frame writes in place. */
  class AxisVector {
    var x: real
    var y: real
    var z: real

    constructor (v: Vector3)
      ensures Value() == v
    {
      x, y, z := v.x, v.y, v.z;
    }

    function Value(): Vector3
      reads this
    {
      Vector3(x, y, z)
    }
  }

  /** A mounted `Formation` component: its refs, its state and the axis prop. */
  class Formation {
    const config: FormationConfig
    const rotationAxis: AxisVector
    var rotation: Vector3
    var opacity: real
    var fadeDirection: int
    var materialOpacity: real
    var currentAxis: Vector3
    var targetAxis: Vector3
    var transitionProgress: real
    var nextTransitionTime: real

    ghost function State(): FormationState
      reads this, rotationAxis
    {
      FormationState(rotation, rotationAxis.Value(), Fade(opacity, fadeDirection), materialOpacity,
                     currentAxis, targetAxis, transitionProgress, nextTransitionTime)
    }

    ghost predicate Valid()
      reads this, rotationAxis
    {
      Inv(config, State())
    }

    /** `initialDelay` is the draw behind the first `nextTransitionTime`,
        which therefore falls between 5 and 15 seconds after mounting. */
    constructor (axis: AxisVector, rotationSpeed: real, animationSpeed: real, fadeInOut: bool, initialDelay: real)
      requires animationSpeed > 0.0 && IsDraw(initialDelay)
      ensures Valid()
      ensures 5.0 <= nextTransitionTime < 15.0
      ensures config == FormationConfig(rotationSpeed, animationSpeed, fadeInOut) && rotationAxis == axis
      ensures State() == InitialState(axis.Value(), initialDelay)
    {
      config := FormationConfig(rotationSpeed, animationSpeed, fadeInOut);
      rotationAxis := axis;
      rotation := Vector3(0.0, 0.0, 0.0);
      opacity, fadeDirection, materialOpacity := 1.0, -1, 1.0;
      currentAxis, targetAxis := axis.Value(), axis.Value();
      transitionProgress := 1.0;
      nextTransitionTime := initialDelay * 10.0 + 5.0;
    }

    /** The `useFrame` callback. `mounted` is false while the group or points
        ref is still null, and then nothing changes. */
    method Frame(mounted: bool, time: real, deltaTime: real, mouse: Vector2, draws: TransitionDraws, m: MathLib)
      requires Valid() && m.Valid()
      requires deltaTime >= 0.0 && draws.Valid()
      modifies this, rotationAxis
      ensures Valid()
      ensures !mounted ==> State() == old(State())
      ensures mounted ==> State() == Step(config, old(State()), FrameInput(time, deltaTime, mouse, draws), m)
    {
      if !mounted {
        return;
      }
      ghost var before := State();
      ghost var post := Step(config, before, FrameInput(time, deltaTime, mouse, draws), m);
      assert post == StepOf(config, before, FrameInput(time, deltaTime, mouse, draws), m);
      var effectiveSpeed := config.EffectiveSpeed();

      rotation := rotation.(x := MouseTurn(rotation.x, mouse.y, deltaTime));
      rotation := rotation.(y := MouseTurn(rotation.y, mouse.x, deltaTime));

      // the React state as rendered before this frame
      var progress, current, target := transitionProgress, currentAxis, targetAxis;

      if time > nextTransitionTime && progress >= 1.0 {
        var newTarget := NewTarget(draws, m);
        currentAxis := target;
        targetAxis := newTarget;
        transitionProgress := 0.0;
        nextTransitionTime := time + draws.delay * 7.0 + 8.0;
      }

      if progress < 1.0 {
        transitionProgress := Min(progress + deltaTime * 0.2, 1.0);
        var t := EaseSineInOut(progress, m);
        rotationAxis.x := Lerp(current.x, target.x, t);
        rotationAxis.y := Lerp(current.y, target.y, t);
        rotationAxis.z := Lerp(current.z, target.z, t);
      }

      assert rotationAxis.Value() == post.axis;
      rotation := rotation.(x := Spin(rotation.x, rotationAxis.x, effectiveSpeed));
      rotation := rotation.(y := Spin(rotation.y, rotationAxis.y, effectiveSpeed));
      rotation := rotation.(z := Spin(rotation.z, rotationAxis.z, effectiveSpeed));
      assert rotation == post.rotation;

      if config.fadeInOut {
        var fadeSpeed := 0.005 * config.animationSpeed;
        if fadeDirection < 0 {
          opacity := opacity - fadeSpeed;
          if opacity <= 0.2 {
            fadeDirection := 1;
          }
        } else {
          opacity := opacity + fadeSpeed;
          if opacity >= 1.0 {
            fadeDirection := -1;
          }
        }
        materialOpacity := opacity;
      }
      assert Fade(opacity, fadeDirection) == post.fade && materialOpacity == post.shownOpacity;
    }
  }
}
