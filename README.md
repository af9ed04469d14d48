# Portfolio visualisation core, modelled in Dafny

The repository is a personal portfolio site. The landing page shows an
animated, gold-coloured "J.A.R.V.I.S." scene drawn with three.js through
React Three Fiber. A content page has a scroll-tracked navigation bar. An
older static page has a three-page slider. Almost all of the repository is
markup and copy. This project models the pieces of it that compute
something:

- **Hue converter** (`hex_hue.dfy`, module `HexHue`). `baseColorHue` lower-cases a
  CSS colour. It parses `#RRGGBB` channel by channel and returns the hue of its
  HSL form, using the usual six-case max/min formula. A colour without a leading `#` gets 45.
- **Rotating formations** (`formations.dfy`, module `Formations`). Each frame a
  formation does four things:
  - it schedules an axis transition;
  - it eases the live rotation axis from the current axis towards the target;
  - it accumulates its rotation angles from the axis and the mouse;
  - it bounces its opacity between 0.2 and 1.
  React state (current and target axis, progress, next transition time) is
  read as rendered at the start of the frame, so the blend uses the progress
  the frame started with. The `rotationAxis` prop is written in place.
- **Pulsing spheres and data nodes** (`pulsing_spheres.dfy`, module
  `PulsingSpheres`):
  - the scale and opacity oscillators of a sphere;
  - the glow bounce of a node;
  - the one-time generation of three spheres and forty nodes from random draws;
  - this component's own copy of the hue converter.
- **Particle sphere** (`particles.dfy`, module `Particles`):
  - points are sampled near a sphere into a flat buffer of 3·count numbers;
  - sizes are drawn once;
  - a pristine copy of the buffer is kept;
  - each frame rewrites the buffer in place from that copy plus a small oscillation.
- **Pointer tracker** (`pointer.dfy`, module `PointerTracking`). The mouse-move
  handler normalises the pointer, smooths its velocity and points the orbit
  camera. The momentum tick always records the timestamp. Once the pointer
  is idle it also decays the velocity and, while either component exceeds
  0.01, nudges the camera, clamping the polar angle to [π/4, 3π/4].
- **Active section** (`sections.dfy`, module `PortfolioNav`). The scroll handler
  folds the five sections from the left, starting at `home`. The last present
  section straddling the viewport midline wins. Both navigation bars mark that
  one item active.
- **Control panel** (`controls.dfy`, module `Controls`):
  - the colour table;
  - the speed, density and colour handlers, which store a value and forward it;
  - the panel toggle;
  - the swatch selection ring.
- **Loading bar** (`loading.dfy`, module `Loading`). A random step of less than
  15 points per tick, capped at 100.
- **Page slider** (`slider.dfy`, module `PageSlider`). `slide(direction)` uses
  JavaScript's loose `==`. It activates one of three links and gives every page
  the same `translateX`.

`math_model.dfy` (module `MathModel`) holds what the modules share:
- vectors and π;
- an option type;
- `MathLib`, a record of `Math.sin`, `cos`, `acos`, `sqrt` and `pow` passed
  as function values. Its `Valid()` gives only the facts the proofs use:
  sin and cos lie in [-1, 1], sqrt is non-negative, and 0 < 0.95^e ≤ 1 for
  e ≥ 0. `Math.pow(u, 2)` is written `u * u`.

Every `Math.random()` result is an explicit parameter in [0, 1), checked
with `IsDraw`. Most framework callbacks are modelled as a step:
- the `useFrame` callbacks, the pointer listener and momentum tick, the
  loading interval and the slider become methods of a class that holds the
  refs and state the callback updates;
- each such method is specified by a pure step function;
- the properties are proved about that step function.

There are two exceptions. The scroll listener (`PortfolioContent.tsx:12-30`)
is modelled as the pure function `PortfolioNav.CurrentSection`, which
returns the section the listener stores; no class holds `activeSection`.
The control panel's handlers are methods of `Controls.ControlPanel`, whose
`ensures` state the new fields directly, with no separate step function.

The formations' blend eases the progress read at the start of the frame,
so the live axis runs one step behind the progress just stored
(`RotatingFormations.tsx:104-111`); `Formations.Step` models that. The
magnitude of a new target axis is `Math.max(0.2, Math.random())`, which lies
in [0.2, 1).

## Model

| member | source | states |
|---|---|---|
| `HexHue.ParseHexPair` | portfolio/src/components/jarvis/RotatingFormations.tsx:186-188 | two hex digits parse to a channel value of at most 255 |
| `HexHue.Channels` | portfolio/src/components/jarvis/RotatingFormations.tsx:186-188 | the three two-digit slices of a well-formed colour give a valid 8-bit RGB triple |
| `HexHue.Hue` | portfolio/src/components/jarvis/RotatingFormations.tsx:190-204 | the six-case hue always lies in [0, 360), and is 0 when the three channels are equal |
| `HexHue.ToLower` | portfolio/src/components/jarvis/RotatingFormations.tsx:182 | lower-casing keeps the length |
| `HexHue.LowerCaseSpec` | portfolio/src/components/jarvis/RotatingFormations.tsx:182 | lower-casing leaves no upper-case letter, and changes a character exactly when it is an upper-case letter |
| `HexHue.LowerCaseKeepsHash` | portfolio/src/components/jarvis/RotatingFormations.tsx:182-184 | lower-casing keeps the leading `#` test, and keeps six hex digits hex |
| `HexHue.BaseColorHue` | portfolio/src/components/jarvis/RotatingFormations.tsx:181-208 | for any `#RRGGBB` colour in either letter case the hue lies in [0, 360) and is the hue of its parsed channels; any colour not starting with `#` gives 45 |
| `HexHue.GreyHasHueZero` | portfolio/src/components/jarvis/RotatingFormations.tsx:192-194 | a grey colour (R = G = B) has hue 0 |
| `HexHue.HueIgnoresCase` | portfolio/src/components/jarvis/RotatingFormations.tsx:182 | a colour and its lower-case form have the same hue |
| `HexHue.HexDigit` | portfolio/src/components/jarvis/RotatingFormations.tsx:186-188 | a value below 16 has a lower-case hex digit that parses back to it |
| `HexHue.FormatThenParse` | portfolio/src/components/jarvis/RotatingFormations.tsx:182-204 | formatting any RGB triple as `#rrggbb` and parsing it gives the triple back, so its converted hue is the triple's hue |
| `HexHue.FormattedHue` | portfolio/src/components/jarvis/RotatingFormations.tsx:182-204 | a colour written `#rrggbb` from a triple converts to that triple's hue |
| `HexHue.PrimaryHues` | portfolio/src/components/jarvis/RotatingFormations.tsx:190-204 | the triples of pure red, green and blue have hues 0, 120 and 240 |
| `HexHue.RedHue` | portfolio/src/components/jarvis/RotatingFormations.tsx:195-196 | `#ff0000` has hue 0 |
| `HexHue.GreenHue` | portfolio/src/components/jarvis/RotatingFormations.tsx:197-198 | `#00ff00` has hue 120 |
| `HexHue.BlueHue` | portfolio/src/components/jarvis/RotatingFormations.tsx:199-200 | `#0000FF`, in upper case, has hue 240 |
| `HexHue.UpperBlueLowerCase` | portfolio/src/components/jarvis/RotatingFormations.tsx:182 | `#0000FF` is accepted and lower-cases to `#0000ff` |
| `HexHue.GoldHue` | portfolio/src/components/jarvis/RotatingFormations.tsx:177 | the default gold `#d4af37` has hue 7200/157, about 45.86 |
| `Formations.EaseSineInOut` | portfolio/src/components/jarvis/RotatingFormations.tsx:165-167 | the sine ease maps any progress into [0, 1] |
| `Formations.Lerp` | portfolio/src/components/jarvis/RotatingFormations.tsx:109-111 | the blend `a(1 - t) + bt` with t in [0, 1] lies between a and b, and is a at t = 0 |
| `Formations.Normalize` | portfolio/src/components/jarvis/RotatingFormations.tsx:89-93 | `normalize()` keeps the sign of every component, the zero vector included |
| `Formations.NewTarget` | portfolio/src/components/jarvis/RotatingFormations.tsx:89-93 | each component of the new axis is positive, negative or zero exactly as its draw is above, below or at 0.5, since normalising and scaling by max(0.2, u) keep signs |
| `Formations.NextTransitionTime` | portfolio/src/components/jarvis/RotatingFormations.tsx:100 | the next transition is scheduled between 8 and 15 seconds after now |
| `Formations.AdvanceProgress` | portfolio/src/components/jarvis/RotatingFormations.tsx:105 | the advanced progress is at most 1, never below a progress of at most 1, and is 1 exactly when the step reaches it |
| `Formations.FadeStep` | portfolio/src/components/jarvis/RotatingFormations.tsx:120-133 | the opacity moves by fadeSpeed in the current direction; the direction stays ±1, and turns up only at opacity ≤ 0.2 and down only at ≥ 1 |
| `Formations.FadeStepKeepsBand` | portfolio/src/components/jarvis/RotatingFormations.tsx:120-136 | a fade step keeps the opacity inside its bounce band, within (0.2 - fadeSpeed, 1 + fadeSpeed) |
| `Formations.InitialStateInv` | portfolio/src/components/jarvis/RotatingFormations.tsx:53-60 | a freshly mounted formation (opacity 1, direction -1, progress 1) satisfies the frame invariant |
| `Formations.InitialState` | portfolio/src/components/jarvis/RotatingFormations.tsx:53-60 | the first transition is due between 5 and 15 seconds after mounting |
| `Formations.Step` | portfolio/src/components/jarvis/RotatingFormations.tsx:72-136 | with deltaTime ≥ 0, a frame keeps the progress in [0, 1], the fade direction ±1 and the opacity inside (0.2 - fadeSpeed, 1 + fadeSpeed) |
| `Formations.TransitionScheduling` | portfolio/src/components/jarvis/RotatingFormations.tsx:86-101 | a transition starts exactly when time > nextTransitionTime and progress ≥ 1; it then sets the current axis to the old target, restarts the progress at 0 and schedules the next one 8 to 15 s ahead; otherwise axes and schedule are kept |
| `Formations.ProgressMonotone` | portfolio/src/components/jarvis/RotatingFormations.tsx:104-105 | during a transition the progress never decreases and stays ≤ 1; once complete it stays 1 until the next trigger |
| `Formations.LiveAxisBetween` | portfolio/src/components/jarvis/RotatingFormations.tsx:104-112 | during a transition each live axis component lies between the current and the target component; otherwise the axis is untouched |
| `Formations.RunKeepsInv` | portfolio/src/components/jarvis/RotatingFormations.tsx:72-136 | over any number of frames the progress stays in [0, 1] and the opacity in (0.2 - fadeSpeed, 1 + fadeSpeed) |
| `Formations.Formation.constructor` | portfolio/src/components/jarvis/RotatingFormations.tsx:51-60 | the refs start at opacity 1 and direction -1, both axes copy the prop, progress is 1, and the first transition is due after 5 + 10u seconds, between 5 and 15 |
| `Formations.Formation.Frame` | portfolio/src/components/jarvis/RotatingFormations.tsx:72-136 | with a null ref nothing changes; otherwise the new refs, prop and state are exactly one `Step` of the old ones (mouse pull, axis-scaled spin, scheduler, eased blend, fade), and the invariant is kept |
| `PulsingSpheres.BaseColorHue` | portfolio/src/components/jarvis/PulsingSpheres.tsx:107-134 | the component's copy of the converter computes the same hue as the formations' converter on every accepted colour, in [0, 360) |
| `PulsingSpheres.CopiedHue` | portfolio/src/components/jarvis/PulsingSpheres.tsx:116-128 | the copy's six-case formula equals the formations' hue formula on all normalised channels |
| `PulsingSpheres.SphereScale` | portfolio/src/components/jarvis/PulsingSpheres.tsx:28 | a sphere's scale stays in [0.8, 1.2] at every time |
| `PulsingSpheres.SphereOpacity` | portfolio/src/components/jarvis/PulsingSpheres.tsx:33 | a sphere's opacity stays in [0.2, 0.8] at every time |
| `PulsingSpheres.PulsingSphere.constructor` | portfolio/src/components/jarvis/PulsingSpheres.tsx:39-44 | the mesh starts at scale 1 and opacity 0.5 |
| `PulsingSpheres.PulsingSphere.Frame` | portfolio/src/components/jarvis/PulsingSpheres.tsx:21-35 | with a null ref nothing changes; otherwise scale and opacity are the oscillators' values at that time, in their ranges |
| `PulsingSpheres.GlowStep` | portfolio/src/components/jarvis/PulsingSpheres.tsx:72-80 | the intensity moves by glowSpeed·direction; the direction becomes -1 above 1.2 and +1 below 0.7, and is unchanged in between |
| `PulsingSpheres.InitialGlow` | portfolio/src/components/jarvis/PulsingSpheres.tsx:62-63 | the initial intensity lies in [0.7, 1.0) and starts inside the glow band for any positive speed |
| `PulsingSpheres.GlowStaysInBand` | portfolio/src/components/jarvis/PulsingSpheres.tsx:62-80 | from any start in the band, after any number of frames the intensity stays in [0.7 - s, 1.2 + s] |
| `PulsingSpheres.DataNode.constructor` | portfolio/src/components/jarvis/PulsingSpheres.tsx:62-63 | the glow refs take their initial values from the draws, inside the band; the material starts at 0.8 |
| `PulsingSpheres.DataNode.Frame` | portfolio/src/components/jarvis/PulsingSpheres.tsx:65-84 | with a null ref nothing changes; otherwise the glow takes one `GlowStep`, the opacity written equals the new intensity, and the band is kept |
| `PulsingSpheres.OrbitRadius` | portfolio/src/components/jarvis/PulsingSpheres.tsx:144 | a sphere's orbit radius lies in [2, 3.5) |
| `PulsingSpheres.OrbitHeight` | portfolio/src/components/jarvis/PulsingSpheres.tsx:147 | a sphere's height lies in [-1, 1) |
| `PulsingSpheres.SphereBaseRadius` | portfolio/src/components/jarvis/PulsingSpheres.tsx:151 | a sphere's base radius lies in [0.1, 0.25) |
| `PulsingSpheres.SphereLightness` | portfolio/src/components/jarvis/PulsingSpheres.tsx:152 | a sphere's lightness lies in [55, 70) |
| `PulsingSpheres.PulseSpeed` | portfolio/src/components/jarvis/PulsingSpheres.tsx:153 | a sphere's pulse speed lies in [0.5, 1) |
| `PulsingSpheres.PhaseOffset` | portfolio/src/components/jarvis/PulsingSpheres.tsx:154 | a sphere's phase lies in [0, 2π) |
| `PulsingSpheres.SphereFrom` | portfolio/src/components/jarvis/PulsingSpheres.tsx:141-155 | a sphere's horizontal coordinates are each below 3.5 in magnitude |
| `PulsingSpheres.GenerateSpheres` | portfolio/src/components/jarvis/PulsingSpheres.tsx:137-159 | exactly three spheres, sphere i built from its draws at angle 2πi/3, in the base hue, with every parameter in range and both horizontal coordinates below 3.5 in magnitude |
| `PulsingSpheres.NodeRadius` | portfolio/src/components/jarvis/PulsingSpheres.tsx:171 | a node's radius lies in [2, 5) |
| `PulsingSpheres.NodeSize` | portfolio/src/components/jarvis/PulsingSpheres.tsx:179 | a node's size lies in [0.03, 0.07) |
| `PulsingSpheres.NodeLightness` | portfolio/src/components/jarvis/PulsingSpheres.tsx:180 | a node's lightness lies in [60, 75) |
| `PulsingSpheres.NodeFrom` | portfolio/src/components/jarvis/PulsingSpheres.tsx:168-180 | a node is in the base hue, with size and lightness in range, and no coordinate reaches 5 in magnitude |
| `PulsingSpheres.GenerateNodes` | portfolio/src/components/jarvis/PulsingSpheres.tsx:162-185 | exactly 40 nodes, node i built from its draws, in the base hue, with size and lightness in range and every coordinate below 5 in magnitude |
| `Particles.SampleRadius` | portfolio/src/components/jarvis/ParticleSystem.tsx:16 | the sampled radius satisfies radius - v/2 ≤ r ≤ radius + v/2, strictly below the top for v > 0 |
| `MathModel.Cartesian` | portfolio/src/components/jarvis/ParticleSystem.tsx:18-20 | no coordinate of the spherical-to-Cartesian point exceeds the radius in magnitude |
| `Particles.RandomPointOnSphere` | portfolio/src/components/jarvis/ParticleSystem.tsx:9-23 | every coordinate of the sampled point is at most the sampled radius in magnitude |
| `Particles.ParticlePoint` | portfolio/src/components/jarvis/ParticleSystem.tsx:39 | at the call site (variability 0.15·radius), every coordinate of a particle is below 1.075·radius in magnitude for a positive radius |
| `Particles.ParticleRadiusBand` | portfolio/src/components/jarvis/ParticleSystem.tsx:39 | at the call site (v = 0.15·radius) the sampled radius lies within 7.5% of the nominal radius |
| `Particles.ParticleSize` | portfolio/src/components/jarvis/ParticleSystem.tsx:52 | every particle size lies in [0.08, 0.58) |
| `Particles.GeneratePositions` | portfolio/src/components/jarvis/ParticleSystem.tsx:35-45 | a fresh buffer of length 3·count whose slots 3i, 3i+1, 3i+2 hold the coordinates of particle i |
| `Particles.GenerateSizes` | portfolio/src/components/jarvis/ParticleSystem.tsx:48-55 | a fresh buffer of length count holding each particle's size, each in [0.08, 0.58) |
| `Particles.CopyBuffer` | portfolio/src/components/jarvis/ParticleSystem.tsx:58-60 | a fresh buffer with the same contents |
| `Particles.OffsetX` | portfolio/src/components/jarvis/ParticleSystem.tsx:84 | the x oscillation is within ±0.02 |
| `Particles.OffsetY` | portfolio/src/components/jarvis/ParticleSystem.tsx:85 | the y oscillation is within ±0.02 |
| `Particles.OffsetZ` | portfolio/src/components/jarvis/ParticleSystem.tsx:86 | the z oscillation is within ±0.02 |
| `Particles.Animated` | portfolio/src/components/jarvis/ParticleSystem.tsx:70-87 | an animated coordinate differs from its original by at most 0.02, and depends only on time, index and original |
| `Particles.ParticleSystem.constructor` | portfolio/src/components/jarvis/ParticleSystem.tsx:31-60 | three distinct fresh buffers: positions laid out per particle, sizes in range, and a copy equal to the positions |
| `Particles.ParticleSystem.Frame` | portfolio/src/components/jarvis/ParticleSystem.tsx:63-90 | with a null ref nothing changes; otherwise every slot of [0, 3·count) is rewritten from the untouched copy alone (so two frames at one time give one buffer), and the copy never changes |
| `PointerTracking.NormalizedCoordinate` | portfolio/src/components/jarvis/JarvisVisualization.tsx:28-29 | the normalised coordinate lies in [-1, 1] exactly when the client coordinate lies in the viewport, and is 0 at its middle |
| `PointerTracking.Divisor` | portfolio/src/components/jarvis/JarvisVisualization.tsx:31-32 | the time divisor is never below 0.01, and is dt itself from 0.01 on |
| `PointerTracking.InstantVelocity` | portfolio/src/components/jarvis/JarvisVisualization.tsx:31-32 | velocity times the divisor is the displacement, so it is at most 100 times the displacement |
| `PointerTracking.Smooth` | portfolio/src/components/jarvis/JarvisVisualization.tsx:36-37 | the smoothed value lies between old and instant, so in magnitude it is at most the larger of the two |
| `PointerTracking.MoveCamera` | portfolio/src/components/jarvis/JarvisVisualization.tsx:43-44 | for a pointer in the viewport the azimuth lies in [-0.5, 0.5] and the polar angle in [π/4, 3π/4] |
| `PointerTracking.ClampPolar` | portfolio/src/components/jarvis/JarvisVisualization.tsx:68-76 | the clamped polar angle lies in [π/4, 3π/4], is unchanged inside it and pinned to the nearer end outside |
| `PointerTracking.ClampPolarIdempotent` | portfolio/src/components/jarvis/JarvisVisualization.tsx:68-76 | clamping twice is clamping once |
| `PointerTracking.Decay` | portfolio/src/components/jarvis/JarvisVisualization.tsx:59 | the decay factor lies in (0, 1] for a non-negative time step |
| `PointerTracking.Decayed` | portfolio/src/components/jarvis/JarvisVisualization.tsx:60-61 | scaling by a factor in [0, 1] never increases either velocity component |
| `PointerTracking.Nudge` | portfolio/src/components/jarvis/JarvisVisualization.tsx:63-79 | below the 0.01 threshold on both axes the camera is untouched; above it the polar angle ends in [π/4, 3π/4], and equals the nudged angle when that is already inside |
| `PointerTracking.MouseMoveStep` | portfolio/src/components/jarvis/JarvisVisualization.tsx:23-51 | a move sets moving, last and mouse position to (x, y) and the timestamp to now, and each velocity component stays within the larger of its old magnitude and 100 times the displacement |
| `PointerTracking.TickStep` | portfolio/src/components/jarvis/JarvisVisualization.tsx:53-62 | a tick always takes the timestamp; while moving, the velocity is unchanged; for a non-negative step neither velocity component grows |
| `PointerTracking.TickCamera` | portfolio/src/components/jarvis/JarvisVisualization.tsx:53-80 | while moving, the camera is unchanged; otherwise it is unchanged or ends with the polar angle in [π/4, 3π/4] |
| `PointerTracking.IdleVelocityNeverGrows` | portfolio/src/components/jarvis/JarvisVisualization.tsx:53-61 | while idle, ticks at non-decreasing times never increase either velocity component |
| `PointerTracking.PointerTracker.constructor` | portfolio/src/components/jarvis/JarvisVisualization.tsx:12-18 | the refs start at zero velocity and position, not moving, timestamp now |
| `PointerTracking.PointerTracker.MouseMove` | portfolio/src/components/jarvis/JarvisVisualization.tsx:23-51 | the refs become `MouseMoveStep` of the old ones, with the timestamp measured from the latest event of either kind, and a present camera gets azimuth 0.5x and polar π/2 + 0.2y |
| `PointerTracking.PointerTracker.ClearMoving` | portfolio/src/components/jarvis/JarvisVisualization.tsx:48-50 | the timeout clears the moving flag and changes nothing else |
| `PointerTracking.PointerTracker.MomentumTick` | portfolio/src/components/jarvis/JarvisVisualization.tsx:53-83 | the refs become `TickStep` of the old ones and a present camera becomes `TickCamera` of its old angles |
| `PortfolioNav.Visit` | portfolio/src/components/portfolio/PortfolioContent.tsx:20-27 | a missing section keeps the accumulator; a section straddling the midline (top ≤ h/2 ≤ bottom, both inclusive) replaces it with its id; any other keeps it |
| `PortfolioNav.Reduce` | portfolio/src/components/portfolio/PortfolioContent.tsx:20-28 | the fold yields `home` or the id of a section that straddles the midline |
| `PortfolioNav.ReduceIsLastHit` | portfolio/src/components/portfolio/PortfolioContent.tsx:20-28 | the fold yields the last straddling section in list order, and `home` when none straddles |
| `PortfolioNav.CurrentSection` | portfolio/src/components/portfolio/PortfolioContent.tsx:12-30 | the active section is `home` when no present section straddles the midline, and otherwise the last one that does |
| `PortfolioNav.NavFlags` | portfolio/src/components/portfolio/PortfolioContent.tsx:47-116 | the five `isActive` flags of either bar are set exactly at the active section's position |
| `PortfolioNav.ExactlyOneActive` | portfolio/src/components/portfolio/PortfolioContent.tsx:47-116 | exactly one navigation item is active in each bar |
| `Controls.ColorFor` | portfolio/src/components/jarvis/Controls.tsx:33-41 | the table gives a colour exactly for the five swatch names, always `#` plus six hex digits; any other name gives nothing |
| `Controls.SchemeColorsWellFormed` | portfolio/src/components/jarvis/Controls.tsx:33-39 | the table's keys are the swatch names and every value is a colour the hue converter accepts |
| `Controls.YellowHue` | portfolio/src/components/jarvis/Controls.tsx:34 | yellow `#ffcc00` has hue 48 |
| `Controls.BlueHue` | portfolio/src/components/jarvis/Controls.tsx:35 | blue `#00ccff` has hue 192 |
| `Controls.GreenHue` | portfolio/src/components/jarvis/Controls.tsx:36 | green `#00ff99` has hue 156 |
| `Controls.RedHue` | portfolio/src/components/jarvis/Controls.tsx:37 | red `#ff3300` has hue 12 |
| `Controls.PurpleHue` | portfolio/src/components/jarvis/Controls.tsx:38 | purple `#cc33ff` has hue 285 |
| `Controls.SwatchRings` | portfolio/src/components/jarvis/Controls.tsx:92-105 | the ring is on the swatch named by the scheme and no other, and some swatch has it exactly when the scheme is a swatch name |
| `Controls.ControlPanel.constructor` | portfolio/src/components/jarvis/Controls.tsx:13-16 | the panel starts closed, with speed 1, density 1 and scheme yellow, so the selected scheme is a swatch name |
| `Controls.ControlPanel.Toggle` | portfolio/src/components/jarvis/Controls.tsx:47 | the toggle flips `isOpen` and nothing else, so the scheme stays a swatch name |
| `Controls.ControlPanel.SpeedChange` | portfolio/src/components/jarvis/Controls.tsx:18-22 | the speed handler stores the value and forwards the same value, changing nothing else, so the scheme stays a swatch name |
| `Controls.ControlPanel.DensityChange` | portfolio/src/components/jarvis/Controls.tsx:24-28 | the density handler stores the value and forwards the same value, changing nothing else, so the scheme stays a swatch name |
| `Controls.ControlPanel.ColorChange` | portfolio/src/components/jarvis/Controls.tsx:30-42 | the colour handler, called with a swatch name, stores the name, so the scheme stays a swatch name, and forwards its table colour, which is well formed |
| `Loading.NextProgress` | portfolio/src/components/jarvis/LoadingScreen.tsx:10-13 | the next progress is at most 100, never below a progress of at most 100, rises by less than 15, stays 100 once at 100, and is 100 exactly when the step reaches it |
| `Loading.ProgressBoundedAndMonotone` | portfolio/src/components/jarvis/LoadingScreen.tsx:6-13 | from 0, the progress stays in [0, 100], never decreases from one tick to any later one, and stays 100 once it gets there |
| `Loading.LoadingScreen.constructor` | portfolio/src/components/jarvis/LoadingScreen.tsx:6 | progress starts at 0 |
| `Loading.LoadingScreen.Tick` | portfolio/src/components/jarvis/LoadingScreen.tsx:9-14 | a tick replaces the progress by `NextProgress` of it |
| `PageSlider.LooseEquals` | script.js:9-19 | `direction == "k"`: a string matches only the literal itself; a number or boolean matches when its numeric value (true 1, false 0) is k; `undefined` and `null` match nothing |
| `PageSlider.Branch` | script.js:9-24 | the branch taken is the first literal the direction loosely equals, and none exactly when it equals none of "0", "1", "2" |
| `PageSlider.LooseDirections` | script.js:9-19 | the numbers 0, 1, 2 and the booleans false, true select the same branches as the strings "0", "1", "2" (the string " 1", "3", 3 and `undefined` select none) |
| `PageSlider.Transform` | script.js:25 | the transform is `translateX(NaN%)` exactly when no branch ran, and `translateX(0%)`, `translateX(-100%)` or `translateX(-200%)` exactly for branch 0, 1 or 2 |
| `PageSlider.SlideFlags` | script.js:8-24 | branch k activates link k and deactivates the other two; with no branch the flags are unchanged |
| `PageSlider.SlideActivatesOne` | script.js:9-23 | a recognised direction leaves exactly one link active |
| `PageSlider.Slider.Slide` | script.js:7-26 | the flags follow `SlideFlags`, and every page gets the same transform |

## Left out

- Rendering, JSX and framework scheduling are not modelled. The callbacks
  take the clock values as inputs; the scroll listener is a function whose
  result is the new `activeSection`. `requestAnimationFrame` and its cancellation, listener
  registration, `setInterval` and the cleanup functions are left out.
- The shared three.js clock is not modelled. `getElapsedTime()`
  (`RotatingFormations.tsx:75`) itself calls `getDelta()`, so the `getDelta()`
  on the next line returns only the time between those two calls, close to
  0 in every formation. In the running page the progress therefore grows
  negligibly per frame, a transition started by the scheduler practically
  never completes, and the mouse pull at lines 82-83 is practically 0.
  The model takes each frame's `deltaTime` as an unconstrained input, so
  its results hold for any delta, this near-zero one included.
- `Math.sin`, `cos`, `acos`, `sqrt` and `pow` are abstract functions that carry
  only their ranges. No distance identity is proved, such as the normalised
  target having length `max(0.2, u)` or a sampled point lying at distance r.
- Formations.NewTarget states the signs of the new axis only, not its
  length, for this reason.
- Particles.ParticlePoint states the upper bound of the shell per
  coordinate only, not the lower bound of 0.925·radius on the distance,
  for this reason.
- PulsingSpheres.GenerateNodes bounds each coordinate by 5, not the
  distance from the centre, for this reason.
- Numbers are modelled as reals. `Float32Array` rounding, NaN and infinities
  are not modelled.
- `createArc` (`RotatingFormations.tsx:8-30`) is left out. Its point count
  depends on floating-point accumulation, and its output is pure trigonometry.
- The formations' own position buffer (`RotatingFormations.tsx:62-70`) and
  the list of five arc configurations (`RotatingFormations.tsx:210-263`) are
  left out, because they are fixed data.
- The `hsl(...)` colour strings are left out. Only the numeric hue,
  saturation and lightness are kept (`PulsingSpheres.Hsl`).
- Colours that start with `#` but are not followed by six hex digits are left
  out, since `parseInt` would give NaN or a prefix value. The converters
  require a well-formed colour in that case.
- `toLowerCase` is modelled on ASCII letters only.
- OrbitControls is reduced to the two angles it is given. Its `update()`, its
  own angle limits and the camera it moves are left out.
- PointerTracking.NormalizedCoordinate requires a positive viewport extent.
  The browser always reports one, and a zero extent would divide by zero.
- PointerTracking.TickCamera states the polar angle after a nudge, but does
  not relate the new azimuth to the old one beyond the defining step.
- `parseFloat` on the slider strings is left out. The handlers receive the
  parsed number.
- Controls.ControlPanel.ColorChange returns the forwarded colour but does
  not model the callback it is forwarded to. It requires a swatch name,
  since the swatch buttons (`Controls.tsx:92-95`) are its only callers.
- Controls.ColorFor treats `colorMap` as a table of its five entries. In the
  source it is an object literal, so a name such as "toString" or
  "constructor" would yield an inherited member instead of `undefined`.
  Every call passes one of the five swatch names (`Controls.tsx:92-95`).
- The negated pointer position handed to the formations
  (`JarvisVisualization.tsx:111`) is not modelled. `Formations.Formation.Frame`
  accepts any mouse position.
- `scrollToSection`, the static page content, the site metadata and the build
  configuration are left out.
- Refs and variables that are never read are left out. These are the sphere
  refs `PulsingSpheres.tsx:18-19`, the node's `time` at
  `PulsingSpheres.tsx:68`, and the scroll handler's `scrollY` and document
  height at `PortfolioContent.tsx:13, 15`.
- The `instanceof` material checks (`RotatingFormations.tsx:120`,
  `PulsingSpheres.tsx:32, 71`) are left out. They always hold for the
  materials these components create.
- The slider's `JsValue` has no objects, BigInts or Symbols. Loose equality
  against an object would call its `valueOf`/`toString`, a BigInt such as
  `0n` would equal "0", and a Symbol equals no string; all three are left out.
