# Moon phase simulator: a Dafny model of its state logic

The simulator (src/js/script.js) draws the Earth, the Moon and the Sun in four
viewports and names the Moon's phase. Two sliders drive it. The orbit slider holds
an integer `v` in 0..295, with `dayProgress = v / 10` days into a 29.5-day cycle.
The rotation slider holds the hour. A play button starts a 100 ms interval that
advances the orbit slider. A reset button puts everything back to day 0, hour 12.

This project models the logic under the rendering:

- `Phase` (phase.dfy) is the phase classifier. It gives
  `Math.floor((dayProgress / 29.5) * 8) % 8` over any real `dayProgress`, using
  JavaScript's truncating `%`. It then looks that index up in the name table and
  gives `undefined` (None) for a negative index. Over slider values it is the
  integer formula `(8v / 295) % 8`. The model proves the range of the index,
  which slider values give which index, that the index never decreases before the
  wrap, that 295 folds back to 新月, and that the exact quotient `8v/295` is an
  integer only at `v = 0` and `v = 295`.
- `Orbit` (orbit.dfy) holds the orbital and rotation angles, where the Moon goes
  in the overview, and where the sub-views put their sun light. `Math.cos`,
  `Math.sin` and `Math.PI` are a `Trig` parameter that the model knows nothing
  about. Lemmas that use `cos² + sin² = 1` or `cos(a + π) = -cos a` take that
  identity as a precondition.
- `Views` (views.dfy) models each sub-view's `scene.children` as a sequence of
  `SphereMesh | DirLight | AmbientLight | Other`. Every update filters out all
  sphere meshes and appends one new sphere. The earth and moon views then move
  their first directional light. The Japan view appends a new directional light
  instead. The lemmas prove three things. Each update leaves exactly one sphere
  and keeps the other children in order. The earth and moon views keep their
  light count and are idempotent. The Japan view gains one light per call and so
  is not idempotent.
- `Driver` (simulator.dfy) has the class `Simulator`. It holds the page's
  globals: the two slider values, `isAnimating`, `animationId`, the host's table
  of active intervals, the positions `earth.position`, `moon.position` and
  `moonOrbitLine.position`, `earth.rotation.y`, and the three `children` lists
  and the phase label. Each update function and each event handler is a method,
  and the interval callback is `Tick`. The invariant `Valid()` says three things:
  - the driver is running exactly when it holds an interval handle, and that
    interval is the only active one;
  - every object the updates place agrees with the current slider values; the
    directional lights the Japan view gathered from earlier updates keep the
    positions of their older angles;
  - the Japan view holds exactly as many directional lights as it has had
    updates.

  Every handler preserves `Valid()`. Lemmas show that ticks cycle through the
  296 slider values.

Notes on the code's behaviour:

- The Japan view gains a directional light on every call of its update,
  including every rotation-slider input, and never loses one: the filter
  removes only spheres. The model keeps that
  (`Views.JapanViewUpdateNotIdempotent`, and the ghost counter `japanUpdates`),
  and reset does not clear the accumulated lights (`Driver.Simulator.Reset`).
- No update checks that its scene exists. The model's constructor builds every
  scene before any update runs.
- `autoAnimate` clears no earlier interval. It is safe only because the play
  handler calls it from the stopped state, where the invariant says no interval
  is active. The model proves this (`Driver.Simulator.Play`).
- A tick wraps only when the value passes 295, so one full animation cycle is
  296 ticks (29.6 simulated days) (`Driver.TicksPeriod`).

## Model

| member | source | states |
|---|---|---|
| `Phase.JsRem` | src/js/script.js:445 | JavaScript's `%` with a truncated quotient: the result is smaller than the divisor in size, takes the dividend's sign, and differs from the dividend by a multiple of the divisor |
| `Phase.JsRemUnique` | src/js/script.js:445 | Those properties determine the remainder: any q and r with a = q·b + r, r of a's sign and smaller than b in size, give exactly JsRem(a, b) |
| `Phase.PhaseIndexOfDay` | src/js/script.js:445 | The phase index lies in -7..7 and is non-negative whenever dayProgress is |
| `Phase.PhaseNameOfDay` | src/js/script.js:440-446 | The name lookup gives a name exactly when the index is non-negative, so always for dayProgress >= 0 |
| `Phase.SliderPhaseIndex` | src/js/script.js:445 | The integer form of the index over slider values lies in 0..7 |
| `Phase.SliderPhaseMatchesDay` | src/js/script.js:445-446 | For every slider value, the real formula at value/10 equals the integer formula (8v/295) % 8, and the displayed name is the table entry at that index |
| `Phase.QuotientIntegralOnlyAtEnds` | src/js/script.js:445 | 8v/295 is an integer exactly when v is 0 or 295, so elsewhere the quotient is at least 1/295 from the floor's boundary |
| `Phase.SliderPhaseBand` | src/js/script.js:445 | Both directions: slider value v below 295 has index k iff 295k <= 8v < 295(k+1); v = 295 has index 0 |
| `Phase.SliderPhaseMonotone` | src/js/script.js:445 | For slider values 0..294, a larger value never has a smaller phase index |
| `Phase.SliderPhaseEnds` | src/js/script.js:440-446 | Day 0 and day 29.5 both read 新月; day 29.4 reads 有明月 |
| `Phase.FullMoonAtHalfCycle` | src/js/script.js:440-446 | Days 14.75 and 15.0 read 満月 |
| `Phase.NegativeDayHasNoName` | src/js/script.js:445-446 | A dayProgress strictly between -7/8 of a cycle and 0 gives a negative index and no name |
| `Orbit.SunLightPosition` | src/js/script.js:358 | The sub-views' sun light lies in the horizontal plane |
| `Orbit.MoonPlacement` | src/js/script.js:305-306 | Placing the Moon keeps its height |
| `Orbit.OrbitalAngleRange` | src/js/script.js:303 | Over one cycle, 0 <= dayProgress < 29.5, the orbital angle lies in [0, 2π) |
| `Orbit.OrbitalAngleMonotone` | src/js/script.js:303 | The orbital angle never decreases as dayProgress grows |
| `Orbit.AngleLandmarks` | src/js/script.js:320 | Angle 0 at day 0, π at half a cycle; the Earth's rotation is 0 at hour 0 and π at hour 12 |
| `Orbit.MoonOnOrbitCircle` | src/js/script.js:305-306 | Given cos² + sin² = 1, the placed Moon's horizontal distance from the Earth is the orbit radius 8 |
| `Orbit.SunLightOpposesMoon` | src/js/script.js:358 | Given the half-turn identities, the sub-view light points opposite the Moon's offset from the Earth |
| `Views.MoveFirstLight` | src/js/script.js:356-359 | Moving the first light keeps the number of children |
| `Views.RemoveSpheresCounts` | src/js/script.js:333 | The filter leaves no sphere and every directional light |
| `Views.RemoveSpheresKeepsOthers` | src/js/script.js:333 | The filter's result has no sphere, is a subsequence of the old children, and holds every other child as often as before |
| `Views.MoveFirstLightShape` | src/js/script.js:356-359 | Moving the first light keeps the length and every child's kind. Every child is either unchanged or is a light moved to p. Non-lights are untouched. With no light nothing changes. Counts are kept |
| `Views.MoveFirstLightFirst` | src/js/script.js:356-358 | With the first directional light at index i, that light is moved to p and every other child, later lights included, is unchanged |
| `Views.MoveFirstLightIdempotent` | src/js/script.js:358 | Moving the first light to the same place twice equals moving it once |
| `Views.MovingUpdateShape` | src/js/script.js:333-359 | Filter, append a sphere, then move the first light: one sphere, at the end; before it the old non-sphere children in order with only the first light moved; light count kept |
| `Views.MovingUpdateIdempotent` | src/js/script.js:333-359 | That update applied twice with the same angle gives what one application gives |
| `Views.EarthViewUpdateProperties` | src/js/script.js:329-362 | updateEarthViewMoon: exactly one sphere (radius 1.5, turned to angle + π), the others kept in order with the first light aimed at the sun, light count unchanged, idempotent |
| `Views.MoonViewUpdateProperties` | src/js/script.js:367-397 | updateMoonViewEarth: exactly one sphere (radius 2, turned to the angle), the others kept in order with the first light aimed at the sun, light count unchanged, idempotent |
| `Views.EarthViewSettles` | src/js/script.js:186-191 | On the scene the earth view is built with, an update leaves exactly ambient, the re-aimed light and the new Moon, and the shape is kept |
| `Views.MoonViewSettles` | src/js/script.js:217-222 | On the scene the moon view is built with, an update leaves exactly ambient, the re-aimed light and the new Earth, and the shape is kept |
| `Views.JapanViewUpdateProperties` | src/js/script.js:402-428 | updateJapanViewMoon: exactly one sphere (radius 2.5, 64 segments), followed by the new light; the old non-sphere children, old lights included, kept in order; one more directional light |
| `Views.JapanViewUpdateNotIdempotent` | src/js/script.js:426-428 | A second Japan-view update with the same angle changes the scene, and it then holds two more lights than at the start |
| `Driver.NextOrbitInRange` | src/js/script.js:564-569 | A tick keeps the slider in 0..295. It wraps to 0 exactly from 295. Below 295 it adds one |
| `Driver.TicksCycle` | src/js/script.js:561-571 | After n ticks from slider value v the slider holds (v + n) mod 296 |
| `Driver.TicksPeriod` | src/js/script.js:564-569 | The slider returns to its start after 296 ticks and not sooner |
| `Driver.Simulator.constructor` | src/js/script.js:637-647 | After init: sliders 0 and 12, stopped with no interval, Earth at (15, 0, 0), the Japan view holding ambient, one Moon and one light, and the invariant established |
| `Driver.Simulator.UpdateMoonPosition` | src/js/script.js:300-312 | Moon x and z become the Earth's x and z plus 8 cos and 8 sin of the angle. Moon y is kept. The orbit line moves to the Earth's position. Nothing else changes |
| `Driver.Simulator.UpdateEarthRotation` | src/js/script.js:317-324 | The Earth's y rotation becomes (hour / 24) 2π; nothing else changes |
| `Driver.Simulator.UpdateEarthViewMoon` | src/js/script.js:329-362 | The earth view's children become the filtered, appended, re-aimed list; nothing else changes |
| `Driver.Simulator.UpdateMoonViewEarth` | src/js/script.js:367-397 | The moon view's children become the filtered, appended, re-aimed list; nothing else changes |
| `Driver.Simulator.UpdateJapanViewMoon` | src/js/script.js:402-434 | The Japan view's children become the filtered list plus a new Moon and a new light. The label is the phase name of dayProgress. The hour is unused |
| `Driver.Simulator.UpdateMoonPhaseName` | src/js/script.js:439-450 | The label becomes the table entry at the phase index, or none for a negative index |
| `Driver.Simulator.UpdateAll` | src/js/script.js:534-538 | The five init/reset updates at the sliders' time leave every view in step with the sliders and add one Japan-view light |
| `Driver.Simulator.UpdateForOrbit` | src/js/script.js:575-578 | The four orbit updates leave every view in step with the sliders and add one Japan-view light |
| `Driver.Simulator.UpdateViews` | src/js/script.js:495-497 | The three sub-view updates bring the sub-views and the label into step with the orbit slider |
| `Driver.Simulator.SetInterval` | src/js/script.js:561 | A fresh non-zero handle is issued and its interval becomes active |
| `Driver.Simulator.ClearInterval` | src/js/script.js:521 | The cleared interval is no longer active |
| `Driver.Simulator.AutoAnimate` | src/js/script.js:556-580 | The new handle is stored and its interval added to the active ones, with nothing cleared |
| `Driver.Simulator.Play` | src/js/script.js:511-525 | The driver toggles. From stopped, exactly one new interval runs. From running, the interval is cleared and none runs. The invariant is kept and at most one interval is ever active |
| `Driver.Simulator.Tick` | src/js/script.js:561-579 | Stopped: nothing changes. Running: the slider takes its next value, wrapping past 295 to 0. Views and label follow the slider. The invariant is kept |
| `Driver.Simulator.Reset` | src/js/script.js:528-547 | From any valid state: sliders 0 and 12, stopped, no handle, no active interval, label 新月, views in step, invariant kept. The Japan view's new list is its old filtered list with a Moon and one more light for day 0, so the lights gathered before the reset stay |
| `Driver.Simulator.ResetTime` | src/js/script.js:530-538 | Sliders at 0 and 12, every view updated for that time, label 新月, invariant kept. The Japan view's new list is the day-0 update of the old one |
| `Driver.Simulator.Stop` | src/js/script.js:540-547 | Afterwards the driver is stopped with no handle and no active interval, and its invariant holds |
| `Driver.Simulator.ClearAnimation` | src/js/script.js:520-523 | The handle is dropped, and the interval it named, if any, is no longer active |
| `Driver.Simulator.OrbitInput` | src/js/script.js:491-499 | The slider takes the input value and every orbit-dependent view follows it, invariant kept. The Japan view's new list is the update of the old one for the new angle |
| `Driver.Simulator.RotationInput` | src/js/script.js:502-508 | The hour is set and the Earth turned. The Japan view is redrawn for the unchanged orbit and gains one more light. The invariant is kept |

## Left out

- Scene, camera and renderer construction and the render loop (`initMainScene`,
  `initEarthView`, `initMoonView`, `initJapanView`, `animate`) are Three.js and
  WebGL calls. The model keeps only each scene's initial children and the initial
  Earth, Moon and orbit-line positions.
- The sun mesh and the Earth's orbit line never change after they are built, so
  they are not modelled. The orbit-line point generation in `createOrbits` is
  floating-point geometry and is also left out.
- Mouse and wheel camera controls (`setupMouseControls`) are UI event handling
  built on `atan2`, `cos` and `sin` camera maths.
- `handleResize`, the DOM lookups, `textContent` and `toFixed` formatting,
  button captions and `console.log` are I/O.
- The `init` bootstrap's try/catch and the `DOMContentLoaded` wiring are startup
  sequencing. The constructor models the state that a successful `init` leaves.
- Real timer scheduling at 100 ms is left out. An interval is a handle in the
  host's table, and `Tick` is the callback run for the active interval.
- Floating point is left out. Positions and angles are exact reals, and
  `Math.cos`, `Math.sin` and `Math.PI` are parameters about which nothing is
  assumed.
- The page's HTML is not part of this model. That leaves out the sliders'
  ranges, their steps and their initial values. The model takes the orbit slider
  to hold integers in 0..295, as the bound 295 in the tick implies. It starts the
  sliders at 0 and 12, the values `init` updates with.
- `Orbit.SunLightPosition`: its contract only says the light lies in the
  horizontal plane, because the coordinates depend on `cos` and `sin`, about
  which nothing is known. `Orbit.SunLightOpposesMoon` relates the light to the
  Moon's placement.
- `Orbit.MoonPlacement`: its contract only says the Moon's height is kept, for
  the same reason. `Orbit.MoonOnOrbitCircle` and
  `Driver.Simulator.UpdateMoonPosition` state the coordinates.
- `Views.MoveFirstLight`: its own contract only says the length is kept. What it
  changes is stated by `Views.MoveFirstLightShape` and `Views.MoveFirstLightFirst`.
