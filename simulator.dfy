/**
 * The page's controller state: the two sliders, the animation driver
 * (`isAnimating`, `animationId` and the host's interval table), the main
 * scene's placements and the three sub-views' children, with one method per
 * update function and per event handler of src/js/script.js.
 *
 * The interval callback that `setInterval` registers is the method Tick; the
 * host calls it while its interval is active.
 */
module Driver {
  import opened Options
  import opened Phase
  import opened Orbit
  import opened Views

  /** One tick of the orbit slider: `value + 1`, back to 0 once it passes 295. */
  function NextOrbit(v: int): int
  {
    if v + 1 > OrbitSliderMax then 0 else v + 1
  }

  /** The slider value after n ticks. */
  function Ticks(v: int, n: nat): int
  {
    if n == 0 then v else NextOrbit(Ticks(v, n - 1))
  }

  /**
   * A tick keeps the slider in range; 295 itself is reached and shown, and only
   * the tick after it wraps to 0.
   */
  lemma NextOrbitInRange(v: int)
    requires 0 <= v <= OrbitSliderMax
    ensures 0 <= NextOrbit(v) <= OrbitSliderMax
    ensures NextOrbit(v) == 0 <==> v == OrbitSliderMax
    ensures v < OrbitSliderMax ==> NextOrbit(v) == v + 1
  {
  }

  /**
   * Ticking from any slider value walks the 296 values 0..295 cyclically, so the
   * animation repeats every 296 ticks (29.6 simulated days).
   */
  lemma {:induction false} TicksCycle(v: int, n: nat)
    requires 0 <= v <= OrbitSliderMax
    ensures Ticks(v, n) == (v + n) % (OrbitSliderMax + 1)
  {
    if n > 0 {
      TicksCycle(v, n - 1);
    }
  }

  /** After 296 ticks the slider is back where it started. */
  lemma TicksPeriod(v: int)
    requires 0 <= v <= OrbitSliderMax
    ensures Ticks(v, 296) == v
    ensures forall n :: 0 < n < 296 ==> Ticks(v, n) != v
  {
    TicksCycle(v, 296);
    forall n | 0 < n < 296
      ensures Ticks(v, n) != v
    {
      TicksCycle(v, n);
    }
  }

  class Simulator {
    /** The host's Math.cos, Math.sin and Math.PI. */
    const trig: Trig

    /** The orbit slider's integer value (dayProgress * 10) and the rotation slider's hour. */
    var orbitSlider: int
    var rotationSlider: real

    /** The animation driver's globals. */
    var isAnimating: bool
    var animationId: Option<nat>

    /** The host's interval table: the handles of active intervals and the next handle to issue. */
    var activeTimers: set<nat>
    var nextTimerId: nat

    /** Main scene placements (earth.position, earth.rotation.y, moon.position, moonOrbitLine.position). */
    var earthPosition: Vec3
    var earthRotationY: real
    var moonPosition: Vec3
    var moonOrbitLinePosition: Vec3

    /** The sub-views' `scene.children`. */
    var earthViewChildren: seq<Child>
    var moonViewChildren: seq<Child>
    var japanViewChildren: seq<Child>

    /** The text of the phase-name element; None where the name table gives `undefined`. */
    var phaseLabel: Option<PhaseName>

    /** How many times the Japan view has been updated. */
    ghost var japanUpdates: nat

    /** The orbital angle the current orbit slider value stands for. */
    ghost function Angle(): real
      reads this`orbitSlider
    {
      OrbitalAngle(DayOfSlider(orbitSlider), trig.pi)
    }

    /**
     * The driver's invariant: running exactly when an interval handle is held,
     * and then that interval, and no other, is active.
     */
    ghost predicate DriverValid()
      reads this`orbitSlider, this`isAnimating, this`animationId, this`activeTimers, this`nextTimerId
    {
      && 0 <= orbitSlider <= OrbitSliderMax
      && (isAnimating <==> animationId.Some?)
      && activeTimers == (if animationId.Some? then {animationId.value} else {})
      && (animationId.Some? ==> 0 < animationId.value < nextTimerId)
      && 0 < nextTimerId
    }

    /** The shape the scenes keep whatever the slider values. */
    ghost predicate ScenesShaped()
      reads this`moonPosition, this`moonOrbitLinePosition, this`earthPosition, this`earthViewChildren,
            this`moonViewChildren, this`japanViewChildren, this`japanUpdates
    {
      && moonPosition.y == 0.0
      && moonOrbitLinePosition == earthPosition
      && LitSubView(earthViewChildren)
      && LitSubView(moonViewChildren)
      && DirLightCount(japanViewChildren) == japanUpdates
    }

    /**
     * Every object the updates place agrees with the two slider values: the main
     * scene, both lit sub-views whole, the label, and the Japan view's newest Moon
     * and light. The lights the Japan view gathered earlier keep older positions.
     */
    ghost predicate ScenesSynced()
      reads this`orbitSlider, this`rotationSlider, this`moonPosition, this`earthPosition, this`earthRotationY,
            this`earthViewChildren, this`moonViewChildren, this`japanViewChildren, this`phaseLabel
    {
      var a := Angle();
      var n := |japanViewChildren|;
      && earthRotationY == RotationAngle(rotationSlider, trig.pi)
      && moonPosition == Vec3(earthPosition.x + trig.cos(a) * MoonOrbitRadius, 0.0,
                              earthPosition.z + trig.sin(a) * MoonOrbitRadius)
      && earthViewChildren == [AmbientLight, DirLight(1.0, SunLightPosition(a, trig, 5.0)), EarthViewMoon(a, trig)]
      && moonViewChildren == [AmbientLight, DirLight(1.0, SunLightPosition(a, trig, 5.0)), MoonViewEarth(a, trig)]
      && n >= 2
      && SphereCount(japanViewChildren) == 1
      && japanViewChildren[n - 2] == JapanViewMoon(a, trig)
      && japanViewChildren[n - 1] == JapanViewLight(a, trig)
      && 0 <= orbitSlider <= OrbitSliderMax
      && phaseLabel == Some(PhaseNames[SliderPhaseIndex(orbitSlider)])
    }

    ghost predicate Valid()
      reads this
    {
      DriverValid() && ScenesShaped() && ScenesSynced()
    }

    /**
     * The page after init: the scenes as initMainScene, initEarthView,
     * initMoonView and initJapanView build them, then the initial updates
     * for dayProgress 0 and hour 12.
     */
    constructor (trig: Trig)
      ensures Valid()
      ensures this.trig == trig
      ensures orbitSlider == 0 && rotationSlider == 12.0
      ensures !isAnimating && animationId == None && activeTimers == {}
      ensures earthPosition == Vec3(15.0, 0.0, 0.0)
      ensures japanViewChildren == [AmbientLight, JapanViewMoon(0.0, trig), JapanViewLight(0.0, trig)]
      ensures japanUpdates == 1
    {
      this.trig := trig;
      orbitSlider, rotationSlider := 0, 12.0;
      isAnimating, animationId := false, None;
      activeTimers, nextTimerId := {}, 1;
      earthPosition := Vec3(15.0, 0.0, 0.0);
      earthRotationY := 0.0;
      moonPosition := Vec3(15.0 + MoonOrbitRadius, 0.0, 0.0);
      moonOrbitLinePosition := Vec3(15.0, 0.0, 0.0);
      earthViewChildren := [AmbientLight, DirLight(1.0, Vec3(-5.0, 0.0, 5.0))];
      moonViewChildren := [AmbientLight, DirLight(1.0, Vec3(-5.0, 0.0, 5.0))];
      japanViewChildren := [AmbientLight];
      phaseLabel := None;
      japanUpdates := 0;
      new;
      UpdateAll(0.0, 12.0);
    }

    // -------------------------------------------------------------------------
    // The update functions.

    /** updateMoonPosition: the Moon to its orbit point round the Earth, the orbit line onto the Earth. */
    method UpdateMoonPosition(dayProgress: real)
      modifies this`moonPosition, this`moonOrbitLinePosition
      ensures moonPosition == MoonPlacement(earthPosition, old(moonPosition), OrbitalAngle(dayProgress, trig.pi), trig)
      ensures moonOrbitLinePosition == earthPosition
    {
      var angle := OrbitalAngle(dayProgress, trig.pi);
      moonPosition := moonPosition.(x := earthPosition.x + trig.cos(angle) * MoonOrbitRadius);
      moonPosition := moonPosition.(z := earthPosition.z + trig.sin(angle) * MoonOrbitRadius);
      moonOrbitLinePosition := earthPosition;
    }

    /** updateEarthRotation: the Earth turned to the hour's angle about its vertical axis. */
    method UpdateEarthRotation(hour: real)
      modifies this`earthRotationY
      ensures earthRotationY == RotationAngle(hour, trig.pi)
    {
      var angle := RotationAngle(hour, trig.pi);
      earthRotationY := angle;
    }

    /** updateEarthViewMoon: drop the spheres, add the new Moon, move the first light. */
    method UpdateEarthViewMoon(dayProgress: real)
      modifies this`earthViewChildren
      ensures earthViewChildren == EarthViewUpdate(old(earthViewChildren), OrbitalAngle(dayProgress, trig.pi), trig)
    {
      earthViewChildren := RemoveSpheres(earthViewChildren);
      var angle := OrbitalAngle(dayProgress, trig.pi);
      var viewMoon := SphereMesh(1.5, 32, angle + trig.pi);
      earthViewChildren := earthViewChildren + [viewMoon];
      var sunLight := SunLightPosition(angle, trig, 5.0);
      MoveFirstLightShape(earthViewChildren, sunLight);
      if DirLightCount(earthViewChildren) > 0 {
        earthViewChildren := MoveFirstLight(earthViewChildren, sunLight);
      }
    }

    /** updateMoonViewEarth: drop the spheres, add the new Earth, move the first light. */
    method UpdateMoonViewEarth(dayProgress: real)
      modifies this`moonViewChildren
      ensures moonViewChildren == MoonViewUpdate(old(moonViewChildren), OrbitalAngle(dayProgress, trig.pi), trig)
    {
      moonViewChildren := RemoveSpheres(moonViewChildren);
      var angle := OrbitalAngle(dayProgress, trig.pi);
      var viewEarth := SphereMesh(2.0, 32, angle);
      moonViewChildren := moonViewChildren + [viewEarth];
      var sunLight := SunLightPosition(angle, trig, 5.0);
      MoveFirstLightShape(moonViewChildren, sunLight);
      if DirLightCount(moonViewChildren) > 0 {
        moonViewChildren := MoveFirstLight(moonViewChildren, sunLight);
      }
    }

    /**
     * updateJapanViewMoon: drop the spheres, add the new Moon, add one more
     * directional light, and publish the phase name. The hour is not used.
     */
    method UpdateJapanViewMoon(dayProgress: real, hour: real)
      modifies this`japanViewChildren, this`phaseLabel, this`japanUpdates
      ensures japanViewChildren == JapanViewUpdate(old(japanViewChildren), OrbitalAngle(dayProgress, trig.pi), trig)
      ensures phaseLabel == PhaseNameOfDay(dayProgress)
      ensures japanUpdates == old(japanUpdates) + 1
    {
      japanViewChildren := RemoveSpheres(japanViewChildren);
      var angle := OrbitalAngle(dayProgress, trig.pi);
      var viewMoon := SphereMesh(2.5, 64, angle + trig.pi);
      japanViewChildren := japanViewChildren + [viewMoon];
      var directionalLight := DirLight(1.5, SunLightPosition(angle, trig, 10.0));
      japanViewChildren := japanViewChildren + [directionalLight];
      UpdateMoonPhaseName(dayProgress);
      japanUpdates := japanUpdates + 1;
    }

    /** updateMoonPhaseName: the label from the name table at the phase index. */
    method UpdateMoonPhaseName(dayProgress: real)
      modifies this`phaseLabel
      ensures phaseLabel == PhaseNameOfDay(dayProgress)
    {
      var phaseIndex := PhaseIndexOfDay(dayProgress);
      phaseLabel := if 0 <= phaseIndex then Some(PhaseNames[phaseIndex]) else None;
    }

    /**
     * The five updates init and the reset button run, for the given time. Called
     * when the sliders already hold that time.
     */
    method UpdateAll(dayProgress: real, hour: real)
      requires DriverValid() && ScenesShaped()
      requires dayProgress == DayOfSlider(orbitSlider) && hour == rotationSlider
      modifies this`moonPosition, this`moonOrbitLinePosition, this`earthRotationY, this`earthViewChildren,
               this`moonViewChildren, this`japanViewChildren, this`phaseLabel, this`japanUpdates
      ensures Valid()
      ensures japanViewChildren == JapanViewUpdate(old(japanViewChildren), Angle(), trig)
      ensures japanUpdates == old(japanUpdates) + 1
    {
      UpdateMoonPosition(dayProgress);
      UpdateEarthRotation(hour);
      UpdateViews(dayProgress, hour);
    }

    /**
     * The four updates an orbit change runs (the orbit slider's handler and the
     * interval callback), for the current slider values.
     */
    method UpdateForOrbit(dayProgress: real, hour: real)
      requires DriverValid() && ScenesShaped()
      requires earthRotationY == RotationAngle(rotationSlider, trig.pi)
      requires dayProgress == DayOfSlider(orbitSlider) && hour == rotationSlider
      modifies this`moonPosition, this`moonOrbitLinePosition, this`earthViewChildren,
               this`moonViewChildren, this`japanViewChildren, this`phaseLabel, this`japanUpdates
      ensures Valid()
      ensures japanViewChildren == JapanViewUpdate(old(japanViewChildren), Angle(), trig)
      ensures japanUpdates == old(japanUpdates) + 1
    {
      UpdateMoonPosition(dayProgress);
      UpdateViews(dayProgress, hour);
    }

    /** The three sub-view updates, one after another. */
    method UpdateViews(dayProgress: real, hour: real)
      requires DriverValid() && ScenesShaped()
      requires earthRotationY == RotationAngle(rotationSlider, trig.pi)
      requires dayProgress == DayOfSlider(orbitSlider)
      requires moonPosition == MoonPlacement(earthPosition, moonPosition, Angle(), trig)
      modifies this`earthViewChildren, this`moonViewChildren, this`japanViewChildren,
               this`phaseLabel, this`japanUpdates
      ensures Valid()
      ensures japanViewChildren == JapanViewUpdate(old(japanViewChildren), Angle(), trig)
      ensures japanUpdates == old(japanUpdates) + 1
    {
      ghost var a := Angle();
      ghost var earthView, moonView, japanView := earthViewChildren, moonViewChildren, japanViewChildren;
      SliderPhaseMatchesDay(orbitSlider);
      UpdateEarthViewMoon(dayProgress);
      EarthViewSettles(earthView, a, trig);
      UpdateMoonViewEarth(dayProgress);
      MoonViewSettles(moonView, a, trig);
      UpdateJapanViewMoon(dayProgress, hour);
      JapanViewUpdateProperties(japanView, a, trig);
    }

    // -------------------------------------------------------------------------
    // The host's interval table.

    /** setInterval: register the callback and hand out a fresh handle (never 0, so always truthy). */
    method SetInterval() returns (id: nat)
      requires 0 < nextTimerId
      modifies this`activeTimers, this`nextTimerId
      ensures id == old(nextTimerId) && 0 < id
      ensures activeTimers == old(activeTimers) + {id}
      ensures nextTimerId == old(nextTimerId) + 1
    {
      id := nextTimerId;
      activeTimers := activeTimers + {id};
      nextTimerId := nextTimerId + 1;
    }

    /** clearInterval: the interval stops; no callback of it runs afterwards. */
    method ClearInterval(id: nat)
      modifies this`activeTimers
      ensures activeTimers == old(activeTimers) - {id}
    {
      activeTimers := activeTimers - {id};
    }

    // -------------------------------------------------------------------------
    // The animation driver.

    /**
     * autoAnimate: start an interval and keep its handle. It does not clear the
     * interval a previous handle named; it is only called from the stopped state.
     */
    method AutoAnimate()
      requires 0 < nextTimerId
      modifies this`animationId, this`activeTimers, this`nextTimerId
      ensures animationId == Some(old(nextTimerId))
      ensures activeTimers == old(activeTimers) + {old(nextTimerId)}
      ensures nextTimerId == old(nextTimerId) + 1
    {
      var id := SetInterval();
      animationId := Some(id);
    }

    /** Dropping the stored handle: a truthy handle has its interval cleared first. */
    method ClearAnimation()
      modifies this`animationId, this`activeTimers
      ensures animationId == None
      ensures activeTimers == if old(animationId).Some? then old(activeTimers) - {old(animationId).value}
                              else old(activeTimers)
    {
      if animationId.Some? {
        ClearInterval(animationId.value);
        animationId := None;
      }
    }

    /**
     * The play button toggles the driver: from stopped it starts exactly one
     * interval; from running it clears the one that runs. Either way the driver
     * invariant holds afterwards, so there is never more than one active interval.
     */
    method Play()
      requires Valid()
      modifies this`isAnimating, this`animationId, this`activeTimers, this`nextTimerId
      ensures Valid()
      ensures isAnimating == !old(isAnimating)
      ensures !old(isAnimating) ==> animationId == Some(old(nextTimerId)) && activeTimers == {old(nextTimerId)}
      ensures old(isAnimating) ==> animationId == None && activeTimers == {}
      ensures |activeTimers| <= 1
    {
      isAnimating := !isAnimating;
      if isAnimating {
        AutoAnimate();
      } else {
        ClearAnimation();
      }
    }

    /**
     * The interval callback: nothing while stopped; otherwise the orbit slider
     * advances by one step, wrapping past 295 to 0, and the scenes follow it.
     */
    method Tick()
      requires Valid()
      modifies this`orbitSlider, this`moonPosition, this`moonOrbitLinePosition, this`earthViewChildren,
               this`moonViewChildren, this`japanViewChildren, this`phaseLabel, this`japanUpdates
      ensures Valid()
      ensures !old(isAnimating) ==> unchanged(this)
      ensures old(isAnimating) ==> orbitSlider == NextOrbit(old(orbitSlider))
      ensures old(isAnimating) ==> japanUpdates == old(japanUpdates) + 1
      ensures old(isAnimating) ==> japanViewChildren == JapanViewUpdate(old(japanViewChildren), Angle(), trig)
    {
      if !isAnimating {
        return;
      }
      var currentValue := orbitSlider;
      currentValue := currentValue + 1;
      if currentValue > OrbitSliderMax {
        currentValue := 0;
      }
      orbitSlider := currentValue;
      var dayProgress := DayOfSlider(currentValue);
      UpdateForOrbit(dayProgress, rotationSlider);
    }

    /**
     * The reset button: both sliders back to 0 and 12, every view updated for
     * that time, and the driver stopped with its interval cleared.
     */
    method Reset()
      requires Valid()
      modifies this`orbitSlider, this`rotationSlider, this`isAnimating, this`animationId, this`activeTimers,
               this`moonPosition, this`moonOrbitLinePosition, this`earthRotationY, this`earthViewChildren,
               this`moonViewChildren, this`japanViewChildren, this`phaseLabel, this`japanUpdates
      ensures Valid()
      ensures orbitSlider == 0 && rotationSlider == 12.0
      ensures !isAnimating && animationId == None && activeTimers == {}
      ensures phaseLabel == Some(NewMoon)
      ensures japanViewChildren == JapanViewUpdate(old(japanViewChildren), OrbitalAngle(0.0, trig.pi), trig)
      ensures japanUpdates == old(japanUpdates) + 1
    {
      ResetTime();
      Stop();
    }

    /** The reset button's first steps: both sliders back to 0 and 12, every view updated for that time. */
    method ResetTime()
      requires DriverValid() && ScenesShaped()
      modifies this`orbitSlider, this`rotationSlider,
               this`moonPosition, this`moonOrbitLinePosition, this`earthRotationY, this`earthViewChildren,
               this`moonViewChildren, this`japanViewChildren, this`phaseLabel, this`japanUpdates
      ensures Valid()
      ensures orbitSlider == 0 && rotationSlider == 12.0
      ensures phaseLabel == Some(NewMoon)
      ensures japanViewChildren == JapanViewUpdate(old(japanViewChildren), OrbitalAngle(0.0, trig.pi), trig)
      ensures japanUpdates == old(japanUpdates) + 1
    {
      orbitSlider := 0;
      rotationSlider := 12.0;
      UpdateAll(0.0, 12.0);
      assert SliderPhaseIndex(0) == 0;
    }

    /** The reset button's last step: a running driver is stopped and its interval cleared. */
    method Stop()
      requires DriverValid()
      modifies this`isAnimating, this`animationId, this`activeTimers
      ensures DriverValid()
      ensures !isAnimating && animationId == None && activeTimers == {}
    {
      if isAnimating {
        isAnimating := false;
        ClearAnimation();
      }
    }

    /** The orbit slider's input handler: the slider at v, the scenes following it. */
    method OrbitInput(v: int)
      requires Valid()
      requires 0 <= v <= OrbitSliderMax
      modifies this`orbitSlider, this`moonPosition, this`moonOrbitLinePosition, this`earthViewChildren,
               this`moonViewChildren, this`japanViewChildren, this`phaseLabel, this`japanUpdates
      ensures Valid()
      ensures orbitSlider == v
      ensures japanViewChildren == JapanViewUpdate(old(japanViewChildren), Angle(), trig)
      ensures japanUpdates == old(japanUpdates) + 1
    {
      orbitSlider := v;
      var dayProgress := DayOfSlider(v);
      UpdateForOrbit(dayProgress, rotationSlider);
    }

    /**
     * The rotation slider's input handler: the Earth turned to the hour, and the
     * Japan view redrawn for the unchanged orbit (one more light added).
     */
    method RotationInput(hour: real)
      requires Valid()
      modifies this`rotationSlider, this`earthRotationY, this`japanViewChildren, this`phaseLabel, this`japanUpdates
      ensures Valid()
      ensures rotationSlider == hour
      ensures japanViewChildren == JapanViewUpdate(old(japanViewChildren), Angle(), trig)
      ensures japanUpdates == old(japanUpdates) + 1
    {
      rotationSlider := hour;
      UpdateEarthRotation(hour);
      ghost var japanView := japanViewChildren;
      SliderPhaseMatchesDay(orbitSlider);
      UpdateJapanViewMoon(DayOfSlider(orbitSlider), hour);
      JapanViewUpdateProperties(japanView, Angle(), trig);
    }
  }

  /**
   * A session as a user drives it: play, two ticks from the last slider value
   * before the wrap, pause, a tick that does nothing, reset.
   */
  method Session(trig: Trig)
  {
    var sim := new Simulator(trig);
    sim.OrbitInput(294);
    sim.Play();
    assert sim.isAnimating && |sim.activeTimers| == 1;
    sim.Tick();
    assert sim.orbitSlider == 295;
    sim.Tick();
    assert sim.orbitSlider == 0;
    sim.Play();
    assert !sim.isAnimating && sim.activeTimers == {};
    sim.Tick();
    assert sim.orbitSlider == 0;
    sim.Reset();
    assert sim.orbitSlider == 0 && sim.rotationSlider == 12.0 && !sim.isAnimating;
  }
}
