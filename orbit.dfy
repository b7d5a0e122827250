/**
 * The orbital model: the angles derived from the two time parameters, and the
 * sun-light placements the sub-views compute from them.
 *
 * `Math.cos`, `Math.sin` and `Math.PI` are the host's; they enter the model as
 * the fields of a `Trig` value, about which nothing is assumed except where a
 * lemma states the identity it needs.
 */
module Orbit {
  import opened Phase

  /** The host's trigonometry: `Math.cos`, `Math.sin`, `Math.PI`. */
  datatype Trig = Trig(cos: real -> real, sin: real -> real, pi: real)

  /** A Three.js position or rotation vector. */
  datatype Vec3 = Vec3(x: real, y: real, z: real)

  /** MOON_ORBIT_RADIUS: the Moon's distance from the Earth in the overview scene. */
  const MoonOrbitRadius: real := 8.0

  /** Hours in one turn of the Earth. */
  const HoursPerDay: real := 24.0

  /** The Moon's orbital angle: the fraction of the 29.5-day cycle that has passed, as a turn. */
  function OrbitalAngle(dayProgress: real, pi: real): real
  {
    (dayProgress / OrbitalPeriod) * pi * 2.0
  }

  /** The Earth's rotation angle: the fraction of the 24-hour day that has passed, as a turn. */
  function RotationAngle(hour: real, pi: real): real
  {
    (hour / HoursPerDay) * pi * 2.0
  }

  /**
   * The position the sub-views give their sun light: `distance` away from the
   * origin, half a turn round from the orbital angle, in the horizontal plane.
   */
  function SunLightPosition(angle: real, trig: Trig, distance: real): (p: Vec3)
    ensures p.y == 0.0
  {
    Vec3(trig.cos(angle + trig.pi) * distance, 0.0, trig.sin(angle + trig.pi) * distance)
  }

  /**
   * Where updateMoonPosition puts the Moon: the Earth's x and z plus the orbit
   * radius along the angle; the Moon's own height is kept.
   */
  function MoonPlacement(earth: Vec3, moon: Vec3, angle: real, trig: Trig): (p: Vec3)
    ensures p.y == moon.y
  {
    moon.(x := earth.x + trig.cos(angle) * MoonOrbitRadius,
          z := earth.z + trig.sin(angle) * MoonOrbitRadius)
  }

  /** Over a cycle the orbital angle runs from 0 up to, but not reaching, a full turn. */
  lemma OrbitalAngleRange(dayProgress: real, pi: real)
    requires pi > 0.0
    requires 0.0 <= dayProgress < OrbitalPeriod
    ensures 0.0 <= OrbitalAngle(dayProgress, pi) < 2.0 * pi
  {
    var f := dayProgress / OrbitalPeriod;
    assert 0.0 <= f < 1.0;
    assert 0.0 <= f * pi < pi;
    assert OrbitalAngle(dayProgress, pi) == (f * pi) * 2.0;
  }

  /** The orbital angle never decreases as dayProgress grows. */
  lemma OrbitalAngleMonotone(d1: real, d2: real, pi: real)
    requires pi > 0.0
    requires d1 <= d2
    ensures OrbitalAngle(d1, pi) <= OrbitalAngle(d2, pi)
  {
  }

  /** No progress is angle 0; half a cycle is half a turn; noon is half a turn of the Earth. */
  lemma AngleLandmarks(pi: real)
    ensures OrbitalAngle(0.0, pi) == 0.0
    ensures OrbitalAngle(OrbitalPeriod / 2.0, pi) == pi
    ensures RotationAngle(12.0, pi) == pi
    ensures RotationAngle(0.0, pi) == 0.0
  {
  }

  /**
   * The Moon stays on its orbit round the Earth: wherever the Earth is, the
   * placed Moon's horizontal distance from it is the orbit radius (given cos² + sin² = 1).
   */
  lemma MoonOnOrbitCircle(earth: Vec3, moon: Vec3, angle: real, trig: Trig)
    requires trig.cos(angle) * trig.cos(angle) + trig.sin(angle) * trig.sin(angle) == 1.0
    ensures var p := MoonPlacement(earth, moon, angle, trig);
            (p.x - earth.x) * (p.x - earth.x) + (p.z - earth.z) * (p.z - earth.z)
              == MoonOrbitRadius * MoonOrbitRadius
  {
  }

  /**
   * The sub-views' sun light sits on the far side of the Earth from the Moon:
   * with cos and sin turned by half a turn (cos(a + π) = -cos a, sin(a + π) = -sin a),
   * its position is the Moon's offset from the Earth scaled by -distance / radius.
   */
  lemma SunLightOpposesMoon(earth: Vec3, moon: Vec3, angle: real, trig: Trig, distance: real)
    requires trig.cos(angle + trig.pi) == -trig.cos(angle)
    requires trig.sin(angle + trig.pi) == -trig.sin(angle)
    ensures var p := MoonPlacement(earth, moon, angle, trig);
            var l := SunLightPosition(angle, trig, distance);
            l.x * MoonOrbitRadius == -(p.x - earth.x) * distance &&
            l.z * MoonOrbitRadius == -(p.z - earth.z) * distance
  {
  }
}
