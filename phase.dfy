/**
 * The phase classifier: from the Moon's progress through its synodic cycle to
 * one of eight phase names (updateMoonPhaseName in src/js/script.js).
 *
 * Time is held the way the page holds it: as the integer value v of the orbit
 * slider, 0 <= v <= 295, with dayProgress = v / 10 days.  The classifier itself
 * is stated over an arbitrary real dayProgress, with JavaScript's truncating
 * remainder and the `undefined` that an out-of-range array index yields.
 */
module Phase {
  import opened Options

  /** The eight labels, new moon first, in the order of the source's name table. */
  datatype PhaseName =
    | NewMoon        // 新月
    | WaxingCrescent // 三日月
    | FirstQuarter   // 上弦の月
    | WaxingGibbous  // 十日夜の月
    | FullMoon       // 満月
    | WaningGibbous  // 寝待月
    | LastQuarter    // 下弦の月
    | WaningCrescent // 有明月

  const PhaseNames: seq<PhaseName> :=
    [NewMoon, WaxingCrescent, FirstQuarter, WaxingGibbous,
     FullMoon, WaningGibbous, LastQuarter, WaningCrescent]

  /** MOON_ORBITAL_PERIOD, in days. */
  const OrbitalPeriod: real := 29.5

  /** The orbit slider's largest value: the slider holds dayProgress * 10. */
  const OrbitSliderMax: int := 295

  /** The dayProgress an orbit slider value stands for: `value / 10`. */
  function DayOfSlider(v: int): real
  {
    v as real / 10.0
  }

  /**
   * JavaScript's `%` on integers. The quotient is truncated toward zero, so the
   * remainder is smaller than the divisor in size and takes the dividend's sign.
   */
  function JsRem(a: int, b: int): (r: int)
    requires b > 0
    ensures -b < r < b
    ensures 0 <= a ==> 0 <= r
    ensures a < 0 ==> r <= 0
    ensures exists q: int :: a == q * b + r
  {
    if a >= 0 then
      assert a == (a / b) * b + a % b;
      a % b
    else
      assert a == (-((-a) / b)) * b + -((-a) % b);
      -((-a) % b)
  }

  /**
   * The truncating remainder is the only one with those properties: any q and r
   * with a == q * b + r, r of a's sign and smaller than b in size give JsRem.
   */
  lemma JsRemUnique(a: int, b: int, q: int, r: int)
    requires b > 0 && -b < r < b
    requires 0 <= a ==> 0 <= r
    requires a < 0 ==> r <= 0
    requires a == q * b + r
    ensures r == JsRem(a, b)
  {
    if a >= 0 {
      DivisionUnique(a, b, q, r);
    } else {
      assert -a == (-q) * b + (-r);
      DivisionUnique(-a, b, -q, -r);
    }
  }

  /** Euclidean division leaves a unique remainder in 0..b-1. */
  lemma DivisionUnique(a: int, b: int, q: int, r: int)
    requires b > 0 && 0 <= r < b && a == q * b + r
    ensures r == a % b
  {
    var q0, r0 := a / b, a % b;
    assert a == q0 * b + r0;
    assert (q - q0) * b == r0 - r;
    SmallMultipleIsZero(q - q0, b);
  }

  /** The only multiple of b strictly between -b and b is 0. */
  lemma SmallMultipleIsZero(d: int, b: int)
    requires b > 0 && -b < d * b < b
    ensures d == 0
  {
    MultipleBounds(d, b);
  }

  /** A non-zero multiple of b is at least b in size. */
  lemma MultipleBounds(d: int, b: int)
    requires b > 0
    ensures d >= 1 ==> d * b >= b
    ensures d <= -1 ==> d * b <= -b
  {
    if d >= 1 {
      assert d * b == b + (d - 1) * b;
    } else if d <= -1 {
      assert d * b == -b - (-d - 1) * b;
    }
  }

  /**
   * The phase index: the floor of eight times the fraction of the cycle that has
   * passed, reduced by JavaScript's remainder by 8, over any real input.
   */
  function PhaseIndexOfDay(dayProgress: real): (k: int)
    ensures -8 < k < 8
    ensures 0.0 <= dayProgress ==> 0 <= k
  {
    JsRem(((dayProgress / OrbitalPeriod) * 8.0).Floor, 8)
  }

  /**
   * `phaseNames[phaseIndex]`: a name for a non-negative index, `undefined`
   * (None) for the negative ones a negative dayProgress produces.
   */
  function PhaseNameOfDay(dayProgress: real): (p: Option<PhaseName>)
    ensures 0.0 <= dayProgress ==> p.Some?
    ensures p.Some? <==> 0 <= PhaseIndexOfDay(dayProgress)
  {
    var k := PhaseIndexOfDay(dayProgress);
    if 0 <= k then Some(PhaseNames[k]) else None
  }

  /** The same index computed in integer arithmetic from the slider value. */
  function SliderPhaseIndex(v: int): (k: int)
    requires 0 <= v <= OrbitSliderMax
    ensures 0 <= k < 8
  {
    (v * 8 / 295) % 8
  }

  /** Floor of an exact quotient of integers is integer division. */
  lemma FloorOfQuotient(a: int, b: int)
    requires b > 0
    ensures (a as real / b as real).Floor == a / b
  {
    var q, r := a / b, a % b;
    assert a == q * b + r;
    assert a as real / b as real == q as real + r as real / b as real;
    assert 0.0 <= r as real / b as real < 1.0;
  }

  /**
   * On slider values the real-valued formula and the integer one agree, so the
   * displayed name is a function of the slider value alone.
   */
  lemma SliderPhaseMatchesDay(v: int)
    requires 0 <= v <= OrbitSliderMax
    ensures PhaseIndexOfDay(DayOfSlider(v)) == SliderPhaseIndex(v)
    ensures PhaseNameOfDay(DayOfSlider(v)) == Some(PhaseNames[SliderPhaseIndex(v)])
  {
    assert (DayOfSlider(v) / OrbitalPeriod) * 8.0 == (v * 8) as real / 295 as real;
    FloorOfQuotient(v * 8, 295);
  }

  /**
   * The exact quotient (v / 10 / 29.5) * 8 = 8v / 295 is an integer only at the two
   * ends of the slider, so everywhere else it lies at least 1/295 from the nearest
   * integer, far from where floating-point rounding could move the floor.
   */
  lemma QuotientIntegralOnlyAtEnds(v: int)
    requires 0 <= v <= OrbitSliderMax
    ensures (v * 8) % 295 == 0 <==> v == 0 || v == OrbitSliderMax
  {
  }

  /**
   * Which slider values give which index: on 0..294 the index k is the one with
   * 295k <= 8v < 295(k+1); the top value 295 gives 8, which `% 8` folds back to 0.
   */
  lemma SliderPhaseBand(v: int, k: int)
    requires 0 <= v <= OrbitSliderMax
    ensures SliderPhaseIndex(v) == k <==>
              (v < OrbitSliderMax && 295 * k <= 8 * v < 295 * (k + 1)) ||
              (v == OrbitSliderMax && k == 0)
  {
  }

  /** Before the wrap at 295 the phase never goes backwards as the slider advances. */
  lemma SliderPhaseMonotone(v: int, w: int)
    requires 0 <= v <= w < OrbitSliderMax
    ensures SliderPhaseIndex(v) <= SliderPhaseIndex(w)
  {
  }

  /** The ends of the slider both read 新月; 294, the last value before it, reads 有明月. */
  lemma SliderPhaseEnds()
    ensures PhaseNameOfDay(0.0) == Some(NewMoon)
    ensures PhaseNameOfDay(29.4) == Some(WaningCrescent)
    ensures PhaseNameOfDay(29.5) == Some(NewMoon)
  {
  }

  /** Half a cycle reads 満月, and a half-day more still does. */
  lemma FullMoonAtHalfCycle()
    ensures PhaseNameOfDay(14.75) == Some(FullMoon)
    ensures PhaseNameOfDay(15.0) == Some(FullMoon)
  {
  }

  /**
   * A slightly negative dayProgress (above -7/8 of a cycle) gives a negative
   * index, and the name table has nothing there.
   */
  lemma NegativeDayHasNoName(dayProgress: real)
    requires -OrbitalPeriod * 7.0 / 8.0 < dayProgress < 0.0
    ensures PhaseNameOfDay(dayProgress) == None
  {
  }
}
