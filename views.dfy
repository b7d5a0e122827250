/**
 * The three sub-views' scene contents (updateEarthViewMoon, updateMoonViewEarth
 * and updateJapanViewMoon in src/js/script.js), as operations on the list
 * `scene.children`.
 *
 * Each update replaces the list by a copy with every sphere mesh filtered out,
 * appends one new sphere, and then either moves the first directional light
 * (earth and moon views) or appends a new directional light (Japan view).
 */
module Views {
  import opened Orbit

  /** A child of a sub-view scene, as far as the updates tell children apart. */
  datatype Child =
    | SphereMesh(radius: real, segments: nat, rotationY: real)  // a Mesh over a SphereGeometry
    | DirLight(intensity: real, position: Vec3)                 // a DirectionalLight
    | AmbientLight
    | Other                                                     // anything else a scene may hold

  /** The sub-views' filter: every child except the meshes whose geometry is a sphere. */
  function RemoveSpheres(cs: seq<Child>): seq<Child>
  {
    if cs == [] then []
    else (if cs[0].SphereMesh? then [] else [cs[0]]) + RemoveSpheres(cs[1..])
  }

  /** Number of sphere meshes among the children. */
  function SphereCount(cs: seq<Child>): nat
  {
    if cs == [] then 0 else (if cs[0].SphereMesh? then 1 else 0) + SphereCount(cs[1..])
  }

  /** Number of directional lights among the children. */
  function DirLightCount(cs: seq<Child>): nat
  {
    if cs == [] then 0 else (if cs[0].DirLight? then 1 else 0) + DirLightCount(cs[1..])
  }

  /** `xs` is `ys` with some elements dropped and the rest in their order. */
  ghost predicate IsSubsequence(xs: seq<Child>, ys: seq<Child>)
    decreases |ys|
  {
    xs == [] ||
    (ys != [] &&
     ((xs[0] == ys[0] && IsSubsequence(xs[1..], ys[1..])) || IsSubsequence(xs, ys[1..])))
  }

  /**
   * Re-aiming the sun: among the children, the first directional light, and only
   * it, gets position p.
   */
  function MoveFirstLight(cs: seq<Child>, p: Vec3): (r: seq<Child>)
    ensures |r| == |cs|
  {
    if cs == [] then []
    else if cs[0].DirLight? then [cs[0].(position := p)] + cs[1..]
    else [cs[0]] + MoveFirstLight(cs[1..], p)
  }

  /** Same kind of child, ignoring a light's position. */
  predicate SameShape(a: Child, b: Child)
  {
    if a.DirLight? then b.DirLight? && a.intensity == b.intensity else a == b
  }

  // ---------------------------------------------------------------------------
  // The three updates, given the orbital angle already computed from dayProgress.

  /** The earth view's sphere: radius 1.5, 32 segments, turned to angle + π. */
  function EarthViewMoon(angle: real, trig: Trig): Child
  {
    SphereMesh(1.5, 32, angle + trig.pi)
  }

  /** The moon view's sphere: radius 2, 32 segments, turned to the angle itself. */
  function MoonViewEarth(angle: real, trig: Trig): Child
  {
    SphereMesh(2.0, 32, angle)
  }

  /** The Japan view's sphere: radius 2.5, 64 segments, turned to angle + π. */
  function JapanViewMoon(angle: real, trig: Trig): Child
  {
    SphereMesh(2.5, 64, angle + trig.pi)
  }

  /** The light the Japan view adds on every call: intensity 1.5, 10 away. */
  function JapanViewLight(angle: real, trig: Trig): Child
  {
    DirLight(1.5, SunLightPosition(angle, trig, 10.0))
  }

  /** updateEarthViewMoon on the earth view's children. */
  function EarthViewUpdate(cs: seq<Child>, angle: real, trig: Trig): seq<Child>
  {
    MoveFirstLight(RemoveSpheres(cs) + [EarthViewMoon(angle, trig)], SunLightPosition(angle, trig, 5.0))
  }

  /** updateMoonViewEarth on the moon view's children. */
  function MoonViewUpdate(cs: seq<Child>, angle: real, trig: Trig): seq<Child>
  {
    MoveFirstLight(RemoveSpheres(cs) + [MoonViewEarth(angle, trig)], SunLightPosition(angle, trig, 5.0))
  }

  /** updateJapanViewMoon on the Japan view's children. */
  function JapanViewUpdate(cs: seq<Child>, angle: real, trig: Trig): seq<Child>
  {
    RemoveSpheres(cs) + [JapanViewMoon(angle, trig), JapanViewLight(angle, trig)]
  }

  // ---------------------------------------------------------------------------
  // The filter.

  lemma {:induction false} RemoveSpheresAppend(xs: seq<Child>, ys: seq<Child>)
    ensures RemoveSpheres(xs + ys) == RemoveSpheres(xs) + RemoveSpheres(ys)
  {
    if xs != [] {
      assert (xs + ys)[0] == xs[0];
      assert (xs + ys)[1..] == xs[1..] + ys;
      RemoveSpheresAppend(xs[1..], ys);
    } else {
      assert xs + ys == ys;
    }
  }

  lemma {:induction false} SphereCountAppend(xs: seq<Child>, ys: seq<Child>)
    ensures SphereCount(xs + ys) == SphereCount(xs) + SphereCount(ys)
  {
    if xs != [] {
      assert (xs + ys)[0] == xs[0];
      assert (xs + ys)[1..] == xs[1..] + ys;
      SphereCountAppend(xs[1..], ys);
    } else {
      assert xs + ys == ys;
    }
  }

  lemma {:induction false} DirLightCountAppend(xs: seq<Child>, ys: seq<Child>)
    ensures DirLightCount(xs + ys) == DirLightCount(xs) + DirLightCount(ys)
  {
    if xs != [] {
      assert (xs + ys)[0] == xs[0];
      assert (xs + ys)[1..] == xs[1..] + ys;
      DirLightCountAppend(xs[1..], ys);
    } else {
      assert xs + ys == ys;
    }
  }

  /** The filter leaves no sphere, and every directional light. */
  lemma {:induction false} RemoveSpheresCounts(cs: seq<Child>)
    ensures SphereCount(RemoveSpheres(cs)) == 0
    ensures DirLightCount(RemoveSpheres(cs)) == DirLightCount(cs)
  {
    if cs != [] {
      RemoveSpheresCounts(cs[1..]);
      var head := if cs[0].SphereMesh? then [] else [cs[0]];
      SphereCountAppend(head, RemoveSpheres(cs[1..]));
      DirLightCountAppend(head, RemoveSpheres(cs[1..]));
    }
  }

  /**
   * What the filter leaves: no sphere; a subsequence of the old children; every
   * other child as often as before. Together these determine the result.
   */
  lemma {:induction false} RemoveSpheresKeepsOthers(cs: seq<Child>)
    ensures forall c :: c in RemoveSpheres(cs) ==> !c.SphereMesh?
    ensures IsSubsequence(RemoveSpheres(cs), cs)
    ensures forall c: Child :: !c.SphereMesh? ==> multiset(RemoveSpheres(cs))[c] == multiset(cs)[c]
  {
    if cs != [] {
      RemoveSpheresKeepsOthers(cs[1..]);
      var rest := RemoveSpheres(cs[1..]);
      assert cs == [cs[0]] + cs[1..];
      assert multiset(cs) == multiset{cs[0]} + multiset(cs[1..]);
      if cs[0].SphereMesh? {
        assert RemoveSpheres(cs) == rest;
      } else {
        assert RemoveSpheres(cs) == [cs[0]] + rest;
        assert RemoveSpheres(cs)[1..] == rest;
        assert multiset(RemoveSpheres(cs)) == multiset{cs[0]} + multiset(rest);
      }
    }
  }

  /** Children without spheres pass the filter unchanged. */
  lemma {:induction false} RemoveSpheresNoSpheres(cs: seq<Child>)
    requires SphereCount(cs) == 0
    ensures RemoveSpheres(cs) == cs
  {
    if cs != [] {
      RemoveSpheresNoSpheres(cs[1..]);
    }
  }

  // ---------------------------------------------------------------------------
  // Moving the first light.

  /**
   * MoveFirstLight changes nothing but the position of a directional light: same
   * length, same shapes everywhere, every other child untouched, and no list
   * without a light changed at all. Which light moves is MoveFirstLightFirst.
   */
  lemma {:induction false} MoveFirstLightShape(cs: seq<Child>, p: Vec3)
    ensures |MoveFirstLight(cs, p)| == |cs|
    ensures forall i :: 0 <= i < |cs| ==> SameShape(MoveFirstLight(cs, p)[i], cs[i])
    ensures forall i :: 0 <= i < |cs| ==>
              MoveFirstLight(cs, p)[i] == cs[i] ||
              (cs[i].DirLight? && MoveFirstLight(cs, p)[i] == cs[i].(position := p))
    ensures DirLightCount(cs) == 0 ==> MoveFirstLight(cs, p) == cs
    ensures forall i :: 0 <= i < |cs| && !cs[i].DirLight? ==> MoveFirstLight(cs, p)[i] == cs[i]
    ensures SphereCount(MoveFirstLight(cs, p)) == SphereCount(cs)
    ensures DirLightCount(MoveFirstLight(cs, p)) == DirLightCount(cs)
  {
    if cs != [] && !cs[0].DirLight? {
      MoveFirstLightShape(cs[1..], p);
      var r := MoveFirstLight(cs, p);
      assert r[1..] == MoveFirstLight(cs[1..], p);
      forall i | 0 < i < |cs|
        ensures SameShape(r[i], cs[i])
      {
        assert r[i] == r[1..][i - 1];
      }
    } else if cs != [] {
      var r := MoveFirstLight(cs, p);
      assert r[1..] == cs[1..];
    }
  }

  /**
   * The light that moves is the first one, and only it: with the first light at
   * index i, that child is at p and every other child, later lights included,
   * is untouched.
   */
  lemma {:induction false} MoveFirstLightFirst(cs: seq<Child>, p: Vec3, i: nat)
    requires i < |cs| && cs[i].DirLight?
    requires forall j :: 0 <= j < i ==> !cs[j].DirLight?
    ensures MoveFirstLight(cs, p)[i] == cs[i].(position := p)
    ensures forall j :: 0 <= j < |cs| && j != i ==> MoveFirstLight(cs, p)[j] == cs[j]
  {
    var r := MoveFirstLight(cs, p);
    if i > 0 {
      MoveFirstLightFirst(cs[1..], p, i - 1);
      assert r[1..] == MoveFirstLight(cs[1..], p);
      forall j | 0 < j < |cs| && j != i
        ensures r[j] == cs[j]
      {
        assert r[j] == r[1..][j - 1];
      }
    } else {
      assert r[1..] == cs[1..];
    }
  }

  /** Moving the same light to the same place twice is moving it once. */
  lemma {:induction false} MoveFirstLightIdempotent(cs: seq<Child>, p: Vec3)
    ensures MoveFirstLight(MoveFirstLight(cs, p), p) == MoveFirstLight(cs, p)
  {
    if cs != [] && !cs[0].DirLight? {
      MoveFirstLightIdempotent(cs[1..], p);
    }
  }

  /** A child that is not a light, appended, is not touched by the move. */
  lemma {:induction false} MoveFirstLightAppend(cs: seq<Child>, c: Child, p: Vec3)
    requires !c.DirLight?
    ensures MoveFirstLight(cs + [c], p) == MoveFirstLight(cs, p) + [c]
  {
    if cs != [] {
      assert (cs + [c])[1..] == cs[1..] + [c];
      if !cs[0].DirLight? {
        MoveFirstLightAppend(cs[1..], c, p);
      }
    }
  }

  /**
   * A sub-view update that moves its first light leaves exactly one sphere, the
   * new one, at the end; before it stand the old non-sphere children in their
   * order, with only the first light moved; the light count does not change.
   */
  lemma MovingUpdateShape(cs: seq<Child>, sphere: Child, p: Vec3)
    requires sphere.SphereMesh?
    ensures var r := MoveFirstLight(RemoveSpheres(cs) + [sphere], p);
            && r == MoveFirstLight(RemoveSpheres(cs), p) + [sphere]
            && SphereCount(r) == 1
            && r[|r| - 1] == sphere
            && RemoveSpheres(r) == MoveFirstLight(RemoveSpheres(cs), p)
            && DirLightCount(r) == DirLightCount(cs)
  {
    var kept := RemoveSpheres(cs);
    RemoveSpheresCounts(cs);
    MoveFirstLightAppend(kept, sphere, p);
    var moved := MoveFirstLight(kept, p);
    MoveFirstLightShape(kept, p);
    SphereCountAppend(moved, [sphere]);
    DirLightCountAppend(moved, [sphere]);
    RemoveSpheresAppend(moved, [sphere]);
    RemoveSpheresNoSpheres(moved);
  }

  /**
   * Two calls with the same angle leave what one call leaves: the moving updates
   * do not accumulate anything.
   */
  lemma MovingUpdateIdempotent(cs: seq<Child>, sphere: Child, p: Vec3)
    requires sphere.SphereMesh?
    ensures var once := MoveFirstLight(RemoveSpheres(cs) + [sphere], p);
            MoveFirstLight(RemoveSpheres(once) + [sphere], p) == once
  {
    var once := MoveFirstLight(RemoveSpheres(cs) + [sphere], p);
    MovingUpdateShape(cs, sphere, p);
    MovingUpdateShape(once, sphere, p);
    MoveFirstLightIdempotent(RemoveSpheres(cs), p);
  }

  /** updateEarthViewMoon: one sphere, the rest kept in order, light count kept, idempotent. */
  lemma EarthViewUpdateProperties(cs: seq<Child>, angle: real, trig: Trig)
    ensures var r := EarthViewUpdate(cs, angle, trig);
            && SphereCount(r) == 1
            && r[|r| - 1] == SphereMesh(1.5, 32, angle + trig.pi)
            && RemoveSpheres(r) == MoveFirstLight(RemoveSpheres(cs), SunLightPosition(angle, trig, 5.0))
            && DirLightCount(r) == DirLightCount(cs)
            && EarthViewUpdate(r, angle, trig) == r
  {
    MovingUpdateShape(cs, EarthViewMoon(angle, trig), SunLightPosition(angle, trig, 5.0));
    MovingUpdateIdempotent(cs, EarthViewMoon(angle, trig), SunLightPosition(angle, trig, 5.0));
  }

  /** updateMoonViewEarth: one sphere, the rest kept in order, light count kept, idempotent. */
  lemma MoonViewUpdateProperties(cs: seq<Child>, angle: real, trig: Trig)
    ensures var r := MoonViewUpdate(cs, angle, trig);
            && SphereCount(r) == 1
            && r[|r| - 1] == SphereMesh(2.0, 32, angle)
            && RemoveSpheres(r) == MoveFirstLight(RemoveSpheres(cs), SunLightPosition(angle, trig, 5.0))
            && DirLightCount(r) == DirLightCount(cs)
            && MoonViewUpdate(r, angle, trig) == r
  {
    MovingUpdateShape(cs, MoonViewEarth(angle, trig), SunLightPosition(angle, trig, 5.0));
    MovingUpdateIdempotent(cs, MoonViewEarth(angle, trig), SunLightPosition(angle, trig, 5.0));
  }

  /**
   * The shape the earth and moon views keep: the ambient light, one directional
   * light of intensity 1, and then spheres only (none before the first update).
   */
  predicate LitSubView(cs: seq<Child>)
  {
    && |cs| >= 2
    && cs[0] == AmbientLight
    && cs[1].DirLight? && cs[1].intensity == 1.0
    && forall i :: 2 <= i < |cs| ==> cs[i].SphereMesh?
  }

  /** On a scene of that shape the filter leaves the two lights. */
  lemma {:induction false} RemoveSpheresLitSubView(cs: seq<Child>)
    requires LitSubView(cs)
    ensures RemoveSpheres(cs) == cs[..2]
  {
    AllSpheresRemoved(cs[2..]);
    assert cs == cs[..2] + cs[2..];
    RemoveSpheresAppend(cs[..2], cs[2..]);
    assert cs[..2][1..] == [cs[1]] && [cs[1]][1..] == [];
    assert RemoveSpheres([cs[1]]) == [cs[1]];
  }

  lemma {:induction false} AllSpheresRemoved(cs: seq<Child>)
    requires forall i :: 0 <= i < |cs| ==> cs[i].SphereMesh?
    ensures RemoveSpheres(cs) == []
  {
    if cs != [] {
      AllSpheresRemoved(cs[1..]);
    }
  }

  /** A moving update applied to that shape gives the two lights, the first one moved, and the sphere. */
  lemma MovingUpdateLitSubView(cs: seq<Child>, sphere: Child, p: Vec3)
    requires LitSubView(cs) && sphere.SphereMesh?
    ensures MoveFirstLight(RemoveSpheres(cs) + [sphere], p) == [AmbientLight, cs[1].(position := p), sphere]
  {
    RemoveSpheresLitSubView(cs);
    assert cs[..2] == [AmbientLight, cs[1]];
    MoveFirstLightAppend(cs[..2], sphere, p);
    assert cs[..2][1..] == [cs[1]];
    assert MoveFirstLight(cs[..2], p) == [AmbientLight, cs[1].(position := p)];
  }

  /** The earth view, built as ambient + one light, always holds ambient, the re-aimed light and its Moon. */
  lemma EarthViewSettles(cs: seq<Child>, angle: real, trig: Trig)
    requires LitSubView(cs)
    ensures EarthViewUpdate(cs, angle, trig)
              == [AmbientLight, DirLight(1.0, SunLightPosition(angle, trig, 5.0)), EarthViewMoon(angle, trig)]
    ensures LitSubView(EarthViewUpdate(cs, angle, trig))
  {
    MovingUpdateLitSubView(cs, EarthViewMoon(angle, trig), SunLightPosition(angle, trig, 5.0));
  }

  /** The moon view, built as ambient + one light, always holds ambient, the re-aimed light and its Earth. */
  lemma MoonViewSettles(cs: seq<Child>, angle: real, trig: Trig)
    requires LitSubView(cs)
    ensures MoonViewUpdate(cs, angle, trig)
              == [AmbientLight, DirLight(1.0, SunLightPosition(angle, trig, 5.0)), MoonViewEarth(angle, trig)]
    ensures LitSubView(MoonViewUpdate(cs, angle, trig))
  {
    MovingUpdateLitSubView(cs, MoonViewEarth(angle, trig), SunLightPosition(angle, trig, 5.0));
  }

  // ---------------------------------------------------------------------------
  // The Japan view: filter, append one sphere, append one more light.

  /**
   * updateJapanViewMoon leaves one sphere, keeps every old non-sphere child in
   * order (the old lights included), and adds exactly one directional light.
   */
  lemma JapanViewUpdateProperties(cs: seq<Child>, angle: real, trig: Trig)
    ensures var r := JapanViewUpdate(cs, angle, trig);
            && SphereCount(r) == 1
            && r[|r| - 2] == JapanViewMoon(angle, trig)
            && r[|r| - 1] == JapanViewLight(angle, trig)
            && RemoveSpheres(r) == RemoveSpheres(cs) + [JapanViewLight(angle, trig)]
            && DirLightCount(r) == DirLightCount(cs) + 1
  {
    var kept := RemoveSpheres(cs);
    var tail := [JapanViewMoon(angle, trig), JapanViewLight(angle, trig)];
    RemoveSpheresCounts(cs);
    var light := JapanViewLight(angle, trig);
    assert tail[1..] == [light] && [light][1..] == [];
    assert SphereCount([light]) == 0 && DirLightCount([light]) == 1;
    assert SphereCount(tail) == 1 && DirLightCount(tail) == 1;
    assert RemoveSpheres([light]) == [light];
    assert RemoveSpheres(tail) == [light];
    SphereCountAppend(kept, tail);
    DirLightCountAppend(kept, tail);
    RemoveSpheresAppend(kept, tail);
    RemoveSpheresNoSpheres(kept);
  }

  /** So the Japan view is not idempotent: a second call with the same angle adds another light. */
  lemma JapanViewUpdateNotIdempotent(cs: seq<Child>, angle: real, trig: Trig)
    ensures var r := JapanViewUpdate(cs, angle, trig);
            JapanViewUpdate(r, angle, trig) != r &&
            DirLightCount(JapanViewUpdate(r, angle, trig)) == DirLightCount(cs) + 2
  {
    var r := JapanViewUpdate(cs, angle, trig);
    JapanViewUpdateProperties(cs, angle, trig);
    JapanViewUpdateProperties(r, angle, trig);
  }
}
