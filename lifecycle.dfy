/** Ageing of the live flashes (phantom-animation.js, updateEffects) and the
    illumination of the phantom by the nearest bright flash, with its
    exponential smoothing (the numeric part of drawPhantom). */
module Lifecycle {
  import opened Flashes

  /** A flash is drawn and kept while its age is under its lifetime. */
  predicate Live(f: Flash)
  {
    (f.age as real) < f.maxAge
  }

  /** What every flash on the live list satisfies: it is live and its
      intensity is a fraction. */
  predicate WellFormed(f: Flash)
  {
    Live(f) && 0.0 <= f.intensity <= 1.0
  }

  /** A flash freshly spawned from non-negative energies is well formed: it
      starts at age 0 with a lifetime of at least 8 frames, and its intensity
      is clamped to at most 1. */
  lemma SpawnedWellFormed(f: Flash, volume: real, bass: real, mid: real, treble: real,
                          width: real, height: real)
    requires bass >= 0.0 && mid >= 0.0 && treble >= 0.0 && volume >= 0.0
    requires bass + mid + treble != 0.0
    requires Spawned(f, volume, bass, mid, treble, width, height)
    ensures WellFormed(f)
  {
    assert Dominant(f.frequencyType, bass, mid, treble) >= 0.0;
  }

  /** The flash one frame older, every other field untouched: it is live
      only if the flash was, and a well-formed flash that is still live
      stays well formed. */
  function Aged(f: Flash): (g: Flash)
    ensures Live(g) ==> Live(f)
    ensures WellFormed(f) && Live(g) ==> WellFormed(g)
  {
    f.(age := f.age + 1)
  }

  /** The filter of updateEffects: every flash is aged by one, in list order,
      and the aged flash is kept exactly when it is still live. */
  function Survivors(fs: seq<Flash>): (r: seq<Flash>)
    ensures |r| <= |fs|
    ensures forall k :: 0 <= k < |r| ==> Live(r[k])
  {
    if fs == [] then []
    else
      var rest := Survivors(fs[..|fs| - 1]);
      var g := Aged(fs[|fs| - 1]);
      if Live(g) then rest + [g] else rest
  }

  /** The filter works flash by flash: the survivors of a concatenation are
      the survivors of each part, in the same order. */
  lemma {:induction false} SurvivorsAppend(a: seq<Flash>, b: seq<Flash>)
    ensures Survivors(a + b) == Survivors(a) + Survivors(b)
    decreases |b|
  {
    if b == [] {
      assert a + b == a;
    } else {
      var init := b[..|b| - 1];
      assert (a + b)[..|a + b| - 1] == a + init;
      assert (a + b)[|a + b| - 1] == b[|b| - 1];
      SurvivorsAppend(a, init);
    }
  }

  /** A flash is among the survivors exactly when it is the aged copy of some
      flash of the list and is still live. */
  lemma {:induction false} SurvivorsMember(fs: seq<Flash>, g: Flash)
    ensures g in Survivors(fs) <==> exists i :: 0 <= i < |fs| && g == Aged(fs[i]) && Live(g)
    decreases |fs|
  {
    if fs != [] {
      var init := fs[..|fs| - 1];
      SurvivorsMember(init, g);
      if exists i :: 0 <= i < |init| && g == Aged(init[i]) && Live(g) {
        var i :| 0 <= i < |init| && g == Aged(init[i]) && Live(g);
        assert fs[i] == init[i];
      }
      if exists i :: 0 <= i < |fs| && g == Aged(fs[i]) && Live(g) {
        var i :| 0 <= i < |fs| && g == Aged(fs[i]) && Live(g);
        if i < |init| {
          assert init[i] == fs[i];
        }
      }
    }
  }

  /** The live list after k calls of updateEffects. */
  function AfterUpdates(fs: seq<Flash>, k: nat): seq<Flash>
  {
    if k == 0 then fs else Survivors(AfterUpdates(fs, k - 1))
  }

  /** A live flash is kept, one frame older each time, for as long as its
      age stays under its lifetime, and is gone from then on. */
  lemma {:induction false} FlashLifetime(f: Flash, k: nat)
    requires Live(f)
    ensures AfterUpdates([f], k) == if ((f.age + k) as real) < f.maxAge then [f.(age := f.age + k)] else []
  {
    if k > 0 {
      FlashLifetime(f, k - 1);
      var before := AfterUpdates([f], k - 1);
      if ((f.age + k - 1) as real) < f.maxAge {
        assert before == [f.(age := f.age + k - 1)];
        assert before[..0] == [];
        assert Aged(before[0]) == f.(age := f.age + k);
      } else {
        assert before == [];
      }
    }
  }

  /** A new flash with a lifetime of 20 frames survives 19 updates and is
      removed by the 20th. */
  lemma LifetimeExample(f: Flash)
    requires f.age == 0 && f.maxAge == 20.0
    ensures AfterUpdates([f], 19) == [f.(age := 19)]
    ensures AfterUpdates([f], 20) == []
  {
    FlashLifetime(f, 19);
    FlashLifetime(f, 20);
  }

  // ---------------------------------------------------------------------
  // Illumination

  /** Radius within which a flash lights the phantom. */
  const MaxDistance: real := 400.0

  /** Share of the gap to the target closed in one frame. */
  const SmoothingFactor: real := 0.04

  /** The flash takes part in the illumination: it is live and closer to the
      phantom's centre than MaxDistance. */
  predicate Reaches(f: Flash, distance: real)
  {
    Live(f) && distance < MaxDistance
  }

  lemma ProductWithinUnit(a: real, b: real)
    requires 0.0 <= a <= 1.0 && 0.0 <= b <= 1.0
    ensures 0.0 <= a * b <= 1.0
  {
    NonNegativeProduct(a, b);
    NonNegativeProduct(a, 1.0 - b);
    assert a * (1.0 - b) == a - a * b;
  }

  lemma NonNegativeProduct(x: real, y: real)
    requires x >= 0.0 && y >= 0.0
    ensures x * y >= 0.0
  {
  }

  /** Illumination of one live flash at this distance: proximity times
      intensity times the fade 1 - age / maxAge. For a well-formed flash that
      reaches the phantom it lies in [0, 1], and it is positive exactly when
      the flash's intensity is. */
  function Illumination(f: Flash, distance: real): (v: real)
    requires Live(f)
    ensures WellFormed(f) && 0.0 <= distance < MaxDistance ==>
      && 0.0 <= v <= 1.0
      && (v > 0.0 <==> f.intensity > 0.0)
  {
    var proximity := 1.0 - distance / MaxDistance;
    var fade := 1.0 - (f.age as real) / f.maxAge;
    var v := proximity * f.intensity * fade;
    if WellFormed(f) && 0.0 <= distance < MaxDistance then
      assert 0.0 < proximity <= 1.0;
      assert 0.0 < fade <= 1.0 by {
        assert (f.age as real) / f.maxAge * f.maxAge == f.age as real;
      }
      ProductWithinUnit(proximity, f.intensity);
      ProductWithinUnit(proximity * f.intensity, fade);
      assert f.intensity > 0.0 ==> proximity * f.intensity > 0.0;
      v
    else
      v
  }

  /** Flash i lights the phantom at this level and no flash before it
      lights it as much: the one whose colour tints the phantom. */
  ghost predicate Winner(flashes: seq<Flash>, distances: seq<real>, i: int, level: real)
    requires |distances| == |flashes|
  {
    && 0 <= i < |flashes|
    && Reaches(flashes[i], distances[i])
    && Illumination(flashes[i], distances[i]) == level
    && forall j :: 0 <= j < i && Reaches(flashes[j], distances[j]) ==>
         Illumination(flashes[j], distances[j]) < level
  }

  /** The illumination loop of drawPhantom over the flash list, given the
      distance of each flash from the phantom's centre: the level is the
      largest illumination of any reaching flash, or 0 when none is
      positive; the tint is the colour of the first flash attaining a
      positive level, and white otherwise. For well-formed flashes and
      non-negative distances the level lies in [0, 1]. */
  method PeakIllumination(flashes: seq<Flash>, distances: seq<real>) returns (level: real, tint: Rgb)
    requires |distances| == |flashes|
    ensures level >= 0.0
    ensures forall i :: 0 <= i < |flashes| && Reaches(flashes[i], distances[i]) ==>
      Illumination(flashes[i], distances[i]) <= level
    ensures level == 0.0 ==> tint == White
    ensures level > 0.0 ==> exists i :: Winner(flashes, distances, i, level) && tint == flashes[i].color.rgb
    ensures (forall i :: 0 <= i < |flashes| ==> WellFormed(flashes[i]) && distances[i] >= 0.0) ==> level <= 1.0
  {
    level := 0.0;
    tint := White;
    ghost var winner := -1;
    var i := 0;
    while i < |flashes|
      invariant 0 <= i <= |flashes|
      invariant level >= 0.0
      invariant forall k :: 0 <= k < i && Reaches(flashes[k], distances[k]) ==>
        Illumination(flashes[k], distances[k]) <= level
      invariant level == 0.0 ==> tint == White
      invariant level > 0.0 ==> winner < i && Winner(flashes, distances, winner, level) && tint == flashes[winner].color.rgb
    {
      var flash := flashes[i];
      if Reaches(flash, distances[i]) {
        var illumination := Illumination(flash, distances[i]);
        if illumination > level {
          level := illumination;
          tint := flash.color.rgb;
          winner := i;
        }
      }
      i := i + 1;
    }
    if level > 0.0 {
      if forall k :: 0 <= k < |flashes| ==> WellFormed(flashes[k]) && distances[k] >= 0.0 {
        assert WellFormed(flashes[winner]) && distances[winner] >= 0.0;
      }
    }
  }

  /** One smoothing step: the gap to the target shrinks by the factor
      1 - 0.04, so the value moves towards the target and never past it. */
  function Smooth(current: real, target: real): (next: real)
    ensures target - next == (1.0 - SmoothingFactor) * (target - current)
    ensures current <= target ==> current <= next <= target
    ensures target <= current ==> target <= next <= current
  {
    current + (target - current) * SmoothingFactor
  }

  /** Smoothing keeps a value in [0, 1] when the target is in [0, 1]; from
      darkness a full target lights the phantom to 0.04 in one frame. */
  lemma SmoothUnit(current: real, target: real)
    requires 0.0 <= current <= 1.0 && 0.0 <= target <= 1.0
    ensures 0.0 <= Smooth(current, target) <= 1.0
    ensures Smooth(0.0, 1.0) == 0.04
  {
  }

  function Pow(b: real, n: nat): real
  {
    if n == 0 then 1.0 else b * Pow(b, n - 1)
  }

  /** The value after n frames towards a fixed target. */
  function SmoothN(current: real, target: real, n: nat): real
  {
    if n == 0 then current else Smooth(SmoothN(current, target, n - 1), target)
  }

  /** Under a fixed target the gap decays geometrically: after n frames it is
      0.96^n times the initial gap. */
  lemma {:induction false} SmoothConverges(current: real, target: real, n: nat)
    ensures target - SmoothN(current, target, n) == Pow(1.0 - SmoothingFactor, n) * (target - current)
  {
    if n > 0 {
      SmoothConverges(current, target, n - 1);
      var gap := target - current;
      assert target - SmoothN(current, target, n)
          == (1.0 - SmoothingFactor) * (Pow(1.0 - SmoothingFactor, n - 1) * gap);
    }
  }
}
