/** The engine state of PhantomLightningShow (phantom-animation.js): the four
    band histories, the live flash list, the background glow and the
    smoothed illumination of the phantom, with the per-frame operations that
    update them. */
module Engine {
  import opened Common
  import opened Bands
  import opened Onset
  import opened Flashes
  import opened Lifecycle

  /** The background glow never exceeds this level. */
  const MaxBackground: real := 0.6

  /** Share of the background glow kept from one frame to the next. */
  const BackgroundDecay: real := 0.95

  class PhantomLightningShow {
    var bassHistory: seq<real>
    var midHistory: seq<real>
    var trebleHistory: seq<real>
    var overallHistory: seq<real>
    var lightningFlashes: seq<Flash>
    var backgroundLightning: real
    var smoothedIllumination: real
    var lightningSensitivity: int
    var minLightningThreshold: int

    /** Each history holds at most 10 band energies in [0, 247]; at most 25
        flashes are live, each well formed; the background glow lies in
        [0, 0.6] and the smoothed illumination in [0, 1]. */
    ghost predicate Valid()
      reads this
    {
      ValidState(bassHistory, midHistory, trebleHistory, overallHistory,
                 lightningFlashes, backgroundLightning, smoothedIllumination)
    }

    /** The engine's initial state: no history, no flashes, complete
        darkness, sensitivity 100 and minimum threshold 100. */
    constructor ()
      ensures Valid()
      ensures bassHistory == [] && midHistory == [] && trebleHistory == [] && overallHistory == []
      ensures lightningFlashes == [] && backgroundLightning == 0.0 && smoothedIllumination == 0.0
      ensures lightningSensitivity == 100 && minLightningThreshold == 100
    {
      bassHistory := [];
      midHistory := [];
      trebleHistory := [];
      overallHistory := [];
      lightningFlashes := [];
      backgroundLightning := 0.0;
      smoothedIllumination := 0.0;
      lightningSensitivity := 100;
      minLightningThreshold := 100;
    }

    /** resetExperience, state part: flashes, glow, illumination and the
        four histories are cleared; the settings are kept. */
    method ResetExperience()
      modifies this
      ensures Valid()
      ensures bassHistory == [] && midHistory == [] && trebleHistory == [] && overallHistory == []
      ensures lightningFlashes == [] && backgroundLightning == 0.0 && smoothedIllumination == 0.0
      ensures lightningSensitivity == old(lightningSensitivity)
      ensures minLightningThreshold == old(minLightningThreshold)
    {
      lightningFlashes := [];
      backgroundLightning := 0.0;
      smoothedIllumination := 0.0;
      bassHistory := [];
      midHistory := [];
      trebleHistory := [];
      overallHistory := [];
    }

    /** updateAudioHistory: each value is pushed onto its band's history,
        then every history longer than 10 loses its oldest entry. Energies in
        range keep the engine valid. */
    method UpdateAudioHistory(bass: real, mid: real, treble: real, overall: real)
      requires Valid()
      requires 0.0 <= bass <= MaxEnergy && 0.0 <= mid <= MaxEnergy
      requires 0.0 <= treble <= MaxEnergy && 0.0 <= overall <= MaxEnergy
      modifies this`bassHistory, this`midHistory, this`trebleHistory, this`overallHistory
      ensures Valid()
      ensures bassHistory == Remember(old(bassHistory), bass)
      ensures midHistory == Remember(old(midHistory), mid)
      ensures trebleHistory == Remember(old(trebleHistory), treble)
      ensures overallHistory == Remember(old(overallHistory), overall)
    {
      var bassH, midH, trebleH, overallH :=
        bassHistory + [bass], midHistory + [mid], trebleHistory + [treble], overallHistory + [overall];
      if |bassH| > HistoryLength {
        bassH := bassH[1..];
      }
      if |midH| > HistoryLength {
        midH := midH[1..];
      }
      if |trebleH| > HistoryLength {
        trebleH := trebleH[1..];
      }
      if |overallH| > HistoryLength {
        overallH := overallH[1..];
      }
      assert bassH == Remember(bassHistory, bass) && midH == Remember(midHistory, mid);
      assert trebleH == Remember(trebleHistory, treble) && overallH == Remember(overallHistory, overall);
      RememberAllValid(bassHistory, midHistory, trebleHistory, overallHistory, lightningFlashes,
                       backgroundLightning, smoothedIllumination, BandEnergies(bass, mid, treble, overall));
      bassHistory, midHistory, trebleHistory, overallHistory := bassH, midH, trebleH, overallH;
    }

    /** triggerLightning: numBolts new flashes, each spawned from the same
        energies and its own consecutive draws, are pushed in order, and the
        list is then cut back to its newest 25. Flash k is drawn from
        cursors[k] up to cursors[k + 1]; the draws fix every flash
        (DrawnFlashesUnique). */
    method TriggerLightning(volume: real, bass: real, mid: real, treble: real,
                            width: real, height: real, rand: nat -> real, cursor: nat)
      returns (next: nat, ghost added: seq<Flash>, ghost cursors: seq<nat>)
      requires Valid()
      requires UnitDraws(rand)
      requires volume >= 0.0 && bass >= 0.0 && mid >= 0.0 && treble >= 0.0
      requires bass + mid + treble > 0.0
      modifies this`lightningFlashes
      ensures Valid()
      ensures |added| == NumBolts(bass, mid, treble)
      ensures forall k :: 0 <= k < |added| ==> Spawned(added[k], volume, bass, mid, treble, width, height)
      ensures lightningFlashes == Newest(old(lightningFlashes) + added, MaxFlashes)
      ensures DrawnFlashes(added, cursors, volume, bass, mid, treble, width, height, rand)
      ensures cursors[0] == cursor && cursors[|added|] == next
    {
      var numBolts := NumBolts(bass, mid, treble);
      added := [];
      cursors := [cursor];
      next := cursor;
      var i := 0;
      while i < numBolts
        invariant 0 <= i <= numBolts
        invariant |added| == i
        invariant lightningFlashes == old(lightningFlashes) + added
        invariant forall k :: 0 <= k < i ==> Spawned(added[k], volume, bass, mid, treble, width, height)
        invariant forall k :: 0 <= k < i ==> WellFormed(added[k])
        invariant DrawnFlashes(added, cursors, volume, bass, mid, treble, width, height, rand)
        invariant cursors[0] == cursor && cursors[i] == next
      {
        var flash;
        var start := next;
        flash, next := NewFlash(volume, bass, mid, treble, width, height, rand, start);
        SpawnedWellFormed(flash, volume, bass, mid, treble, width, height);
        DrawnFlashesSnoc(added, cursors, flash, next, volume, bass, mid, treble, width, height, rand);
        lightningFlashes := lightningFlashes + [flash];
        added := added + [flash];
        cursors := cursors + [next];
        i := i + 1;
      }
      if |lightningFlashes| > MaxFlashes {
        lightningFlashes := lightningFlashes[|lightningFlashes| - MaxFlashes..];
      }
      AllWellFormed(old(lightningFlashes), added);
    }

    /** analyzeAudio: with no analyser the state is left alone. Otherwise the
        snapshot is aggregated into band energies, the energies are pushed
        onto the histories, the increase signals are read off the updated
        histories, lightning fires exactly when the musical-peak rule holds,
        and the background glow is set from the overall energy. The recent
        average and the dynamic threshold are computed and never used. */
    method AnalyzeAudio(spectrum: Option<seq<Byte>>, width: real, height: real,
                        rand: nat -> real, cursor: nat)
      returns (next: nat, ghost fired: bool, ghost added: seq<Flash>, ghost cursors: seq<nat>)
      requires Valid()
      requires UnitDraws(rand)
      requires spectrum.Some? ==> |spectrum.value| == BinCount
      modifies this`bassHistory, this`midHistory, this`trebleHistory, this`overallHistory
      modifies this`lightningFlashes, this`backgroundLightning
      ensures Valid()
      ensures !fired ==> added == [] && cursors == [cursor] && next == cursor
      ensures spectrum.None? ==>
        && !fired
        && bassHistory == old(bassHistory) && midHistory == old(midHistory)
        && trebleHistory == old(trebleHistory) && overallHistory == old(overallHistory)
        && lightningFlashes == old(lightningFlashes)
        && backgroundLightning == old(backgroundLightning)
      ensures spectrum.Some? ==> var e := Aggregate(spectrum.value);
        && bassHistory == Remember(old(bassHistory), e.bass)
        && midHistory == Remember(old(midHistory), e.mid)
        && trebleHistory == Remember(old(trebleHistory), e.treble)
        && overallHistory == Remember(old(overallHistory), e.overall)
        && fired == IsMusicalPeak(e, Increases(PeakIncrease(bassHistory, e.bass), PeakIncrease(midHistory, e.mid),
                                               PeakIncrease(trebleHistory, e.treble), PeakIncrease(overallHistory, e.overall)))
        && backgroundLightning == Min(e.overall / 400.0, MaxBackground)
      ensures spectrum.Some? && !fired ==> lightningFlashes == old(lightningFlashes)
      ensures spectrum.Some? && fired ==> var e := Aggregate(spectrum.value);
        && e.bass + e.mid + e.treble > 0.0
        && 1 <= |added| == NumBolts(e.bass, e.mid, e.treble) <= 6
        && (forall k :: 0 <= k < |added| ==> Spawned(added[k], e.overall, e.bass, e.mid, e.treble, width, height))
        && lightningFlashes == Newest(old(lightningFlashes) + added, MaxFlashes)
        && DrawnFlashes(added, cursors, e.overall, e.bass, e.mid, e.treble, width, height, rand)
        && cursors[0] == cursor && cursors[|added|] == next
    {
      fired := false;
      added := [];
      cursors := [cursor];
      next := cursor;
      if spectrum.None? {
        return;
      }
      var e := Aggregate(spectrum.value);
      var isMusicalPeak := RecordAndDetect(e);
      fired := isMusicalPeak;
      if isMusicalPeak {
        BoltsOnAnalysisPath(e.bass, e.mid, e.treble);
        next, added, cursors := TriggerLightning(e.overall, e.bass, e.mid, e.treble, width, height, rand, cursor);
      }
      backgroundLightning := Min(e.overall / 400.0, MaxBackground);
    }

    /** The onset part of analyzeAudio: the band energies are pushed onto the
        histories, the four increase signals are read off the updated
        histories, the (unused) dynamic threshold is computed, and the
        musical-peak rule decides. A peak implies a positive total energy. */
    method RecordAndDetect(e: BandEnergies) returns (peak: bool)
      requires Valid()
      requires EnergiesWithin(e, 0.0, MaxEnergy) && e.overall * 3.0 == e.bass + e.mid + e.treble
      modifies this`bassHistory, this`midHistory, this`trebleHistory, this`overallHistory
      ensures Valid()
      ensures bassHistory == Remember(old(bassHistory), e.bass)
      ensures midHistory == Remember(old(midHistory), e.mid)
      ensures trebleHistory == Remember(old(trebleHistory), e.treble)
      ensures overallHistory == Remember(old(overallHistory), e.overall)
      ensures peak == IsMusicalPeak(e, Increases(PeakIncrease(bassHistory, e.bass), PeakIncrease(midHistory, e.mid),
                                                 PeakIncrease(trebleHistory, e.treble), PeakIncrease(overallHistory, e.overall)))
      ensures peak ==> e.bass + e.mid + e.treble > 0.0
    {
      UpdateAudioHistory(e.bass, e.mid, e.treble, e.overall);

      var increases := Increases(PeakIncrease(bassHistory, e.bass), PeakIncrease(midHistory, e.mid),
                                 PeakIncrease(trebleHistory, e.treble), PeakIncrease(overallHistory, e.overall));
      var dynamicThreshold := CurrentThreshold();
      peak := IsMusicalPeak(e, increases);
      if peak {
        PeakHasEnergy(e, increases);
      }
    }

    /** The dynamic threshold of analyzeAudio: 115% of the weighted recent
        overall energy, clamped into [base, 2 * base] where base is the
        minimum threshold scaled by the sensitivity percentage. */
    method CurrentThreshold() returns (threshold: real)
      ensures var base := BaseThreshold(minLightningThreshold, lightningSensitivity);
        && (base >= 0.0 ==> base <= threshold <= 2.0 * base)
        && (overallHistory == [] ==> threshold == DynamicThreshold(DefaultRecentAverage, base))
        && (overallHistory != [] ==> threshold == DynamicThreshold(
              WeightedSum(Recent(overallHistory)) / TotalWeight(|Recent(overallHistory)|), base))
    {
      var recentAverage := RecentAverage(overallHistory);
      var baseThreshold := BaseThreshold(minLightningThreshold, lightningSensitivity);
      threshold := DynamicThreshold(recentAverage, baseThreshold);
    }

    /** updateEffects: every flash ages by one frame and only the live ones
        are kept, in order; the background glow decays by 5%. */
    method UpdateEffects()
      requires Valid()
      modifies this`lightningFlashes, this`backgroundLightning
      ensures Valid()
      ensures lightningFlashes == Survivors(old(lightningFlashes))
      ensures backgroundLightning == old(backgroundLightning) * BackgroundDecay
    {
      var kept := [];
      var i := 0;
      while i < |lightningFlashes|
        invariant 0 <= i <= |lightningFlashes|
        invariant kept == Survivors(lightningFlashes[..i])
      {
        assert lightningFlashes[..i + 1][..i] == lightningFlashes[..i];
        var flash := lightningFlashes[i].(age := lightningFlashes[i].age + 1);
        if (flash.age as real) < flash.maxAge {
          kept := kept + [flash];
        }
        i := i + 1;
      }
      assert lightningFlashes[..i] == lightningFlashes;
      SurvivorsWellFormed(lightningFlashes);
      lightningFlashes := kept;
      backgroundLightning := backgroundLightning * BackgroundDecay;
    }

    /** One animation frame's state change, in the order of animate:
        analyse, then age. Every frame keeps the engine valid. Without a
        snapshot only the ageing and the decay happen; with one, the
        histories take the frame's energies, lightning fires on a musical
        peak with the flashes its draws fix, and the flash list that results
        is then aged. */
    method FrameStep(spectrum: Option<seq<Byte>>, width: real, height: real,
                     rand: nat -> real, cursor: nat)
      returns (next: nat, ghost fired: bool, ghost added: seq<Flash>, ghost cursors: seq<nat>)
      requires Valid()
      requires UnitDraws(rand)
      requires spectrum.Some? ==> |spectrum.value| == BinCount
      modifies this`bassHistory, this`midHistory, this`trebleHistory, this`overallHistory
      modifies this`lightningFlashes, this`backgroundLightning
      ensures Valid()
      ensures !fired ==>
        && added == [] && cursors == [cursor] && next == cursor
        && lightningFlashes == Survivors(old(lightningFlashes))
      ensures spectrum.None? ==>
        && !fired
        && bassHistory == old(bassHistory) && midHistory == old(midHistory)
        && trebleHistory == old(trebleHistory) && overallHistory == old(overallHistory)
        && backgroundLightning == old(backgroundLightning) * BackgroundDecay
      ensures spectrum.Some? ==> var e := Aggregate(spectrum.value);
        && bassHistory == Remember(old(bassHistory), e.bass)
        && midHistory == Remember(old(midHistory), e.mid)
        && trebleHistory == Remember(old(trebleHistory), e.treble)
        && overallHistory == Remember(old(overallHistory), e.overall)
        && fired == IsMusicalPeak(e, Increases(PeakIncrease(bassHistory, e.bass), PeakIncrease(midHistory, e.mid),
                                               PeakIncrease(trebleHistory, e.treble), PeakIncrease(overallHistory, e.overall)))
        && backgroundLightning == Min(e.overall / 400.0, MaxBackground) * BackgroundDecay
      ensures spectrum.Some? && fired ==> var e := Aggregate(spectrum.value);
        && e.bass + e.mid + e.treble > 0.0
        && 1 <= |added| == NumBolts(e.bass, e.mid, e.treble) <= 6
        && DrawnFlashes(added, cursors, e.overall, e.bass, e.mid, e.treble, width, height, rand)
        && cursors[0] == cursor && cursors[|added|] == next
        && lightningFlashes == Survivors(Newest(old(lightningFlashes) + added, MaxFlashes))
    {
      next, fired, added, cursors := AnalyzeAudio(spectrum, width, height, rand, cursor);
      UpdateEffects();
    }

    /** The illumination part of drawPhantom, given the phantom's centre and
        each flash's Euclidean distance from it: nothing happens before the
        image has loaded; otherwise the peak illumination and its tint are
        found and the smoothed illumination moves 4% of the way towards the
        peak, capped at 1. */
    method Illuminate(imageLoaded: bool, centerX: real, centerY: real, distances: seq<real>)
      returns (level: real, tint: Rgb)
      requires Valid()
      requires |distances| == |lightningFlashes|
      requires forall i :: 0 <= i < |distances| ==>
        && distances[i] >= 0.0
        && distances[i] * distances[i] ==
             (lightningFlashes[i].x - centerX) * (lightningFlashes[i].x - centerX)
             + (lightningFlashes[i].y - centerY) * (lightningFlashes[i].y - centerY)
      modifies this`smoothedIllumination
      ensures Valid()
      ensures !imageLoaded ==> smoothedIllumination == old(smoothedIllumination) && level == 0.0 && tint == White
      ensures imageLoaded ==>
        && 0.0 <= level <= 1.0
        && (forall i :: 0 <= i < |lightningFlashes| && Reaches(lightningFlashes[i], distances[i]) ==>
              Illumination(lightningFlashes[i], distances[i]) <= level)
        && (level == 0.0 ==> tint == White)
        && (level > 0.0 ==> exists i :: Winner(lightningFlashes, distances, i, level) && tint == lightningFlashes[i].color.rgb)
        && smoothedIllumination == Smooth(old(smoothedIllumination), Min(level, 1.0))
    {
      if !imageLoaded {
        return 0.0, White;
      }
      level, tint := PeakIllumination(lightningFlashes, distances);
      var targetIllumination := Min(level, 1.0);
      SmoothUnit(smoothedIllumination, targetIllumination);
      smoothedIllumination := smoothedIllumination + (targetIllumination - smoothedIllumination) * SmoothingFactor;
    }
  }

  /** The engine invariant over the values of its fields (see
      PhantomLightningShow.Valid). */
  ghost predicate ValidState(bass: seq<real>, mid: seq<real>, treble: seq<real>, overall: seq<real>,
                             flashes: seq<Flash>, background: real, smoothed: real)
  {
    && |bass| <= HistoryLength && AllWithin(bass, 0.0, MaxEnergy)
    && |mid| <= HistoryLength && AllWithin(mid, 0.0, MaxEnergy)
    && |treble| <= HistoryLength && AllWithin(treble, 0.0, MaxEnergy)
    && |overall| <= HistoryLength && AllWithin(overall, 0.0, MaxEnergy)
    && |flashes| <= MaxFlashes
    && (forall i :: 0 <= i < |flashes| ==> WellFormed(flashes[i]))
    && 0.0 <= background <= MaxBackground
    && 0.0 <= smoothed <= 1.0
  }

  /** Pushing in-range energies onto the four histories of a valid state
      leaves it valid. */
  lemma RememberAllValid(bass: seq<real>, mid: seq<real>, treble: seq<real>, overall: seq<real>,
                         flashes: seq<Flash>, background: real, smoothed: real, e: BandEnergies)
    requires ValidState(bass, mid, treble, overall, flashes, background, smoothed)
    requires EnergiesWithin(e, 0.0, MaxEnergy)
    ensures ValidState(Remember(bass, e.bass), Remember(mid, e.mid), Remember(treble, e.treble),
                       Remember(overall, e.overall), flashes, background, smoothed)
  {
    RememberWithin(bass, e.bass);
    RememberWithin(mid, e.mid);
    RememberWithin(treble, e.treble);
    RememberWithin(overall, e.overall);
  }

  /** Pushing a band energy keeps a history of energies within range. */
  lemma RememberWithin(history: seq<real>, v: real)
    requires AllWithin(history, 0.0, MaxEnergy) && 0.0 <= v <= MaxEnergy
    ensures AllWithin(Remember(history, v), 0.0, MaxEnergy)
  {
    var r := Remember(history, v);
    forall i | 0 <= i < |r| ensures 0.0 <= r[i] <= MaxEnergy {
      if i < |r| - 1 {
        assert r[i] == r[..|r| - 1][i];
      }
    }
  }

  /** Appending well-formed flashes and keeping the newest 25 leaves a list
      of well-formed flashes. */
  lemma AllWellFormed(fs: seq<Flash>, added: seq<Flash>)
    requires forall i :: 0 <= i < |fs| ==> WellFormed(fs[i])
    requires forall i :: 0 <= i < |added| ==> WellFormed(added[i])
    ensures forall i :: 0 <= i < |Newest(fs + added, MaxFlashes)| ==> WellFormed(Newest(fs + added, MaxFlashes)[i])
    ensures |Newest(fs + added, MaxFlashes)| <= MaxFlashes
  {
    var all := fs + added;
    assert forall i :: 0 <= i < |all| ==> WellFormed(all[i]);
  }

  /** Ageing keeps the intensity, so the survivors of well-formed flashes
      are well formed. */
  lemma SurvivorsWellFormed(fs: seq<Flash>)
    requires forall i :: 0 <= i < |fs| ==> WellFormed(fs[i])
    ensures forall i :: 0 <= i < |Survivors(fs)| ==> WellFormed(Survivors(fs)[i])
  {
    var r := Survivors(fs);
    forall i | 0 <= i < |r| ensures WellFormed(r[i]) {
      SurvivorsMember(fs, r[i]);
      var j :| 0 <= j < |fs| && r[i] == Aged(fs[j]) && Live(r[i]);
    }
  }
}
