/** Band aggregation (phantom-animation.js, analyzeAudio and
    calculateCleanAverage): a 128-bin byte spectrum is cut into six fixed
    sub-bands, each noise-gated and averaged, and the sub-band averages are
    combined with fixed weights into bass, mid, treble and overall energy. */
module Bands {

  /** One magnitude of the analyser's byte frequency data. */
  type Byte = x: int | 0 <= x < 256

  /** Bins per snapshot: half of the analyser's FFT size of 256. */
  const BinCount: nat := 128

  /** Samples at or below this level count as noise. */
  const NoiseFloor: int := 8

  /** The largest value a gated average can take: 255 - NoiseFloor. */
  const MaxEnergy: real := 247.0

  /** The noise gate applied to one sample. */
  /** The gated sample is never negative, is zero exactly at or below the
      floor, and for a non-negative floor never exceeds the sample. */
  function Gate(v: Byte, floor: int): (g: int)
    ensures g >= 0
    ensures g == 0 <==> v <= floor
    ensures floor >= 0 ==> g <= v
  {
    if v > floor then v - floor else 0
  }

  /** Sum of the gated samples, folded from the left like Array.reduce. */
  function GatedSum(vals: seq<Byte>, floor: int): (s: int)
    requires 0 <= floor <= 255
    ensures 0 <= s <= |vals| * (255 - floor)
    ensures s == 0 <==> forall i :: 0 <= i < |vals| ==> vals[i] <= floor
  {
    if vals == [] then 0
    else
      var init := vals[..|vals| - 1];
      assert forall i :: 0 <= i < |init| ==> init[i] == vals[i];
      assert |vals| * (255 - floor) == |init| * (255 - floor) + (255 - floor);
      GatedSum(init, floor) + Gate(vals[|vals| - 1], floor)
  }

  lemma QuotientBounds(s: int, n: int, c: int)
    requires n > 0 && 0 <= s <= n * c
    ensures 0.0 <= s as real / n as real <= c as real
  {
    var q := s as real / n as real;
    assert q * n as real == s as real;
    assert (n * c) as real == n as real * c as real;
  }

  /** calculateCleanAverage: the mean of the gated samples of a non-empty
      slice. It lies in [0, 255 - floor], and it is zero exactly when the
      whole slice is at or under the floor. */
  function CleanAverage(vals: seq<Byte>, floor: int): (avg: real)
    requires |vals| > 0 && 0 <= floor <= 255
    ensures 0.0 <= avg <= (255 - floor) as real
    ensures avg == 0.0 <==> forall i :: 0 <= i < |vals| ==> vals[i] <= floor
  {
    var s := GatedSum(vals, floor);
    QuotientBounds(s, |vals|, 255 - floor);
    s as real / |vals| as real
  }

  /** The six sub-band averages, lowest frequencies first. */
  datatype SubBands = SubBands(kick: real, lowMid: real, mid: real, highMid: real, treble: real, air: real)

  /** The perceptual bands of one frame. */
  datatype BandEnergies = BandEnergies(bass: real, mid: real, treble: real, overall: real)

  ghost predicate SubBandsWithin(s: SubBands, lo: real, hi: real)
  {
    && lo <= s.kick <= hi && lo <= s.lowMid <= hi && lo <= s.mid <= hi
    && lo <= s.highMid <= hi && lo <= s.treble <= hi && lo <= s.air <= hi
  }

  ghost predicate EnergiesWithin(e: BandEnergies, lo: real, hi: real)
  {
    lo <= e.bass <= hi && lo <= e.mid <= hi && lo <= e.treble <= hi && lo <= e.overall <= hi
  }

  /** The six fixed cuts [0,8), [8,20), [20,40), [40,70), [70,100),
      [100,128), each noise-gated at NoiseFloor and averaged. */
  function SubBandAverages(spectrum: seq<Byte>): (s: SubBands)
    requires |spectrum| == BinCount
    ensures SubBandsWithin(s, 0.0, MaxEnergy)
  {
    SubBands(
      CleanAverage(spectrum[0..8], NoiseFloor),
      CleanAverage(spectrum[8..20], NoiseFloor),
      CleanAverage(spectrum[20..40], NoiseFloor),
      CleanAverage(spectrum[40..70], NoiseFloor),
      CleanAverage(spectrum[70..100], NoiseFloor),
      CleanAverage(spectrum[100..128], NoiseFloor))
  }

  /** The weighted combinations of the sub-bands; each weight set sums to
      one, so every band is a convex combination of sub-band averages. */
  function Combine(s: SubBands): (e: BandEnergies)
    ensures e.overall * 3.0 == e.bass + e.mid + e.treble
    ensures s.kick == s.lowMid == s.mid == s.highMid == s.treble == s.air ==>
      e == BandEnergies(s.kick, s.kick, s.kick, s.kick)
  {
    var bass := (s.kick * 2.0 + s.lowMid) / 3.0;
    var mid := (s.mid * 3.0 + s.highMid * 2.0) / 5.0;
    var treble := (s.highMid + s.treble * 3.0 + s.air) / 5.0;
    BandEnergies(bass, mid, treble, (bass + mid + treble) / 3.0)
  }

  /** Combining never leaves the range the sub-bands lie in. */
  lemma CombineWithin(s: SubBands, lo: real, hi: real)
    requires SubBandsWithin(s, lo, hi)
    ensures EnergiesWithin(Combine(s), lo, hi)
  {
  }

  /** The band energies of one snapshot: every band lies in
      [0, 255 - NoiseFloor] = [0, 247], and overall is the mean of the other
      three. */
  function Aggregate(spectrum: seq<Byte>): (e: BandEnergies)
    requires |spectrum| == BinCount
    ensures EnergiesWithin(e, 0.0, MaxEnergy)
    ensures e.overall * 3.0 == e.bass + e.mid + e.treble
  {
    var s := SubBandAverages(spectrum);
    CombineWithin(s, 0.0, MaxEnergy);
    Combine(s)
  }

  /** Every bin in [lo, hi) is at or under the noise floor. */
  ghost predicate Quiet(spectrum: seq<Byte>, lo: nat, hi: nat)
    requires lo <= hi <= |spectrum|
  {
    forall i :: lo <= i < hi ==> spectrum[i] <= NoiseFloor
  }

  lemma QuietSplit(spectrum: seq<Byte>, lo: nat, mid: nat, hi: nat)
    requires lo <= mid <= hi <= |spectrum|
    ensures Quiet(spectrum, lo, hi) <==> Quiet(spectrum, lo, mid) && Quiet(spectrum, mid, hi)
  {
  }

  /** A sub-band average is zero exactly when the bins it covers are quiet. */
  lemma SubBandSilent(spectrum: seq<Byte>, lo: nat, hi: nat)
    requires lo < hi <= |spectrum|
    ensures CleanAverage(spectrum[lo..hi], NoiseFloor) == 0.0 <==> Quiet(spectrum, lo, hi)
  {
    var slice := spectrum[lo..hi];
    assert forall k :: 0 <= k < hi - lo ==> slice[k] == spectrum[lo + k];
    if CleanAverage(slice, NoiseFloor) == 0.0 {
      forall i | lo <= i < hi ensures spectrum[i] <= NoiseFloor {
        assert slice[i - lo] == spectrum[i];
      }
    }
  }

  /** The overall energy is zero exactly when every bin of the snapshot is at
      or under the noise floor: the gate silences noise and nothing else. */
  lemma SilentIffQuiet(spectrum: seq<Byte>)
    requires |spectrum| == BinCount
    ensures Aggregate(spectrum).overall == 0.0 <==> Quiet(spectrum, 0, BinCount)
  {
    SubBandSilent(spectrum, 0, 8);
    SubBandSilent(spectrum, 8, 20);
    SubBandSilent(spectrum, 20, 40);
    SubBandSilent(spectrum, 40, 70);
    SubBandSilent(spectrum, 70, 100);
    SubBandSilent(spectrum, 100, 128);
    QuietSplit(spectrum, 0, 8, 128);
    QuietSplit(spectrum, 8, 20, 128);
    QuietSplit(spectrum, 20, 40, 128);
    QuietSplit(spectrum, 40, 70, 128);
    QuietSplit(spectrum, 70, 100, 128);
  }
}
