/** Rolling band history, onset detection, the recent-average baseline, the
    (unused) dynamic threshold and the trigger decision
    (phantom-animation.js, analyzeAudio, updateAudioHistory,
    detectPeakIncrease, getRecentAverage). */
module Onset {
  import opened Common
  import opened Bands

  /** Capacity of each band history. */
  const HistoryLength: nat := 10

  /** How many of the newest history entries the recent average weighs. */
  const RecentWindow: nat := 8

  /** What the recent average reports before any history exists. */
  const DefaultRecentAverage: real := 50.0

  /** One band's history after a push and the single shift that follows it
      when the history has grown past its capacity. */
  function Remember(history: seq<real>, v: real): (r: seq<real>)
    ensures |r| == if |history| >= HistoryLength then |history| else |history| + 1
  {
    var pushed := history + [v];
    if |pushed| > HistoryLength then pushed[1..] else pushed
  }

  /** The remembered history ends with the new value, before it comes the
      old history (without its oldest entry when it was full), and a history
      within capacity stays within capacity. */
  lemma RememberShape(history: seq<real>, v: real)
    ensures var r := Remember(history, v);
      && |r| > 0 && r[|r| - 1] == v
      && r[..|r| - 1] == (if |history| >= HistoryLength then history[1..] else history)
      && (|history| <= HistoryLength ==> |r| <= HistoryLength)
  {
    var pushed := history + [v];
    assert pushed[..|pushed| - 1] == history;
  }

  /** The history after the values vs were remembered one after another. */
  function RememberAll(history: seq<real>, vs: seq<real>): seq<real>
    decreases |vs|
  {
    if vs == [] then history else RememberAll(Remember(history, vs[0]), vs[1..])
  }

  /** A history within capacity that is fed any number of values holds
      exactly the newest HistoryLength of everything it has seen, oldest
      first: the history is a FIFO of capacity 10. */
  lemma {:induction false} RememberAllKeepsNewest(history: seq<real>, vs: seq<real>)
    requires |history| <= HistoryLength
    ensures RememberAll(history, vs) == Newest(history + vs, HistoryLength)
    decreases |vs|
  {
    if vs == [] {
      assert history + vs == history;
    } else {
      var v, rest := vs[0], vs[1..];
      var pushed := history + [v];
      calc {
        RememberAll(history, vs);
        RememberAll(Remember(history, v), rest);
        { RememberIsNewest(history, v); }
        RememberAll(Newest(pushed, HistoryLength), rest);
        { RememberAllKeepsNewest(Newest(pushed, HistoryLength), rest); }
        Newest(Newest(pushed, HistoryLength) + rest, HistoryLength);
        { NewestOfNewest(pushed, rest, HistoryLength); }
        Newest(pushed + rest, HistoryLength);
        { assert pushed + rest == history + vs; }
        Newest(history + vs, HistoryLength);
      }
    }
  }

  /** One push on a history within capacity keeps the newest HistoryLength
      values. */
  lemma RememberIsNewest(history: seq<real>, v: real)
    requires |history| <= HistoryLength
    ensures Remember(history, v) == Newest(history + [v], HistoryLength)
  {
  }

  /** Mean of the newest three entries (the short window of
      detectPeakIncrease). */
  function LastThreeMean(history: seq<real>): (m: real)
    requires |history| >= 3
    ensures var n := |history|;
      && Min(Min(history[n - 3], history[n - 2]), history[n - 1]) <= m
      && (m <= history[n - 3] || m <= history[n - 2] || m <= history[n - 1])
  {
    var n := |history|;
    (history[n - 3] + history[n - 2] + history[n - 1]) / 3.0
  }

  /** detectPeakIncrease: zero for a history shorter than three; otherwise
      the larger of the increase over the newest entry and the increase over
      the mean of the newest three. */
  function PeakIncrease(history: seq<real>, current: real): (inc: real)
    ensures |history| < 3 ==> inc == 0.0
    ensures |history| >= 3 ==>
      && inc >= current - history[|history| - 1]
      && inc >= current - LastThreeMean(history)
      && (inc == current - history[|history| - 1] || inc == current - LastThreeMean(history))
  {
    if |history| < 3 then 0.0
    else
      var immediate := current - history[|history| - 1];
      var gradual := current - LastThreeMean(history);
      if immediate >= gradual then immediate else gradual
  }

  /** On the analyzeAudio path the current value has already been pushed, so
      the newest entry IS the current value: the immediate increase is zero,
      the signal is never negative, and it is positive exactly when the
      current value exceeds the mean of the two entries before it. */
  lemma IncreaseAfterRemember(history: seq<real>, current: real)
    ensures var h := Remember(history, current);
      && PeakIncrease(h, current) >= 0.0
      && (|h| < 3 ==> PeakIncrease(h, current) == 0.0)
      && (|h| >= 3 ==>
            && PeakIncrease(h, current) == Max0(current - LastThreeMean(h))
            && (PeakIncrease(h, current) > 0.0 <==> 2.0 * current > h[|h| - 2] + h[|h| - 3]))
  {
  }

  function Max0(x: real): real
  {
    if x >= 0.0 then x else 0.0
  }

  /** The newest RecentWindow entries (history.slice(-8)). */
  function Recent(history: seq<real>): seq<real>
  {
    Newest(history, RecentWindow)
  }

  /** Sum of s[i] * (i + 1): the newest entry carries the largest weight. */
  function WeightedSum(s: seq<real>): real
  {
    if s == [] then 0.0 else WeightedSum(s[..|s| - 1]) + s[|s| - 1] * (|s| as real)
  }

  /** Sum of the weights 1..k. */
  function TotalWeight(k: nat): (t: real)
    ensures t >= k as real
  {
    if k == 0 then 0.0 else TotalWeight(k - 1) + k as real
  }

  ghost predicate AllWithin(s: seq<real>, lo: real, hi: real)
  {
    forall i :: 0 <= i < |s| ==> lo <= s[i] <= hi
  }

  lemma ScaleWithin(a: real, w: real, lo: real, hi: real)
    requires lo <= a <= hi && w >= 0.0
    ensures lo * w <= a * w <= hi * w
  {
    assert (a - lo) * w >= 0.0;
    assert (hi - a) * w >= 0.0;
  }

  /** c * TotalWeight(k), accumulated weight by weight. */
  function Scaled(c: real, k: nat): real
  {
    if k == 0 then 0.0 else Scaled(c, k - 1) + c * (k as real)
  }

  lemma {:induction false} ScaledIsProduct(c: real, k: nat)
    ensures Scaled(c, k) == c * TotalWeight(k)
  {
    if k > 0 {
      ScaledIsProduct(c, k - 1);
      assert c * TotalWeight(k) == c * TotalWeight(k - 1) + c * (k as real);
    }
  }

  /** The weighted sum of entries within [lo, hi] lies between lo and hi
      times the total weight. */
  lemma {:induction false} WeightedSumWithin(s: seq<real>, lo: real, hi: real)
    requires AllWithin(s, lo, hi)
    ensures Scaled(lo, |s|) <= WeightedSum(s) <= Scaled(hi, |s|)
    decreases |s|
  {
    if s != [] {
      var n := |s|;
      AllWithinPrefix(s, lo, hi);
      WeightedSumWithin(s[..n - 1], lo, hi);
      ScaleWithin(s[n - 1], n as real, lo, hi);
    }
  }

  lemma AllWithinPrefix(s: seq<real>, lo: real, hi: real)
    requires s != [] && AllWithin(s, lo, hi)
    ensures AllWithin(s[..|s| - 1], lo, hi)
  {
    var init := s[..|s| - 1];
    forall i | 0 <= i < |init| ensures lo <= init[i] <= hi {
      assert init[i] == s[i];
    }
  }

  lemma QuotientWithin(x: real, w: real, lo: real, hi: real)
    requires w > 0.0 && lo * w <= x <= hi * w
    ensures lo <= x / w <= hi
  {
    assert (x / w) * w == x;
  }

  /** The weighted sum and the total weight of a non-empty sequence within
      [lo, hi]: the total is positive and the sum lies between lo and hi
      times it. */
  lemma WeightedParts(s: seq<real>, lo: real, hi: real) returns (sum: real, total: real)
    requires s != [] && AllWithin(s, lo, hi)
    ensures sum == WeightedSum(s) && total == TotalWeight(|s|)
    ensures total > 0.0 && lo * total <= sum <= hi * total
  {
    sum, total := WeightedSum(s), TotalWeight(|s|);
    WeightedSumWithin(s, lo, hi);
    ScaledIsProduct(lo, |s|);
    ScaledIsProduct(hi, |s|);
  }

  /** The weighted mean of a non-empty sequence lies between any bounds all
      of its entries share, in particular between its minimum and its
      maximum. */
  lemma AverageWithin(s: seq<real>, lo: real, hi: real)
    requires s != [] && AllWithin(s, lo, hi)
    ensures lo <= WeightedSum(s) / TotalWeight(|s|) <= hi
  {
    var sum, total := WeightedParts(s, lo, hi);
    QuotientWithin(sum, total, lo, hi);
  }

  /** When a whole history lies within [lo, hi], so does its recent
      average: the newest eight entries are a part of it. */
  lemma RecentAverageWithin(history: seq<real>, lo: real, hi: real)
    requires history != [] && AllWithin(history, lo, hi)
    ensures lo <= WeightedSum(Recent(history)) / TotalWeight(|Recent(history)|) <= hi
  {
    var recent := Recent(history);
    var d := |history| - |recent|;
    forall i | 0 <= i < |recent| ensures lo <= recent[i] <= hi {
      assert recent[i] == history[d + i];
    }
    AverageWithin(recent, lo, hi);
  }

  /** getRecentAverage: 50 on an empty history; otherwise the mean of the
      newest (at most 8) entries weighted 1..k, oldest to newest (bounded by
      RecentAverageWithin). */
  method RecentAverage(history: seq<real>) returns (avg: real)
    ensures history == [] ==> avg == DefaultRecentAverage
    ensures history != [] ==>
      avg == WeightedSum(Recent(history)) / TotalWeight(|Recent(history)|)
  {
    if |history| == 0 {
      return DefaultRecentAverage;
    }
    var recent := Recent(history);
    var weightedSum := 0.0;
    var totalWeight := 0.0;
    var index := 0;
    while index < |recent|
      invariant 0 <= index <= |recent|
      invariant weightedSum == WeightedSum(recent[..index])
      invariant totalWeight == TotalWeight(index)
    {
      var weight := (index + 1) as real;
      assert recent[..index + 1][..index] == recent[..index];
      weightedSum := weightedSum + recent[index] * weight;
      totalWeight := totalWeight + weight;
      index := index + 1;
    }
    assert recent[..index] == recent;
    avg := weightedSum / totalWeight;
  }

  /** baseThreshold: the minimum threshold scaled by the sensitivity
      percentage. */
  function BaseThreshold(minThreshold: int, sensitivity: int): (b: real)
    ensures minThreshold >= 0 && sensitivity >= 0 ==> b >= 0.0
    ensures sensitivity == 100 ==> b == minThreshold as real
    ensures 0 <= sensitivity <= 100 && minThreshold >= 0 ==> b <= minThreshold as real
  {
    ScaledThreshold(minThreshold, sensitivity);
    (minThreshold * sensitivity) as real / 100.0
  }

  lemma ScaledThreshold(minThreshold: int, sensitivity: int)
    ensures minThreshold >= 0 && sensitivity >= 0 ==> minThreshold * sensitivity >= 0
    ensures 0 <= sensitivity <= 100 && minThreshold >= 0 ==> minThreshold * sensitivity <= minThreshold * 100
  {
    if 0 <= sensitivity <= 100 && minThreshold >= 0 {
      assert minThreshold * (100 - sensitivity) >= 0;
    }
  }

  /** dynamicThreshold: 115% of the recent average, raised to at least the
      base threshold and capped at twice it. For a non-negative base it lies
      in [base, 2 * base] and equals the clamp of the scaled average. */
  function DynamicThreshold(recentAverage: real, base: real): (t: real)
    ensures base >= 0.0 ==> base <= t <= 2.0 * base
    ensures base >= 0.0 ==> var scaled := recentAverage * 1.15;
      && (scaled <= base ==> t == base)
      && (scaled >= 2.0 * base ==> t == 2.0 * base)
      && (base <= scaled <= 2.0 * base ==> t == scaled)
  {
    var raised := if recentAverage * 1.15 >= base then recentAverage * 1.15 else base;
    Min(raised, base * 2.0)
  }

  /** At the default sensitivity of 100 and minimum threshold of 100 the
      threshold ranges over [100, 200]. */
  lemma DefaultThresholdRange(recentAverage: real)
    ensures BaseThreshold(100, 100) == 100.0
    ensures 100.0 <= DynamicThreshold(recentAverage, BaseThreshold(100, 100)) <= 200.0
    ensures DynamicThreshold(0.0, 100.0) == 100.0
    ensures DynamicThreshold(1000.0, 100.0) == 200.0
  {
  }

  /** The four increase signals of one frame. */
  datatype Increases = Increases(bass: real, mid: real, treble: real, overall: real)

  /** isMusicalPeak: the fixed, band-asymmetric disjunction that decides
      whether lightning fires; the dynamic threshold takes no part in it. */
  predicate IsMusicalPeak(e: BandEnergies, inc: Increases)
    ensures IsMusicalPeak(e, inc) ==> inc.bass > 0.0 || inc.mid > 0.0 || inc.treble > 0.0 || inc.overall > 0.0
    ensures IsMusicalPeak(e, inc) ==> e.bass > 12.0 || e.mid > 12.0 || e.treble > 12.0 || e.overall > 25.0
  {
    || (inc.bass > 8.0 && e.bass > 25.0)
    || (inc.mid > 4.0 && e.mid > 15.0)
    || (inc.treble > 5.0 && e.treble > 12.0)
    || (inc.overall > 6.0 && e.overall > 25.0)
    || (inc.mid > 2.0 && e.mid > 20.0)
    || (inc.treble > 3.0 && e.treble > 18.0)
    || (e.overall > 30.0 && (inc.bass > 3.0 || inc.mid > 2.0 || inc.treble > 3.0))
  }

  /** Whenever a peak fires, some band carries more than 12 units of energy,
      so for non-negative bands the total bass + mid + treble is positive and
      the ratio divisions of the flash generator are defined. */
  lemma PeakHasEnergy(e: BandEnergies, inc: Increases)
    requires IsMusicalPeak(e, inc)
    requires e.bass >= 0.0 && e.mid >= 0.0 && e.treble >= 0.0
    requires e.overall * 3.0 == e.bass + e.mid + e.treble
    ensures e.bass > 12.0 || e.mid > 12.0 || e.treble > 12.0
    ensures e.bass + e.mid + e.treble > 0.0
  {
  }

  /** With no rise in any band nothing fires: in particular not during the
      first two frames, when every increase is zero. */
  lemma NoPeakWithoutIncrease(e: BandEnergies, inc: Increases)
    requires inc.bass <= 0.0 && inc.mid <= 0.0 && inc.treble <= 0.0 && inc.overall <= 0.0
    ensures !IsMusicalPeak(e, inc)
  {
  }

  /** A stand-alone call with history [10, 10, 10] and current value 20
      reports an increase of 10. */
  lemma PeakIncreaseExample()
    ensures PeakIncrease([10.0, 10.0, 10.0], 20.0) == 10.0
  {
  }
}
