/** The tempo tracker: a 43-entry energy history feeding an adaptive onset
    test, a ten-second history of accepted peaks, the modal BPM over the
    intervals between them, and an exponentially smoothed, bounded BPM
    history. Timestamps are integer milliseconds passed in by the caller,
    Math.sqrt is a given function, and an event log stands for the beat and
    BPM callbacks. */
module BpmDetector {
  import opened Common

  /** An accepted peak: when it happened, the instantaneous BPM and its energy. */
  datatype Peak = Peak(time: int, bpm: real, energy: real)

  /** One callback invocation. */
  datatype Event =
    | BeatDetected(bpm: real, confidence: real, energy: real, timestamp: int)
    | BpmDetected(bpm: real, confidence: real, history: seq<real>)

  const MinBpm: real := 60.0
  const MaxBpm: real := 200.0
  const PeakThreshold: real := 0.3
  const HistoryLength: nat := 20
  const SmoothingFactor: real := 0.8
  const EnergyWindow: nat := 43
  const MinDebounce: int := 200
  const MaxDebounce: int := 2000
  const PeakWindow: int := 10000
  /** Every rounded interval BPM lies in 30..300, the keys the mode scans. */
  const LowestIntervalBpm: int := 30
  const IntervalBpmCount: nat := 271

  predicate Bytes(data: seq<int>)
  {
    forall i :: 0 <= i < |data| ==> 0 <= data[i] <= 255
  }

  // ---------------------------------------------------------------------
  // Energies

  function Square(x: int): int { x * x }

  /** The sum of squared magnitudes over bins lo..hi-1. */
  function SumSquares(data: seq<int>, lo: int, hi: int): int
    requires 0 <= lo <= hi <= |data|
    decreases hi - lo
  {
    if hi == lo then 0 else SumSquares(data, lo, hi - 1) + Square(data[hi - 1])
  }

  lemma {:induction false} SumSquaresBounds(data: seq<int>, lo: int, hi: int)
    requires 0 <= lo <= hi <= |data| && Bytes(data)
    ensures 0 <= SumSquares(data, lo, hi) <= (hi - lo) * 65025
    decreases hi - lo
  {
    if hi > lo {
      SumSquaresBounds(data, lo, hi - 1);
      SquareOfByte(data[hi - 1]);
    }
  }

  lemma SquareOfByte(m: int)
    requires 0 <= m <= 255
    ensures 0 <= Square(m) <= 65025
  {
    assert m * m <= m * 255;
  }

  /** The root-mean-square magnitude of bins lo..hi-1, scaled to 0..1. */
  function RmsEnergy(data: seq<int>, lo: int, hi: int, sqrt: real -> real): real
    requires 0 <= lo < hi <= |data|
  {
    sqrt(SumSquares(data, lo, hi) as real / (hi - lo) as real) / 255.0
  }

  /** Before the square root, the mean square of a byte spectrum lies in 0..255². */
  lemma MeanSquareBounds(data: seq<int>, lo: int, hi: int)
    requires 0 <= lo < hi <= |data| && Bytes(data)
    ensures 0.0 <= SumSquares(data, lo, hi) as real / (hi - lo) as real <= 65025.0
  {
    SumSquaresBounds(data, lo, hi);
    var n := (hi - lo) as real;
    var q := SumSquares(data, lo, hi) as real / n;
    assert q * n == SumSquares(data, lo, hi) as real;
  }

  // ---------------------------------------------------------------------
  // The onset test

  function SquaredDeviations(s: seq<real>, m: real): (d: seq<real>)
    ensures |d| == |s|
    ensures AllNonNegative(d)
  {
    seq(|s|, i requires 0 <= i < |s| => Sq(s[i] - m))
  }

  /** The population variance of the energy history. */
  function Variance(h: seq<real>): real
    requires |h| > 0
  {
    Sum(SquaredDeviations(h, Mean(h))) / |h| as real
  }

  lemma VarianceNonNegative(h: seq<real>)
    requires |h| > 0
    ensures Variance(h) >= 0.0
  {
    SumNonNegative(SquaredDeviations(h, Mean(h)));
  }

  /** A history in which every entry is the same has zero variance. */
  lemma SteadyVarianceIsZero(h: seq<real>, c: real)
    requires |h| > 0 && forall i :: 0 <= i < |h| ==> h[i] == c
    ensures Variance(h) == 0.0
  {
    SumBoundedBy(h, c);
    SumAtLeast(h, c);
    assert Mean(h) == c;
    var d := SquaredDeviations(h, c);
    assert forall i :: 0 <= i < |d| ==> d[i] <= 0.0;
    SumBoundedBy(d, 0.0);
    SumNonNegative(d);
  }

  /** The mean of the five newest history entries. */
  function LocalAverage(h: seq<real>): real
    requires |h| >= 5
  {
    Mean(h[|h| - 5..])
  }

  /** detectPeak: enough history, the bass-weighted energy clears the local
      average by 30 %, and the energy deviation exceeds 0.01. */
  function PeakTest(h: seq<real>, deviation: real, energy: real, bass: real): bool
  {
    |h| >= 10
    && energy + bass * 2.0 > LocalAverage(h) * (1.0 + PeakThreshold)
    && deviation > 0.01
  }

  /** A silent frame over a history of non-negative energies is never a peak. */
  lemma SilenceNeverPeaks(h: seq<real>, deviation: real)
    requires AllNonNegative(h)
    ensures !PeakTest(h, deviation, 0.0, 0.0)
  {
    if |h| >= 10 {
      var w := h[|h| - 5..];
      assert AllNonNegative(w);
      SumNonNegative(w);
    }
  }

  /** A steady energy history has no deviation, so nothing is a peak there. */
  lemma SteadyHistoryNeverPeaks(h: seq<real>, c: real, energy: real, bass: real, sqrt: real -> real)
    requires |h| > 0 && forall i :: 0 <= i < |h| ==> h[i] == c
    requires sqrt(0.0) == 0.0
    ensures !PeakTest(h, sqrt(Variance(h)), energy, bass)
  {
    SteadyVarianceIsZero(h, c);
  }

  // ---------------------------------------------------------------------
  // Peak acceptance

  /** A peak is recorded when 200 < delta < 2000 and 60000/delta lies in
      [minBPM, maxBPM]. */
  predicate Accepts(delta: int)
  {
    MinDebounce < delta < MaxDebounce
    && MinBpm <= 60000.0 / delta as real <= MaxBpm
  }

  /** With the default 60..200 BPM range this is exactly 300 ms ≤ delta ≤ 1000 ms. */
  lemma AcceptsIff(delta: int)
    ensures Accepts(delta) <==> 300 <= delta <= 1000
  {
    if delta > 0 {
      DivBounds(60000.0, delta as real, 200.0);
      DivBounds(60000.0, delta as real, 60.0);
    }
  }

  /** Peaks younger than ten seconds, in their original order. */
  function RecentPeaks(peaks: seq<Peak>, now: int): (r: seq<Peak>)
    ensures forall p :: p in r <==> p in peaks && now - p.time < PeakWindow
    ensures |r| <= |peaks|
  {
    if |peaks| == 0 then []
    else
      var rest := RecentPeaks(peaks[..|peaks| - 1], now);
      var p := peaks[|peaks| - 1];
      assert forall q :: q in peaks <==> q in peaks[..|peaks| - 1] || q == p by {
        assert peaks == peaks[..|peaks| - 1] + [p];
      }
      if now - p.time < PeakWindow then rest + [p] else rest
  }

  // ---------------------------------------------------------------------
  // The modal BPM

  /** Consecutive peak spacings that lie strictly between 200 and 2000 ms. */
  function Intervals(peaks: seq<Peak>): (iv: seq<int>)
    ensures forall k :: 0 <= k < |iv| ==> MinDebounce < iv[k] < MaxDebounce
    ensures |iv| < |peaks| || |peaks| == 0
  {
    if |peaks| < 2 then []
    else
      var prev := Intervals(peaks[..|peaks| - 1]);
      var d := peaks[|peaks| - 1].time - peaks[|peaks| - 2].time;
      if MinDebounce < d < MaxDebounce then prev + [d] else prev
  }

  /** Math.round(60000 / interval). */
  function BpmOf(interval: int): int
    requires interval > 0
  {
    Round(60000.0 / interval as real)
  }

  /** A spacing strictly between 200 and 2000 ms rounds to 30..300 BPM. */
  lemma BpmOfRange(interval: int)
    requires MinDebounce < interval < MaxDebounce
    ensures LowestIntervalBpm <= BpmOf(interval) < LowestIntervalBpm + IntervalBpmCount
  {
    DivBounds(60000.0, interval as real, 30.0);
    DivBounds(60000.0, interval as real, 300.0);
  }

  function Bpms(iv: seq<int>): (r: seq<int>)
    requires forall k :: 0 <= k < |iv| ==> iv[k] > 0
    ensures |r| == |iv|
  {
    seq(|iv|, k requires 0 <= k < |iv| => BpmOf(iv[k]))
  }

  /** The walk over bpmCounts' integer keys in ascending order, keeping the
      first key with the strictly highest count, over the keys 30..30+k-1. */
  function ModeScan(counts: multiset<int>, k: nat): (int, nat)
  {
    if k == 0 then (0, 0)
    else
      var (b, c) := ModeScan(counts, k - 1);
      var x := LowestIntervalBpm + k - 1;
      if counts[x] > c then (x, counts[x]) else (b, c)
  }

  /** ModeScan yields the count of its key, which no scanned key beats and
      every smaller key falls short of; a zero count means nothing was seen. */
  lemma {:induction false} ModeScanSpec(counts: multiset<int>, k: nat)
    ensures var (b, c) := ModeScan(counts, k);
      && (c == 0 ==> forall x :: LowestIntervalBpm <= x < LowestIntervalBpm + k ==> counts[x] == 0)
      && (c > 0 ==> LowestIntervalBpm <= b < LowestIntervalBpm + k && counts[b] == c)
      && (forall x :: LowestIntervalBpm <= x < LowestIntervalBpm + k ==> counts[x] <= c)
      && (forall x :: LowestIntervalBpm <= x < b ==> counts[x] < c)
  {
    if k > 0 {
      ModeScanSpec(counts, k - 1);
    }
  }

  lemma {:induction false} CountAtMostSize(s: seq<int>, x: int)
    ensures multiset(s)[x] <= |s|
  {
    if |s| > 0 {
      CountAtMostSize(s[..|s| - 1], x);
      assert s == s[..|s| - 1] + [s[|s| - 1]];
    }
  }

  /** The detected BPM and confidence, or None when there are fewer than four
      peaks or fewer than three valid intervals. */
  function Estimate(peaks: seq<Peak>): Option<(int, real)>
  {
    if |peaks| < 4 then None
    else
      var iv := Intervals(peaks);
      if |iv| < 3 then None
      else
        var (d, c) := ModeScan(multiset(Bpms(iv)), IntervalBpmCount);
        Some((d, MinR(1.0, c as real / MaxI(|iv|, 1) as real)))
  }

  /** Over BPMs that all lie in 30..300 the scan finds a key that occurs,
      whose count bounds every other key's. */
  lemma ModeOfBpms(bpms: seq<int>)
    requires |bpms| > 0
    requires forall k :: 0 <= k < |bpms| ==> LowestIntervalBpm <= bpms[k] < LowestIntervalBpm + IntervalBpmCount
    ensures var (d, c) := ModeScan(multiset(bpms), IntervalBpmCount);
      var counts := multiset(bpms);
      && LowestIntervalBpm <= d < LowestIntervalBpm + IntervalBpmCount
      && 1 <= c <= |bpms| && counts[d] == c
      && (forall x :: counts[x] <= c)
      && (forall x :: x < d ==> counts[x] < c)
  {
    var counts := multiset(bpms);
    ModeScanSpec(counts, IntervalBpmCount);
    var (d, c) := ModeScan(counts, IntervalBpmCount);
    assert bpms[0] in counts;
    CountAtMostSize(bpms, d);
    forall x ensures counts[x] <= c {
      if counts[x] > 0 {
        assert x in bpms;
      }
    }
  }

  /** An estimate exists exactly when there are at least four peaks and three
      valid intervals. */
  lemma EstimateDefined(peaks: seq<Peak>)
    ensures Estimate(peaks).None? <==> |peaks| < 4 || |Intervals(peaks)| < 3
  {
  }

  /** The interval BPMs of an estimate all lie in 30..300. */
  lemma BpmsInRange(iv: seq<int>)
    requires forall k :: 0 <= k < |iv| ==> MinDebounce < iv[k] < MaxDebounce
    ensures forall k :: 0 <= k < |iv| ==> LowestIntervalBpm <= Bpms(iv)[k] < LowestIntervalBpm + IntervalBpmCount
  {
    forall k | 0 <= k < |iv| ensures LowestIntervalBpm <= Bpms(iv)[k] < LowestIntervalBpm + IntervalBpmCount {
      BpmOfRange(iv[k]);
    }
  }

  /** The estimated BPM is the most frequent rounded interval BPM, ties going
      to the smallest. */
  lemma EstimateIsMode(peaks: seq<Peak>)
    requires Estimate(peaks).Some?
    ensures var d := Estimate(peaks).value.0;
      var counts := multiset(Bpms(Intervals(peaks)));
      && LowestIntervalBpm <= d < LowestIntervalBpm + IntervalBpmCount
      && counts[d] > 0
      && (forall x :: counts[x] <= counts[d])
      && (forall x :: x < d ==> counts[x] < counts[d])
  {
    var iv := Intervals(peaks);
    BpmsInRange(iv);
    ModeOfBpms(Bpms(iv));
  }

  lemma ModeCountRange(bpms: seq<int>)
    requires |bpms| > 0
    requires forall k :: 0 <= k < |bpms| ==> LowestIntervalBpm <= bpms[k] < LowestIntervalBpm + IntervalBpmCount
    ensures var (d, c) := ModeScan(multiset(bpms), IntervalBpmCount);
      1 <= c <= |bpms| && multiset(bpms)[d] == c
  {
    ModeOfBpms(bpms);
  }

  /** The confidence is the modal BPM's share of the intervals, in (0, 1]. */
  lemma EstimateConfidence(peaks: seq<Peak>)
    requires Estimate(peaks).Some?
    ensures var (d, conf) := Estimate(peaks).value;
      var iv := Intervals(peaks);
      && conf == multiset(Bpms(iv))[d] as real / |iv| as real
      && 0.0 < conf <= 1.0
  {
    var iv := Intervals(peaks);
    var bpms := Bpms(iv);
    BpmsInRange(iv);
    ModeCountRange(bpms);
    var (d, c) := ModeScan(multiset(bpms), IntervalBpmCount);
    ShareInUnit(c, |iv|);
  }

  /** A count out of n, with 1 <= count <= n, is a share in (0, 1]. */
  lemma ShareInUnit(count: int, n: int)
    requires 1 <= count <= n
    ensures var share := count as real / n as real;
      MinR(1.0, count as real / MaxI(n, 1) as real) == share && 0.0 < share <= 1.0
  {
    DivBounds(count as real, n as real, 0.0);
    DivBounds(count as real, n as real, 1.0);
  }

  /** The first estimate seeds the BPM; later ones are blended 80/20 and rounded. */
  function Smooth(current: real, detected: real): real
  {
    if current == 0.0 then detected
    else Round(current * SmoothingFactor + detected * (1.0 - SmoothingFactor)) as real
  }

  /** The smoothed BPM never leaves the span of the old and detected values by
      more than the rounding half-step. */
  lemma SmoothBetween(current: real, detected: real)
    ensures MinR(current, detected) - 0.5 <= Smooth(current, detected) <= MaxR(current, detected) + 0.5
  {
  }

  /** calculateBPMFromPeaks as a value: the new BPM, confidence, history and events. */
  function BpmUpdate(bpm: real, confidence: real, history: seq<real>, peaks: seq<Peak>)
    : (real, real, seq<real>, seq<Event>)
  {
    match Estimate(peaks)
    case None => (bpm, confidence, history, [])
    case Some((d, c)) =>
      var b := Smooth(bpm, d as real);
      var h := PushShift(history, b, HistoryLength);
      (b, c, h, [BpmDetected(b, c, h)])
  }

  // ---------------------------------------------------------------------
  // Tempo labels

  const TempoLabels: seq<string> :=
    ["Very Slow", "Slow", "Moderate", "Medium", "Fast", "Very Fast", "Extremely Fast"]
  const TempoThresholds: seq<real> := [60.0, 80.0, 100.0, 120.0, 140.0, 160.0]

  /** getTempoDescription: the first band whose strict upper threshold exceeds the BPM. */
  function TempoDescription(bpm: real): string
  {
    if bpm < 60.0 then "Very Slow"
    else if bpm < 80.0 then "Slow"
    else if bpm < 100.0 then "Moderate"
    else if bpm < 120.0 then "Medium"
    else if bpm < 140.0 then "Fast"
    else if bpm < 160.0 then "Very Fast"
    else "Extremely Fast"
  }

  /** How many thresholds lie at or below the BPM. */
  function ThresholdsReached(bpm: real, n: nat): (c: nat)
    requires n <= |TempoThresholds|
    ensures c <= n
  {
    if n == 0 then 0
    else ThresholdsReached(bpm, n - 1) + (if TempoThresholds[n - 1] <= bpm then 1 else 0)
  }

  /** The label is the one indexed by the number of thresholds reached, so
      descriptions only move forward as the tempo rises. */
  lemma TempoDescriptionByCount(bpm: real)
    ensures TempoDescription(bpm) == TempoLabels[ThresholdsReached(bpm, |TempoThresholds|)]
  {
    var t := TempoThresholds;
    assert ThresholdsReached(bpm, 1) == if t[0] <= bpm then 1 else 0;
    assert ThresholdsReached(bpm, 2) == ThresholdsReached(bpm, 1) + if t[1] <= bpm then 1 else 0;
    assert ThresholdsReached(bpm, 3) == ThresholdsReached(bpm, 2) + if t[2] <= bpm then 1 else 0;
    assert ThresholdsReached(bpm, 4) == ThresholdsReached(bpm, 3) + if t[3] <= bpm then 1 else 0;
    assert ThresholdsReached(bpm, 5) == ThresholdsReached(bpm, 4) + if t[4] <= bpm then 1 else 0;
    assert ThresholdsReached(bpm, 6) == ThresholdsReached(bpm, 5) + if t[5] <= bpm then 1 else 0;
  }

  lemma {:induction false} TempoMonotone(a: real, b: real, n: nat)
    requires a <= b && n <= |TempoThresholds|
    ensures ThresholdsReached(a, n) <= ThresholdsReached(b, n)
  {
    if n > 0 {
      TempoMonotone(a, b, n - 1);
    }
  }

  lemma TempoExamples()
    ensures TempoDescription(70.0) == "Slow"
    ensures TempoDescription(119.0) == "Medium"
    ensures TempoDescription(120.0) == "Fast"
    ensures TempoDescription(0.0) == "Very Slow" && TempoDescription(300.0) == "Extremely Fast"
  {
  }

  // ---------------------------------------------------------------------
  // The detector

  function BeatTimes(events: seq<Event>): (ts: seq<int>)
  {
    if |events| == 0 then []
    else
      var prev := BeatTimes(events[..|events| - 1]);
      match events[|events| - 1]
      case BeatDetected(_, _, _, t) => prev + [t]
      case BpmDetected(_, _, _) => prev
  }

  lemma BeatTimesAppend(events: seq<Event>, more: seq<Event>)
    requires forall k :: 0 <= k < |more| ==> more[k].BpmDetected?
    ensures BeatTimes(events + more) == BeatTimes(events)
    decreases |more|
  {
    if |more| == 0 {
      assert events + more == events;
    } else {
      assert (events + more)[..|events + more| - 1] == events + more[..|more| - 1];
      assert (events + more)[|events + more| - 1] == more[|more| - 1];
      BeatTimesAppend(events, more[..|more| - 1]);
    }
  }

  class Detector {
    var bpmHistory: seq<real>
    var peakHistory: seq<Peak>
    var lastPeakTime: int
    var currentBpm: real
    var confidence: real
    var isAnalyzing: bool
    var energyHistory: seq<real>
    var energyVariance: real
    var events: seq<Event>

    /** The energy history always holds 43 entries, the BPM history at most
        20, and no beat was reported after the last recorded peak time. */
    ghost predicate Valid()
      reads this
    {
      && |energyHistory| == EnergyWindow
      && |bpmHistory| <= HistoryLength
      && (forall t | t in BeatTimes(events) :: t <= lastPeakTime || lastPeakTime == 0)
    }

    /** The clock is monotonic: `now` is no earlier than any time recorded so far. */
    ghost predicate ClockAt(now: int)
      reads this
    {
      now >= lastPeakTime && forall t | t in BeatTimes(events) :: t <= now
    }

    constructor()
      ensures Valid()
      ensures energyHistory == seq(EnergyWindow, _ => 0.0)
      ensures bpmHistory == [] && peakHistory == [] && events == []
      ensures lastPeakTime == 0 && currentBpm == 0.0 && confidence == 0.0
      ensures !isAnalyzing && energyVariance == 0.0
    {
      bpmHistory := [];
      peakHistory := [];
      lastPeakTime := 0;
      currentBpm := 0.0;
      confidence := 0.0;
      isAnalyzing := false;
      energyHistory := seq(EnergyWindow, _ => 0.0);
      energyVariance := 0.0;
      events := [];
    }

    method StartAnalysis()
      requires Valid()
      modifies `isAnalyzing, `bpmHistory, `peakHistory, `energyHistory
      ensures Valid()
      ensures isAnalyzing && bpmHistory == [] && peakHistory == []
      ensures energyHistory == seq(EnergyWindow, _ => 0.0)
    {
      isAnalyzing := true;
      bpmHistory := [];
      peakHistory := [];
      energyHistory := seq(EnergyWindow, _ => 0.0);
    }

    method StopAnalysis()
      requires Valid()
      modifies `isAnalyzing
      ensures Valid() && !isAnalyzing
    {
      isAnalyzing := false;
    }

    method Reset()
      requires Valid()
      modifies `currentBpm, `confidence, `bpmHistory, `peakHistory, `energyHistory, `lastPeakTime
      ensures Valid()
      ensures currentBpm == 0.0 && confidence == 0.0 && lastPeakTime == 0
      ensures bpmHistory == [] && peakHistory == []
      ensures energyHistory == seq(EnergyWindow, _ => 0.0)
    {
      currentBpm := 0.0;
      confidence := 0.0;
      bpmHistory := [];
      peakHistory := [];
      energyHistory := seq(EnergyWindow, _ => 0.0);
      lastPeakTime := 0;
    }

    /** setBPM: a manual override inside [minBPM, maxBPM] with full confidence. */
    method SetBpm(bpm: real)
      requires Valid()
      modifies `currentBpm, `confidence
      ensures Valid()
      ensures MinBpm <= bpm <= MaxBpm ==> currentBpm == bpm && confidence == 1.0
      ensures !(MinBpm <= bpm <= MaxBpm) ==> currentBpm == old(currentBpm) && confidence == old(confidence)
    {
      if bpm >= MinBpm && bpm <= MaxBpm {
        currentBpm := bpm;
        confidence := 1.0;
      }
    }

    /** calculateEnergy: the RMS magnitude of the whole spectrum over 255. */
    method CalculateEnergy(data: seq<int>, sqrt: real -> real) returns (e: real)
      requires |data| > 0
      ensures e == RmsEnergy(data, 0, |data|, sqrt)
    {
      var energy := 0;
      var i := 0;
      while i < |data|
        invariant 0 <= i <= |data|
        invariant energy == SumSquares(data, 0, i)
      {
        energy := energy + data[i] * data[i];
        i := i + 1;
      }
      e := sqrt(energy as real / |data| as real) / 255.0;
    }

    /** calculateBandEnergy: the RMS magnitude of bins max(0,start)..min(len,end)-1. */
    method CalculateBandEnergy(data: seq<int>, startBin: int, endBin: int, sqrt: real -> real) returns (e: real)
      requires MaxI(0, startBin) < MinI(|data|, endBin)
      ensures e == RmsEnergy(data, MaxI(0, startBin), MinI(|data|, endBin), sqrt)
    {
      var energy := 0;
      var start := MaxI(0, startBin);
      var end := MinI(|data|, endBin);
      var i := start;
      while i < end
        invariant start <= i <= end
        invariant energy == SumSquares(data, start, i)
      {
        energy := energy + data[i] * data[i];
        i := i + 1;
      }
      e := sqrt(energy as real / (end - start) as real) / 255.0;
    }

    /** updateEnergyVariance: the standard deviation of the energy history. */
    method UpdateEnergyVariance(sqrt: real -> real)
      modifies `energyVariance
      ensures |energyHistory| < 10 ==> energyVariance == old(energyVariance)
      ensures |energyHistory| >= 10 ==> energyVariance == sqrt(Variance(energyHistory))
    {
      if |energyHistory| < 10 {
        return;
      }
      var mean := Sum(energyHistory) / |energyHistory| as real;
      var variance := Sum(SquaredDeviations(energyHistory, mean)) / |energyHistory| as real;
      energyVariance := sqrt(variance);
    }

    /** calculateBPMFromPeaks: collect the valid intervals, count their rounded
        BPMs, take the first key with the highest count, then smooth and record. */
    method CalculateBpmFromPeaks()
      requires Valid()
      modifies `currentBpm, `confidence, `bpmHistory, `events
      ensures Valid()
      ensures var u := BpmUpdate(old(currentBpm), old(confidence), old(bpmHistory), peakHistory);
        currentBpm == u.0 && confidence == u.1 && bpmHistory == u.2 && events == old(events) + u.3
    {
      if |peakHistory| < 4 {
        return;
      }
      var intervals := CollectIntervals(peakHistory);
      if |intervals| < 3 {
        return;
      }
      var counts := CountBpms(intervals);
      var detected, maxCount := PickMode(counts, currentBpm);
      BpmsInRange(intervals);
      ModeCountRange(Bpms(intervals));
      confidence := MinR(1.0, maxCount as real / MaxI(|intervals|, 1) as real);
      currentBpm := Smooth(currentBpm, detected);
      bpmHistory := PushShift(bpmHistory, currentBpm, HistoryLength);
      BeatTimesAppend(events, [BpmDetected(currentBpm, confidence, bpmHistory)]);
      events := events + [BpmDetected(currentBpm, confidence, bpmHistory)];
    }

    /** The interval loop of calculateBPMFromPeaks. */
    method CollectIntervals(peaks: seq<Peak>) returns (intervals: seq<int>)
      ensures intervals == Intervals(peaks)
    {
      intervals := [];
      if |peaks| == 0 {
        return;
      }
      var i := 1;
      while i < |peaks|
        invariant 1 <= i <= |peaks|
        invariant intervals == Intervals(peaks[..i])
      {
        var interval := peaks[i].time - peaks[i - 1].time;
        assert peaks[..i + 1][..i] == peaks[..i];
        if interval > MinDebounce && interval < MaxDebounce {
          intervals := intervals + [interval];
        }
        i := i + 1;
      }
      assert peaks[..|peaks|] == peaks;
    }

    /** The bpmCounts tally of calculateBPMFromPeaks. */
    method CountBpms(intervals: seq<int>) returns (counts: multiset<int>)
      requires forall k :: 0 <= k < |intervals| ==> intervals[k] > 0
      ensures counts == multiset(Bpms(intervals))
    {
      counts := multiset{};
      var j := 0;
      while j < |intervals|
        invariant 0 <= j <= |intervals|
        invariant counts == multiset(Bpms(intervals)[..j])
      {
        var bpm := BpmOf(intervals[j]);
        assert Bpms(intervals)[..j + 1] == Bpms(intervals)[..j] + [bpm];
        counts := counts + multiset{bpm};
        j := j + 1;
      }
      assert Bpms(intervals)[..|intervals|] == Bpms(intervals);
    }

    /** The walk over bpmCounts' keys in ascending order; `fallback` is what
        detectedBPM starts as. */
    method PickMode(counts: multiset<int>, fallback: real) returns (detected: real, maxCount: nat)
      ensures maxCount == ModeScan(counts, IntervalBpmCount).1
      ensures maxCount > 0 ==> detected == ModeScan(counts, IntervalBpmCount).0 as real
      ensures maxCount == 0 ==> detected == fallback
    {
      maxCount := 0;
      detected := fallback;
      var b := LowestIntervalBpm;
      while b < LowestIntervalBpm + IntervalBpmCount
        invariant LowestIntervalBpm <= b <= LowestIntervalBpm + IntervalBpmCount
        invariant maxCount == ModeScan(counts, b - LowestIntervalBpm).1
        invariant maxCount > 0 ==> detected == ModeScan(counts, b - LowestIntervalBpm).0 as real
        invariant maxCount == 0 ==> detected == fallback
      {
        if counts[b] > maxCount {
          maxCount := counts[b];
          detected := b as real;
        }
        b := b + 1;
      }
    }

    /** The peak branch of detectBPM: record the peak and re-estimate when its
        spacing is acceptable, firing the beat callback, and in any case
        remember the peak time. */
    method RegisterPeak(now: int, energy: real)
      requires Valid() && ClockAt(now)
      modifies `peakHistory, `currentBpm, `confidence, `bpmHistory, `events, `lastPeakTime
      ensures Valid()
      ensures lastPeakTime == now
      ensures var delta := now - old(lastPeakTime);
        Accepts(delta) ==>
          var peaks := RecentPeaks(old(peakHistory) + [Peak(now, 60000.0 / delta as real, energy)], now);
          var u := BpmUpdate(old(currentBpm), old(confidence), old(bpmHistory), peaks);
          && peakHistory == peaks
          && currentBpm == u.0 && confidence == u.1 && bpmHistory == u.2
          && events == old(events) + u.3 + [BeatDetected(u.0, u.1, energy, now)]
      ensures !Accepts(now - old(lastPeakTime)) ==>
        && peakHistory == old(peakHistory) && currentBpm == old(currentBpm)
        && confidence == old(confidence) && bpmHistory == old(bpmHistory) && events == old(events)
      ensures BeatTimes(events) == BeatTimes(old(events)) + (if Accepts(now - old(lastPeakTime)) then [now] else [])
    {
      var timeSinceLastPeak := now - lastPeakTime;
      if timeSinceLastPeak > MinDebounce && timeSinceLastPeak < MaxDebounce {
        var instantBpm := 60000.0 / timeSinceLastPeak as real;
        if instantBpm >= MinBpm && instantBpm <= MaxBpm {
          AcceptPeak(now, instantBpm, energy);
        }
      }
      lastPeakTime := now;
    }

    /** An accepted peak: append it, drop peaks ten seconds old, re-estimate
        the BPM and fire the beat callback. */
    method AcceptPeak(now: int, instantBpm: real, energy: real)
      requires Valid() && ClockAt(now)
      modifies `peakHistory, `currentBpm, `confidence, `bpmHistory, `events
      ensures |energyHistory| == EnergyWindow && |bpmHistory| <= HistoryLength
      ensures peakHistory == RecentPeaks(old(peakHistory) + [Peak(now, instantBpm, energy)], now)
      ensures var u := BpmUpdate(old(currentBpm), old(confidence), old(bpmHistory), peakHistory);
        && currentBpm == u.0 && confidence == u.1 && bpmHistory == u.2
        && events == old(events) + u.3 + [BeatDetected(u.0, u.1, energy, now)]
      ensures BeatTimes(events) == BeatTimes(old(events)) + [now]
    {
      peakHistory := peakHistory + [Peak(now, instantBpm, energy)];
      peakHistory := RecentPeaks(peakHistory, now);
      ghost var before := events;
      ghost var u := BpmUpdate(currentBpm, confidence, bpmHistory, peakHistory);
      CalculateBpmFromPeaks();
      assert events == before + u.3;
      BeatTimesAppend(before, u.3);
      var beat := BeatDetected(currentBpm, confidence, energy, now);
      assert (before + u.3) + [beat] == before + (u.3 + [beat]);
      events := events + [beat];
      assert events[..|events| - 1] == before + u.3;
    }

    /** detectBPM: a no-op returning the current BPM unless analysing;
        otherwise slide the energy history, refresh the deviation, and run
        the peak branch when the onset test fires. */
    method DetectBpm(data: seq<int>, now: int, sqrt: real -> real) returns (bpm: real)
      requires Valid() && ClockAt(now) && |data| > 0
      modifies this
      ensures Valid() && bpm == currentBpm
      ensures !old(isAnalyzing) ==> unchanged(this)
      ensures old(isAnalyzing) ==>
        var energy := RmsEnergy(data, 0, |data|, sqrt);
        var bass := RmsEnergy(data, 0, MinI(|data|, 10), sqrt);
        var h := PushShift(old(energyHistory), energy, EnergyWindow);
        var peak := PeakTest(h, sqrt(Variance(h)), energy, bass);
        && energyHistory == h
        && energyVariance == sqrt(Variance(h))
        && isAnalyzing
        && (peak ==> lastPeakTime == now)
        && (!peak ==> lastPeakTime == old(lastPeakTime) && peakHistory == old(peakHistory)
                      && events == old(events) && currentBpm == old(currentBpm)
                      && confidence == old(confidence) && bpmHistory == old(bpmHistory))
      ensures old(isAnalyzing) ==>
        var energy := RmsEnergy(data, 0, |data|, sqrt);
        var bass := RmsEnergy(data, 0, MinI(|data|, 10), sqrt);
        var h := PushShift(old(energyHistory), energy, EnergyWindow);
        var delta := now - old(lastPeakTime);
        PeakTest(h, sqrt(Variance(h)), energy, bass) && Accepts(delta) ==>
          var peaks := RecentPeaks(old(peakHistory) + [Peak(now, 60000.0 / delta as real, energy)], now);
          var u := BpmUpdate(old(currentBpm), old(confidence), old(bpmHistory), peaks);
          && peakHistory == peaks
          && currentBpm == u.0 && confidence == u.1 && bpmHistory == u.2
          && events == old(events) + u.3 + [BeatDetected(u.0, u.1, energy, now)]
      ensures old(isAnalyzing) ==>
        var energy := RmsEnergy(data, 0, |data|, sqrt);
        var bass := RmsEnergy(data, 0, MinI(|data|, 10), sqrt);
        var h := PushShift(old(energyHistory), energy, EnergyWindow);
        PeakTest(h, sqrt(Variance(h)), energy, bass) && !Accepts(now - old(lastPeakTime)) ==>
          && peakHistory == old(peakHistory) && currentBpm == old(currentBpm)
          && confidence == old(confidence) && bpmHistory == old(bpmHistory) && events == old(events)
      ensures BeatTimes(events) == BeatTimes(old(events))
           || (BeatTimes(events) == BeatTimes(old(events)) + [now] && now - old(lastPeakTime) > MinDebounce)
    {
      if !isAnalyzing {
        return currentBpm;
      }
      var energy := CalculateEnergy(data, sqrt);
      var bass := CalculateBandEnergy(data, 0, 10, sqrt);
      energyHistory := energyHistory + [energy];
      if |energyHistory| > EnergyWindow {
        energyHistory := energyHistory[1..];
      }
      UpdateEnergyVariance(sqrt);
      if PeakTest(energyHistory, energyVariance, energy, bass) {
        RegisterPeak(now, energy);
      }
      bpm := currentBpm;
    }
  }

  /** Two beats reported with no reset in between are more than 200 ms apart:
      a beat at `now` needs now − lastPeakTime > 200, and every earlier beat
      lies at or before lastPeakTime. */
  lemma BeatsSpaced(beats: seq<int>, lastPeakTime: int, now: int)
    requires lastPeakTime != 0
    requires forall t | t in beats :: t <= lastPeakTime || lastPeakTime == 0
    requires now - lastPeakTime > MinDebounce
    ensures forall t | t in beats :: now - t > MinDebounce
    ensures forall t | t in beats + [now] :: t == now || now - t > MinDebounce
  {
  }
}
