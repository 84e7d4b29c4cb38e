/** The page script's inline beat detector: a ten-frame energy history, a
    beat when the current frame's energy stands out from that history and
    the last beat is more than 200 ms old, and a five-entry history of beat
    intensities. Levels are band magnitudes in [0, 1]; the clock is an
    integer millisecond timestamp passed in by the caller. */
module BeatDetection {
  import opened Common

  const HistoryLength: nat := 10
  const IntensityLength: nat := 5
  const DefaultThreshold: real := 1.2
  const MinInterval: int := 200
  const MaxIntensity: real := 2.0

  /** What detectBeat reports. */
  datatype BeatResult = BeatResult(detected: bool, intensity: real)

  /** The sensitivity slider's value when the slider exists, else 1.2. */
  function Threshold(sensitivity: Option<real>): real
  {
    if sensitivity.Some? then sensitivity.value else DefaultThreshold
  }

  /** Consecutive beat times lie more than MinInterval apart. */
  ghost predicate Spaced(beats: seq<int>)
  {
    forall i :: 0 < i < |beats| ==> beats[i] - beats[i - 1] > MinInterval
  }

  /** Hence any two beats, not only neighbours, lie more than MinInterval
      apart. */
  lemma {:induction false} BeatsApart(beats: seq<int>, i: int, j: int)
    requires Spaced(beats) && 0 <= i < j < |beats|
    ensures beats[j] - beats[i] > MinInterval
    decreases j - i
  {
    if i < j - 1 {
      BeatsApart(beats, i, j - 1);
    }
  }

  /** A history of non-negative energies whose newest entry is `current`
      has a positive mean whenever `current` beats that mean by the
      threshold, and the reported intensity then exceeds threshold − 1 unless
      it is capped at 2. */
  lemma BeatIntensity(history: seq<real>, current: real, threshold: real)
    requires AllNonNegative(history) && |history| > 0
    requires history[|history| - 1] == current
    requires current > Mean(history) * threshold
    ensures Mean(history) > 0.0
    ensures var intensity := MinR(MaxIntensity, current / Mean(history) - 1.0);
      intensity == MaxIntensity || intensity > threshold - 1.0
  {
    SumNonNegative(history);
    EntryAtMostSum(history, |history| - 1);
    DivBounds(current, Mean(history), threshold);
  }

  /** The history keeps only non-negative energies. */
  lemma PushNonNegative(history: seq<real>, x: real, limit: nat)
    requires AllNonNegative(history) && x >= 0.0 && limit >= 1
    ensures AllNonNegative(PushShift(history, x, limit))
  {
  }

  /** The detector's state (beatDetection). */
  class Detector {
    var history: seq<real>
    var lastBeat: int
    var enabled: bool
    var intensityHistory: seq<real>
    /** The times of every reported beat, oldest first. */
    ghost var beats: seq<int>

    ghost predicate Valid()
      reads this
    {
      && |history| == HistoryLength
      && AllNonNegative(history)
      && |intensityHistory| == IntensityLength
      && (|beats| > 0 ==> beats[|beats| - 1] == lastBeat)
      && Spaced(beats)
    }

    constructor()
      ensures Valid()
      ensures history == seq(HistoryLength, _ => 0.0) && intensityHistory == seq(IntensityLength, _ => 0.0)
      ensures lastBeat == 0 && enabled && beats == []
    {
      history := seq(HistoryLength, _ => 0.0);
      lastBeat := 0;
      enabled := true;
      intensityHistory := seq(IntensityLength, _ => 0.0);
      beats := [];
    }

    /** detectBeat: when disabled, no beat and no change. Otherwise the
        frame's mean level joins the history; a beat is reported when that
        level exceeds the history's mean times the threshold and more than
        200 ms have passed since the last beat, with intensity
        min(2, level / mean − 1). */
    method DetectBeat(levels: seq<real>, now: int, sensitivity: Option<real>) returns (r: BeatResult)
      requires Valid() && |levels| > 0 && AllNonNegative(levels)
      modifies this
      ensures Valid() && enabled == old(enabled)
      ensures !old(enabled) ==> r == BeatResult(false, 0.0) && unchanged(this)
      ensures old(enabled) ==> history == PushShift(old(history), Mean(levels), HistoryLength)
      ensures old(enabled) ==>
        (r.detected <==> Mean(levels) > Mean(history) * Threshold(sensitivity) && now - old(lastBeat) > MinInterval)
      ensures r.detected ==> Mean(history) > 0.0
      ensures r.detected ==> r.intensity == MinR(MaxIntensity, Mean(levels) / Mean(history) - 1.0)
      ensures r.detected ==> r.intensity <= MaxIntensity
      ensures r.detected ==> r.intensity == MaxIntensity || r.intensity > Threshold(sensitivity) - 1.0
      ensures r.detected ==> lastBeat == now && beats == old(beats) + [now]
      ensures r.detected ==> intensityHistory == PushShift(old(intensityHistory), r.intensity, IntensityLength)
      ensures !r.detected ==> r.intensity == 0.0
      ensures !r.detected ==> lastBeat == old(lastBeat) && beats == old(beats) && intensityHistory == old(intensityHistory)
    {
      if !enabled {
        return BeatResult(false, 0.0);
      }
      var current := Mean(levels);
      SumNonNegative(levels);
      PushNonNegative(history, current, HistoryLength);
      history := PushShift(history, current, HistoryLength);
      var average := Mean(history);
      var threshold := Threshold(sensitivity);
      if current > average * threshold && now - lastBeat > MinInterval {
        BeatIntensity(history, current, threshold);
        var intensity := MinR(MaxIntensity, current / average - 1.0);
        RecordBeat(now, intensity);
        return BeatResult(true, intensity);
      }
      return BeatResult(false, 0.0);
    }

    /** A reported beat: it becomes the last beat, and its intensity joins
        the intensity history. */
    method RecordBeat(now: int, intensity: real)
      requires Valid() && now - lastBeat > MinInterval
      modifies `lastBeat, `beats, `intensityHistory
      ensures Valid()
      ensures lastBeat == now && beats == old(beats) + [now]
      ensures intensityHistory == PushShift(old(intensityHistory), intensity, IntensityLength)
    {
      lastBeat := now;
      beats := beats + [now];
      intensityHistory := PushShift(intensityHistory, intensity, IntensityLength);
    }
  }
}
