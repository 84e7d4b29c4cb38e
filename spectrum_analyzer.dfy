/** The spectrum analyser: energy and peak of seven fixed frequency bands,
    local-maximum peak picking with a five-second peak history, harmonic
    relations to the strongest peak, spectral centroid and 90 % rolloff, the
    zero-crossing rate of the waveform, and the bass/mid/treble balance.
    Byte spectra and waveforms are sequences of 0..255, timestamps are integer
    milliseconds passed in by the caller, Math.sqrt is a given function, and
    an event log stands for the peak, feature and spectrum callbacks. */
module SpectrumAnalyzer {
  import opened Common

  datatype Band = Band(name: string, min: int, max: int, energy: real, peak: real, peakFrequency: real)
  datatype SpectralPeak = SpectralPeak(frequency: real, magnitude: real, bin: int)
  datatype PeakSnapshot = PeakSnapshot(timestamp: int, peaks: seq<SpectralPeak>)
  datatype Harmonic = Harmonic(number: int, frequency: real, magnitude: real, fundamental: real)
  datatype Features = Features(centroid: real, rolloff: real, zeroCrossingRate: real)

  /** One callback invocation. */
  datatype Event =
    | PeakDetected(peaks: seq<SpectralPeak>, dominant: real, timestamp: int)
    | FeatureUpdate(features: Features)
    | SpectrumUpdate(bands: seq<Band>, peaks: seq<SpectralPeak>, harmonics: seq<Harmonic>,
                     dominant: real, features: Features, timestamp: int)

  const BandCount: nat := 7
  const PeakThreshold: real := 0.7
  const MaxPeaks: nat := 10
  const PeakHistoryWindow: int := 5000
  const HarmonicTolerance: real := 0.1
  const RolloffFraction: real := 0.9
  const DefaultSampleRate: int := 44100

  /** The seven bands and their Hz ranges, with nothing measured yet. */
  const InitialBands: seq<Band> := [
    Band("Sub Bass", 20, 60, 0.0, 0.0, 0.0),
    Band("Bass", 60, 250, 0.0, 0.0, 0.0),
    Band("Low Midrange", 250, 500, 0.0, 0.0, 0.0),
    Band("Midrange", 500, 2000, 0.0, 0.0, 0.0),
    Band("Upper Midrange", 2000, 4000, 0.0, 0.0, 0.0),
    Band("Presence", 4000, 6000, 0.0, 0.0, 0.0),
    Band("Brilliance", 6000, 20000, 0.0, 0.0, 0.0)
  ]

  predicate Bytes(data: seq<int>)
  {
    forall i :: 0 <= i < |data| ==> 0 <= data[i] <= 255
  }

  function Magnitude(b: int): real { b as real / 255.0 }

  lemma MagnitudeOfByte(b: int)
    requires 0 <= b <= 255
    ensures 0.0 <= Magnitude(b) <= 1.0
  {
  }

  /** The centre frequency of a bin: i · sampleRate / (2 · bufferLength). */
  function BinFrequency(i: int, sampleRate: int, len: int): real
    requires len > 0
  {
    (i * sampleRate) as real / (2 * len) as real
  }

  // ---------------------------------------------------------------------
  // Frequency bands

  /** Nyquist frequency over the number of bins. */
  function BinWidth(sampleRate: int, len: int): real
    requires len > 0
  {
    (sampleRate as real / 2.0) / len as real
  }

  /** The scan of bins lo..hi-1: summed squared magnitude, the strictly
      growing running maximum (starting at 0) and the frequency of the bin
      that set it. */
  function BandScan(data: seq<int>, lo: int, hi: int, width: real): (real, real, real)
    requires 0 <= lo && hi <= |data|
    decreases hi - lo
  {
    if hi <= lo then (0.0, 0.0, 0.0)
    else
      var prev := BandScan(data, lo, hi - 1, width);
      var m := Magnitude(data[hi - 1]);
      (prev.0 + Sq(m), if m > prev.1 then m else prev.1, if m > prev.1 then (hi - 1) as real * width else prev.2)
  }

  /** p is the largest magnitude among bins lo..hi-1, in [0, 1]; f is the
      frequency of the first bin reaching it, and 0 when every bin is silent. */
  ghost predicate IsBandPeak(data: seq<int>, lo: int, hi: int, width: real, p: real, f: real)
    requires 0 <= lo && hi <= |data|
  {
    && 0.0 <= p <= 1.0
    && (forall i :: lo <= i < hi ==> Magnitude(data[i]) <= p)
    && (p == 0.0 ==> f == 0.0)
    && (p > 0.0 ==> exists i :: lo <= i < hi && Magnitude(data[i]) == p && f == i as real * width
                       && forall j :: lo <= j < i ==> Magnitude(data[j]) < p)
  }

  /** The scan's peak and peak frequency are the band peak of its bins. */
  lemma {:induction false} BandScanPeak(data: seq<int>, lo: int, hi: int, width: real)
    requires 0 <= lo && hi <= |data| && Bytes(data)
    ensures IsBandPeak(data, lo, hi, width, BandScan(data, lo, hi, width).1, BandScan(data, lo, hi, width).2)
    decreases hi - lo
  {
    if hi > lo {
      BandScanPeak(data, lo, hi - 1, width);
      MagnitudeOfByte(data[hi - 1]);
    }
  }

  lemma {:induction false} BandScanEnergy(data: seq<int>, lo: int, hi: int, width: real)
    requires 0 <= lo && hi <= |data|
    ensures BandScan(data, lo, hi, width).0 >= 0.0
    decreases hi - lo
  {
    if hi > lo {
      BandScanEnergy(data, lo, hi - 1, width);
      SqNonNegative(Magnitude(data[hi - 1]));
    }
  }

  /** floor(min / binWidth) and floor(max / binWidth). */
  function StartBin(b: Band, width: real): int
    requires width > 0.0
  {
    (b.min as real / width).Floor
  }

  function EndBin(b: Band, width: real): int
    requires width > 0.0
  {
    (b.max as real / width).Floor
  }

  /** A band's first bin is a bin index and comes no later than its last. */
  lemma BandBins(b: Band, width: real)
    requires width > 0.0 && 0 <= b.min < b.max
    ensures 0 <= StartBin(b, width) <= EndBin(b, width)
  {
    DivBounds(b.min as real, width, 0.0);
    DivBounds((b.max - b.min) as real, width, 0.0);
    assert b.max as real / width - b.min as real / width == (b.max - b.min) as real / width;
  }

  /** One band after a frame: energy sqrt(Σm² / (endBin − startBin + 1)), its
      peak and peak frequency over bins startBin..endBin that exist. */
  function MeasureBand(b: Band, data: seq<int>, sampleRate: int, sqrt: real -> real): (m: Band)
    requires |data| > 0 && sampleRate > 0 && 0 <= b.min < b.max
    ensures SameLayout(m, b)
  {
    var width := BinWidth(sampleRate, |data|);
    BandBins(b, width);
    var lo := StartBin(b, width);
    var hi := MinI(EndBin(b, width) + 1, |data|);
    var scan := BandScan(data, lo, hi, width);
    b.(energy := sqrt(scan.0 / (EndBin(b, width) - lo + 1) as real), peak := scan.1, peakFrequency := scan.2)
  }

  // ---------------------------------------------------------------------
  // Peak picking

  /** A bin strictly above both neighbours and above 0.7 · 255. */
  predicate IsLocalPeak(data: seq<int>, i: int)
  {
    1 <= i < |data| - 1
    && data[i] > data[i - 1] && data[i] > data[i + 1]
    && data[i] as real > PeakThreshold * 255.0
  }

  function PeakAt(data: seq<int>, i: int, sampleRate: int): SpectralPeak
    requires 0 <= i < |data|
  {
    SpectralPeak(BinFrequency(i, sampleRate, |data|), Magnitude(data[i]), i)
  }

  /** The local peaks among bins 1..n-1, in bin order. */
  function LocalPeaks(data: seq<int>, sampleRate: int, n: int): seq<SpectralPeak>
    requires n <= |data|
    decreases n
  {
    if n <= 1 then []
    else
      var prev := LocalPeaks(data, sampleRate, n - 1);
      if IsLocalPeak(data, n - 1) then prev + [PeakAt(data, n - 1, sampleRate)] else prev
  }

  /** Exactly the local peaks below bin n are listed, each once, in
      increasing bin order. */
  lemma {:induction false} LocalPeaksSpec(data: seq<int>, sampleRate: int, n: int)
    requires n <= |data|
    ensures var ps := LocalPeaks(data, sampleRate, n);
      && (forall q | q in ps :: 1 <= q.bin < n && IsLocalPeak(data, q.bin) && q == PeakAt(data, q.bin, sampleRate))
      && (forall i :: 1 <= i < n && IsLocalPeak(data, i) ==> PeakAt(data, i, sampleRate) in ps)
      && (forall k, l :: 0 <= k < l < |ps| ==> ps[k].bin < ps[l].bin)
    decreases n
  {
    if n > 1 {
      LocalPeaksSpec(data, sampleRate, n - 1);
      var prev := LocalPeaks(data, sampleRate, n - 1);
      if IsLocalPeak(data, n - 1) {
        var ps := prev + [PeakAt(data, n - 1, sampleRate)];
        forall i | 1 <= i < n && IsLocalPeak(data, i) ensures PeakAt(data, i, sampleRate) in ps {
          if i < n - 1 {
            assert PeakAt(data, i, sampleRate) in prev;
          } else {
            assert ps[|ps| - 1] == PeakAt(data, i, sampleRate);
          }
        }
      }
    }
  }

  /** All local peaks of a spectrum (bins 1..len−2). */
  function SpectrumPeaks(data: seq<int>, sampleRate: int): seq<SpectralPeak>
  {
    if |data| < 2 then [] else LocalPeaks(data, sampleRate, |data| - 1)
  }

  predicate SortedByMagnitude(ps: seq<SpectralPeak>)
  {
    forall k, l :: 0 <= k < l < |ps| ==> ps[k].magnitude >= ps[l].magnitude
  }

  /** Insert after every entry at least as loud (keeps equal entries in order). */
  function Insert(p: SpectralPeak, sorted: seq<SpectralPeak>): (r: seq<SpectralPeak>)
    ensures multiset(r) == multiset(sorted) + multiset{p}
    ensures |r| == |sorted| + 1
  {
    if |sorted| == 0 then [p]
    else if p.magnitude > sorted[|sorted| - 1].magnitude then
      assert sorted == sorted[..|sorted| - 1] + [sorted[|sorted| - 1]];
      Insert(p, sorted[..|sorted| - 1]) + [sorted[|sorted| - 1]]
    else sorted + [p]
  }

  /** Inserting into a loudest-first list keeps it loudest first. */
  lemma {:induction false} InsertKeepsSorted(p: SpectralPeak, sorted: seq<SpectralPeak>)
    requires SortedByMagnitude(sorted)
    ensures SortedByMagnitude(Insert(p, sorted))
    decreases |sorted|
  {
    if |sorted| > 0 && p.magnitude > sorted[|sorted| - 1].magnitude {
      var init := sorted[..|sorted| - 1];
      var last := sorted[|sorted| - 1];
      InsertKeepsSorted(p, init);
      var r0 := Insert(p, init);
      forall q | q in r0 ensures q.magnitude >= last.magnitude {
        assert q in multiset(r0);
        if q != p {
          assert q in init;
        }
      }
    }
  }

  /** Array.prototype.sort with the comparator b.magnitude − a.magnitude,
      which is stable: louder first, equal magnitudes in their original order. */
  function SortByMagnitude(ps: seq<SpectralPeak>): (r: seq<SpectralPeak>)
    ensures multiset(r) == multiset(ps)
    ensures |r| == |ps|
    ensures SortedByMagnitude(r)
  {
    if |ps| == 0 then []
    else
      assert ps == ps[..|ps| - 1] + [ps[|ps| - 1]];
      var sortedInit := SortByMagnitude(ps[..|ps| - 1]);
      InsertKeepsSorted(ps[|ps| - 1], sortedInit);
      Insert(ps[|ps| - 1], sortedInit)
  }

  /** The stored peak list: the ten loudest local peaks. */
  function TopPeaks(data: seq<int>, sampleRate: int): seq<SpectralPeak>
  {
    var sorted := SortByMagnitude(SpectrumPeaks(data, sampleRate));
    sorted[..MinI(MaxPeaks, |sorted|)]
  }

  /** Every stored peak is a local peak of the frame above the threshold; the
      list is loudest first, holds at most ten entries, and is empty exactly
      when the frame has no local peak. */
  lemma TopPeaksSpec(data: seq<int>, sampleRate: int)
    ensures var top := TopPeaks(data, sampleRate);
      && |top| <= MaxPeaks
      && SortedByMagnitude(top)
      && (forall p | p in top :: IsLocalPeak(data, p.bin) && p == PeakAt(data, p.bin, sampleRate))
      && (|top| == 0 <==> |SpectrumPeaks(data, sampleRate)| == 0)
  {
    var all := SpectrumPeaks(data, sampleRate);
    if |data| >= 2 {
      LocalPeaksSpec(data, sampleRate, |data| - 1);
    }
    var sorted := SortByMagnitude(all);
    var top := sorted[..MinI(MaxPeaks, |sorted|)];
    forall p | p in top ensures IsLocalPeak(data, p.bin) && p == PeakAt(data, p.bin, sampleRate) {
      assert p in multiset(sorted);
      assert p in all;
    }
  }

  /** Peaks sit above bin 0, so with a positive sample rate their frequency
      is positive (which makes the strongest one usable as a fundamental). */
  lemma TopPeaksPositive(data: seq<int>, sampleRate: int)
    requires sampleRate > 0
    ensures forall p | p in TopPeaks(data, sampleRate) :: p.frequency > 0.0
  {
    TopPeaksSpec(data, sampleRate);
    forall p | p in TopPeaks(data, sampleRate) ensures p.frequency > 0.0 {
      BinFrequencyPositive(p.bin, sampleRate, |data|);
    }
  }

  lemma BinFrequencyPositive(i: int, sampleRate: int, len: int)
    requires i >= 1 && sampleRate > 0 && len > 0
    ensures BinFrequency(i, sampleRate, len) > 0.0
  {
    assert i * sampleRate >= sampleRate;
    DivBounds((i * sampleRate) as real, (2 * len) as real, 0.0);
  }

  /** The dominant frequency is that of a loudest local peak of the frame. */
  lemma DominantIsLoudest(data: seq<int>, sampleRate: int, i: int)
    requires IsLocalPeak(data, i)
    ensures var sorted := SortByMagnitude(SpectrumPeaks(data, sampleRate));
      |sorted| > 0 && IsLocalPeak(data, sorted[0].bin) && Magnitude(data[i]) <= sorted[0].magnitude
  {
    var all := SpectrumPeaks(data, sampleRate);
    LocalPeaksSpec(data, sampleRate, |data| - 1);
    var sorted := SortByMagnitude(all);
    assert PeakAt(data, i, sampleRate) in all;
    assert PeakAt(data, i, sampleRate) in multiset(sorted);
    assert sorted[0] in multiset(all);
  }

  /** Snapshots younger than five seconds, in their original order. */
  function RecentSnapshots(h: seq<PeakSnapshot>, now: int): seq<PeakSnapshot>
  {
    if |h| == 0 then []
    else
      var rest := RecentSnapshots(h[..|h| - 1], now);
      if now - h[|h| - 1].timestamp < PeakHistoryWindow then rest + [h[|h| - 1]] else rest
  }

  /** The history keeps exactly the snapshots younger than five seconds. */
  lemma {:induction false} RecentSnapshotsSpec(h: seq<PeakSnapshot>, now: int)
    ensures forall s :: s in RecentSnapshots(h, now) <==> s in h && now - s.timestamp < PeakHistoryWindow
  {
    if |h| > 0 {
      RecentSnapshotsSpec(h[..|h| - 1], now);
      assert h == h[..|h| - 1] + [h[|h| - 1]];
    }
  }

  // ---------------------------------------------------------------------
  // Harmonics

  /** A peak at a near-integer multiple (≥ 2, within 0.1) of the fundamental.
      A fundamental of 0 Hz makes the ratio infinite or NaN, which no
      tolerance test accepts, so it yields no harmonic. */
  function HarmonicOf(p: SpectralPeak, fundamental: real): Option<Harmonic>
  {
    if fundamental == 0.0 then None
    else
    var ratio := p.frequency / fundamental;
    var nearest := Round(ratio);
    if AbsR(ratio - nearest as real) < HarmonicTolerance && nearest > 1 then
      Some(Harmonic(nearest, p.frequency, p.magnitude, fundamental))
    else None
  }

  /** The harmonics among peaks 1..n-1 relative to peaks[0]. */
  function HarmonicScan(peaks: seq<SpectralPeak>, n: int): (hs: seq<Harmonic>)
    requires 1 <= n <= |peaks|
    decreases n
  {
    if n == 1 then []
    else
      var prev := HarmonicScan(peaks, n - 1);
      match HarmonicOf(peaks[n - 1], peaks[0].frequency)
      case Some(h) => prev + [h]
      case None => prev
  }

  /** Every harmonic found is numbered round(ratio) ≥ 2 with the ratio within
      0.1 of it, belongs to one of the other peaks and names the strongest
      peak as its fundamental. */
  lemma {:induction false} HarmonicScanSpec(peaks: seq<SpectralPeak>, n: int)
    requires 1 <= n <= |peaks|
    ensures var f0 := peaks[0].frequency;
      && (f0 == 0.0 ==> HarmonicScan(peaks, n) == [])
      && (f0 != 0.0 ==> forall h | h in HarmonicScan(peaks, n) ::
        && h.number >= 2
        && h.fundamental == f0
        && h.number == Round(h.frequency / f0)
        && AbsR(h.frequency / f0 - h.number as real) < HarmonicTolerance
        && exists k :: 1 <= k < n && peaks[k].frequency == h.frequency && peaks[k].magnitude == h.magnitude)
    decreases n
  {
    if n > 1 {
      HarmonicScanSpec(peaks, n - 1);
    }
  }

  // ---------------------------------------------------------------------
  // Spectral features

  function MagnitudeSum(data: seq<int>, n: int): real
    requires 0 <= n <= |data|
  {
    if n == 0 then 0.0 else MagnitudeSum(data, n - 1) + Magnitude(data[n - 1])
  }

  function WeightedBin(data: seq<int>, i: int, sampleRate: int): real
    requires 0 <= i < |data|
  {
    BinFrequency(i, sampleRate, |data|) * Magnitude(data[i])
  }

  function WeightedSum(data: seq<int>, n: int, sampleRate: int): real
    requires 0 <= n <= |data|
  {
    if n == 0 then 0.0 else WeightedSum(data, n - 1, sampleRate) + WeightedBin(data, n - 1, sampleRate)
  }

  /** The magnitude-weighted mean bin frequency, 0 for a silent frame. */
  function Centroid(data: seq<int>, sampleRate: int): real
  {
    var m := MagnitudeSum(data, |data|);
    if m > 0.0 then WeightedSum(data, |data|, sampleRate) / m else 0.0
  }

  lemma {:induction false} WeightedSumBounds(data: seq<int>, n: int, sampleRate: int)
    requires 0 <= n <= |data| && Bytes(data) && sampleRate > 0 && |data| > 0
    ensures 0.0 <= MagnitudeSum(data, n)
    ensures 0.0 <= WeightedSum(data, n, sampleRate) <= BinFrequency(|data| - 1, sampleRate, |data|) * MagnitudeSum(data, n)
  {
    if n > 0 {
      WeightedSumBounds(data, n - 1, sampleRate);
      var fmax := BinFrequency(|data| - 1, sampleRate, |data|);
      var f := BinFrequency(n - 1, sampleRate, |data|);
      var m := Magnitude(data[n - 1]);
      MagnitudeOfByte(data[n - 1]);
      BinFrequencyMonotone(n - 1, |data| - 1, sampleRate, |data|);
      MulNonNegReal(f, m);
      MulNonNegReal(fmax - f, m);
      assert fmax * MagnitudeSum(data, n) == fmax * MagnitudeSum(data, n - 1) + fmax * m;
    }
  }

  lemma BinFrequencyMonotone(i: int, j: int, sampleRate: int, len: int)
    requires 0 <= i <= j && len > 0 && sampleRate > 0
    ensures 0.0 <= BinFrequency(i, sampleRate, len) <= BinFrequency(j, sampleRate, len)
  {
    assert i * sampleRate <= j * sampleRate;
    DivBounds((i * sampleRate) as real, (2 * len) as real, 0.0);
    var d := (2 * len) as real;
    assert BinFrequency(j, sampleRate, len) - BinFrequency(i, sampleRate, len) == ((j * sampleRate) - (i * sampleRate)) as real / d;
    DivBounds(((j * sampleRate) - (i * sampleRate)) as real, d, 0.0);
  }

  /** The centroid lies between 0 Hz and the highest bin's frequency. */
  lemma CentroidBounds(data: seq<int>, sampleRate: int)
    requires Bytes(data) && sampleRate > 0 && |data| > 0
    ensures 0.0 <= Centroid(data, sampleRate) <= BinFrequency(|data| - 1, sampleRate, |data|)
  {
    WeightedSumBounds(data, |data|, sampleRate);
    var m := MagnitudeSum(data, |data|);
    if m > 0.0 {
      var fmax := BinFrequency(|data| - 1, sampleRate, |data|);
      DivBounds(WeightedSum(data, |data|, sampleRate), m, fmax);
      DivBounds(WeightedSum(data, |data|, sampleRate), m, 0.0);
    }
  }

  /** A silent frame has centroid 0. */
  lemma {:induction false} SilentCentroid(data: seq<int>, sampleRate: int)
    requires forall i :: 0 <= i < |data| ==> data[i] == 0
    ensures Centroid(data, sampleRate) == 0.0
  {
    SilentMagnitudeSum(data, |data|);
  }

  lemma {:induction false} SilentMagnitudeSum(data: seq<int>, n: int)
    requires 0 <= n <= |data| && forall i :: 0 <= i < |data| ==> data[i] == 0
    ensures MagnitudeSum(data, n) == 0.0
  {
    if n > 0 {
      SilentMagnitudeSum(data, n - 1);
    }
  }

  /** Σ_{i<n} (data[i]/255)². */
  function CumulativeEnergy(data: seq<int>, n: int): real
    requires 0 <= n <= |data|
  {
    if n == 0 then 0.0 else CumulativeEnergy(data, n - 1) + Sq(Magnitude(data[n - 1]))
  }

  lemma {:induction false} CumulativeEnergyMonotone(data: seq<int>, i: int, j: int)
    requires 0 <= i <= j <= |data|
    ensures CumulativeEnergy(data, i) <= CumulativeEnergy(data, j)
    decreases j - i
  {
    if i < j {
      CumulativeEnergyMonotone(data, i, j - 1);
      SqNonNegative(Magnitude(data[j - 1]));
    }
  }

  /** The first bin at or after i whose cumulative energy (through that bin)
      reaches the threshold, or |data| when none does. */
  function RolloffBin(data: seq<int>, threshold: real, i: int): (b: int)
    requires 0 <= i <= |data|
    ensures i <= b <= |data|
    decreases |data| - i
  {
    if i == |data| then |data|
    else if CumulativeEnergy(data, i + 1) >= threshold then i
    else RolloffBin(data, threshold, i + 1)
  }

  /** The rolloff bin is the first whose cumulative energy reaches 90 % of the
      total, and a non-empty frame always has one. */
  lemma {:induction false} RolloffBinSpec(data: seq<int>, i: int)
    requires 0 <= i <= |data|
    requires forall j :: 1 <= j <= i ==> CumulativeEnergy(data, j) < RolloffFraction * CumulativeEnergy(data, |data|)
    ensures var b := RolloffBin(data, RolloffFraction * CumulativeEnergy(data, |data|), i);
      && (|data| > 0 ==> b < |data|)
      && (b < |data| ==> CumulativeEnergy(data, b + 1) >= RolloffFraction * CumulativeEnergy(data, |data|))
      && (forall j :: 1 <= j <= b ==> CumulativeEnergy(data, j) < RolloffFraction * CumulativeEnergy(data, |data|))
    decreases |data| - i
  {
    var t := RolloffFraction * CumulativeEnergy(data, |data|);
    if i < |data| && CumulativeEnergy(data, i + 1) < t {
      RolloffBinSpec(data, i + 1);
    } else if i == |data| && |data| > 0 {
      CumulativeEnergyMonotone(data, 0, |data|);
      assert false;
    }
  }

  /** The 90 % rolloff frequency; the previous value stays when the frame is empty. */
  function Rolloff(data: seq<int>, sampleRate: int, previous: real): real
  {
    var b := RolloffBin(data, RolloffFraction * CumulativeEnergy(data, |data|), 0);
    if b < |data| then BinFrequency(b, sampleRate, |data|) else previous
  }

  /** A silent frame rolls off at 0 Hz. */
  lemma SilentRolloff(data: seq<int>, sampleRate: int, previous: real)
    requires |data| > 0 && forall i :: 0 <= i < |data| ==> data[i] == 0
    ensures Rolloff(data, sampleRate, previous) == 0.0
  {
    SilentEnergy(data, |data|);
    SilentEnergy(data, 1);
  }

  lemma {:induction false} SilentEnergy(data: seq<int>, n: int)
    requires 0 <= n <= |data| && forall i :: 0 <= i < |data| ==> data[i] == 0
    ensures CumulativeEnergy(data, n) == 0.0
  {
    if n > 0 {
      SilentEnergy(data, n - 1);
    }
  }

  /** Adjacent samples i-1, i (for 1 <= i < n) on opposite sides of 128. */
  function Crossings(t: seq<int>, n: int): (c: nat)
    requires 0 <= n <= |t|
    ensures n > 0 ==> c <= n - 1
  {
    if n <= 1 then 0
    else Crossings(t, n - 1) + (if (t[n - 1] >= 128) != (t[n - 2] >= 128) then 1 else 0)
  }

  function ZeroCrossingRate(t: seq<int>): real
    requires |t| > 0
  {
    Crossings(t, |t|) as real / |t| as real
  }

  /** The rate is a fraction of the sample count below 1. */
  lemma ZeroCrossingRateBounds(t: seq<int>)
    requires |t| > 0
    ensures 0.0 <= ZeroCrossingRate(t) < 1.0
  {
    DivBounds(Crossings(t, |t|) as real, |t| as real, 1.0);
    DivBounds(Crossings(t, |t|) as real, |t| as real, 0.0);
  }

  // ---------------------------------------------------------------------
  // Frequency balance

  /** calculateFrequencyBalance over the seven band energies. */
  function FrequencyBalance(energies: seq<real>): (r: real)
    requires |energies| == BandCount
    ensures 0.0 <= r <= 1.0
  {
    var bass := energies[0] + energies[1];
    var mid := energies[2] + energies[3] + energies[4];
    var treble := energies[5] + energies[6];
    var total := bass + mid + treble;
    if total == 0.0 then 0.0
    else
      var ideal := 1.0 / 3.0;
      var deviation := AbsR(bass / total - ideal) + AbsR(mid / total - ideal) + AbsR(treble / total - ideal);
      MaxR(0.0, 1.0 - deviation)
  }

  /** Equal bass, mid and treble energy is perfect balance. */
  lemma BalancedIsOne(energies: seq<real>)
    requires |energies| == BandCount
    requires energies[0] + energies[1] == energies[2] + energies[3] + energies[4] == energies[5] + energies[6] > 0.0
    ensures FrequencyBalance(energies) == 1.0
  {
    var g := energies[0] + energies[1];
    var total := 3.0 * g;
    assert g / total == 1.0 / 3.0;
  }

  /** All energy in one group scores 0. */
  lemma OneSidedIsZero(energies: seq<real>)
    requires |energies| == BandCount
    requires energies[0] + energies[1] > 0.0
    requires energies[2] + energies[3] + energies[4] == 0.0 && energies[5] + energies[6] == 0.0
    ensures FrequencyBalance(energies) == 0.0
  {
    var g := energies[0] + energies[1];
    assert g / g == 1.0;
  }

  function Energies(bands: seq<Band>): (es: seq<real>)
    ensures |es| == |bands|
  {
    seq(|bands|, k requires 0 <= k < |bands| => bands[k].energy)
  }

  // ---------------------------------------------------------------------
  // Bins and frequencies

  /** getFrequencyBin: Math.round(frequency / nyquist · bufferLength). */
  function FrequencyBin(frequency: real, sampleRate: int, len: int): int
    requires sampleRate > 0
  {
    Round(frequency / (sampleRate as real / 2.0) * len as real)
  }

  /** getBinFrequency: bin / bufferLength · nyquist. */
  function FrequencyOfBin(bin: int, sampleRate: int, len: int): real
    requires len > 0
  {
    bin as real / len as real * (sampleRate as real / 2.0)
  }

  /** The two conversions are inverse on whole bins. */
  lemma BinRoundTrip(bin: int, sampleRate: int, len: int)
    requires sampleRate > 0 && len > 0
    ensures FrequencyBin(FrequencyOfBin(bin, sampleRate, len), sampleRate, len) == bin
  {
    var nyq := sampleRate as real / 2.0;
    var x := bin as real / len as real;
    assert x * nyq / nyq == x;
    assert x * len as real == bin as real;
    assert FrequencyOfBin(bin, sampleRate, len) / nyq * len as real == bin as real;
  }

  /** A measured band keeps its name and range, and its peak and peak
      frequency are the band peak of the bins it covers. */
  lemma MeasureBandSpec(b: Band, data: seq<int>, sampleRate: int, sqrt: real -> real)
    requires |data| > 0 && sampleRate > 0 && 0 <= b.min < b.max && Bytes(data)
    ensures var m := MeasureBand(b, data, sampleRate, sqrt);
      var width := BinWidth(sampleRate, |data|);
      var lo := StartBin(b, width);
      && SameLayout(m, b)
      && 0 <= lo
      && IsBandPeak(data, lo, MinI(EndBin(b, width) + 1, |data|), width, m.peak, m.peakFrequency)
  {
    var width := BinWidth(sampleRate, |data|);
    BandBins(b, width);
    BandScanPeak(data, StartBin(b, width), MinI(EndBin(b, width) + 1, |data|), width);
  }

  predicate SameLayout(b: Band, c: Band)
  {
    b.name == c.name && b.min == c.min && b.max == c.max
  }

  /** Every band of the table covers a non-empty range of non-negative Hz. */
  lemma InitialBandsWellFormed()
    ensures |InitialBands| == BandCount
    ensures forall k :: 0 <= k < BandCount ==> 0 <= InitialBands[k].min < InitialBands[k].max
  {
  }

  // ---------------------------------------------------------------------
  // Accumulation loops

  /** The per-band bin loop of analyzeFrequencyBands. */
  method ScanBand(data: seq<int>, lo: int, hi: int, width: real) returns (energy: real, peak: real, peakFrequency: real)
    requires 0 <= lo && hi <= |data|
    ensures (energy, peak, peakFrequency) == BandScan(data, lo, hi, width)
  {
    energy, peak, peakFrequency := 0.0, 0.0, 0.0;
    if hi <= lo {
      return;
    }
    var i := lo;
    while i < hi
      invariant lo <= i <= hi
      invariant (energy, peak, peakFrequency) == BandScan(data, lo, i, width)
    {
      var magnitude := Magnitude(data[i]);
      assert BandScan(data, lo, i + 1, width) == (energy + Sq(magnitude), if magnitude > peak then magnitude else peak,
        if magnitude > peak then i as real * width else peakFrequency);
      energy := energy + Sq(magnitude);
      if magnitude > peak {
        peak := magnitude;
        peakFrequency := i as real * width;
      }
      i := i + 1;
    }
  }

  /** One pass of the forEach in analyzeFrequencyBands. */
  method ComputeBand(b: Band, data: seq<int>, sampleRate: int, sqrt: real -> real) returns (m: Band)
    requires |data| > 0 && sampleRate > 0 && 0 <= b.min < b.max
    ensures m == MeasureBand(b, data, sampleRate, sqrt)
  {
    var width := BinWidth(sampleRate, |data|);
    BandBins(b, width);
    var startBin := StartBin(b, width);
    var endBin := EndBin(b, width);
    var energy, peak, peakFrequency := ScanBand(data, startBin, MinI(endBin + 1, |data|), width);
    m := b.(energy := sqrt(energy / (endBin - startBin + 1) as real), peak := peak, peakFrequency := peakFrequency);
  }

  /** The local-maximum loop of detectPeaks, in bin order. */
  method FindLocalPeaks(data: seq<int>, sampleRate: int) returns (peaks: seq<SpectralPeak>)
    ensures peaks == SpectrumPeaks(data, sampleRate)
  {
    peaks := [];
    if |data| < 2 {
      return;
    }
    var i := 1;
    while i < |data| - 1
      invariant 1 <= i <= |data| - 1
      invariant peaks == LocalPeaks(data, sampleRate, i)
    {
      if data[i] > data[i - 1] && data[i] > data[i + 1] && data[i] as real > PeakThreshold * 255.0 {
        peaks := peaks + [SpectralPeak(BinFrequency(i, sampleRate, |data|), Magnitude(data[i]), i)];
      }
      i := i + 1;
    }
  }

  /** The centroid loop: weighted and plain magnitude sums. */
  method ComputeCentroid(data: seq<int>, sampleRate: int) returns (centroid: real)
    ensures centroid == Centroid(data, sampleRate)
  {
    var weightedSum, magnitudeSum := 0.0, 0.0;
    for i := 0 to |data|
      invariant weightedSum == WeightedSum(data, i, sampleRate)
      invariant magnitudeSum == MagnitudeSum(data, i)
    {
      weightedSum := weightedSum + WeightedBin(data, i, sampleRate);
      magnitudeSum := magnitudeSum + Magnitude(data[i]);
    }
    centroid := if magnitudeSum > 0.0 then weightedSum / magnitudeSum else 0.0;
  }

  /** The two rolloff loops: the total energy, then the first bin whose
      running energy reaches 90 % of it; without such a bin the previous
      rolloff stays. */
  method ComputeRolloff(data: seq<int>, sampleRate: int, previous: real) returns (rolloff: real)
    ensures rolloff == Rolloff(data, sampleRate, previous)
  {
    var totalEnergy := 0.0;
    for i := 0 to |data|
      invariant totalEnergy == CumulativeEnergy(data, i)
    {
      totalEnergy := totalEnergy + Sq(Magnitude(data[i]));
    }
    var threshold := totalEnergy * RolloffFraction;
    var energySum := 0.0;
    rolloff := previous;
    var i := 0;
    while i < |data|
      invariant 0 <= i <= |data|
      invariant energySum == CumulativeEnergy(data, i)
      invariant RolloffBin(data, threshold, 0) == RolloffBin(data, threshold, i)
    {
      energySum := energySum + Sq(Magnitude(data[i]));
      if energySum >= threshold {
        rolloff := BinFrequency(i, sampleRate, |data|);
        return;
      }
      i := i + 1;
    }
  }

  /** The zero-crossing loop over the waveform. */
  method ComputeZeroCrossingRate(t: seq<int>) returns (rate: real)
    requires |t| > 0
    ensures rate == ZeroCrossingRate(t)
  {
    var crossings := 0;
    for i := 1 to |t|
      invariant crossings == Crossings(t, i)
    {
      if (t[i] >= 128) != (t[i - 1] >= 128) {
        crossings := crossings + 1;
      }
    }
    rate := crossings as real / |t| as real;
  }

  /** The harmonic loop of findHarmonics over peaks 1.. of a non-empty list. */
  method ScanHarmonics(peaks: seq<SpectralPeak>) returns (hs: seq<Harmonic>)
    requires |peaks| > 0
    ensures hs == HarmonicScan(peaks, |peaks|)
  {
    hs := [];
    for i := 1 to |peaks|
      invariant hs == HarmonicScan(peaks, i)
    {
      var h := HarmonicOf(peaks[i], peaks[0].frequency);
      if h.Some? {
        hs := hs + [h.value];
      }
    }
  }

  /** The events detectPeaks adds: one PeakDetected when some peak exists. */
  function PeakEvents(sorted: seq<SpectralPeak>, now: int): seq<Event>
  {
    if |sorted| > 0 then [PeakDetected(sorted, sorted[0].frequency, now)] else []
  }

  // ---------------------------------------------------------------------
  // The analyser

  class Analyzer {
    var sampleRate: int
    var bufferLength: int
    var hasAnalyser: bool
    var frequencyData: seq<int>
    var timeData: seq<int>
    const bands: array<Band>
    var peakFrequencies: seq<SpectralPeak>
    var harmonics: seq<Harmonic>
    var spectralCentroid: real
    var spectralRolloff: real
    var zeroCrossingRate: real
    var peakHistory: seq<PeakSnapshot>
    var dominantFrequency: real
    var isAnalyzing: bool
    var events: seq<Event>

    ghost predicate Valid()
      reads `sampleRate, `hasAnalyser, `bufferLength, `frequencyData, `timeData, bands
    {
      Layout() && Buffers()
    }

    /** The seven bands keep their names and Hz ranges. */
    ghost predicate Layout()
      reads bands
    {
      && bands.Length == BandCount
      && (forall k :: 0 <= k < BandCount ==> SameLayout(bands[k], InitialBands[k]))
    }

    /** Both byte buffers have the analyser's bin count once it is attached. */
    ghost predicate Buffers()
      reads `sampleRate, `hasAnalyser, `bufferLength, `frequencyData, `timeData
    {
      && sampleRate > 0
      && (hasAnalyser ==> bufferLength > 0 && |frequencyData| == bufferLength && |timeData| == bufferLength)
      && Bytes(frequencyData) && Bytes(timeData)
    }

    function CurrentFeatures(): Features
      reads `spectralCentroid, `spectralRolloff, `zeroCrossingRate
    {
      Features(spectralCentroid, spectralRolloff, zeroCrossingRate)
    }

    /** The seven bands with nothing measured, no analyser attached. */
    constructor()
      ensures Valid() && bands[..] == InitialBands
      ensures sampleRate == DefaultSampleRate && !hasAnalyser && !isAnalyzing
      ensures peakFrequencies == [] && harmonics == [] && peakHistory == [] && events == []
      ensures spectralCentroid == 0.0 && spectralRolloff == 0.0 && zeroCrossingRate == 0.0 && dominantFrequency == 0.0
    {
      sampleRate := DefaultSampleRate;
      bufferLength := 0;
      hasAnalyser := false;
      frequencyData := [];
      timeData := [];
      bands := new Band[BandCount](k requires 0 <= k < BandCount => InitialBands[k]);
      peakFrequencies := [];
      harmonics := [];
      spectralCentroid := 0.0;
      spectralRolloff := 0.0;
      zeroCrossingRate := 0.0;
      peakHistory := [];
      dominantFrequency := 0.0;
      isAnalyzing := false;
      events := [];
    }

    /** Attaches an analyser node: its sample rate and bin count, and two
        zero-filled byte buffers of that length. */
    method SetAnalyser(rate: int, binCount: int)
      requires Valid() && rate > 0 && binCount > 0
      modifies `sampleRate, `bufferLength, `hasAnalyser, `frequencyData, `timeData
      ensures Valid() && hasAnalyser && sampleRate == rate && bufferLength == binCount
      ensures frequencyData == seq(binCount, _ => 0) && timeData == seq(binCount, _ => 0)
    {
      sampleRate := rate;
      bufferLength := binCount;
      hasAnalyser := true;
      frequencyData := seq(binCount, _ => 0);
      timeData := seq(binCount, _ => 0);
    }

    /** Starts only when idle and an analyser is attached. */
    method StartAnalysis()
      modifies `isAnalyzing
      ensures isAnalyzing == (old(isAnalyzing) || hasAnalyser)
    {
      if isAnalyzing || !hasAnalyser {
        return;
      }
      isAnalyzing := true;
    }

    method StopAnalysis()
      requires Valid()
      modifies `isAnalyzing
      ensures Valid()
      ensures !isAnalyzing
    {
      isAnalyzing := false;
    }

    // The buffers and the sample rate are only changed by SetAnalyser and
    // PerformAnalysis; the analysis methods below name them in their
    // pre-state, old(frequencyData), so that a caller's specification and a
    // callee's speak of the same values.

    /** analyzeFrequencyBands: each band is re-measured in place. */
    method AnalyzeFrequencyBands(sqrt: real -> real)
      requires Valid() && hasAnalyser
      modifies bands
      ensures Valid()
      ensures BandsMeasured(old(bands[..]), old(frequencyData), old(sampleRate), sqrt)
    {
      InitialBandsWellFormed();
      for k := 0 to bands.Length
        invariant forall j :: 0 <= j < k ==> bands[j] == MeasureBand(old(bands[j]), frequencyData, sampleRate, sqrt)
        invariant forall j :: k <= j < bands.Length ==> bands[j] == old(bands[j])
      {
        bands[k] := ComputeBand(bands[k], frequencyData, sampleRate, sqrt);
      }
    }

    /** Every band is its earlier self measured on the given spectrum. */
    ghost predicate BandsMeasured(bands0: seq<Band>, data: seq<int>, rate: int, sqrt: real -> real)
      reads bands
      requires |data| > 0 && rate > 0 && |bands0| == BandCount
      requires forall k :: 0 <= k < BandCount ==> 0 <= bands0[k].min < bands0[k].max
    {
      bands.Length == BandCount
      && forall k :: 0 <= k < BandCount ==> bands[k] == MeasureBand(bands0[k], data, rate, sqrt)
    }

    /** detectPeaks: the ten loudest local peaks, the dominant frequency when
        some peak exists, the five-second history of full peak lists and the
        peak event. The ghost result is the frame's full peak list, loudest first. */
    method DetectPeaks(now: int) returns (ghost sorted: seq<SpectralPeak>)
      requires Valid()
      modifies `peakFrequencies, `dominantFrequency, `peakHistory, `events
      ensures sorted == SortByMagnitude(SpectrumPeaks(old(frequencyData), old(sampleRate)))
      ensures PeaksDetected(old(frequencyData), old(sampleRate), sorted, old(dominantFrequency))
      ensures peakHistory == RecentSnapshots(old(peakHistory) + [PeakSnapshot(now, sorted)], now)
      ensures events == old(events) + PeakEvents(sorted, now)
    {
      var peaks := FindLocalPeaks(frequencyData, sampleRate);
      peaks := SortByMagnitude(peaks);
      StorePeaks(peaks);
      RecordPeaks(peaks, now);
      sorted := peaks;
    }

    /** The stored top ten and the dominant frequency of a sorted peak list. */
    method StorePeaks(sorted: seq<SpectralPeak>)
      requires sorted == SortByMagnitude(SpectrumPeaks(frequencyData, sampleRate))
      modifies `peakFrequencies, `dominantFrequency
      ensures PeaksDetected(frequencyData, sampleRate, sorted, old(dominantFrequency))
    {
      peakFrequencies := sorted[..MinI(MaxPeaks, |sorted|)];
      if |sorted| > 0 {
        dominantFrequency := sorted[0].frequency;
      }
    }

    /** The history snapshot (pruned to five seconds) and the peak event. */
    method RecordPeaks(sorted: seq<SpectralPeak>, now: int)
      requires |sorted| > 0 ==> dominantFrequency == sorted[0].frequency
      modifies `peakHistory, `events
      ensures peakHistory == RecentSnapshots(old(peakHistory) + [PeakSnapshot(now, sorted)], now)
      ensures events == old(events) + PeakEvents(sorted, now)
    {
      peakHistory := RecentSnapshots(peakHistory + [PeakSnapshot(now, sorted)], now);
      if |sorted| > 0 {
        events := events + [PeakDetected(sorted, dominantFrequency, now)];
      }
    }

    /** The centroid, rolloff and zero-crossing parts of
        calculateSpectralFeatures, then the feature event. */
    method CalculateSpectralFeatures()
      requires Valid() && hasAnalyser
      modifies `spectralCentroid, `spectralRolloff, `zeroCrossingRate, `events
      ensures FeaturesComputed(old(frequencyData), old(timeData), old(sampleRate), old(spectralRolloff))
      ensures events == old(events) + [FeatureUpdate(CurrentFeatures())]
    {
      spectralCentroid := ComputeCentroid(frequencyData, sampleRate);
      spectralRolloff := ComputeRolloff(frequencyData, sampleRate, spectralRolloff);
      zeroCrossingRate := ComputeZeroCrossingRate(timeData);
      events := events + [FeatureUpdate(CurrentFeatures())];
    }

    /** findHarmonics: nothing without peaks, otherwise the harmonics of the
        strongest stored peak among the others. */
    method FindHarmonics()
      modifies `harmonics
      ensures HarmonicsFound(old(harmonics))
    {
      if |peakFrequencies| == 0 {
        return;
      }
      harmonics := ScanHarmonics(peakFrequencies);
    }

    /** One frame: nothing without an analyser; otherwise the two buffers
        are refilled and the four analyses run in order, followed by the
        spectrum event. The ghost result is the frame's full peak list. */
    method PerformAnalysis(spectrum: seq<int>, waveform: seq<int>, now: int, sqrt: real -> real)
      returns (ghost sorted: seq<SpectralPeak>)
      requires Valid()
      requires hasAnalyser ==> |spectrum| == bufferLength && |waveform| == bufferLength && Bytes(spectrum) && Bytes(waveform)
      modifies this, bands
      ensures Valid()
      ensures !old(hasAnalyser) ==> unchanged(this) && unchanged(bands)
      ensures old(hasAnalyser) ==> frequencyData == spectrum && timeData == waveform
      ensures old(hasAnalyser) ==> sorted == SortByMagnitude(SpectrumPeaks(spectrum, sampleRate))
      ensures old(hasAnalyser) ==>
        && BandsMeasured(old(bands[..]), spectrum, sampleRate, sqrt)
        && PeaksDetected(spectrum, sampleRate, sorted, old(dominantFrequency))
        && FeaturesComputed(spectrum, waveform, sampleRate, old(spectralRolloff))
        && HarmonicsFound(old(harmonics))
      ensures old(hasAnalyser) ==> peakHistory == RecentSnapshots(old(peakHistory) + [PeakSnapshot(now, sorted)], now)
      ensures old(hasAnalyser) ==>
        events == old(events) + PeakEvents(sorted, now)
          + [FeatureUpdate(CurrentFeatures())] + [SpectrumUpdate(bands[..], peakFrequencies, harmonics, dominantFrequency, CurrentFeatures(), now)]
    {
      sorted := [];
      if !hasAnalyser {
        return;
      }
      frequencyData := spectrum;
      timeData := waveform;
      sorted := Analyze(now, sqrt);
    }

    /** The four analyses on the current buffers, then the spectrum event. */
    method Analyze(now: int, sqrt: real -> real) returns (ghost sorted: seq<SpectralPeak>)
      requires Valid() && hasAnalyser
      modifies `peakFrequencies, `dominantFrequency, `peakHistory, `events, `harmonics,
        `spectralCentroid, `spectralRolloff, `zeroCrossingRate, bands
      ensures Valid()
      ensures sorted == SortByMagnitude(SpectrumPeaks(old(frequencyData), old(sampleRate)))
      ensures BandsMeasured(old(bands[..]), old(frequencyData), old(sampleRate), sqrt)
      ensures PeaksDetected(old(frequencyData), old(sampleRate), sorted, old(dominantFrequency))
      ensures FeaturesComputed(old(frequencyData), old(timeData), old(sampleRate), old(spectralRolloff))
      ensures HarmonicsFound(old(harmonics))
      ensures peakHistory == RecentSnapshots(old(peakHistory) + [PeakSnapshot(now, sorted)], now)
      ensures events == old(events) + PeakEvents(sorted, now)
        + [FeatureUpdate(CurrentFeatures())] + [SpectrumUpdate(bands[..], peakFrequencies, harmonics, dominantFrequency, CurrentFeatures(), now)]
    {
      AnalyzeFrequencyBands(sqrt);
      sorted := Describe(now);
    }

    /** What detectPeaks leaves, given the frame's peaks loudest first: the
        ten loudest local peaks of the frame, and the dominant frequency of
        the loudest one (dominant0 when none). */
    ghost predicate PeaksDetected(data: seq<int>, rate: int, sorted: seq<SpectralPeak>, dominant0: real)
      reads `peakFrequencies, `dominantFrequency
    {
      && peakFrequencies == TopPeaks(data, rate)
      && dominantFrequency == (if |sorted| > 0 then sorted[0].frequency else dominant0)
    }

    /** What the modelled part of calculateSpectralFeatures leaves: centroid,
        rolloff (rolloff0 when no bin reaches 90 %) and zero-crossing rate. */
    ghost predicate FeaturesComputed(data: seq<int>, wave: seq<int>, rate: int, rolloff0: real)
      reads `spectralCentroid, `spectralRolloff, `zeroCrossingRate
      requires |wave| > 0
    {
      && spectralCentroid == Centroid(data, rate)
      && spectralRolloff == Rolloff(data, rate, rolloff0)
      && zeroCrossingRate == ZeroCrossingRate(wave)
    }

    /** What findHarmonics leaves: harmonics0 without peaks, otherwise the
        harmonics of the other stored peaks relative to the strongest. */
    ghost predicate HarmonicsFound(harmonics0: seq<Harmonic>)
      reads `peakFrequencies, `harmonics
    {
      harmonics == (if |peakFrequencies| > 0 then HarmonicScan(peakFrequencies, |peakFrequencies|) else harmonics0)
    }

    /** Peaks, features and harmonics, then the spectrum event. */
    method Describe(now: int) returns (ghost sorted: seq<SpectralPeak>)
      requires Valid() && hasAnalyser
      modifies `peakFrequencies, `dominantFrequency, `peakHistory, `events, `harmonics,
        `spectralCentroid, `spectralRolloff, `zeroCrossingRate
      ensures sorted == SortByMagnitude(SpectrumPeaks(old(frequencyData), old(sampleRate)))
      ensures PeaksDetected(old(frequencyData), old(sampleRate), sorted, old(dominantFrequency))
      ensures FeaturesComputed(old(frequencyData), old(timeData), old(sampleRate), old(spectralRolloff))
      ensures HarmonicsFound(old(harmonics))
      ensures peakHistory == RecentSnapshots(old(peakHistory) + [PeakSnapshot(now, sorted)], now)
      ensures events == old(events) + PeakEvents(sorted, now)
        + [FeatureUpdate(CurrentFeatures())] + [SpectrumUpdate(bands[..], peakFrequencies, harmonics, dominantFrequency, CurrentFeatures(), now)]
    {
      sorted := DetectPeaks(now);
      Conclude(now);
    }

    /** Features and harmonics after the peaks, then the spectrum event. */
    method Conclude(now: int)
      requires Valid() && hasAnalyser
      modifies `events, `harmonics, `spectralCentroid, `spectralRolloff, `zeroCrossingRate
      ensures FeaturesComputed(old(frequencyData), old(timeData), old(sampleRate), old(spectralRolloff))
      ensures HarmonicsFound(old(harmonics))
      ensures events == old(events)
        + [FeatureUpdate(CurrentFeatures())] + [SpectrumUpdate(bands[..], peakFrequencies, harmonics, dominantFrequency, CurrentFeatures(), now)]
    {
      CalculateSpectralFeatures();
      FindHarmonics();
      events := events + [SpectrumUpdate(bands[..], peakFrequencies, harmonics, dominantFrequency, CurrentFeatures(), now)];
    }

    /** reset: every band back to zero energy, peak and peak frequency, and
        the peak lists, history and features cleared. */
    method Reset()
      requires Valid()
      modifies `peakFrequencies, `harmonics, `peakHistory, `dominantFrequency,
        `spectralCentroid, `spectralRolloff, `zeroCrossingRate, bands
      ensures Valid() && bands[..] == InitialBands
      ensures peakFrequencies == [] && harmonics == [] && peakHistory == []
      ensures dominantFrequency == 0.0 && spectralCentroid == 0.0 && spectralRolloff == 0.0 && zeroCrossingRate == 0.0
    {
      for k := 0 to bands.Length
        invariant forall j :: 0 <= j < k ==> bands[j] == InitialBands[j]
        invariant forall j :: k <= j < bands.Length ==> bands[j] == old(bands[j])
      {
        bands[k] := bands[k].(energy := 0.0, peak := 0.0, peakFrequency := 0.0);
      }
      peakFrequencies := [];
      harmonics := [];
      peakHistory := [];
      dominantFrequency := 0.0;
      spectralCentroid := 0.0;
      spectralRolloff := 0.0;
      zeroCrossingRate := 0.0;
    }
  }
}
