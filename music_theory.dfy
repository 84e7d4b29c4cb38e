/** The pure part of the key and chord analyser: note names, the
    Krumhansl-Kessler key profiles, the 13 chord templates, the left rotation
    that transposes them, chroma extraction as a specification, chord scoring,
    the first-strict-maximum search both detectors use, roman numerals, chord
    symbols and the key-signature table. */
module MusicTheory {
  import opened Common

  const NoteNames: seq<string> := ["C", "C#", "D", "D#", "E", "F", "F#", "G", "G#", "A", "A#", "B"]

  datatype Mode = Major | Minor

  function ModeName(m: Mode): string
  {
    if m == Major then "major" else "minor"
  }

  /** The chord qualities, one per template. */
  datatype Quality =
    | MajorTriad | MinorTriad | Diminished | Augmented
    | Major7 | Minor7 | Dominant7 | Diminished7 | HalfDiminished7
    | Major9 | Minor9 | Sus2 | Sus4

  /** The template table's key order, which is the order detection tries them in. */
  const Qualities: seq<Quality> :=
    [MajorTriad, MinorTriad, Diminished, Augmented, Major7, Minor7, Dominant7,
     Diminished7, HalfDiminished7, Major9, Minor9, Sus2, Sus4]

  function QualityName(q: Quality): string
  {
    match q
    case MajorTriad => "major"
    case MinorTriad => "minor"
    case Diminished => "diminished"
    case Augmented => "augmented"
    case Major7 => "major7"
    case Minor7 => "minor7"
    case Dominant7 => "dominant7"
    case Diminished7 => "diminished7"
    case HalfDiminished7 => "halfdiminished7"
    case Major9 => "major9"
    case Minor9 => "minor9"
    case Sus2 => "sus2"
    case Sus4 => "sus4"
  }

  // Substring tests on the quality's name, spelled out per quality.
  predicate HasMajor(q: Quality) { q == MajorTriad || q == Major7 || q == Major9 }
  predicate HasMinor(q: Quality) { q == MinorTriad || q == Minor7 || q == Minor9 }
  predicate HasDiminished(q: Quality) { q == Diminished || q == Diminished7 || q == HalfDiminished7 }
  predicate HasAugmented(q: Quality) { q == Augmented }
  predicate HasSeven(q: Quality) { q == Major7 || q == Minor7 || q == Dominant7 || q == Diminished7 || q == HalfDiminished7 }
  predicate HasNine(q: Quality) { q == Major9 || q == Minor9 }
  predicate HasSus(q: Quality) { q == Sus2 || q == Sus4 }

  /** The 0/1 template of a quality with its root at index 0. */
  function Template(q: Quality): (t: seq<int>)
    ensures |t| == 12 && t[0] == 1
    ensures forall i :: 0 <= i < 12 ==> t[i] == 0 || t[i] == 1
  {
    match q
    case MajorTriad => [1, 0, 0, 0, 1, 0, 0, 1, 0, 0, 0, 0]
    case MinorTriad => [1, 0, 0, 1, 0, 0, 0, 1, 0, 0, 0, 0]
    case Diminished => [1, 0, 0, 1, 0, 0, 1, 0, 0, 0, 0, 0]
    case Augmented => [1, 0, 0, 0, 1, 0, 0, 0, 1, 0, 0, 0]
    case Major7 => [1, 0, 0, 0, 1, 0, 0, 1, 0, 0, 0, 1]
    case Minor7 => [1, 0, 0, 1, 0, 0, 0, 1, 0, 0, 1, 0]
    case Dominant7 => [1, 0, 0, 0, 1, 0, 0, 1, 0, 0, 1, 0]
    case Diminished7 => [1, 0, 0, 1, 0, 0, 1, 0, 0, 1, 0, 0]
    case HalfDiminished7 => [1, 0, 0, 1, 0, 0, 1, 0, 0, 0, 1, 0]
    case Major9 => [1, 0, 1, 0, 1, 0, 0, 1, 0, 0, 0, 1]
    case Minor9 => [1, 0, 1, 1, 0, 0, 0, 1, 0, 0, 1, 0]
    case Sus2 => [1, 0, 1, 0, 0, 0, 0, 1, 0, 0, 0, 0]
    case Sus4 => [1, 0, 0, 0, 0, 1, 0, 1, 0, 0, 0, 0]
  }

  const MajorProfile: seq<real> := [6.35, 2.23, 3.48, 2.33, 4.38, 4.09, 2.52, 5.19, 2.39, 3.66, 2.29, 2.88]
  const MinorProfile: seq<real> := [6.33, 2.68, 3.52, 5.38, 2.60, 3.53, 2.54, 4.75, 3.98, 2.69, 3.34, 3.17]

  /** rotateArray: a LEFT rotation by `steps`, normalised into [0, |s|). */
  function RotateLeft<T>(s: seq<T>, steps: int): (r: seq<T>)
    ensures |r| == |s|
    ensures forall i :: 0 <= i < |s| ==> r[i] == s[(i + steps) % |s|]
  {
    if |s| == 0 then s
    else
      var n := |s|;
      var k := steps % n;
      var r := s[k..] + s[..k];
      assert forall i :: 0 <= i < n ==> r[i] == s[(i + steps) % n] by {
        forall i | 0 <= i < n
          ensures r[i] == s[(i + steps) % n]
        {
          assert steps == (steps / n) * n + k;
          ModAddMultiple(i + k, steps / n, n);
          SmallMod(i + k, n);
        }
      }
      r
  }

  /** The 24 keys in the profile table's order: C..B major, then C..B minor. */
  function KeyNoteOf(k: int): int { k % 12 }
  function KeyModeOf(k: int): Mode { if k < 12 then Major else Minor }

  function KeyProfile(note: int, mode: Mode): seq<real>
  {
    RotateLeft(if mode == Major then MajorProfile else MinorProfile, note)
  }

  /** The template tried for "root r", built by the left rotation. */
  function ChordTemplate(root: int, q: Quality): (t: seq<int>)
    ensures |t| == 12
  {
    RotateLeft(Template(q), root)
  }

  /** Because the rotation is to the left, tone t of a quality's template is
      found at index (t - r) mod 12 of the candidate named with root r. */
  lemma ChordTemplateTonePosition(root: int, q: Quality, t: int)
    requires 0 <= root < 12 && 0 <= t < 12
    ensures ChordTemplate(root, q)[(t - root + 12) % 12] == Template(q)[t]
  {
    RotatedEntry(Template(q), root, t);
  }

  /** Entry t of a 12-entry sequence sits at (t - r) mod 12 after a left
      rotation by r. */
  lemma RotatedEntry<T>(s: seq<T>, root: int, t: int)
    requires |s| == 12 && 0 <= root < 12 && 0 <= t < 12
    ensures RotateLeft(s, root)[(t - root + 12) % 12] == s[t]
  {
    var i := (t - root + 12) % 12;
    SmallMod(t - root + 12, 12);
    SmallMod(i + root, 12);
  }

  /** Concretely: the candidate named "E major" scores the triad A-flat, C,
      E-flat (indices 8, 0, 3)... */
  lemma MirroredRootExample()
    ensures ChordTemplate(4, MajorTriad) == [1, 0, 0, 1, 0, 0, 0, 0, 1, 0, 0, 0]
  {
    var t := Template(MajorTriad);
    assert RotateLeft(t, 4) == t[4..] + t[..4];
  }

  /** ...while the candidate named "C major" scores C, E, G. */
  lemma RootZeroExample()
    ensures ChordTemplate(0, MajorTriad) == [1, 0, 0, 0, 1, 0, 0, 1, 0, 0, 0, 0]
  {
    var t := Template(MajorTriad);
    assert RotateLeft(t, 0) == t;
  }

  // ---------------------------------------------------------------------
  // Chroma extraction

  const SampleRate: real := 44100.0

  /** Centre frequency of FFT bin `bin` in a spectrum of `len` bins. */
  function BinFrequency(bin: int, len: int): real
    requires len > 0
  {
    bin as real * ((SampleRate / 2.0) / len as real)
  }

  /** Bins outside 80..5000 Hz are skipped. */
  predicate InMusicalRange(f: real)
  {
    !(f < 80.0 || f > 5000.0)
  }

  function Zeros(n: nat): (z: seq<real>)
    ensures |z| == n && forall i :: 0 <= i < n ==> z[i] == 0.0
  {
    seq(n, _ => 0.0)
  }

  /** Whether bin `bin` feeds the chroma vector, given the pitch-class mapping
      (round(12 log2(f / 440) + 69) mod 12 in the source). */
  predicate Contributes(data: seq<int>, pitchClassOf: real -> int, bin: int)
    requires 0 <= bin < |data|
  {
    bin >= 1 && InMusicalRange(BinFrequency(bin, |data|))
    && 0 <= pitchClassOf(BinFrequency(bin, |data|)) < 12
  }

  /** The squared normalised magnitude of a byte. */
  function BinEnergy(b: int): real
  {
    var m := b as real / 255.0;
    m * m
  }

  /** The unnormalised chroma after bins 1..n-1: each contributing bin adds
      its squared magnitude (byte / 255) to its pitch class. */
  function RawChroma(data: seq<int>, pitchClassOf: real -> int, n: nat): (v: seq<real>)
    requires n <= |data|
    ensures |v| == 12
  {
    if n <= 1 then Zeros(12)
    else
      var v := RawChroma(data, pitchClassOf, n - 1);
      var bin := n - 1;
      if !Contributes(data, pitchClassOf, bin) then v
      else
        var c := pitchClassOf(BinFrequency(bin, |data|));
        v[c := v[c] + BinEnergy(data[bin])]
  }

  /** Division of every entry by the sum, when the sum is positive. */
  function Normalize(v: seq<real>): seq<real>
  {
    var s := Sum(v);
    if s > 0.0 then seq(|v|, i requires 0 <= i < |v| => v[i] / s) else v
  }

  /** calculateChromaVector as a value. */
  function Chroma(data: seq<int>, pitchClassOf: real -> int): seq<real>
  {
    Normalize(RawChroma(data, pitchClassOf, |data|))
  }

  lemma {:induction false} RawChromaNonNegative(data: seq<int>, pitchClassOf: real -> int, n: nat)
    requires n <= |data|
    ensures AllNonNegative(RawChroma(data, pitchClassOf, n))
  {
    if n > 1 {
      RawChromaNonNegative(data, pitchClassOf, n - 1);
    }
  }

  lemma {:induction false} SumScaled(v: seq<real>, s: real)
    requires s > 0.0
    ensures Sum(seq(|v|, i requires 0 <= i < |v| => v[i] / s)) == Sum(v) / s
  {
    var w := seq(|v|, i requires 0 <= i < |v| => v[i] / s);
    if |v| > 0 {
      var p := v[..|v| - 1];
      assert w[..|w| - 1] == seq(|p|, i requires 0 <= i < |p| => p[i] / s);
      SumScaled(p, s);
      assert Sum(v) / s == Sum(p) / s + v[|v| - 1] / s;
    }
  }

  /** Every chroma bin is non-negative, and the chroma either sums to 1 or is
      the all-zero vector. */
  lemma ChromaIsDistribution(data: seq<int>, pitchClassOf: real -> int)
    ensures |Chroma(data, pitchClassOf)| == 12
    ensures AllNonNegative(Chroma(data, pitchClassOf))
    ensures Sum(Chroma(data, pitchClassOf)) == 1.0
         || Chroma(data, pitchClassOf) == Zeros(12)
  {
    var raw := RawChroma(data, pitchClassOf, |data|);
    RawChromaNonNegative(data, pitchClassOf, |data|);
    var s := Sum(raw);
    if s > 0.0 {
      SumScaled(raw, s);
    } else {
      SumNonNegative(raw);
      ZeroSumAllZero(raw);
    }
  }

  /** Each bin of a chroma vector lies in [0, 1]. */
  lemma ChromaEntriesInUnitInterval(data: seq<int>, pitchClassOf: real -> int)
    ensures forall i :: 0 <= i < 12 ==> 0.0 <= Chroma(data, pitchClassOf)[i] <= 1.0
  {
    var c := Chroma(data, pitchClassOf);
    ChromaIsDistribution(data, pitchClassOf);
    forall i | 0 <= i < 12
      ensures 0.0 <= c[i] <= 1.0
    {
      EntryAtMostSum(c, i);
    }
  }

  /** Bin 0 and every bin outside the musical range (or with an unmapped
      pitch class) are ignored: spectra that agree on the contributing bins
      give the same raw chroma. */
  lemma {:induction false} RawChromaIgnoresOtherBins(data: seq<int>, other: seq<int>, pitchClassOf: real -> int, n: nat)
    requires |data| == |other| && n <= |data|
    requires forall b :: 0 <= b < |data| && Contributes(data, pitchClassOf, b) ==> data[b] == other[b]
    ensures RawChroma(data, pitchClassOf, n) == RawChroma(other, pitchClassOf, n)
  {
    if n > 1 {
      RawChromaIgnoresOtherBins(data, other, pitchClassOf, n - 1);
      if Contributes(data, pitchClassOf, n - 1) {
        assert data[n - 1] == other[n - 1];
      }
    }
  }

  /** A silent frame (all bins zero) leaves the all-zero chroma vector. */
  lemma {:induction false} SilentRawChroma(data: seq<int>, pitchClassOf: real -> int, n: nat)
    requires n <= |data|
    requires forall b :: 0 <= b < |data| ==> data[b] == 0
    ensures RawChroma(data, pitchClassOf, n) == Zeros(12)
  {
    if n > 1 {
      SilentRawChroma(data, pitchClassOf, n - 1);
      var v := RawChroma(data, pitchClassOf, n - 1);
      if Contributes(data, pitchClassOf, n - 1) {
        var c := pitchClassOf(BinFrequency(n - 1, |data|));
        assert BinEnergy(data[n - 1]) == 0.0;
        assert v[c := v[c] + 0.0] == v;
      }
    }
  }

  lemma SilentFrameChroma(data: seq<int>, pitchClassOf: real -> int)
    requires forall b :: 0 <= b < |data| ==> data[b] == 0
    ensures Chroma(data, pitchClassOf) == Zeros(12)
  {
    SilentRawChroma(data, pitchClassOf, |data|);
    SumAtLeast(Zeros(12), 0.0);
    SumBoundedBy(Zeros(12), 0.0);
  }

  // ---------------------------------------------------------------------
  // Chord scoring

  /** One active tone's contribution to a score. */
  function Weighted(x: real, w: int): real
  {
    x * w as real
  }

  /** Sums over the first n indices: the chroma weighted by the positive
      template entries, and those entries' total. */
  function ScoreSums(chroma: seq<real>, template: seq<int>, n: nat): (real, int)
    requires n <= |chroma| && n <= |template|
  {
    if n == 0 then (0.0, 0)
    else
      var (s, t) := ScoreSums(chroma, template, n - 1);
      if template[n - 1] > 0 then (s + Weighted(chroma[n - 1], template[n - 1]), t + template[n - 1])
      else (s, t)
  }

  /** calculateChordScore: the template-weighted mean of the chroma over the
      template's active tones, or 0 for a template with none. */
  function ChordScore(chroma: seq<real>, template: seq<int>): real
    requires |chroma| == 12 && |template| == 12
  {
    var (s, t) := ScoreSums(chroma, template, 12);
    if t > 0 then s / t as real else 0.0
  }

  /** A (weighted sum, total weight) pair whose weighted mean lies in
      [lo, hi]. */
  ghost predicate SumsBetween(sums: (real, int), lo: real, hi: real)
  {
    sums.1 >= 0 && lo * sums.1 as real <= sums.0 <= hi * sums.1 as real
  }

  /** The weighted sum lies between lo and hi times the total weight. */
  lemma {:induction false} ScoreSumsBounds(chroma: seq<real>, template: seq<int>, n: nat, lo: real, hi: real)
    requires n <= |chroma| && n <= |template|
    requires forall i :: 0 <= i < n ==> lo <= chroma[i] <= hi
    ensures SumsBetween(ScoreSums(chroma, template, n), lo, hi)
  {
    if n > 0 {
      ScoreSumsBounds(chroma, template, n - 1, lo, hi);
      var w := template[n - 1];
      if w > 0 {
        AddWeighted(ScoreSums(chroma, template, n - 1), chroma[n - 1], w, lo, hi);
      }
    }
  }

  /** One more positive weight keeps the weighted sum between the bounds. */
  lemma AddWeighted(sums: (real, int), x: real, w: int, lo: real, hi: real)
    requires SumsBetween(sums, lo, hi)
    requires lo <= x <= hi && w > 0
    ensures SumsBetween((sums.0 + Weighted(x, w), sums.1 + w), lo, hi)
  {
    var (s, t) := sums;
    WeightedBetween(x, w, lo, hi);
    assert lo * (t + w) as real == lo * t as real + lo * w as real;
    assert hi * (t + w) as real == hi * t as real + hi * w as real;
  }

  lemma WeightedBetween(x: real, w: int, lo: real, hi: real)
    requires lo <= x <= hi && w > 0
    ensures lo * w as real <= Weighted(x, w) <= hi * w as real
  {
    MulNonNegReal(x - lo, w as real);
    MulNonNegReal(hi - x, w as real);
    assert (x - lo) * w as real == x * w as real - lo * w as real;
    assert (hi - x) * w as real == hi * w as real - x * w as real;
  }

  /** A template with no positive entry contributes nothing. */
  lemma {:induction false} ScoreSumsEmpty(chroma: seq<real>, template: seq<int>, n: nat)
    requires n <= |chroma| && n <= |template|
    requires forall i :: 0 <= i < n ==> template[i] <= 0
    ensures ScoreSums(chroma, template, n) == (0.0, 0)
  {
    if n > 0 {
      ScoreSumsEmpty(chroma, template, n - 1);
    }
  }

  /** A positive template entry among the first n gives a positive total weight. */
  lemma {:induction false} ScoreSumsWeightPositive(chroma: seq<real>, template: seq<int>, n: nat, k: nat)
    requires n <= |chroma| && n <= |template|
    requires k < n && template[k] > 0
    ensures ScoreSums(chroma, template, n).1 > 0
  {
    if k == n - 1 {
      ScoreSumsWeightNonNegative(chroma, template, n - 1);
    } else {
      ScoreSumsWeightPositive(chroma, template, n - 1, k);
    }
  }

  /** The total weight never goes below zero. */
  lemma {:induction false} ScoreSumsWeightNonNegative(chroma: seq<real>, template: seq<int>, n: nat)
    requires n <= |chroma| && n <= |template|
    ensures ScoreSums(chroma, template, n).1 >= 0
  {
    if n > 0 {
      ScoreSumsWeightNonNegative(chroma, template, n - 1);
    }
  }

  /** A score is 0 for an empty template, and otherwise lies between the
      smallest and the largest chroma bin; so it is in [0, 1] for a chroma
      produced by extraction. */
  lemma ChordScoreBounds(chroma: seq<real>, template: seq<int>, lo: real, hi: real)
    requires |chroma| == 12 && |template| == 12
    requires 0.0 <= lo <= hi
    requires forall i :: 0 <= i < 12 ==> lo <= chroma[i] <= hi
    ensures (forall i :: 0 <= i < 12 ==> template[i] <= 0) ==> ChordScore(chroma, template) == 0.0
    ensures (exists i :: 0 <= i < 12 && template[i] > 0) ==> lo <= ChordScore(chroma, template)
    ensures 0.0 <= ChordScore(chroma, template) <= hi
  {
    ScoreSumsBounds(chroma, template, 12, lo, hi);
    if forall i :: 0 <= i < 12 ==> template[i] <= 0 {
      ScoreSumsEmpty(chroma, template, 12);
    } else {
      var k :| 0 <= k < 12 && template[k] > 0;
      ScoreSumsWeightPositive(chroma, template, 12, k);
    }
    var (s, t) := ScoreSums(chroma, template, 12);
    if t > 0 {
      DivBounds(s, t as real, lo);
      DivBounds(s, t as real, hi);
    }
  }

  // ---------------------------------------------------------------------
  // The first strictly-best candidate

  /** Scanning scores[0..n) with a running best that starts at `floor` and is
      replaced only on a strictly greater score: the index kept (-1 if none
      beat the floor) and the best score. */
  function FirstStrictMax(scores: seq<real>, floor: real, n: nat): (int, real)
    requires n <= |scores|
  {
    if n == 0 then (-1, floor)
    else
      var (i, b) := FirstStrictMax(scores, floor, n - 1);
      if scores[n - 1] > b then (n - 1, scores[n - 1]) else (i, b)
  }

  /** The index kept is the first position of the maximum, provided it beats
      the floor; otherwise no score exceeds the floor. */
  lemma {:induction false} FirstStrictMaxSpec(scores: seq<real>, floor: real, n: nat)
    requires n <= |scores|
    ensures var (i, b) := FirstStrictMax(scores, floor, n);
      && b >= floor
      && (forall k :: 0 <= k < n ==> scores[k] <= b)
      && (i == -1 ==> b == floor)
      && (i != -1 ==> 0 <= i < n && b == scores[i] && b > floor
                      && forall k :: 0 <= k < i ==> scores[k] < b)
  {
    if n > 0 {
      FirstStrictMaxSpec(scores, floor, n - 1);
    }
  }

  /** The key scores for a chroma average, in the profile table's order. */
  function KeyScores(avg: seq<real>, correlate: (seq<real>, seq<real>) -> real): (s: seq<real>)
    ensures |s| == 24
  {
    seq(24, k requires 0 <= k < 24 => correlate(avg, KeyProfile(KeyNoteOf(k), KeyModeOf(k))))
  }

  /** The 156 chord candidates: root-major order, qualities in table order. */
  function CandidateScores(chroma: seq<real>): (s: seq<real>)
    requires |chroma| == 12
    ensures |s| == 156
  {
    seq(156, c requires 0 <= c < 156 => ChordScore(chroma, ChordTemplate(c / 13, Qualities[c % 13])))
  }

  lemma CandidateIndex(root: int, qi: int)
    requires 0 <= root && 0 <= qi < 13
    ensures (root * 13 + qi) / 13 == root && (root * 13 + qi) % 13 == qi
  {
    var a := root * 13 + qi;
    ModUnique(a, 13, root, qi);
    assert (a / 13) * 13 == root * 13;
    assert (a / 13 - root) * 13 == 0;
  }

  datatype ChordMatch = ChordMatch(root: int, quality: Quality, score: real)

  /** The candidate at flat index i (none for -1), with score b. */
  function MatchAt(i: int, b: real): Option<ChordMatch>
  {
    if 0 <= i < 156 then Some(ChordMatch(i / 13, Qualities[i % 13], b)) else None
  }

  lemma MatchAtCandidate(root: int, qi: int, b: real)
    requires 0 <= root < 12 && 0 <= qi < 13
    ensures MatchAt(root * 13 + qi, b) == Some(ChordMatch(root, Qualities[qi], b))
  {
    CandidateIndex(root, qi);
  }

  /** The chord detectChord settles on, before its acceptance threshold. */
  function BestChord(chroma: seq<real>): Option<ChordMatch>
    requires |chroma| == 12
  {
    var (i, b) := FirstStrictMax(CandidateScores(chroma), 0.0, 156);
    MatchAt(i, b)
  }

  lemma CandidateScoreAt(chroma: seq<real>, r: int, qi: int)
    requires |chroma| == 12 && 0 <= r < 12 && 0 <= qi < 13
    ensures 0 <= r * 13 + qi < 156
    ensures CandidateScores(chroma)[r * 13 + qi] == ChordScore(chroma, ChordTemplate(r, Qualities[qi]))
  {
    CandidateIndex(r, qi);
  }

  /** The running best after the first n candidates. */
  ghost predicate ScannedUpTo(chroma: seq<real>, n: nat, bestChord: Option<ChordMatch>, bestScore: real)
    requires |chroma| == 12
  {
    n <= 156 &&
    var (i, b) := FirstStrictMax(CandidateScores(chroma), 0.0, n);
    bestScore == b && bestChord == MatchAt(i, b)
  }

  /** Scoring candidate (root, qi) replaces the running best exactly when it
      scores strictly higher. */
  lemma CandidateStep(chroma: seq<real>, root: int, qi: int, bestChord: Option<ChordMatch>, bestScore: real)
    requires |chroma| == 12 && 0 <= root < 12 && 0 <= qi < 13
    requires ScannedUpTo(chroma, root * 13 + qi, bestChord, bestScore)
    ensures var score := ChordScore(chroma, ChordTemplate(root, Qualities[qi]));
      if score > bestScore then ScannedUpTo(chroma, root * 13 + qi + 1, Some(ChordMatch(root, Qualities[qi], score)), score)
      else ScannedUpTo(chroma, root * 13 + qi + 1, bestChord, bestScore)
  {
    CandidateScoreAt(chroma, root, qi);
    MatchAtCandidate(root, qi, ChordScore(chroma, ChordTemplate(root, Qualities[qi])));
  }

  lemma CandidateOfIndex(c: int)
    requires 0 <= c < 156
    ensures 0 <= c / 13 < 12 && 0 <= c % 13 < 13 && c == (c / 13) * 13 + c % 13
  {
  }

  /** The running best of the candidate scan bounds every candidate's score. */
  lemma CandidateScoresBounded(chroma: seq<real>)
    requires |chroma| == 12
    ensures forall r, qi :: 0 <= r < 12 && 0 <= qi < 13 ==>
      ChordScore(chroma, ChordTemplate(r, Qualities[qi])) <= FirstStrictMax(CandidateScores(chroma), 0.0, 156).1
  {
    var scores := CandidateScores(chroma);
    FirstStrictMaxSpec(scores, 0.0, 156);
    forall r, qi | 0 <= r < 12 && 0 <= qi < 13
      ensures ChordScore(chroma, ChordTemplate(r, Qualities[qi])) <= FirstStrictMax(scores, 0.0, 156).1
    {
      CandidateScoreAt(chroma, r, qi);
    }
  }

  lemma BestChordRoot(chroma: seq<real>)
    requires |chroma| == 12 && BestChord(chroma).Some?
    ensures 0 <= BestChord(chroma).value.root < 12
  {
    var (i, b) := FirstStrictMax(CandidateScores(chroma), 0.0, 156);
    CandidateOfIndex(i);
  }

  lemma BestChordScore(chroma: seq<real>)
    requires |chroma| == 12 && BestChord(chroma).Some?
    ensures var m := BestChord(chroma).value;
      m.score > 0.0 && m.score == ChordScore(chroma, ChordTemplate(m.root, m.quality))
  {
    FirstStrictMaxSpec(CandidateScores(chroma), 0.0, 156);
  }

  /** The match found scores at least as well as every candidate. */
  lemma BestChordIsMaximal(chroma: seq<real>)
    requires |chroma| == 12 && BestChord(chroma).Some?
    ensures forall r, qi :: 0 <= r < 12 && 0 <= qi < 13 ==>
      ChordScore(chroma, ChordTemplate(r, Qualities[qi])) <= BestChord(chroma).value.score
  {
    CandidateScoresBounded(chroma);
  }

  /** With no match found, no candidate scores above 0. */
  lemma NoChordSpec(chroma: seq<real>)
    requires |chroma| == 12 && BestChord(chroma).None?
    ensures forall r, qi :: 0 <= r < 12 && 0 <= qi < 13 ==>
      ChordScore(chroma, ChordTemplate(r, Qualities[qi])) <= 0.0
  {
    var scores := CandidateScores(chroma);
    FirstStrictMaxSpec(scores, 0.0, 156);
    CandidateScoresBounded(chroma);
  }

  /** An all-zero chroma matches no chord. */
  lemma SilentChromaNoChord()
    ensures BestChord(Zeros(12)).None?
  {
    var z := Zeros(12);
    var scores := CandidateScores(z);
    forall c | 0 <= c < 156
      ensures scores[c] == 0.0
    {
      ChordScoreBounds(z, ChordTemplate(c / 13, Qualities[c % 13]), 0.0, 0.0);
    }
    FirstStrictMaxSpec(scores, 0.0, 156);
  }

  // ---------------------------------------------------------------------
  // Roman numerals

  const MajorScaleMapping: seq<int> := [0, -1, 1, -1, 2, 3, -1, 4, -1, 5, -1, 6]
  const MinorScaleMapping: seq<int> := [0, -1, 1, 2, -1, 3, -1, 4, 5, -1, 6, -1]
  const RomanNumerals: seq<string> := ["I", "II", "III", "IV", "V", "VI", "VII"]

  /** getChromaticRomanNumeral: a table with entries for offsets 1, 3, 6, 8
      and 10 only (6 and 8 share a label); everything else is '?'. */
  function ChromaticRomanNumeral(offset: int): string
  {
    if offset == 1 then "♭II"
    else if offset == 3 then "♭III"
    else if offset == 6 then "♭VI"
    else if offset == 8 then "♭VI"
    else if offset == 10 then "♭VII"
    else "?"
  }

  /** Degrees ii, iii, vi and vii of a major key. */
  predicate MinorDegreeOfMajorKey(d: int) { d == 1 || d == 2 || d == 5 || d == 6 }
  /** Degrees III, VI and VII of a minor key. */
  predicate MajorDegreeOfMinorKey(d: int) { d == 2 || d == 5 || d == 6 }

  function CaseInMajorKey(roman: string, degree: int, q: Quality): string
  {
    if MinorDegreeOfMajorKey(degree) && HasMajor(q) then Lower(roman)
    else if !MinorDegreeOfMajorKey(degree) && HasMinor(q) then Lower(roman)
    else if MinorDegreeOfMajorKey(degree) then Lower(roman)
    else roman
  }

  function CaseInMinorKey(roman: string, degree: int, q: Quality): string
  {
    if MajorDegreeOfMinorKey(degree) && HasMinor(q) then Lower(roman)
    else if !MajorDegreeOfMinorKey(degree) && HasMajor(q) then Upper(roman)
    else if !MajorDegreeOfMinorKey(degree) then Lower(roman)
    else roman
  }

  function QualitySuffix(q: Quality): string
  {
    if HasDiminished(q) then "°"
    else if HasAugmented(q) then "+"
    else if HasSeven(q) then "7"
    else if HasNine(q) then "9"
    else if HasSus(q) then "sus"
    else ""
  }

  function KeyOffset(keyNote: int, root: int): int
  {
    (root - keyNote + 12) % 12
  }

  /** calculateRomanNumeral for a chord root and quality in a key. */
  function RomanNumeral(keyNote: int, mode: Mode, root: int, q: Quality): string
    requires 0 <= keyNote < 12 && 0 <= root < 12
  {
    var offset := KeyOffset(keyNote, root);
    var degree := (if mode == Major then MajorScaleMapping else MinorScaleMapping)[offset];
    if degree == -1 then ChromaticRomanNumeral(offset)
    else
      var roman := RomanNumerals[degree];
      var cased := if mode == Major then CaseInMajorKey(roman, degree, q) else CaseInMinorKey(roman, degree, q);
      cased + QualitySuffix(q)
  }

  lemma KeyOffsetRange(keyNote: int, root: int)
    requires 0 <= keyNote < 12 && 0 <= root < 12
    ensures 0 <= KeyOffset(keyNote, root) < 12
    ensures KeyOffset(keyNote, root) == if root >= keyNote then root - keyNote else root - keyNote + 12
  {
    SmallMod(root - keyNote + 12, 12);
  }

  /** The tonic major triad of any major key is "I". */
  lemma TonicOfMajorKey(keyNote: int)
    requires 0 <= keyNote < 12
    ensures RomanNumeral(keyNote, Major, keyNote, MajorTriad) == "I"
  {
    KeyOffsetRange(keyNote, keyNote);
  }

  /** In a major key, a diatonic chord's numeral is lower-cased exactly when
      its degree is ii, iii, vi or vii or its quality is a minor one; the
      quality suffix follows. */
  lemma MajorKeyNumeral(keyNote: int, root: int, q: Quality)
    requires 0 <= keyNote < 12 && 0 <= root < 12
    requires MajorScaleMapping[KeyOffset(keyNote, root)] != -1
    ensures var d := MajorScaleMapping[KeyOffset(keyNote, root)];
      RomanNumeral(keyNote, Major, root, q)
        == (if MinorDegreeOfMajorKey(d) || HasMinor(q) then Lower(RomanNumerals[d]) else RomanNumerals[d])
           + QualitySuffix(q)
  {
    KeyOffsetRange(keyNote, root);
  }

  /** In a minor key, a diatonic chord's numeral is lower-cased exactly when
      it is a minor-quality chord on III, VI or VII, or a non-major-quality
      chord on any other degree. */
  lemma MinorKeyNumeral(keyNote: int, root: int, q: Quality)
    requires 0 <= keyNote < 12 && 0 <= root < 12
    requires MinorScaleMapping[KeyOffset(keyNote, root)] != -1
    ensures var d := MinorScaleMapping[KeyOffset(keyNote, root)];
      RomanNumeral(keyNote, Minor, root, q)
        == (if (MajorDegreeOfMinorKey(d) && HasMinor(q)) || (!MajorDegreeOfMinorKey(d) && !HasMajor(q))
            then Lower(RomanNumerals[d]) else RomanNumerals[d])
           + QualitySuffix(q)
  {
    KeyOffsetRange(keyNote, root);
    var d := MinorScaleMapping[KeyOffset(keyNote, root)];
    var roman := RomanNumerals[d];
    assert Upper(roman) == roman;
  }

  /** Every non-diatonic root of a major key gets a flat label. */
  lemma MajorKeyChromaticLabels(keyNote: int, root: int, q: Quality)
    requires 0 <= keyNote < 12 && 0 <= root < 12
    requires MajorScaleMapping[KeyOffset(keyNote, root)] == -1
    ensures RomanNumeral(keyNote, Major, root, q) != "?"
    ensures RomanNumeral(keyNote, Major, root, q) == ChromaticRomanNumeral(KeyOffset(keyNote, root))
  {
    KeyOffsetRange(keyNote, root);
  }

  /** In a minor key the chromatic table has gaps: offsets 4, 9 and 11 give
      '?', and the other non-diatonic offsets (1 and 6) are flat-labelled. */
  lemma MinorKeyChromaticGaps(keyNote: int, root: int, q: Quality)
    requires 0 <= keyNote < 12 && 0 <= root < 12
    requires MinorScaleMapping[KeyOffset(keyNote, root)] == -1
    ensures var o := KeyOffset(keyNote, root);
      RomanNumeral(keyNote, Minor, root, q) == "?" <==> (o == 4 || o == 9 || o == 11)
  {
    KeyOffsetRange(keyNote, root);
  }

  /** Suffix precedence: diminished, then augmented, then 7, then 9, then sus. */
  lemma SuffixPrecedence(q: Quality)
    ensures HasDiminished(q) ==> QualitySuffix(q) == "°"
    ensures HasSeven(q) && !HasDiminished(q) ==> QualitySuffix(q) == "7"
    ensures QualitySuffix(q) == "" <==> (q == MajorTriad || q == MinorTriad)
  {
  }

  // ---------------------------------------------------------------------
  // Chord symbols and the progression view

  function ChordSymbol(q: Quality): string
  {
    match q
    case MajorTriad => ""
    case MinorTriad => "m"
    case Diminished => "°"
    case Augmented => "+"
    case Major7 => "maj7"
    case Minor7 => "m7"
    case Dominant7 => "7"
    case Diminished7 => "°7"
    case HalfDiminished7 => "ø7"
    case Major9 => "maj9"
    case Minor9 => "m9"
    case Sus2 => "sus2"
    case Sus4 => "sus4"
  }

  /** The progression's chord label: root name followed by the symbol. */
  function ChordName(root: int, q: Quality): string
    requires 0 <= root < 12
  {
    NoteNames[root] + ChordSymbol(q)
  }

  /** Distinct qualities have distinct symbols, so a chord label names its
      quality unambiguously once the root's name is known. */
  lemma ChordSymbolInjective(q1: Quality, q2: Quality)
    requires ChordSymbol(q1) == ChordSymbol(q2)
    ensures q1 == q2
  {
  }

  // ---------------------------------------------------------------------
  // Key signatures

  datatype KeySignature = KeySignature(sharps: nat, flats: nat, accidentals: seq<string>)

  const SharpOrder: seq<string> := ["F#", "C#", "G#", "D#", "A#", "E#"]
  const FlatOrder: seq<string> := ["Bb", "Eb", "Ab", "Db", "Gb", "Cb"]

  const NoAccidentals: KeySignature := KeySignature(0, 0, [])

  function Sharps(n: nat): KeySignature requires n <= 6 { KeySignature(n, 0, SharpOrder[..n]) }
  function Flats(n: nat): KeySignature requires n <= 6 { KeySignature(0, n, FlatOrder[..n]) }

  /** The signature table. The source keys it by the string
      "<note>_<mode>"; since no note name contains '_', keying by the pair
      (note name, mode) is the same lookup. The flat keys are spelled with
      flats. */
  const KeySignatures: map<(string, Mode), KeySignature> := map[
    ("C", Major) := Sharps(0), ("G", Major) := Sharps(1), ("D", Major) := Sharps(2),
    ("A", Major) := Sharps(3), ("E", Major) := Sharps(4), ("B", Major) := Sharps(5),
    ("F#", Major) := Sharps(6),
    ("F", Major) := Flats(1), ("Bb", Major) := Flats(2), ("Eb", Major) := Flats(3),
    ("Ab", Major) := Flats(4), ("Db", Major) := Flats(5), ("Gb", Major) := Flats(6),
    ("A", Minor) := Sharps(0), ("E", Minor) := Sharps(1), ("B", Minor) := Sharps(2),
    ("F#", Minor) := Sharps(3), ("C#", Minor) := Sharps(4), ("G#", Minor) := Sharps(5),
    ("D#", Minor) := Sharps(6),
    ("D", Minor) := Flats(1), ("G", Minor) := Flats(2), ("C", Minor) := Flats(3),
    ("F", Minor) := Flats(4), ("Bb", Minor) := Flats(5), ("Eb", Minor) := Flats(6)
  ]

  /** getKeySignature: the table entry for the key's name, or no accidentals. */
  function KeySignatureOf(note: int, mode: Mode): KeySignature
    requires 0 <= note < 12
  {
    var key := (NoteNames[note], mode);
    if key in KeySignatures then KeySignatures[key] else NoAccidentals
  }

  predicate Consistent(sig: KeySignature)
  {
    && sig.sharps + sig.flats == |sig.accidentals|
    && (sig.sharps == 0 || sig.flats == 0)
    && (if sig.flats == 0 then sig.sharps <= 6 && sig.accidentals == SharpOrder[..sig.sharps]
        else sig.flats <= 6 && sig.accidentals == FlatOrder[..sig.flats])
  }

  /** Every signature served has sharps + flats equal to the number of
      accidentals, never mixes sharps and flats, and lists the accidentals in
      circle-of-fifths order. */
  lemma KeySignatureConsistent(note: int, mode: Mode)
    requires 0 <= note < 12
    ensures Consistent(KeySignatureOf(note, mode))
  {
    var key := (NoteNames[note], mode);
    if key in KeySignatures {
      assert KeySignatures[key] in KeySignatures.Values;
      forall sig | sig in KeySignatures.Values
        ensures Consistent(sig)
      {
      }
    }
  }

  /** Keys are named with sharps, so C#, D#, G# and A# major are not in the
      table, while every other major key has an entry. */
  lemma SharpNamedMajorKeysUnlisted(note: int)
    requires 0 <= note < 12
    ensures (NoteNames[note], Major) !in KeySignatures <==> note == 1 || note == 3 || note == 8 || note == 10
  {
    var name := NoteNames[note];
    assert name in {"C#", "D#", "G#", "A#"} <==> note == 1 || note == 3 || note == 8 || note == 10;
  }

  /** Likewise A# minor is the one minor key missing from the table. */
  lemma SharpNamedMinorKeysUnlisted(note: int)
    requires 0 <= note < 12
    ensures (NoteNames[note], Minor) !in KeySignatures <==> note == 10
  {
    var name := NoteNames[note];
    assert name == "A#" <==> note == 10;
  }
}
