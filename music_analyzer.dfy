/** The stateful key and chord analyser: a 12-bin chroma buffer, a bounded
    chroma history, the current key and chord, a 30-second chord history and
    an event log standing for the key, chord and progression callbacks.
    Timestamps are integer milliseconds passed in by the caller; the pitch
    class of a frequency and the Pearson correlation are given functions. */
module MusicAnalyzer {
  import opened Common
  import opened MusicTheory

  datatype Key = Key(note: int, mode: Mode, confidence: real)
  datatype Chord = Chord(root: int, quality: Quality, roman: string, confidence: real)
  datatype ChordRecord = ChordRecord(chord: Chord, timestamp: int)
  datatype ProgressionItem = ProgressionItem(roman: string, chord: string, confidence: real)

  /** One callback invocation. */
  datatype Event =
    | KeyDetected(key: Key)
    | ChordDetected(chord: Chord)
    | ProgressionUpdate(progression: seq<ProgressionItem>)

  /** What analyzeMusic returns when it runs. */
  datatype Analysis = Analysis(key: Key, chord: Chord, chroma: seq<real>)

  const MaxHistoryLength: nat := 50
  const KeyHistoryMinimum: nat := 10
  const KeyAverageWindow: nat := 20
  const KeyConfidenceThreshold: real := 0.6
  const ChordConfidenceThreshold: real := 0.08
  const AnalysisInterval: int := 500
  const MaxChordAge: int := 30000
  const ProgressionLength: nat := 8

  const InitialKey: Key := Key(0, Major, 0.0)
  const InitialChord: Chord := Chord(0, MajorTriad, "I", 0.0)

  predicate ChromaRows(history: seq<seq<real>>)
  {
    forall h | h in history :: |h| == 12
  }

  predicate RootsInRange(history: seq<ChordRecord>)
  {
    forall r | r in history :: 0 <= r.chord.root < 12
  }

  // ---------------------------------------------------------------------
  // Specification of one analysis step

  /** Push, then drop the oldest entry once there are more than 50. */
  function PushBounded(history: seq<seq<real>>, chroma: seq<real>): (h: seq<seq<real>>)
    ensures |history| <= MaxHistoryLength ==> |h| <= MaxHistoryLength
    ensures |h| > 0 && h[|h| - 1] == chroma
    ensures ChromaRows(history) && |chroma| == 12 ==> ChromaRows(h)
  {
    PushShift(history, chroma, MaxHistoryLength)
  }

  /** Entry-wise sums of 12-bin rows. */
  function ColumnSums(rows: seq<seq<real>>): (sums: seq<real>)
    requires ChromaRows(rows)
    ensures |sums| == 12
  {
    if |rows| == 0 then Zeros(12)
    else
      var prev := ColumnSums(rows[..|rows| - 1]);
      var row := rows[|rows| - 1];
      seq(12, j requires 0 <= j < 12 => prev[j] + row[j])
  }

  /** Adding a row adds it to every column sum. */
  lemma ColumnSumsAppend(rows: seq<seq<real>>, row: seq<real>)
    requires ChromaRows(rows) && |row| == 12
    ensures ChromaRows(rows + [row])
    ensures forall j :: 0 <= j < 12 ==> ColumnSums(rows + [row])[j] == ColumnSums(rows)[j] + row[j]
  {
    assert (rows + [row])[..|rows|] == rows;
  }

  /** The last min(len, 20) history entries. */
  function KeyWindow(history: seq<seq<real>>): seq<seq<real>>
  {
    history[|history| - MinI(|history|, KeyAverageWindow)..]
  }


  /** The chroma averaged over the key window. */
  function AverageChroma(history: seq<seq<real>>): seq<real>
    requires |history| > 0 && ChromaRows(history)
  {
    var n := MinI(|history|, KeyAverageWindow);
    var sums := ColumnSums(KeyWindow(history));
    seq(12, j requires 0 <= j < 12 => sums[j] / n as real)
  }

  /** detectKey as a value: the new current key and the events it fires. */
  function KeyStep(cur: Key, history: seq<seq<real>>, correlate: (seq<real>, seq<real>) -> real): (Key, seq<Event>)
    requires |history| > 0 && ChromaRows(history)
  {
    var (i, best) := FirstStrictMax(KeyScores(AverageChroma(history), correlate), -1.0, 24);
    var confidence := ClampR(best, 0.0, 1.0);
    if confidence > KeyConfidenceThreshold then
      var k := Key(KeyNoteOf(i), KeyModeOf(i), confidence);
      (k, if cur.note != k.note || cur.mode != k.mode then [KeyDetected(k)] else [])
    else
      (cur, [])
  }

  /** analyzeMusic re-estimates the key only once ten frames are held. */
  function KeyUpdate(cur: Key, history: seq<seq<real>>, correlate: (seq<real>, seq<real>) -> real): (Key, seq<Event>)
    requires ChromaRows(history)
  {
    if |history| >= KeyHistoryMinimum then KeyStep(cur, history, correlate) else (cur, [])
  }

  /** Chord records younger than 30 s, in their original order. */
  function KeepRecent(history: seq<ChordRecord>, now: int): (r: seq<ChordRecord>)
    ensures forall x :: x in r <==> x in history && now - x.timestamp < MaxChordAge
    ensures |r| <= |history|
  {
    if |history| == 0 then []
    else
      var rest := KeepRecent(history[1..], now);
      assert forall x :: x in history <==> x == history[0] || x in history[1..];
      if now - history[0].timestamp < MaxChordAge then [history[0]] + rest else rest
  }

  function ProgressionItemOf(r: ChordRecord): ProgressionItem
    requires 0 <= r.chord.root < 12
  {
    ProgressionItem(r.chord.roman, ChordName(r.chord.root, r.chord.quality), r.chord.confidence)
  }

  /** getRecentProgression(): the last eight chord records, oldest first. */
  function RecentProgression(history: seq<ChordRecord>): seq<ProgressionItem>
    requires RootsInRange(history)
  {
    var k := MinI(|history|, ProgressionLength);
    seq(k, i requires 0 <= i < k => ProgressionItemOf(history[|history| - k + i]))
  }

  /** The chord detectChord would accept, with its roman numeral in `key`. */
  function AcceptedChord(key: Key, chroma: seq<real>): Option<Chord>
    requires |chroma| == 12 && 0 <= key.note < 12
  {
    var best := BestChord(chroma);
    if best.Some? && best.value.score > ChordConfidenceThreshold then
      var m := best.value;
      Some(Chord(m.root, m.quality, RomanNumeral(key.note, key.mode, m.root, m.quality), m.score))
    else None
  }

  predicate ChordChanged(cur: Chord, next: Chord)
  {
    cur.root != next.root || cur.quality != next.quality
  }

  /** detectChord as a value: the new current chord, chord history and the
      events fired. */
  function ChordStep(key: Key, cur: Chord, history: seq<ChordRecord>, chroma: seq<real>, now: int)
    : (Chord, seq<ChordRecord>, seq<Event>)
    requires |chroma| == 12 && 0 <= key.note < 12 && RootsInRange(history)
  {
    ApplyChord(cur, history, AcceptedChord(key, chroma), now)
  }

  /** What an accepted chord (or none) does to the current chord, the chord
      history and the events. */
  function ApplyChord(cur: Chord, history: seq<ChordRecord>, accepted: Option<Chord>, now: int)
    : (Chord, seq<ChordRecord>, seq<Event>)
    requires RootsInRange(history) && (accepted.Some? ==> 0 <= accepted.value.root < 12)
  {
    match accepted
    case None => (cur, history, [])
    case Some(c) =>
      if ChordChanged(cur, c) then
        var h := KeepRecent(history + [ChordRecord(c, now)], now);
        (c, h, [ChordDetected(c), ProgressionUpdate(RecentProgression(h))])
      else
        (c, history, [ChordDetected(c)])
  }

  // ---------------------------------------------------------------------
  // Properties of the steps

  /** detectKey: when some correlation exceeds 0.6 the key becomes the first
      best-correlating key with confidence min(1, correlation); otherwise the
      key stays. onKeyDetected fires exactly when the note or the mode changed. */
  lemma KeyStepSpec(cur: Key, history: seq<seq<real>>, correlate: (seq<real>, seq<real>) -> real)
    requires |history| > 0 && ChromaRows(history)
    ensures var (k, ev) := KeyStep(cur, history, correlate);
      var scores := KeyScores(AverageChroma(history), correlate);
      && (k == cur || (KeyConfidenceThreshold < k.confidence <= 1.0 && 0 <= k.note < 12))
      && (k != cur ==> exists i :: 0 <= i < 24 && k.note == KeyNoteOf(i) && k.mode == KeyModeOf(i)
                         && k.confidence == MinR(1.0, scores[i])
                         && forall j :: 0 <= j < 24 ==> scores[j] <= scores[i])
      && (ev == [KeyDetected(k)] <==> (k.note != cur.note || k.mode != cur.mode))
      && (ev == [] <==> (k.note == cur.note && k.mode == cur.mode))
      && ((exists i :: 0 <= i < 24 && scores[i] > KeyConfidenceThreshold) ==>
            exists i :: 0 <= i < 24 && k == Key(KeyNoteOf(i), KeyModeOf(i), MinR(1.0, scores[i]))
              && (forall j :: 0 <= j < 24 ==> scores[j] <= scores[i])
              && (forall j :: 0 <= j < i ==> scores[j] < scores[i]))
      && ((forall j :: 0 <= j < 24 ==> scores[j] <= KeyConfidenceThreshold) ==> k == cur)
  {
    var scores := KeyScores(AverageChroma(history), correlate);
    FirstStrictMaxSpec(scores, -1.0, 24);
    var (i, best) := FirstStrictMax(scores, -1.0, 24);
    if ClampR(best, 0.0, 1.0) > KeyConfidenceThreshold {
      assert i != -1;
      assert 0 <= KeyNoteOf(i) < 12;
    }
  }

  /** detectChord: onChordDetected fires on every acceptance, first; a new
      history entry and onProgressionUpdate happen only when the root or the
      quality changed, after which every record kept is younger than 30 s
      and the new chord is the newest. */
  lemma ChordStepSpec(key: Key, cur: Chord, history: seq<ChordRecord>, chroma: seq<real>, now: int)
    requires |chroma| == 12 && 0 <= key.note < 12 && RootsInRange(history)
    requires forall r | r in history :: r.timestamp <= now
    ensures var (c, h, ev) := ChordStep(key, cur, history, chroma, now);
      && (AcceptedChord(key, chroma).None? ==> c == cur && h == history && ev == [])
      && (AcceptedChord(key, chroma).Some? ==>
            && c == AcceptedChord(key, chroma).value
            && c.confidence > ChordConfidenceThreshold
            && 0 <= c.root < 12
            && |ev| >= 1 && ev[0] == ChordDetected(c)
            && (ChordChanged(cur, c) ==>
                  |ev| == 2 && ev[1] == ProgressionUpdate(RecentProgression(h))
                  && h[|h| - 1] == ChordRecord(c, now)
                  && (forall r | r in h :: now - r.timestamp < MaxChordAge))
            && (!ChordChanged(cur, c) ==> |ev| == 1 && h == history))
  {
    var a := AcceptedChord(key, chroma);
    if a.Some? {
      BestChordRoot(chroma);
      var c := a.value;
      if ChordChanged(cur, c) {
        var pushed := history + [ChordRecord(c, now)];
        var h := KeepRecent(pushed, now);
        KeepRecentKeepsNewest(pushed, now);
      }
    }
  }

  /** A record stamped `now` survives the filter and stays last. */
  lemma {:induction false} KeepRecentKeepsNewest(history: seq<ChordRecord>, now: int)
    requires |history| > 0 && history[|history| - 1].timestamp == now
    ensures var r := KeepRecent(history, now); |r| > 0 && r[|r| - 1] == history[|history| - 1]
  {
    if |history| > 1 {
      KeepRecentKeepsNewest(history[1..], now);
    }
  }

  /** A silent frame's chroma changes neither the chord nor the history and
      fires nothing. */
  lemma SilentChromaChangesNothing(key: Key, cur: Chord, history: seq<ChordRecord>, now: int)
    requires 0 <= key.note < 12 && RootsInRange(history)
    ensures ChordStep(key, cur, history, Zeros(12), now) == (cur, history, [])
  {
    SilentChromaNoChord();
  }

  /** The progression view holds at most eight items, ending with the newest
      chord. */
  lemma RecentProgressionSpec(history: seq<ChordRecord>)
    requires RootsInRange(history)
    ensures |RecentProgression(history)| == MinI(|history|, ProgressionLength)
    ensures |history| > 0 ==>
      RecentProgression(history)[|RecentProgression(history)| - 1] == ProgressionItemOf(history[|history| - 1])
  {
  }

  /** Every entry of an averaged window of chroma vectors lies in [0, 1]. */
  lemma {:induction false} ColumnSumsBounds(rows: seq<seq<real>>)
    requires ChromaRows(rows)
    requires forall h, j | h in rows && 0 <= j < 12 :: 0.0 <= h[j] <= 1.0
    ensures forall j :: 0 <= j < 12 ==> 0.0 <= ColumnSums(rows)[j] <= |rows| as real
  {
    if |rows| > 0 {
      ColumnSumsBounds(rows[..|rows| - 1]);
      assert rows[|rows| - 1] in rows;
    }
  }

  // ---------------------------------------------------------------------
  // The analyser

  /** The chord detectChord accepts, in terms of the search's result. */
  lemma AcceptedOfBest(key: Key, chroma: seq<real>, best: Option<ChordMatch>, score: real)
    requires |chroma| == 12 && 0 <= key.note < 12
    requires best == BestChord(chroma) && score == FirstStrictMax(CandidateScores(chroma), 0.0, 156).1
    ensures best.Some? ==> 0 <= best.value.root < 12 && best.value.score == score
    ensures AcceptedChord(key, chroma) ==
      if best.Some? && score > ChordConfidenceThreshold then
        Some(Chord(best.value.root, best.value.quality,
                   RomanNumeral(key.note, key.mode, best.value.root, best.value.quality), score))
      else None
  {
    if best.Some? {
      BestChordRoot(chroma);
    }
  }

  /** Recording a chord with a root in range keeps every root in range. */
  lemma RecentRoots(history: seq<ChordRecord>, chord: Chord, now: int)
    requires RootsInRange(history) && 0 <= chord.root < 12
    ensures RootsInRange(KeepRecent(history + [ChordRecord(chord, now)], now))
  {
  }

  /** The column sums of chroma rows, accumulated row by row. */
  method SumRows(rows: seq<seq<real>>) returns (sums: array<real>)
    requires ChromaRows(rows)
    ensures fresh(sums) && sums[..] == ColumnSums(rows)
  {
    sums := new real[12](_ => 0.0);
    var i := 0;
    assert sums[..] == ColumnSums(rows[..0]);
    while i < |rows|
      invariant 0 <= i <= |rows|
      invariant sums[..] == ColumnSums(rows[..i])
    {
      var row := rows[i];
      assert row in rows;
      AddRow(sums, row);
      ColumnSumsAppend(rows[..i], row);
      assert rows[..i + 1] == rows[..i] + [row];
      i := i + 1;
    }
    assert rows[..i] == rows;
  }

  /** Adds a chroma row into the running column sums. */
  method AddRow(sums: array<real>, row: seq<real>)
    requires sums.Length == 12 && |row| == 12
    modifies sums
    ensures forall t :: 0 <= t < 12 ==> sums[t] == old(sums[t]) + row[t]
  {
    var j := 0;
    while j < 12
      invariant 0 <= j <= 12
      invariant forall t :: 0 <= t < j ==> sums[t] == old(sums[t]) + row[t]
      invariant forall t :: j <= t < 12 ==> sums[t] == old(sums[t])
    {
      sums[j] := sums[j] + row[j];
      j := j + 1;
    }
  }

  /** Divides every column sum by the number of rows. */
  method DivideAll(sums: array<real>, n: real)
    requires n != 0.0
    modifies sums
    ensures forall t :: 0 <= t < sums.Length ==> sums[t] == old(sums[t]) / n
  {
    var i := 0;
    while i < sums.Length
      invariant 0 <= i <= sums.Length
      invariant forall t :: 0 <= t < i ==> sums[t] == old(sums[t]) / n
      invariant forall t :: i <= t < sums.Length ==> sums[t] == old(sums[t])
    {
      sums[i] := sums[i] / n;
      i := i + 1;
    }
  }

  /** The accumulation half of calculateChromaVector: zero the vector, then
      add the squared magnitude of every musical-range bin (from bin 1) to
      its pitch class. */
  method AccumulateChroma(v: array<real>, data: seq<int>, pitchClassOf: real -> int)
    requires v.Length == 12
    modifies v
    ensures v[..] == RawChroma(data, pitchClassOf, |data|)
  {
    forall i | 0 <= i < 12 {
      v[i] := 0.0;
    }
    assert v[..] == Zeros(12);
    var bin := 1;
    while bin < |data|
      invariant 1 <= bin && (bin <= |data| || |data| == 0)
      invariant v[..] == RawChroma(data, pitchClassOf, if |data| == 0 then 0 else bin)
    {
      var frequency := BinFrequency(bin, |data|);
      if !(frequency < 80.0 || frequency > 5000.0) {
        var chromaClass := pitchClassOf(frequency);
        if 0 <= chromaClass < 12 {
          v[chromaClass] := v[chromaClass] + BinEnergy(data[bin]);
        }
      }
      bin := bin + 1;
    }
  }

  /** The normalising half of calculateChromaVector: divide by the total
      when the total is positive. */
  method NormalizeChroma(v: array<real>)
    modifies v
    ensures v[..] == Normalize(old(v[..]))
  {
    ghost var raw := v[..];
    var sum := 0.0;
    var i := 0;
    while i < v.Length
      invariant 0 <= i <= v.Length
      invariant v[..] == raw
      invariant sum == Sum(v[..i])
    {
      assert v[..i + 1] == v[..i] + [v[i]];
      SumAppend(v[..i], v[i]);
      sum := sum + v[i];
      i := i + 1;
    }
    assert v[..i] == raw;
    if sum > 0.0 {
      DivideAll(v, sum);
      assert v[..] == Normalize(raw);
    }
  }

  /** calculateChordScore over one candidate template. */
  method CalculateChordScore(chroma: seq<real>, template: seq<int>) returns (r: real)
    requires |chroma| == 12 && |template| == 12
    ensures r == ChordScore(chroma, template)
  {
    var score := 0.0;
    var templateSum := 0;
    var i := 0;
    while i < 12
      invariant 0 <= i <= 12
      invariant (score, templateSum) == ScoreSums(chroma, template, i)
    {
      if template[i] > 0 {
        score := score + Weighted(chroma[i], template[i]);
        templateSum := templateSum + template[i];
      }
      i := i + 1;
    }
    r := if templateSum > 0 then score / templateSum as real else 0.0;
  }

  /** The search half of detectChord: try every root and quality in
      order, keeping the first strictly best score above 0. */
  method BestCandidate(chroma: seq<real>) returns (bestChord: Option<ChordMatch>, bestScore: real)
    requires |chroma| == 12
    ensures bestChord == BestChord(chroma)
    ensures bestScore == FirstStrictMax(CandidateScores(chroma), 0.0, 156).1
  {
    bestChord := None;
    bestScore := 0.0;
    var root := 0;
    while root < 12
      invariant 0 <= root <= 12
      invariant ScannedUpTo(chroma, root * 13, bestChord, bestScore)
    {
      bestChord, bestScore := ScanRoot(chroma, root, bestChord, bestScore);
      root := root + 1;
    }
  }

  /** The inner loop of the search: the thirteen qualities over one root. */
  method ScanRoot(chroma: seq<real>, root: int, chord: Option<ChordMatch>, score: real)
    returns (bestChord: Option<ChordMatch>, bestScore: real)
    requires |chroma| == 12 && 0 <= root < 12
    requires ScannedUpTo(chroma, root * 13, chord, score)
    ensures ScannedUpTo(chroma, root * 13 + 13, bestChord, bestScore)
  {
    bestChord, bestScore := chord, score;
    var qi := 0;
    while qi < 13
      invariant 0 <= qi <= 13
      invariant ScannedUpTo(chroma, root * 13 + qi, bestChord, bestScore)
    {
      var quality := Qualities[qi];
      var template := ChordTemplate(root, quality);
      var candidate := CalculateChordScore(chroma, template);
      CandidateStep(chroma, root, qi, bestChord, bestScore);
      if candidate > bestScore {
        bestScore := candidate;
        bestChord := Some(ChordMatch(root, quality, candidate));
      }
      qi := qi + 1;
    }
  }

  class Analyzer {
    const chromaVector: array<real>
    var chromaHistory: seq<seq<real>>
    var currentKey: Key
    var currentChord: Chord
    var chordHistory: seq<ChordRecord>
    var isAnalyzing: bool
    var lastAnalysisTime: int
    var events: seq<Event>

    ghost predicate Valid()
      reads this
    {
      && chromaVector.Length == 12
      && |chromaHistory| <= MaxHistoryLength
      && ChromaRows(chromaHistory)
      && 0 <= currentKey.note < 12
      && 0.0 <= currentKey.confidence <= 1.0
      && 0 <= currentChord.root < 12
      && RootsInRange(chordHistory)
    }

    constructor()
      ensures Valid() && fresh(chromaVector)
      ensures chromaVector[..] == Zeros(12)
      ensures chromaHistory == [] && chordHistory == [] && events == []
      ensures currentKey == InitialKey && currentChord == InitialChord
      ensures !isAnalyzing && lastAnalysisTime == 0
    {
      chromaVector := new real[12](_ => 0.0);
      chromaHistory := [];
      currentKey := InitialKey;
      currentChord := InitialChord;
      chordHistory := [];
      isAnalyzing := false;
      lastAnalysisTime := 0;
      events := [];
    }

    method StartAnalysis()
      requires Valid()
      modifies `isAnalyzing, `chromaHistory, `chordHistory
      ensures Valid()
      ensures isAnalyzing && chromaHistory == [] && chordHistory == []
    {
      isAnalyzing := true;
      chromaHistory := [];
      chordHistory := [];
    }

    method StopAnalysis()
      requires Valid()
      modifies `isAnalyzing
      ensures Valid()
      ensures !isAnalyzing
    {
      isAnalyzing := false;
    }

    /** reset: clears the chroma and both histories and restores C major,
        leaving isAnalyzing and lastAnalysisTime as they were. */
    method Reset()
      requires Valid()
      modifies this, chromaVector
      ensures Valid()
      ensures chromaVector[..] == Zeros(12)
      ensures chromaHistory == [] && chordHistory == []
      ensures currentKey == InitialKey && currentChord == InitialChord
      ensures isAnalyzing == old(isAnalyzing) && lastAnalysisTime == old(lastAnalysisTime)
      ensures events == old(events)
    {
      forall i | 0 <= i < 12 {
        chromaVector[i] := 0.0;
      }
      chromaHistory := [];
      chordHistory := [];
      currentKey := InitialKey;
      currentChord := InitialChord;
    }

    /** analyzeMusic: a no-op unless analysing and at least 500 ms after the
        previous run; otherwise it extracts the chroma, appends it to the
        bounded history, re-estimates the key once ten frames are held, and
        detects the chord. */
    method AnalyzeMusic(data: seq<int>, now: int, pitchClassOf: real -> int,
                        correlate: (seq<real>, seq<real>) -> real) returns (r: Option<Analysis>)
      requires Valid()
      modifies this, chromaVector
      ensures Valid()
      ensures !old(isAnalyzing) || now - old(lastAnalysisTime) < AnalysisInterval ==>
        r == None && unchanged(this) && unchanged(chromaVector)
      ensures old(isAnalyzing) && now - old(lastAnalysisTime) >= AnalysisInterval ==>
        && chromaVector[..] == Chroma(data, pitchClassOf)
        && chromaHistory == PushBounded(old(chromaHistory), Chroma(data, pitchClassOf))
        && lastAnalysisTime == now && isAnalyzing
        && (var ks := KeyUpdate(old(currentKey), chromaHistory, correlate);
            var cs := ChordStep(ks.0, old(currentChord), old(chordHistory), chromaVector[..], now);
            && currentKey == ks.0
            && currentChord == cs.0
            && chordHistory == cs.1
            && events == old(events) + ks.1 + cs.2)
        && r == Some(Analysis(currentKey, currentChord, chromaVector[..]))
    {
      if !isAnalyzing {
        return None;
      }
      if now - lastAnalysisTime < AnalysisInterval {
        return None;
      }
      Analyze(data, now, pitchClassOf, correlate);
      r := Some(Analysis(currentKey, currentChord, chromaVector[..]));
    }

    /** The body of analyzeMusic past its gate. */
    method Analyze(data: seq<int>, now: int, pitchClassOf: real -> int,
                   correlate: (seq<real>, seq<real>) -> real)
      requires Valid()
      modifies `lastAnalysisTime, `chromaHistory, `currentKey, `currentChord, `chordHistory, `events, chromaVector
      ensures Valid()
      ensures
        && chromaVector[..] == Chroma(data, pitchClassOf)
        && chromaHistory == PushBounded(old(chromaHistory), Chroma(data, pitchClassOf))
        && lastAnalysisTime == now
        && (var ks := KeyUpdate(old(currentKey), chromaHistory, correlate);
            var cs := ChordStep(ks.0, old(currentChord), old(chordHistory), chromaVector[..], now);
            && currentKey == ks.0
            && currentChord == cs.0
            && chordHistory == cs.1
            && events == old(events) + ks.1 + cs.2)
    {
      lastAnalysisTime := now;
      RecordFrame(data, pitchClassOf);
      Classify(now, correlate);
    }

    /** The second half of analyzeMusic: re-estimate the key once ten frames
        are held, then detect the chord against the (possibly new) key. */
    method Classify(now: int, correlate: (seq<real>, seq<real>) -> real)
      requires Valid()
      modifies `currentKey, `currentChord, `chordHistory, `events
      ensures Valid()
      ensures var ks := KeyUpdate(old(currentKey), chromaHistory, correlate);
        var cs := ChordStep(ks.0, old(currentChord), old(chordHistory), chromaVector[..], now);
        && currentKey == ks.0
        && currentChord == cs.0
        && chordHistory == cs.1
        && events == old(events) + ks.1 + cs.2
    {
      ghost var ks := KeyUpdate(currentKey, chromaHistory, correlate);
      if |chromaHistory| >= KeyHistoryMinimum {
        DetectKey(correlate);
        assert currentKey == ks.0 && events == old(events) + ks.1;
      } else {
        assert ks.1 == [];
        assert events == old(events) + ks.1;
      }
      ghost var keyEvents := events;
      ghost var cs := ChordStep(currentKey, currentChord, chordHistory, chromaVector[..], now);
      DetectChord(now);
      assert events == keyEvents + cs.2;
      assert events == old(events) + ks.1 + cs.2;
    }

    /** The first half of analyzeMusic: extract the chroma of the frame and
        append a copy of it to the history, dropping the oldest row past 50. */
    method RecordFrame(data: seq<int>, pitchClassOf: real -> int)
      requires Valid()
      modifies `chromaHistory, chromaVector
      ensures Valid()
      ensures chromaVector[..] == Chroma(data, pitchClassOf)
      ensures chromaHistory == PushBounded(old(chromaHistory), Chroma(data, pitchClassOf))
    {
      CalculateChromaVector(data, pitchClassOf);
      ChromaIsDistribution(data, pitchClassOf);
      var snapshot := chromaVector[..];
      chromaHistory := chromaHistory + [snapshot];
      if |chromaHistory| > MaxHistoryLength {
        chromaHistory := chromaHistory[1..];
      }
    }

    /** calculateChromaVector: fill with zeros, accumulate squared magnitudes
        of the musical-range bins, then normalise when the sum is positive. */
    method CalculateChromaVector(data: seq<int>, pitchClassOf: real -> int)
      requires chromaVector.Length == 12
      modifies chromaVector
      ensures chromaVector[..] == Chroma(data, pitchClassOf)
    {
      AccumulateChroma(chromaVector, data, pitchClassOf);
      NormalizeChroma(chromaVector);
    }

    /** detectKey: average the key window, correlate with the 24 profiles,
        keep the first strictly best, clamp its confidence, and switch keys
        only above the 0.6 threshold. */
    method DetectKey(correlate: (seq<real>, seq<real>) -> real)
      requires Valid() && |chromaHistory| > 0
      modifies `currentKey, `events
      ensures Valid()
      ensures currentKey == KeyStep(old(currentKey), chromaHistory, correlate).0
      ensures events == old(events) + KeyStep(old(currentKey), chromaHistory, correlate).1
    {
      var avg := AverageKeyWindow();
      assert avg == AverageChroma(chromaHistory);

      var bestKey := -1;
      var bestCorrelation := -1.0;
      var k := 0;
      while k < 24
        invariant 0 <= k <= 24
        invariant (bestKey, bestCorrelation) == FirstStrictMax(KeyScores(avg, correlate), -1.0, k)
      {
        var correlation := correlate(avg, KeyProfile(KeyNoteOf(k), KeyModeOf(k)));
        if correlation > bestCorrelation {
          bestCorrelation := correlation;
          bestKey := k;
        }
        k := k + 1;
      }
      var confidence := ClampR(bestCorrelation, 0.0, 1.0);
      if confidence > KeyConfidenceThreshold {
        var note, mode := KeyNoteOf(bestKey), KeyModeOf(bestKey);
        var keyChanged := currentKey.note != note || currentKey.mode != mode;
        currentKey := Key(note, mode, confidence);
        if keyChanged {
          events := events + [KeyDetected(currentKey)];
        }
      }
    }

    /** The averaging half of detectKey: sum the key window column by
        column, then divide by its length. */
    method AverageKeyWindow() returns (avg: seq<real>)
      requires Valid() && |chromaHistory| > 0
      ensures avg == AverageChroma(chromaHistory)
    {
      var historyLength := MinI(|chromaHistory|, KeyAverageWindow);
      var start := |chromaHistory| - historyLength;
      assert historyLength > 0;
      var avgChroma := SumRows(chromaHistory[start..]);
      DivideAll(avgChroma, historyLength as real);
      avg := avgChroma[..];
      assert avg == AverageChroma(chromaHistory);
    }

    /** detectChord: try every root and quality, keep the first strictly best
        score, and accept it above 0.08. */
    method DetectChord(now: int)
      requires Valid()
      modifies `currentChord, `chordHistory, `events
      ensures Valid()
      ensures var s := ChordStep(currentKey, old(currentChord), old(chordHistory), chromaVector[..], now);
        currentChord == s.0 && chordHistory == s.1 && events == old(events) + s.2
    {
      var chroma := chromaVector[..];
      var accepted := AcceptChord(chroma);
      RecordChord(accepted, now);
    }

    /** The recording half of detectChord: onChordDetected on every
        accepted chord; a history entry and onProgressionUpdate only when
        the root or the quality changed. */
    method RecordChord(accepted: Option<Chord>, now: int)
      requires Valid() && (accepted.Some? ==> 0 <= accepted.value.root < 12)
      modifies `currentChord, `chordHistory, `events
      ensures Valid()
      ensures var s := ApplyChord(old(currentChord), old(chordHistory), accepted, now);
        currentChord == s.0 && chordHistory == s.1 && events == old(events) + s.2
    {
      if accepted.Some? {
        var chord := accepted.value;
        var chordChanged := ChordChanged(currentChord, chord);
        currentChord := chord;
        ghost var before := events;
        events := events + [ChordDetected(chord)];
        if chordChanged {
          RecentRoots(chordHistory, chord, now);
          chordHistory := KeepRecent(chordHistory + [ChordRecord(chord, now)], now);
          var update := ProgressionUpdate(RecentProgression(chordHistory));
          assert (before + [ChordDetected(chord)]) + [update] == before + [ChordDetected(chord), update];
          events := events + [update];
        }
      }
    }

    /** The acceptance half of detectChord: the best candidate, named in the
        current key, when its score exceeds 0.08. */
    method AcceptChord(chroma: seq<real>) returns (accepted: Option<Chord>)
      requires Valid() && |chroma| == 12
      ensures accepted == AcceptedChord(currentKey, chroma)
      ensures accepted.Some? ==> 0 <= accepted.value.root < 12
    {
      var bestChord, bestScore := BestCandidate(chroma);
      AcceptedOfBest(currentKey, chroma, bestChord, bestScore);
      if bestChord.Some? && bestScore > ChordConfidenceThreshold {
        var m := bestChord.value;
        var romanNumeral := RomanNumeral(currentKey.note, currentKey.mode, m.root, m.quality);
        accepted := Some(Chord(m.root, m.quality, romanNumeral, bestScore));
      } else {
        accepted := None;
      }
    }
  }
}
