# Audio visualiser analysis core in Dafny

This project models the analysis and control core of a browser music
visualiser. The core covers:

- a key and chord analyser that works on chroma vectors (Krumhansl–Schmuckler
  key profiles, 13 chord templates over 12 roots, roman numerals, chord
  symbols and key signatures);
- a tempo tracker that detects energy onsets and takes the modal BPM of the
  intervals between them;
- a spectrum analyser that measures seven frequency bands and finds peaks,
  harmonics, the centroid, the rolloff, the zero-crossing rate and the
  frequency balance;
- the playlist state machine with shuffle and repeat;
- keyboard-shortcut normalisation and dispatch;
- frame pacing and clean-up helpers;
- crossfade curves and the crossfade lifecycle;
- the audio manager's volume control and file check;
- the page script's beat detector, bar and peak-cap decay, band bin ranges,
  colour interpolation, the classic theme's LED colours and its url-unique
  playlist.

There is one Dafny module per source file, plus `Common` for helpers they
share:

| module | file | source |
|---|---|---|
| `MusicTheory` | `music_theory.dfy` | the pure half of `modules/music-theory-analyzer.js` |
| `MusicAnalyzer` | `music_analyzer.dfy` | the stateful half of `modules/music-theory-analyzer.js` |
| `BpmDetector` | `bpm_detector.dfy` | `modules/bpm-detector.js` |
| `SpectrumAnalyzer` | `spectrum_analyzer.dfy` | `modules/spectrum-analyzer.js` |
| `PlaylistManager` | `playlist_manager.dfy` | `modules/playlist-manager.js` |
| `KeyboardShortcuts` | `keyboard_shortcuts.dfy` | `modules/keyboard-shortcuts.js` |
| `PerformanceManager` | `performance_manager.dfy` | `modules/performance-manager.js` |
| `CrossfadeManager` | `crossfade_manager.dfy` | `modules/crossfade-manager.js` |
| `AudioManager` | `audio_manager.dfy` | `modules/audio-manager.js` |
| `BeatDetection` | `beat_detection.dfy` | the beat detector in `script.js` |
| `Visualizer` | `visualizer.dfy` | the other per-frame helpers and the playlist in `script.js` |

The model keeps the source's form:

- Each JavaScript class whose methods update fields becomes a Dafny `class`.
  Its methods declare `modifies` and state the complete new state.
- Each loop becomes a `method` with a `while` or `for` loop. The method is
  proved equal to a specification function, and the lemmas that state what
  the source promises are proved about those functions.
- The 12-bin chroma buffer, the per-band arrays of the spectrum analyser,
  the bar and peak levels and the downsampled audio buffer stay arrays.
  Lists and maps the source rebuilds become `seq` and `map` fields.
- Callbacks become an append-only event log. Clocks become integer
  millisecond timestamps passed in by the caller.
- `Math.sqrt`, `Math.log2` pitch mapping and the Pearson correlation become
  function parameters. Where a proof needs a property of the square root, it
  is characterised by r · r = p.
- Magnitudes are exact reals. Byte data is a sequence of integers in 0..255.

Two behaviours of the source are reproduced as written:

- `rotateArray` rotates to the left. The chord candidate named "root r"
  therefore has its tones at (t − r) mod 12, so for example E-major audio is
  reported under root G#. `MusicTheory.MirroredRootExample` and
  `MusicTheory.ChordTemplateTonePosition` state this.
- The key-signature table has no entries for the sharp-named keys C#, D#,
  G# and A# major, or A# minor. Those keys fall through to the empty
  signature.

## Model

| member | source | states |
|---|---|---|
| Common.Round | modules/performance-manager.js:232 | Math.round yields the integer within half a unit of x, ties going up |
| Common.ClampR | modules/audio-manager.js:121 | Math.max(lo, Math.min(hi, x)) lies in [lo, hi] and is x itself when x is already there |
| Common.PushShift | modules/performance-manager.js:67-70 | push then shift when over the limit: the new value is last, a short list just grows, and a full list drops its oldest entry and keeps its length |
| Common.SumNonNegative | script.js:147 | a reduce-sum of non-negative values is non-negative |
| Common.EntryAtMostSum | modules/music-theory-analyzer.js:164-166 | no non-negative entry exceeds the sum of all entries |
| Common.ZeroSumAllZero | modules/music-theory-analyzer.js:166 | non-negative entries summing to 0 are all 0 |
| Common.Lower | modules/audio-manager.js:191 | toLowerCase keeps the length and lowers each character |
| Common.LowerIsLower | modules/keyboard-shortcuts.js:202 | toLowerCase leaves no upper-case letter |
| Common.LowerOfLower | modules/keyboard-shortcuts.js:202 | toLowerCase of a lower-case string is that string |
| Common.LowerConcat | modules/audio-manager.js:191-194 | lower-casing a concatenation lower-cases each part |
| Common.Upper | modules/music-theory-analyzer.js:350 | toUpperCase keeps the length and raises each character |
| MusicTheory.Template | modules/music-theory-analyzer.js:70-93 | each of the 13 chord templates has 12 entries, all 0 or 1, with the root (index 0) present |
| MusicTheory.RotateLeft | modules/music-theory-analyzer.js:411-417 | rotateArray keeps the length and moves entry (i + steps) mod n to position i, i.e. it rotates LEFT for any integer steps |
| MusicTheory.ChordTemplate | modules/music-theory-analyzer.js:234-236 | the template tried for root r is the quality's template rotated left by r, 12 entries long |
| MusicTheory.RotatedEntry | modules/music-theory-analyzer.js:411-417 | after a left rotation by r, entry t of a 12-entry table sits at index (t − r + 12) mod 12 |
| MusicTheory.ChordTemplateTonePosition | modules/music-theory-analyzer.js:234-236 | tone t of a quality's template appears at index (t − r) mod 12 of the candidate named with root r |
| MusicTheory.MirroredRootExample | modules/music-theory-analyzer.js:234-245 | the candidate named "E major" (r = 4) scores the pitch classes 0, 3 and 8 (A♭, C, E♭), not E, G♯, B |
| MusicTheory.RootZeroExample | modules/music-theory-analyzer.js:234-245 | the candidate named "C major" (r = 0) scores C, E and G |
| MusicTheory.Zeros | modules/music-theory-analyzer.js:144 | the cleared chroma vector: n entries, each 0 |
| MusicTheory.RawChroma | modules/music-theory-analyzer.js:150-163 | the accumulation over bins 1..n−1 always yields 12 entries |
| MusicTheory.RawChromaNonNegative | modules/music-theory-analyzer.js:150-163 | every accumulated chroma entry is non-negative |
| MusicTheory.Chroma | modules/music-theory-analyzer.js:143-172 | calculateChromaVector: the accumulated pitch-class energies divided by their sum, or left at zero; ChromaIsDistribution and ChromaEntriesInUnitInterval state its contract |
| MusicTheory.ChromaIsDistribution | modules/music-theory-analyzer.js:143-172 | the chroma vector has 12 non-negative entries and either sums to 1 (after normalisation) or is all zeros |
| MusicTheory.ChromaEntriesInUnitInterval | modules/music-theory-analyzer.js:143-172 | each chroma entry lies in [0, 1] |
| MusicTheory.RawChromaIgnoresOtherBins | modules/music-theory-analyzer.js:150-160 | bin 0, bins outside 80–5000 Hz and bins whose pitch class falls outside 0..11 have no influence: spectra agreeing on the contributing bins give the same chroma |
| MusicTheory.SilentRawChroma | modules/music-theory-analyzer.js:150-163 | an all-zero spectrum accumulates nothing |
| MusicTheory.SilentFrameChroma | modules/music-theory-analyzer.js:143-172 | an all-zero spectrum gives the all-zero chroma (the sum is 0, so there is no normalisation) |
| MusicTheory.ScoreSumsBounds | modules/music-theory-analyzer.js:441-450 | with chroma entries in [lo, hi], the weighted score lies between lo and hi times the template weight, which is non-negative |
| MusicTheory.ScoreSumsEmpty | modules/music-theory-analyzer.js:445-450 | a template with no positive entry contributes no score and no weight |
| MusicTheory.ChordScore | modules/music-theory-analyzer.js:441-453 | calculateChordScore: the template-weighted mean of the chroma over the template's positive entries, or 0 without one; ChordScoreBounds bounds it by the smallest and largest bins |
| MusicTheory.ChordScoreBounds | modules/music-theory-analyzer.js:441-453 | calculateChordScore is 0 for a template with no positive entry, and with a positive entry it is at least the smallest chroma bin; it never exceeds the largest bin and is never negative |
| MusicTheory.FirstStrictMaxSpec | modules/music-theory-analyzer.js:190-200 | the "replace on strictly greater" scan keeps the FIRST index of the maximum when it beats the starting floor; otherwise it keeps the floor and no score exceeds it |
| MusicTheory.KeyScores | modules/music-theory-analyzer.js:194-200 | the 24 key correlations in profile-table order (C..B major, then C..B minor) |
| MusicTheory.CandidateScores | modules/music-theory-analyzer.js:234-237 | the 156 chord-candidate scores in the order detectChord tries them (root-major, qualities in table order) |
| MusicTheory.CandidateScoreAt | modules/music-theory-analyzer.js:234-237 | candidate (root r, quality q) is entry 13r + q of the scan, with the score of the template rotated by r |
| MusicTheory.CandidateStep | modules/music-theory-analyzer.js:236-246 | trying one more candidate replaces the running best exactly when its score is strictly greater |
| MusicTheory.CandidateScoresBounded | modules/music-theory-analyzer.js:234-248 | the best score found is at least every candidate's score |
| MusicTheory.BestChordRoot | modules/music-theory-analyzer.js:241-245 | a chord found has its root in 0..11 |
| MusicTheory.BestChordScore | modules/music-theory-analyzer.js:239-245 | a chord found scores above 0, and its score is the score of its own rotated template |
| MusicTheory.BestChord | modules/music-theory-analyzer.js:223-248 | detectChord's search: the first candidate with the strictly highest score above 0, or none; BestChordRoot, BestChordScore, BestChordIsMaximal and NoChordSpec state its contract |
| MusicTheory.BestChordIsMaximal | modules/music-theory-analyzer.js:234-248 | the chord found scores at least as well as every one of the 156 candidates |
| MusicTheory.NoChordSpec | modules/music-theory-analyzer.js:224-248 | when no chord is found, no candidate scores above 0 |
| MusicTheory.SilentChromaNoChord | modules/music-theory-analyzer.js:224-248 | an all-zero chroma matches no chord |
| MusicTheory.RomanNumeral | modules/music-theory-analyzer.js:308-370 | calculateRomanNumeral: the scale-degree numeral of the root in the key, with its case and quality suffix, or the chromatic label off the scale; TonicOfMajorKey, MajorKeyNumeral and MinorKeyNumeral state its casing |
| MusicTheory.TonicOfMajorKey | modules/music-theory-analyzer.js:308-370 | the tonic major triad of every major key is labelled "I" |
| MusicTheory.MajorKeyNumeral | modules/music-theory-analyzer.js:315-343 | in a major key a diatonic chord's numeral is lower-cased exactly when its degree is ii, iii, vi or vii or its quality is minor, followed by the quality suffix |
| MusicTheory.MinorKeyNumeral | modules/music-theory-analyzer.js:344-354 | in a minor key a diatonic numeral is lower-cased exactly for a minor-quality chord on III, VI or VII or a non-major-quality chord on any other degree |
| MusicTheory.ChromaticRomanNumeral | modules/music-theory-analyzer.js:372-388 | getChromaticRomanNumeral: labels offsets 1, 3, 6, 8 and 10 and gives "?" for the rest; MajorKeyChromaticLabels and MinorKeyChromaticGaps state which keys reach which labels |
| MusicTheory.MajorKeyChromaticLabels | modules/music-theory-analyzer.js:322-326 | every non-diatonic root of a major key gets a flat label from the chromatic table, never "?" |
| MusicTheory.MinorKeyChromaticGaps | modules/music-theory-analyzer.js:372-379 | in a minor key the non-diatonic offsets 4, 9 and 11 are labelled "?" and only those |
| MusicTheory.KeyOffsetRange | modules/music-theory-analyzer.js:315 | the scale degree (root − key + 12) mod 12 lies in 0..11 |
| MusicTheory.ChordSymbol | modules/music-theory-analyzer.js:390-408 | getChordSymbol: one suffix per quality, empty for major; ChordSymbolInjective states that no two qualities share one |
| MusicTheory.SuffixPrecedence | modules/music-theory-analyzer.js:357-367 | a diminished quality gets "°" before any other suffix, a 7th without diminished gets "7", and only the plain major and minor triads get no suffix |
| MusicTheory.ChordSymbolInjective | modules/music-theory-analyzer.js:390-408 | distinct qualities have distinct symbols |
| MusicTheory.KeySignatureOf | modules/music-theory-analyzer.js:476-511 | getKeySignature: the table entry for the key's note name and mode, or no accidentals when the table has none; KeySignatureConsistent and the SharpNamed lemmas state which keys get what |
| MusicTheory.KeySignatureConsistent | modules/music-theory-analyzer.js:476-511 | every signature served has sharps + flats equal to the number of accidentals, never mixes sharps and flats, and lists them in circle-of-fifths order |
| MusicTheory.SharpNamedMajorKeysUnlisted | modules/music-theory-analyzer.js:479-510 | C♯, D♯, G♯ and A♯ major, named with sharps, have no table entry; every other major key has one |
| MusicTheory.SharpNamedMinorKeysUnlisted | modules/music-theory-analyzer.js:494-510 | A♯ minor is the only minor key without a table entry |
| MusicAnalyzer.PushBounded | modules/music-theory-analyzer.js:122-125 | the pushed chroma is the newest history entry, the history never grows past 50, and every row keeps 12 bins |
| MusicAnalyzer.ColumnSums | modules/music-theory-analyzer.js:180-184 | the column sums of 12-bin rows have 12 entries |
| MusicAnalyzer.ColumnSumsAppend | modules/music-theory-analyzer.js:180-184 | adding one more row adds that row to every column sum |
| MusicAnalyzer.ColumnSumsBounds | modules/music-theory-analyzer.js:177-188 | with chroma rows in [0, 1], every column sum lies in [0, number of rows], so every averaged entry lies in [0, 1] |
| MusicAnalyzer.KeepRecent | modules/music-theory-analyzer.js:285-289 | a record is kept exactly when it is in the history and younger than 30 s; the filter never lengthens the history |
| MusicAnalyzer.KeepRecentKeepsNewest | modules/music-theory-analyzer.js:279-289 | a record stamped now survives the age filter and stays the newest |
| MusicAnalyzer.KeyStep | modules/music-theory-analyzer.js:175-220 | detectKey over the averaged chroma window: the new key and the events fired; KeyStepSpec states its contract |
| MusicAnalyzer.KeyStepSpec | modules/music-theory-analyzer.js:175-220 | when some of the 24 correlations exceeds 0.6 the new key is the first best-correlating key (no earlier key scores as high, none scores higher) with confidence min(1, correlation), and otherwise the old key stays; onKeyDetected fires exactly when the note or the mode changed |
| MusicAnalyzer.ChordStep | modules/music-theory-analyzer.js:223-305 | detectChord: the new chord, chord history and events; ChordStepSpec states its contract |
| MusicAnalyzer.ChordStepSpec | modules/music-theory-analyzer.js:223-305 | detectChord with no accepted chord changes nothing; an accepted chord (score above 0.08, root in 0..11) becomes current and fires onChordDetected first; only when root or quality changed is a history record added, the history filtered to the last 30 s (the new chord last) and onProgressionUpdate fired with the recent progression |
| MusicAnalyzer.SilentChromaChangesNothing | modules/music-theory-analyzer.js:223-305 | a silent (all-zero) chroma leaves the chord and the history unchanged and fires nothing |
| MusicAnalyzer.RecentProgressionSpec | modules/music-theory-analyzer.js:382-388 | getRecentProgression returns min(history length, 8) items, the last of them describing the newest record |
| MusicAnalyzer.AcceptedOfBest | modules/music-theory-analyzer.js:255-267 | the accepted chord is the search's best match, named in the current key, exactly when its score exceeds 0.08 |
| MusicAnalyzer.RecentRoots | modules/music-theory-analyzer.js:279-289 | recording a chord whose root is in 0..11 keeps every history root in 0..11 |
| MusicAnalyzer.SumRows | modules/music-theory-analyzer.js:177-184 | the summing loop of detectKey yields exactly the column sums of the window's rows, in a fresh 12-entry array |
| MusicAnalyzer.AddRow | modules/music-theory-analyzer.js:181-183 | adding one history row adds each of its bins to the matching running sum |
| MusicAnalyzer.DivideAll | modules/music-theory-analyzer.js:186-188 | every running sum is divided by the window length |
| MusicAnalyzer.AccumulateChroma | modules/music-theory-analyzer.js:144-163 | the clearing and accumulation loop leaves exactly the raw chroma of the frame |
| MusicAnalyzer.NormalizeChroma | modules/music-theory-analyzer.js:165-171 | the normalising step divides every bin by the total when the total is positive, and otherwise leaves the vector as it was |
| MusicAnalyzer.CalculateChordScore | modules/music-theory-analyzer.js:441-453 | the loop computes exactly the template-weighted mean score (0 for a template with no positive entry) |
| MusicAnalyzer.BestCandidate | modules/music-theory-analyzer.js:224-248 | the double loop over 12 roots and 13 qualities finds the first strictly best candidate scoring above 0 (none if no score exceeds 0) and its score |
| MusicAnalyzer.ScanRoot | modules/music-theory-analyzer.js:235-247 | the quality loop for one root advances the running best over that root's 13 candidates |
| MusicAnalyzer.Analyzer.constructor | modules/music-theory-analyzer.js:3-38 | an idle analyser in C major with the chord C major "I", a zero chroma and empty histories and callbacks |
| MusicAnalyzer.Analyzer.StartAnalysis | modules/music-theory-analyzer.js:95-99 | analysis on, with both histories cleared |
| MusicAnalyzer.Analyzer.StopAnalysis | modules/music-theory-analyzer.js:101-103 | analysis off |
| MusicAnalyzer.Analyzer.Reset | modules/music-theory-analyzer.js:467-473 | the chroma is zeroed, both histories are emptied, C major and the chord C major are restored, and isAnalyzing and the last analysis time are left as they were |
| MusicAnalyzer.Analyzer.AnalyzeMusic | modules/music-theory-analyzer.js:106-140 | nothing changes and nothing is returned unless analysing and at least 500 ms since the previous run; otherwise the chroma is extracted, pushed onto the bounded history, the key is re-estimated once 10 frames are held, the chord is detected against the resulting key, and the key, chord and chroma are returned |
| MusicAnalyzer.Analyzer.Analyze | modules/music-theory-analyzer.js:115-133 | the run past the gate: the time is recorded, the frame is recorded, then key and chord are classified |
| MusicAnalyzer.Analyzer.Classify | modules/music-theory-analyzer.js:127-133 | the key step only at 10 or more history frames, then the chord step against the resulting key, with the events of both in order |
| MusicAnalyzer.Analyzer.RecordFrame | modules/music-theory-analyzer.js:118-125 | the chroma vector becomes the frame's chroma and a copy of it is pushed onto the 50-entry history |
| MusicAnalyzer.Analyzer.CalculateChromaVector | modules/music-theory-analyzer.js:143-172 | the chroma vector becomes exactly the normalised chroma of the frame |
| MusicAnalyzer.Analyzer.DetectKey | modules/music-theory-analyzer.js:175-220 | the key and events become those of the key step over the averaged window of the last 20 frames |
| MusicAnalyzer.Analyzer.AverageKeyWindow | modules/music-theory-analyzer.js:177-188 | the averaged chroma of the last min(length, 20) history frames |
| MusicAnalyzer.Analyzer.DetectChord | modules/music-theory-analyzer.js:223-305 | the chord, the chord history and the events become those of the chord step on the current chroma |
| MusicAnalyzer.Analyzer.AcceptChord | modules/music-theory-analyzer.js:224-257 | the accepted chord (root in 0..11) of the current chroma in the current key, or none |
| MusicAnalyzer.Analyzer.RecordChord | modules/music-theory-analyzer.js:255-296 | the chord, the history and the events become what accepting the given chord does to them |
| BpmDetector.SumSquaresBounds | modules/bpm-detector.js:112-115 | the sum of squared byte magnitudes over a bin range is between 0 and 255² per bin |
| BpmDetector.SquareOfByte | modules/bpm-detector.js:114 | a byte magnitude's square lies in 0..65025 |
| BpmDetector.MeanSquareBounds | modules/bpm-detector.js:111-129 | before the square root, the mean square of a byte spectrum lies in [0, 255²] |
| BpmDetector.SquaredDeviations | modules/bpm-detector.js:135 | one squared deviation per history entry, each non-negative |
| BpmDetector.VarianceNonNegative | modules/bpm-detector.js:134-135 | the population variance of the energy history is non-negative |
| BpmDetector.SteadyVarianceIsZero | modules/bpm-detector.js:134-137 | a history whose entries are all equal has zero variance |
| BpmDetector.PeakTest | modules/bpm-detector.js:140-156 | detectPeak: at least 10 energies held, the bass-weighted energy above 1.3 times the local average, and a deviation above 0.01; SilenceNeverPeaks and SteadyHistoryNeverPeaks state when it cannot fire |
| BpmDetector.SilenceNeverPeaks | modules/bpm-detector.js:140-156 | a silent frame (energy and bass 0) over a non-negative history is never a peak |
| BpmDetector.SteadyHistoryNeverPeaks | modules/bpm-detector.js:131-156 | a steady energy history has deviation 0, so the 0.01 deviation test fails and nothing is a peak |
| BpmDetector.AcceptsIff | modules/bpm-detector.js:73-78 | a peak spacing is accepted (200 < Δ < 2000 and 60000/Δ in [60, 200]) exactly when 300 ≤ Δ ≤ 1000 ms |
| BpmDetector.RecentPeaks | modules/bpm-detector.js:86-88 | a peak is kept exactly when it is in the history and younger than 10 s; the filter never lengthens the history |
| BpmDetector.Intervals | modules/bpm-detector.js:162-168 | every kept spacing lies strictly between 200 and 2000 ms, and there are fewer spacings than peaks |
| BpmDetector.BpmOfRange | modules/bpm-detector.js:175 | a spacing strictly between 200 and 2000 ms rounds to a BPM in 30..300 |
| BpmDetector.Bpms | modules/bpm-detector.js:174-177 | one rounded BPM per spacing |
| BpmDetector.ModeScan | modules/bpm-detector.js:180-188 | the walk over the BPM counts in ascending key order, keeping a key only on a strictly larger count; ModeScanSpec and ModeOfBpms state what it finds |
| BpmDetector.ModeScanSpec | modules/bpm-detector.js:180-188 | the walk over the counts in ascending key order keeps a key whose count no scanned key exceeds and every smaller key falls short of; a zero count means no key was seen |
| BpmDetector.ModeOfBpms | modules/bpm-detector.js:173-188 | over BPMs in 30..300, the walk finds a BPM that occurs, whose count (between 1 and the number of BPMs) bounds every other count, ties going to the smallest BPM |
| BpmDetector.ModeCountRange | modules/bpm-detector.js:180-188 | the winning count lies between 1 and the number of spacings and is the count of the winning BPM |
| BpmDetector.CountAtMostSize | modules/bpm-detector.js:191 | no BPM occurs more often than there are spacings |
| BpmDetector.Estimate | modules/bpm-detector.js:158-190 | the BPM and confidence calculateBPMFromPeaks computes before smoothing; EstimateDefined, EstimateIsMode and EstimateConfidence state its contract |
| BpmDetector.EstimateDefined | modules/bpm-detector.js:158-170 | calculateBPMFromPeaks produces an estimate exactly when there are at least 4 peaks and 3 valid spacings |
| BpmDetector.BpmsInRange | modules/bpm-detector.js:162-177 | every interval BPM lies in 30..300 |
| BpmDetector.EstimateIsMode | modules/bpm-detector.js:173-188 | the estimated BPM is the most frequent rounded interval BPM, ties going to the smallest |
| BpmDetector.EstimateConfidence | modules/bpm-detector.js:191 | the confidence is the modal BPM's share of the spacings, in (0, 1] |
| BpmDetector.ShareInUnit | modules/bpm-detector.js:191 | min(1, count / max(n, 1)) is count / n and lies in (0, 1] when 1 ≤ count ≤ n |
| BpmDetector.Smooth | modules/bpm-detector.js:193-201 | the detected BPM when none is held yet, otherwise the rounded 0.8/0.2 blend; SmoothBetween bounds it by the two values |
| BpmDetector.SmoothBetween | modules/bpm-detector.js:194-201 | the smoothed BPM never leaves the span of the old and detected values by more than the rounding half-step |
| BpmDetector.TempoDescription | modules/bpm-detector.js:288-296 | getTempoDescription: the label for the first threshold the BPM is below; TempoDescriptionByCount and TempoMonotone state its contract |
| BpmDetector.TempoDescriptionByCount | modules/bpm-detector.js:288-296 | the tempo label is the one indexed by the number of thresholds (60, 80, 100, 120, 140, 160) at or below the BPM |
| BpmDetector.TempoMonotone | modules/bpm-detector.js:288-296 | a faster tempo reaches at least as many thresholds, so labels only move forward as the BPM rises |
| BpmDetector.TempoExamples | modules/bpm-detector.js:288-296 | 70 is "Slow", 119 "Medium", 120 "Fast", 0 "Very Slow" and 300 "Extremely Fast" |
| BpmDetector.BeatTimesAppend | modules/bpm-detector.js:210-216 | onBPMDetected events add no beat times |
| BpmDetector.BeatsSpaced | modules/bpm-detector.js:72-105 | once a peak time is recorded, a beat accepted at `now` is more than 200 ms after every earlier beat, so the extended beat list stays spaced |
| BpmDetector.Detector.constructor | modules/bpm-detector.js:3-28 | an idle detector with a 43-entry zero energy history, empty BPM and peak histories, BPM 0, confidence 0 and last peak time 0 |
| BpmDetector.Detector.StartAnalysis | modules/bpm-detector.js:34-39 | analysis on, BPM and peak histories cleared, the energy history zero-filled |
| BpmDetector.Detector.StopAnalysis | modules/bpm-detector.js:41-43 | analysis off |
| BpmDetector.Detector.Reset | modules/bpm-detector.js:270-277 | BPM, confidence and last peak time 0, both histories emptied, the energy history zero-filled |
| BpmDetector.Detector.SetBpm | modules/bpm-detector.js:280-285 | a BPM in [60, 200] is taken with confidence 1; any other BPM changes nothing |
| BpmDetector.Detector.CalculateEnergy | modules/bpm-detector.js:111-117 | the loop computes exactly the RMS magnitude of the whole spectrum divided by 255 |
| BpmDetector.Detector.CalculateBandEnergy | modules/bpm-detector.js:119-129 | the loop computes exactly the RMS magnitude of bins max(0, start)..min(length, end)−1 divided by 255 |
| BpmDetector.Detector.UpdateEnergyVariance | modules/bpm-detector.js:131-138 | below 10 history entries nothing changes; otherwise the deviation becomes the square root of the history's variance |
| BpmDetector.BpmUpdate | modules/bpm-detector.js:158-217 | calculateBPMFromPeaks on values: no change without an estimate, otherwise the confidence, smoothed BPM, bounded history and event; Detector.CalculateBpmFromPeaks is proved equal to it, and EstimateIsMode and EstimateConfidence state the estimate |
| BpmDetector.Detector.CalculateBpmFromPeaks | modules/bpm-detector.js:158-217 | BPM, confidence, BPM history and events become exactly those of the estimate step on the peak history |
| BpmDetector.Detector.CollectIntervals | modules/bpm-detector.js:162-168 | the loop collects exactly the valid consecutive spacings |
| BpmDetector.Detector.CountBpms | modules/bpm-detector.js:173-177 | the tally is exactly the multiset of rounded interval BPMs |
| BpmDetector.Detector.PickMode | modules/bpm-detector.js:180-188 | the walk returns the winning count and, when it is positive, the winning BPM, otherwise the current BPM |
| BpmDetector.Detector.RegisterPeak | modules/bpm-detector.js:72-106 | the last peak time becomes now; an acceptable spacing appends the peak, drops peaks 10 s old, re-estimates and fires onBeatDetected with the new BPM; an unacceptable one changes nothing else |
| BpmDetector.Detector.AcceptPeak | modules/bpm-detector.js:76-101 | the peak history, BPM, confidence, BPM history and events after an accepted peak, with exactly one new beat time |
| BpmDetector.Detector.DetectBpm | modules/bpm-detector.js:46-109 | when not analysing nothing changes and the current BPM is returned; otherwise the energy joins the 43-entry history, the deviation is refreshed, and the peak branch runs exactly when the onset test fires; a beat is only ever reported more than 200 ms after the previous peak |
| SpectrumAnalyzer.MagnitudeOfByte | modules/spectrum-analyzer.js:124 | a byte magnitude divided by 255 lies in [0, 1] |
| SpectrumAnalyzer.BandScanPeak | modules/spectrum-analyzer.js:119-131 | the band scan's peak is 0 or the largest normalised magnitude in the bin range, every bin is at most the peak, and peakFrequency is the first bin reaching it times the bin width |
| SpectrumAnalyzer.BandScanEnergy | modules/spectrum-analyzer.js:119-126 | the accumulated band energy is never negative |
| SpectrumAnalyzer.BandBins | modules/spectrum-analyzer.js:116-117 | for a band with 0 ≤ min < max the start bin floor(min / binWidth) is non-negative and not after the end bin |
| SpectrumAnalyzer.MeasureBand | modules/spectrum-analyzer.js:115-136 | measuring a band keeps its name and Hz range and only sets energy, peak and peakFrequency |
| SpectrumAnalyzer.MeasureBandSpec | modules/spectrum-analyzer.js:111-137 | a measured band keeps its layout and its peak and peakFrequency are the band peak over bins startBin..min(endBin, len − 1) |
| SpectrumAnalyzer.ScanBand | modules/spectrum-analyzer.js:119-131 | the per-band loop accumulates exactly the energy, peak and peak frequency of the band scan |
| SpectrumAnalyzer.ComputeBand | modules/spectrum-analyzer.js:115-136 | one band's update in analyzeFrequencyBands equals the band measured on the spectrum |
| SpectrumAnalyzer.LocalPeaksSpec | modules/spectrum-analyzer.js:144-157 | the candidate peaks are exactly the bins 1..len − 2 strictly above both neighbours and above 0.7·255, each recorded with its frequency and magnitude, in ascending bin order |
| SpectrumAnalyzer.FindLocalPeaks | modules/spectrum-analyzer.js:140-157 | the detection loop collects exactly the local peaks of the frame |
| SpectrumAnalyzer.Insert | modules/spectrum-analyzer.js:160 | inserting a peak into a list adds exactly that peak: same multiset plus one, length plus one |
| SpectrumAnalyzer.InsertKeepsSorted | modules/spectrum-analyzer.js:160 | inserting into a list sorted by non-increasing magnitude keeps it sorted |
| SpectrumAnalyzer.SortByMagnitude | modules/spectrum-analyzer.js:160 | sorting the peaks by descending magnitude yields a permutation of them that is sorted by non-increasing magnitude |
| SpectrumAnalyzer.TopPeaks | modules/spectrum-analyzer.js:139-161 | the frame's local peaks sorted loudest first and cut to ten; TopPeaksSpec and DominantIsLoudest state its contract |
| SpectrumAnalyzer.TopPeaksSpec | modules/spectrum-analyzer.js:139-161 | the stored peak list has at most 10 entries, is sorted by non-increasing magnitude, holds only genuine local peaks and is empty exactly when the frame has no peak |
| SpectrumAnalyzer.TopPeaksPositive | modules/spectrum-analyzer.js:144-150 | every stored peak has a positive frequency, since its bin is at least 1 |
| SpectrumAnalyzer.BinFrequencyPositive | modules/spectrum-analyzer.js:150 | the frequency i·sampleRate / (2·len) of a bin i ≥ 1 is positive |
| SpectrumAnalyzer.DominantIsLoudest | modules/spectrum-analyzer.js:160-166 | when any local peak exists, the first sorted peak (the dominant one) is a local peak at least as loud as every local peak |
| SpectrumAnalyzer.RecentSnapshots | modules/spectrum-analyzer.js:175-179 | the peak history filtered to snapshots younger than 5000 ms; RecentSnapshotsSpec states its contract |
| SpectrumAnalyzer.RecentSnapshotsSpec | modules/spectrum-analyzer.js:175-179 | the filtered history holds exactly the snapshots younger than 5000 ms |
| SpectrumAnalyzer.HarmonicOf | modules/spectrum-analyzer.js:288-302 | one peak's harmonic: the rounded ratio to the fundamental when it is at least 2 and within 0.1, none otherwise or at 0 Hz; HarmonicScanSpec states it per peak |
| SpectrumAnalyzer.HarmonicScan | modules/spectrum-analyzer.js:280-305 | the harmonics of peaks 1..n−1 relative to the first, in order; HarmonicScanSpec states its contract |
| SpectrumAnalyzer.HarmonicScanSpec | modules/spectrum-analyzer.js:280-305 | with a 0 Hz fundamental nothing is a harmonic; otherwise every harmonic has number round(ratio) ≥ 2, lies within 0.1 of it, names the top peak as fundamental and copies the frequency and magnitude of one of the other peaks |
| SpectrumAnalyzer.ScanHarmonics | modules/spectrum-analyzer.js:283-303 | the harmonics loop over peaks 1..n − 1 builds exactly the harmonic scan |
| SpectrumAnalyzer.WeightedSumBounds | modules/spectrum-analyzer.js:193-202 | the magnitude sum is non-negative and the frequency-weighted sum lies between 0 and the top bin's frequency times the magnitude sum |
| SpectrumAnalyzer.BinFrequencyMonotone | modules/spectrum-analyzer.js:198 | bin frequencies are non-negative and grow with the bin index |
| SpectrumAnalyzer.Centroid | modules/spectrum-analyzer.js:193-204 | the magnitude-weighted mean bin frequency, 0 for a silent frame; CentroidBounds and SilentCentroid state its contract |
| SpectrumAnalyzer.CentroidBounds | modules/spectrum-analyzer.js:193-204 | the spectral centroid lies between 0 Hz and the highest bin's frequency |
| SpectrumAnalyzer.SilentCentroid | modules/spectrum-analyzer.js:204 | a silent frame has centroid 0 |
| SpectrumAnalyzer.SilentMagnitudeSum | modules/spectrum-analyzer.js:196-202 | on a silent frame the magnitude sum is 0 |
| SpectrumAnalyzer.ComputeCentroid | modules/spectrum-analyzer.js:193-204 | the centroid loop computes exactly the magnitude-weighted mean frequency, or 0 when the magnitude sum is 0 |
| SpectrumAnalyzer.CumulativeEnergyMonotone | modules/spectrum-analyzer.js:218-221 | the cumulative squared magnitude never decreases along the bins |
| SpectrumAnalyzer.RolloffBin | modules/spectrum-analyzer.js:218-226 | the search for the rolloff bin stops at a bin index within range |
| SpectrumAnalyzer.Rolloff | modules/spectrum-analyzer.js:206-226 | the frequency of the first bin reaching 90 % of the cumulative energy, keeping the previous value when none does; RolloffBinSpec and SilentRolloff state its contract |
| SpectrumAnalyzer.RolloffBinSpec | modules/spectrum-analyzer.js:215-226 | the rolloff bin is the first bin whose cumulative energy reaches 90 % of the total, and on a non-empty frame such a bin always exists |
| SpectrumAnalyzer.SilentRolloff | modules/spectrum-analyzer.js:215-226 | a silent frame rolls off at 0 Hz |
| SpectrumAnalyzer.SilentEnergy | modules/spectrum-analyzer.js:210-213 | a silent frame has zero cumulative energy |
| SpectrumAnalyzer.ComputeRolloff | modules/spectrum-analyzer.js:207-226 | the total-energy and rolloff loops compute exactly the rolloff frequency and keep the previous value when no bin qualifies |
| SpectrumAnalyzer.Crossings | modules/spectrum-analyzer.js:262-270 | n samples have at most n − 1 sign changes around 128 |
| SpectrumAnalyzer.ZeroCrossingRate | modules/spectrum-analyzer.js:262-272 | crossings of the 128 midline per sample; ZeroCrossingRateBounds states it lies in [0, 1) |
| SpectrumAnalyzer.ZeroCrossingRateBounds | modules/spectrum-analyzer.js:262-272 | the zero-crossing rate lies in [0, 1) |
| SpectrumAnalyzer.ComputeZeroCrossingRate | modules/spectrum-analyzer.js:262-272 | the crossing loop computes exactly crossings / length |
| SpectrumAnalyzer.FrequencyBalance | modules/spectrum-analyzer.js:432-449 | the frequency balance of seven band energies lies in [0, 1] |
| SpectrumAnalyzer.BalancedIsOne | modules/spectrum-analyzer.js:437-448 | equal bass, mid and treble energy gives a balance of exactly 1 |
| SpectrumAnalyzer.OneSidedIsZero | modules/spectrum-analyzer.js:437-448 | energy only in the bass bands gives a balance of 0 |
| SpectrumAnalyzer.Energies | modules/spectrum-analyzer.js:433-435 | one energy per band |
| SpectrumAnalyzer.FrequencyBin | modules/spectrum-analyzer.js:309-312 | getFrequencyBin: round(frequency / nyquist · bins), with Math.round's ties going up; BinRoundTrip states that it inverts FrequencyOfBin |
| SpectrumAnalyzer.FrequencyOfBin | modules/spectrum-analyzer.js:315-318 | getBinFrequency: bin / bins · nyquist; BinRoundTrip states that FrequencyBin inverts it |
| SpectrumAnalyzer.BinRoundTrip | modules/spectrum-analyzer.js:309-318 | getFrequencyBin inverts getBinFrequency: the frequency of a bin maps back to that bin |
| SpectrumAnalyzer.InitialBandsWellFormed | modules/spectrum-analyzer.js:62-73 | there are exactly seven bands and each has 0 ≤ min < max |
| SpectrumAnalyzer.Analyzer.constructor | modules/spectrum-analyzer.js:3-47 | a new analyser has the seven initial bands, a 44100 Hz default rate, no analyser, is not analysing and has empty peaks, harmonics, history and zero features |
| SpectrumAnalyzer.Analyzer.SetAnalyser | modules/spectrum-analyzer.js:53-60 | attaching an analyser records its sample rate and bin count and allocates zeroed buffers of that length |
| SpectrumAnalyzer.Analyzer.StartAnalysis | modules/spectrum-analyzer.js:75-82 | analysis runs afterwards exactly when it already ran or an analyser is attached |
| SpectrumAnalyzer.Analyzer.StopAnalysis | modules/spectrum-analyzer.js:84-90 | analysis is stopped afterwards |
| SpectrumAnalyzer.Analyzer.AnalyzeFrequencyBands | modules/spectrum-analyzer.js:111-137 | every band is replaced in place by itself measured on the current spectrum |
| SpectrumAnalyzer.Analyzer.DetectPeaks | modules/spectrum-analyzer.js:139-189 | the stored peaks are the ten loudest, the dominant frequency changes only when a peak exists, the history gains the full sorted list and drops entries older than 5000 ms, and a peak event fires only when a peak exists |
| SpectrumAnalyzer.Analyzer.StorePeaks | modules/spectrum-analyzer.js:160-166 | stores the first ten sorted peaks and sets the dominant frequency from the loudest when one exists |
| SpectrumAnalyzer.Analyzer.RecordPeaks | modules/spectrum-analyzer.js:168-188 | appends the full peak list to the history, filters it to the last 5000 ms and logs a peak event only when peaks exist |
| SpectrumAnalyzer.Analyzer.CalculateSpectralFeatures | modules/spectrum-analyzer.js:191-277 | centroid, rolloff and zero-crossing rate become those of the current buffers and one feature event is logged |
| SpectrumAnalyzer.Analyzer.FindHarmonics | modules/spectrum-analyzer.js:280-306 | harmonics are unchanged when no peak is stored and otherwise become the harmonic scan of the stored peaks |
| SpectrumAnalyzer.Analyzer.PerformAnalysis | modules/spectrum-analyzer.js:92-109 | without an analyser nothing changes; otherwise the new buffers are read and bands, peaks, features and harmonics are computed in order, followed by the spectrum event |
| SpectrumAnalyzer.Analyzer.Analyze | modules/spectrum-analyzer.js:100-108 | the four analysis steps run in source order on the current buffers, ending with the spectrum event |
| SpectrumAnalyzer.Analyzer.Describe | modules/spectrum-analyzer.js:101-108 | peaks, features and harmonics are computed in order, ending with the spectrum event |
| SpectrumAnalyzer.Analyzer.Conclude | modules/spectrum-analyzer.js:102-108 | features and harmonics are computed, then the spectrum event is logged |
| SpectrumAnalyzer.Analyzer.Reset | modules/spectrum-analyzer.js:452-468 | peaks, harmonics and history are emptied, dominant frequency and features are 0, and every band is back to its initial zeroed state |
| KeyboardShortcuts.LastPlus | modules/keyboard-shortcuts.js:202 | the split point is −1 when the string has no '+', and otherwise the position of its last '+' |
| KeyboardShortcuts.Split | modules/keyboard-shortcuts.js:202 | split('+') yields at least one part and no part contains '+' |
| KeyboardShortcuts.SplitJoin | modules/keyboard-shortcuts.js:202-214 | splitting a '+'-join of plus-free parts gives back those parts |
| KeyboardShortcuts.JoinSplit | modules/keyboard-shortcuts.js:202-214 | joining the parts of split('+') with '+' gives back the string |
| KeyboardShortcuts.SplitLower | modules/keyboard-shortcuts.js:202 | the parts of a lower-case string are lower case |
| KeyboardShortcuts.JoinLower | modules/keyboard-shortcuts.js:214 | joining lower-case parts gives a lower-case string |
| KeyboardShortcuts.RankIsStringOrder | modules/keyboard-shortcuts.js:214 | on the four modifier names, ranking alt < ctrl < meta < shift agrees exactly with JavaScript's default string sort order |
| KeyboardShortcuts.Copies | modules/keyboard-shortcuts.js:214 | a run of n copies of one modifier has length n and holds only that modifier |
| KeyboardShortcuts.CopiesCount | modules/keyboard-shortcuts.js:214 | a run of n copies of x contains x n times and nothing else |
| KeyboardShortcuts.SortModifiersRankSorted | modules/keyboard-shortcuts.js:214 | the sorted modifiers are in rank order |
| KeyboardShortcuts.SortModifiersCounts | modules/keyboard-shortcuts.js:214 | sorting the modifiers is a permutation of them |
| KeyboardShortcuts.SortModifiersStringOrder | modules/keyboard-shortcuts.js:214 | the sorted modifiers are in non-decreasing string order, as Array.prototype.sort leaves them |
| KeyboardShortcuts.SortModifiers | modules/keyboard-shortcuts.js:214 | modifiers.sort() on the four modifier names; SortModifiersSpec, SortModifiersStringOrder and SortModifiersTwice state its contract |
| KeyboardShortcuts.SortModifiersSpec | modules/keyboard-shortcuts.js:203-214 | modifiers.sort() yields only modifiers, in string order, as a permutation of its input |
| KeyboardShortcuts.SortModifiersTwice | modules/keyboard-shortcuts.js:214 | sorting sorted modifiers changes nothing |
| KeyboardShortcuts.Modifiers | modules/keyboard-shortcuts.js:203-212 | the collected modifiers are all among ctrl, shift, alt and meta |
| KeyboardShortcuts.MainKey | modules/keyboard-shortcuts.js:204-212 | the main key is the empty string or one of the parts, and never a modifier name |
| KeyboardShortcuts.ModifiersOfModifiers | modules/keyboard-shortcuts.js:206-212 | a list of modifiers is collected unchanged |
| KeyboardShortcuts.AppendMainKey | modules/keyboard-shortcuts.js:206-212 | a trailing non-modifier part becomes the main key and leaves the modifiers unchanged |
| KeyboardShortcuts.ModifiersAppend | modules/keyboard-shortcuts.js:206-212 | each part is pushed to the modifiers exactly when it is a modifier name |
| KeyboardShortcuts.NormalFormIsFixed | modules/keyboard-shortcuts.js:200-215 | a key already in normal form (sorted modifiers, then a lower-case main key) normalizes to itself |
| KeyboardShortcuts.Normalize | modules/keyboard-shortcuts.js:200-215 | normalizeKey: lower-case, split on '+', sort the modifiers and put the main key last; NormalizeIdempotent and NormalizeByParts state its contract |
| KeyboardShortcuts.NormalizeIdempotent | modules/keyboard-shortcuts.js:200-215 | normalizeKey is idempotent |
| KeyboardShortcuts.NormalizePlain | modules/keyboard-shortcuts.js:200-215 | a key with no '+' that is not a modifier name normalizes to its lower case |
| KeyboardShortcuts.NormalizeByParts | modules/keyboard-shortcuts.js:200-215 | the normal form is the sorted modifiers followed by the last non-modifier part, joined with '+' |
| KeyboardShortcuts.ShiftCtrlExample | modules/keyboard-shortcuts.js:200-215 | "Shift+Ctrl+S" normalizes to "ctrl+shift+s" |
| KeyboardShortcuts.NormalizeKey | modules/keyboard-shortcuts.js:200-215 | the split, collect, sort and join steps compute exactly the normal form of the key |
| KeyboardShortcuts.KeyFromEvent | modules/keyboard-shortcuts.js:256-279 | getKeyFromEvent: the held modifiers in sorted order, then the lower-cased key with ' ' spelled "space"; EventKeyIsNormal states it is already normal |
| KeyboardShortcuts.EventKeyIsNormal | modules/keyboard-shortcuts.js:256-279 | the key built from an event whose key has no '+' and is not a modifier name is already in normal form, so it can match a registered shortcut |
| KeyboardShortcuts.PartsOfModifiedKey | modules/keyboard-shortcuts.js:206-212 | a modifier followed by a main key splits into that modifier and that main key |
| KeyboardShortcuts.CtrlSExample | modules/keyboard-shortcuts.js:256-279 | the event for Ctrl+S produces "ctrl+s", the same key addShortcut stores for "ctrl+s" |
| KeyboardShortcuts.SpecialKey | modules/keyboard-shortcuts.js:266-276 | the special-key table: ' ' becomes "space", and the arrow names map to themselves; SpaceExample states the space case |
| KeyboardShortcuts.SpaceExample | modules/keyboard-shortcuts.js:256-279 | the event key " " maps to "space", the same key "Space" is stored under |
| KeyboardShortcuts.Digit | modules/keyboard-shortcuts.js:179-180 | i.toString() of a digit is one character between '0' and '9' |
| KeyboardShortcuts.Themes | modules/keyboard-shortcuts.js:179-183 | the first n rounds of the theme loop register n bindings |
| KeyboardShortcuts.Registry | modules/keyboard-shortcuts.js:186-193 | the map after adding a list of bindings in order, each under its normal form; RegistryKeys, RegistryLastWins and RegisterAll state its contract |
| KeyboardShortcuts.RegistryKeys | modules/keyboard-shortcuts.js:186-193 | after registering a list of bindings, a key is present exactly when it is the normal form of some binding's key |
| KeyboardShortcuts.RegistryLastWins | modules/keyboard-shortcuts.js:186-193 | a binding whose normal form no later binding shares ends up in the registry with its own description |
| KeyboardShortcuts.RegistryLaterList | modules/keyboard-shortcuts.js:186-193 | bindings registered later win over everything registered before them |
| KeyboardShortcuts.DigitIsNormal | modules/keyboard-shortcuts.js:179-183 | a digit key is its own normal form |
| KeyboardShortcuts.ThemeRegistry | modules/keyboard-shortcuts.js:179-183 | after n rounds of the theme loop, each digit 1..n selects its own theme |
| KeyboardShortcuts.DigitsDiffer | modules/keyboard-shortcuts.js:179-180 | distinct digits give distinct keys |
| KeyboardShortcuts.RegistryNewest | modules/keyboard-shortcuts.js:186-193 | the shortcut added last is the one stored under its key |
| KeyboardShortcuts.RegistryKeepsOther | modules/keyboard-shortcuts.js:186-193 | adding a shortcut leaves every other key's entry unchanged |
| KeyboardShortcuts.ThemesOverrideEarlier | modules/keyboard-shortcuts.js:178-183 | whatever was registered before the theme loop, digits 1..9 end up selecting themes |
| KeyboardShortcuts.ThemeKeysOverrideModeKeys | modules/keyboard-shortcuts.js:98-183 | the theme loop overwrites the "3" (3D mode) and "2" (2D mode) shortcuts, so those keys select themes 3 and 2 |
| KeyboardShortcuts.FixedBindingsSwitchModes | modules/keyboard-shortcuts.js:98-111 | the fixed bindings register "3" for 3D mode and "2" for 2D mode before the theme loop |
| KeyboardShortcuts.RegisterAll | modules/keyboard-shortcuts.js:21-184 | registering the bindings in order yields the registry of that list, with every entry stored under its own normal form |
| KeyboardShortcuts.Shortcuts.constructor | modules/keyboard-shortcuts.js:3-19 | a new handler is enabled, holds no modifier and has every default binding registered |
| KeyboardShortcuts.Shortcuts.AddShortcut | modules/keyboard-shortcuts.js:186-193 | the shortcut is stored under its normalized key, replacing any earlier entry, and all other entries stay |
| KeyboardShortcuts.Shortcuts.RemoveShortcut | modules/keyboard-shortcuts.js:195-198 | exactly the normalized key is removed |
| KeyboardShortcuts.Shortcuts.Lookup | modules/keyboard-shortcuts.js:225-226 | a shortcut is found exactly when the event's key is registered |
| KeyboardShortcuts.IsTypingInInput | modules/keyboard-shortcuts.js:281-285 | isTypingInInput: an input, textarea or select element in any letter case, or a content-editable one; Shortcuts.KeyDown states that nothing fires then |
| KeyboardShortcuts.Shortcuts.KeyDown | modules/keyboard-shortcuts.js:218-235 | when disabled or typing in a field nothing changes; otherwise the modifier flags follow the event and the matching shortcut, if any, fires once |
| KeyboardShortcuts.Shortcuts.KeyUp | modules/keyboard-shortcuts.js:237-239 | key-up copies the event's modifier flags |
| KeyboardShortcuts.Shortcuts.UpdateModifierKeys | modules/keyboard-shortcuts.js:249-254 | the four modifier flags become the event's |
| KeyboardShortcuts.Shortcuts.Enable | modules/keyboard-shortcuts.js:476-478 | shortcuts are enabled afterwards |
| KeyboardShortcuts.Shortcuts.Disable | modules/keyboard-shortcuts.js:480-482 | shortcuts are disabled afterwards |
| KeyboardShortcuts.Shortcuts.Destroy | modules/keyboard-shortcuts.js:488-490 | the registry is emptied |
| PerformanceManager.FrameTime | modules/performance-manager.js:5 | the target frame time 1000 / frameRate, characterised by frameTime · frameRate = 1000 |
| PerformanceManager.FrameFps | modules/performance-manager.js:64-65 | the fps of a frame gap, characterised by fps · frameTime = 1000 |
| PerformanceManager.SumBelow | modules/performance-manager.js:73 | the sum of a non-empty fps history whose entries are all below c is below length · c |
| PerformanceManager.MeanBelow | modules/performance-manager.js:73-74 | when every recorded fps is below a bound, so is their average |
| PerformanceManager.MeanWithin | modules/performance-manager.js:73 | the average fps lies between the lowest and highest bound on the entries |
| PerformanceManager.Disposals | modules/performance-manager.js:196-207 | the resources actually disposed are at most the queued ones |
| PerformanceManager.DisposalsMembers | modules/performance-manager.js:197-206 | a resource is disposed exactly when it was queued and has a dispose function |
| PerformanceManager.DisposalsConcat | modules/performance-manager.js:197-206 | disposing two queues in turn disposes the first queue's resources, then the second's |
| PerformanceManager.Downsample | modules/performance-manager.js:214-222 | downsampling yields exactly targetSize samples, sample i being the source at floor(i · len / targetSize), stored into a Uint8Array |
| PerformanceManager.SourceIndex | modules/performance-manager.js:218 | every index floor(i · step) read by the downsampling loop lies inside the source buffer |
| PerformanceManager.SourceIndexIncreasing | modules/performance-manager.js:214-219 | downsampling starts at the first sample and reads strictly increasing source positions |
| PerformanceManager.DownsampleOfBytes | modules/performance-manager.js:215-219 | on byte input the Uint8Array store changes nothing, so each output sample equals its source sample |
| PerformanceManager.OptimizeAudioBuffers | modules/performance-manager.js:210-223 | a buffer no longer than the target comes back as the same buffer; otherwise a fresh buffer holding the downsampled data |
| PerformanceManager.Overflow | modules/performance-manager.js:148-150 | the number of oldest particles removed is zero within the limit and otherwise leaves at most maxParticles |
| PerformanceManager.Survivors | modules/performance-manager.js:160-168 | the filter keeps only live particles that still have an element |
| PerformanceManager.SurvivorsMembers | modules/performance-manager.js:160-168 | a particle survives exactly when it was kept and is alive with an element |
| PerformanceManager.SurvivorsConcat | modules/performance-manager.js:160-168 | filtering a concatenation filters each part |
| PerformanceManager.OptimizeParticleSystem | modules/performance-manager.js:147-169 | the oldest overflow particles are dropped, the survivors of the rest are returned and number at most maxParticles, and exactly the attached dropped particles and the attached dead ones are detached from the document |
| PerformanceManager.Manager.constructor | modules/performance-manager.js:3-17 | a new manager runs at 60 fps, not in low-power mode, with no frames, history or queued disposals |
| PerformanceManager.Manager.ShouldRender | modules/performance-manager.js:52-60 | shouldRender: a frame time at the current rate has passed since the last frame; ShouldRenderGate states it in whole milliseconds |
| PerformanceManager.Manager.ShouldRenderGate | modules/performance-manager.js:52-60 | a frame renders exactly when at least 1000 / frameRate ms have passed: 34 ms whole milliseconds in low-power mode, 17 otherwise |
| PerformanceManager.Manager.UpdateFrameStats | modules/performance-manager.js:62-81 | the frame time and count advance; after a first frame the fps is pushed onto a 60-entry history, and low-power mode turns on when the average falls below 30 |
| PerformanceManager.Manager.EnableLowPowerMode | modules/performance-manager.js:83-88 | low-power mode at 30 fps with its frame time |
| PerformanceManager.Manager.DisableLowPowerMode | modules/performance-manager.js:90-94 | normal mode at 60 fps with its frame time |
| PerformanceManager.Manager.AdjustPerformance | modules/performance-manager.js:96-100 | afterwards the manager is in low-power mode at 30 fps |
| PerformanceManager.Manager.ScheduleDisposal | modules/performance-manager.js:192-194 | the resource is appended to the disposal queue |
| PerformanceManager.Manager.ProcessDisposalQueue | modules/performance-manager.js:196-207 | the queue is drained and exactly its disposable resources are disposed, in order |
| PerformanceManager.Manager.PerformanceStats | modules/performance-manager.js:226-238 | getPerformanceStats: the fps is the rounded mean of the samples, 0 without any, and the other fields are the manager's own |
| PerformanceManager.Manager.PerformanceStatsBounds | modules/performance-manager.js:226-238 | the reported fps is the rounded average, so it stays within half a frame of the bounds on the history, and the target rate is 30 in low-power mode and 60 otherwise |
| PerformanceManager.Manager.Destroy | modules/performance-manager.js:241-250 | pending disposals are processed, and the queue and fps history are emptied |
| PlaylistManager.MakeTrack | modules/playlist-manager.js:26-35 | a new track has the given id, duration 0, the given file and add time, a non-empty name that is the caller's name when one is given, and a URL exactly when one is given |
| PlaylistManager.ParseRepeat | modules/playlist-manager.js:175-176 | a repeat mode is accepted exactly when it is "none", "one" or "all" |
| PlaylistManager.Identity | modules/playlist-manager.js:183 | the unshuffled order is 0, 1, …, n − 1 |
| PlaylistManager.PermutationFacts | modules/playlist-manager.js:182-191 | a shuffle order has one entry per track, each a valid track index, every track appears, and no index repeats |
| PlaylistManager.IdentityCountAtMostOne | modules/playlist-manager.js:183 | the identity order holds each index at most once |
| PlaylistManager.IndexOf | modules/playlist-manager.js:137 | indexOf returns −1 exactly when the value is absent, and otherwise its first position |
| PlaylistManager.NextIndex | modules/playlist-manager.js:128-148 | getNextTrackIndex: the current track under repeat "one", otherwise the next in list or shuffle order, −1 on wrapping to 0 without repeat "all"; StepsInRange, EndOfPlaylist and the StepsUndo lemmas state its contract |
| PlaylistManager.PreviousIndex | modules/playlist-manager.js:150-166 | getPreviousTrackIndex: the current track under repeat "one", otherwise the previous in list or shuffle order, wrapping without an end check; StepsInRange and the StepsUndo lemmas state its contract |
| PlaylistManager.StepsInRange | modules/playlist-manager.js:128-166 | next and previous indices are −1 or a valid track index, and previous is never −1 on a non-empty playlist unless repeat is "one" |
| PlaylistManager.EndOfPlaylist | modules/playlist-manager.js:140-145 | without repeat, stepping on in list order from the last track or from no track ends the playlist |
| PlaylistManager.IdentityOrderIsListOrder | modules/playlist-manager.js:136-162 | with the identity order, shuffled stepping is the same as list-order stepping |
| PlaylistManager.RingSteps | modules/playlist-manager.js:138-162 | stepping forward and backward around a ring of n positions undo each other |
| PlaylistManager.ListOrderStepsUndo | modules/playlist-manager.js:128-166 | with repeat "all" in list order, previous undoes next and next undoes previous |
| PlaylistManager.ShuffleOrderStepsUndo | modules/playlist-manager.js:128-166 | with repeat "all" in shuffle order, previous undoes next and next undoes previous |
| PlaylistManager.DistinctIndexOf | modules/playlist-manager.js:137 | in an order without repeats, indexOf finds each entry at its own position |
| PlaylistManager.AdjustAfterRemoval | modules/playlist-manager.js:55-60 | removeTrack's index adjustment: one less for a removal before the current track, −1 for the current track itself, unchanged otherwise; RemovalKeepsCurrentTrack states that the same track stays current |
| PlaylistManager.RemovalKeepsCurrentTrack | modules/playlist-manager.js:52-59 | after a removal the adjusted current index is in range, is −1 when the playing track was removed, and otherwise still names the same track |
| PlaylistManager.FindTrack | modules/playlist-manager.js:49 | findIndex returns −1 exactly when no track has the id, and otherwise the first track with it |
| PlaylistManager.Manager.constructor | modules/playlist-manager.js:3-15 | a new playlist is empty, plays nothing, is not shuffled and has no repeat mode set |
| PlaylistManager.Manager.UpdateShuffleOrder | modules/playlist-manager.js:182-191 | the shuffle order is a permutation of the track indices, and the identity when not shuffled |
| PlaylistManager.Manager.AddTrack | modules/playlist-manager.js:25-46 | the new track is appended, the shuffle order is rebuilt, the update event carries the new list, and the id is returned |
| PlaylistManager.Manager.RemoveTrack | modules/playlist-manager.js:48-69 | removal succeeds exactly when some track has the id; it then removes the first such track, adjusts the current index and logs an update; otherwise nothing changes |
| PlaylistManager.Manager.ClearPlaylist | modules/playlist-manager.js:71-80 | the playlist is emptied, nothing is playing and an update with the empty list is logged |
| PlaylistManager.Manager.PlayTrack | modules/playlist-manager.js:82-110 | an out-of-range index changes nothing; otherwise the index becomes current, and play succeeds exactly when the track has a file or URL and loading works, and only then is a track change logged |
| PlaylistManager.Manager.NextTrackIndex | modules/playlist-manager.js:128-148 | the next index is −1 or a valid track index |
| PlaylistManager.Manager.PreviousTrackIndex | modules/playlist-manager.js:150-166 | the previous index is −1 or a valid track index, and never −1 on a non-empty playlist unless repeat is "one" |
| PlaylistManager.Manager.PlayNext | modules/playlist-manager.js:112-118 | at the end of the playlist nothing changes and false is returned; otherwise the next index becomes current and is played exactly as playTrack plays it, with the same result and track-change event |
| PlaylistManager.Manager.PlayPrevious | modules/playlist-manager.js:120-126 | with no previous index nothing changes and false is returned; otherwise the previous index becomes current and is played exactly as playTrack plays it |
| PlaylistManager.Manager.ToggleShuffle | modules/playlist-manager.js:168-172 | the shuffle flag flips, the order is rebuilt as a permutation, and the new flag is returned |
| PlaylistManager.Manager.SetRepeatMode | modules/playlist-manager.js:174-180 | a valid mode is stored and any other string leaves the mode unchanged; the resulting mode is returned |
| PlaylistManager.Manager.CurrentTrack | modules/playlist-manager.js:256-258 | a current track exists exactly when the current index is non-negative, and it is one of the tracks |
| CrossfadeManager.FadeValue | modules/crossfade-manager.js:170-186 | an unknown curve name falls back to the linear fade, returning the progress itself |
| CrossfadeManager.SqrtEnds | modules/crossfade-manager.js:176 | the square root maps 0 to 0 and 1 to 1 |
| CrossfadeManager.FadeEnds | modules/crossfade-manager.js:170-186 | every curve, known or not, starts at 0 for progress 0 and reaches 1 for progress 1 |
| CrossfadeManager.SqrtUnit | modules/crossfade-manager.js:176 | the logarithmic curve stays in [0, 1] on [0, 1] |
| CrossfadeManager.SmoothUnit | modules/crossfade-manager.js:180 | the smooth S-curve p²(3 − 2p) stays in [0, 1] on [0, 1] |
| CrossfadeManager.FadeUnit | modules/crossfade-manager.js:170-186 | on progress in [0, 1] every curve's gain lies in [0, 1] |
| CrossfadeManager.FadesComplement | modules/crossfade-manager.js:137-138 | with the linear, smooth or fallback curve the fade-out and fade-in gains always sum to 1 |
| CrossfadeManager.Progress | modules/crossfade-manager.js:133-134 | the progress min(1, elapsed / duration) never exceeds 1 and is non-negative once the fade has started |
| CrossfadeManager.ProgressCompletes | modules/crossfade-manager.js:134-166 | the progress reaches 1 exactly when the elapsed time reaches the duration, which is when the crossfade completes |
| CrossfadeManager.Manager.constructor | modules/crossfade-manager.js:3-28 | a new manager is idle with a 3000 ms linear default, no next track and no callbacks fired |
| CrossfadeManager.Manager.SetDuration | modules/crossfade-manager.js:34-36 | the duration is clamped to [500, 10000] ms: kept inside, raised to 500 below, lowered to 10000 above |
| CrossfadeManager.Manager.SetCurve | modules/crossfade-manager.js:38-43 | a valid curve name is stored and any other leaves the curve unchanged |
| CrossfadeManager.ChosenDuration | modules/crossfade-manager.js:52 | `options.duration || this.duration`: an absent or zero option falls back to the manager's duration; Manager.StartCrossfade states the duration used |
| CrossfadeManager.ChosenCurve | modules/crossfade-manager.js:53 | `options.curve || this.curve`: an absent or empty option falls back to the manager's curve; Manager.StartCrossfade states the curve used |
| CrossfadeManager.Manager.StartCrossfade | modules/crossfade-manager.js:46-89 | any running fade is stopped; the fade starts exactly when a file or URL is given and the next track could be set up, using the option's duration and curve or the manager's own; on success the first frame, taken once play() has resolved, fires onFadeProgress with the progress made by then (and, when play() outlasted the duration, completes the fade, cleans up and fires onFadeComplete), and then onFadeStart fires with the chosen duration and curve; the manager stays active exactly when that first progress is below 1; on failure everything is cleaned up and no callback fires; the stored defaults never change |
| CrossfadeManager.Manager.AnimateCrossfade | modules/crossfade-manager.js:129-168 | an idle manager does nothing; otherwise the frame reports progress, fade-out of 1 − progress and fade-in of progress, each frame fires onFadeProgress with those values, and at progress 1 the crossfade completes, cleans up and fires onFadeComplete |
| CrossfadeManager.Manager.StopCrossfade | modules/crossfade-manager.js:209-226 | stopping an idle manager changes nothing; otherwise the fade ends and the next track is released |
| CrossfadeManager.Manager.Cleanup | modules/crossfade-manager.js:228-247 | afterwards no fade is active and the next track's element, source and gain are released |
| CrossfadeManager.Manager.GetStatus | modules/crossfade-manager.js:328-336 | the status reports the active flag, duration and curve, a progress of at most 1, and progress 0 when no fade exists |
| AudioManager.EndsWithAny | modules/audio-manager.js:190-194 | some listed extension ends the name exactly when validExtensions.some(endsWith) holds |
| AudioManager.ValidateAudioFile | modules/audio-manager.js:181-195 | validateAudioFile: a file is accepted when its MIME type is listed or its lower-cased name ends with a listed extension; TypeSuffices, ExtensionSuffices and NameAcceptanceNeedsDot state what follows from that |
| AudioManager.TypeSuffices | modules/audio-manager.js:182-193 | a listed MIME type is accepted whatever the file name |
| AudioManager.ExtensionSuffices | modules/audio-manager.js:190-194 | a name ending in a listed extension, in any letter case, is accepted whatever the MIME type |
| AudioManager.ExtensionsDotted | modules/audio-manager.js:190 | every listed extension starts with '.' and is at least four characters long |
| AudioManager.NameAcceptanceNeedsDot | modules/audio-manager.js:190-194 | a file accepted without a listed MIME type has a '.' followed by at least three more characters in its name |
| AudioManager.UpperCaseNamePasses | modules/audio-manager.js:191-194 | "SONG.MP3" with no MIME type is accepted because the name is lower-cased first |
| AudioManager.TextFileRefused | modules/audio-manager.js:181-195 | "notes.txt" of type text/plain is refused |
| AudioManager.BareExtensionRefused | modules/audio-manager.js:190-194 | a name that is just "mp3", with no dot, is refused |
| AudioManager.Manager.constructor | modules/audio-manager.js:3-13 | a new manager has volume 1 and no gain node or media element |
| AudioManager.Manager.SetVolume | modules/audio-manager.js:120-128 | the volume is clamped to [0, 1], and the gain node and media element, where present, take the new volume |
| AudioManager.Manager.GetVolume | modules/audio-manager.js:130-132 | the reported volume always lies in [0, 1] |
| BeatDetection.BeatsApart | script.js:165-167 | any two recorded beats, not only neighbours, are more than 200 ms apart |
| BeatDetection.Threshold | script.js:163 | the sensitivity slider's value when the slider exists, otherwise 1.2; Detector.DetectBeat states the beat test against it |
| BeatDetection.BeatIntensity | script.js:165-170 | when the current energy beats the threshold the average is positive, and the intensity is either the cap 2 or above threshold − 1 |
| BeatDetection.PushNonNegative | script.js:150-153 | pushing a non-negative energy onto a bounded non-negative history keeps it non-negative |
| BeatDetection.Detector.constructor | script.js:55-62 | the detector starts enabled with ten zero energies, five zero intensities and no beat yet |
| BeatDetection.Detector.DetectBeat | script.js:143-182 | a disabled detector reports no beat and changes nothing; otherwise the frame's mean level is pushed onto the 10-entry history, a beat is reported exactly when that mean exceeds the history average times the threshold and more than 200 ms have passed, and a beat records its time and an intensity of min(2, ratio − 1) in the 5-entry intensity history |
| BeatDetection.Detector.RecordBeat | script.js:167-176 | a beat far enough after the last one is recorded with its time and its intensity pushed onto the intensity history |
| Visualizer.BarLevel | script.js:1722-1725 | a bar shows at least the new level and never below zero, falls by at most 0.03 per frame, and is either the new level or the decayed old height |
| Visualizer.UpdateBarLevels | script.js:1721-1725 | bars are reallocated at zero when the band count changes, and every bar becomes its bar level for the new frame |
| Visualizer.PeakDecayFromSeconds | script.js:2020-2030 | the per-frame peak decay lies in [0, 1] and is 0 exactly when the slider says "hold" (−1) |
| Visualizer.PeakStep | script.js:1462-1464 | a peak cap jumps up to a louder level, holds when the decay is 0, otherwise falls by the decay but not below zero, and never exceeds the larger of its old height and the level |
| Visualizer.SilenceLowersPeak | script.js:1462-1464 | after n silent frames a peak has fallen by n times the decay, bottoming out at 0 |
| Visualizer.SilenceClearsPeak | script.js:2028 | with a finite hold of s seconds, a full-height peak is gone after max(1, 60·s) silent frames |
| Visualizer.HoldKeepsPeak | script.js:2022-2024 | in hold mode a peak never moves during silence |
| Visualizer.UpdatePeaks | script.js:1461-1464 | every peak cap takes one step towards its band's level |
| Visualizer.Edge | script.js:1334-1339 | every band edge is clamped into 0..binCount − 1 |
| Visualizer.EdgeMonotone | script.js:1334-1339 | higher frequencies never give lower edges |
| Visualizer.Edges | script.js:1336-1340 | one clamped edge per frequency |
| Visualizer.Ranges | script.js:1341-1347 | one range per pair of neighbouring edges, from the first edge to at least one past it; RangesWithinBins and BandsAscend state its contract |
| Visualizer.RangesWithinBins | script.js:1341-1347 | the ranges number one fewer than the edges, and each satisfies 0 ≤ startBin < endBin ≤ binCount |
| Visualizer.BuildBandRanges | script.js:1331-1348 | buildBandRanges returns bandCount ranges with 0 ≤ startBin < endBin ≤ binCount |
| Visualizer.BandsAscend | script.js:1342-1346 | for ascending frequencies, consecutive ranges start in order, and the next range starts where the previous one ends whenever it starts later |
| Visualizer.ParseByte | script.js:2191-2197 | two hex digits parse to a value in 0..255 |
| Visualizer.ByteRoundTrip | script.js:2191-2197 | formatting a byte as two hex digits and parsing them back gives the byte |
| Visualizer.ParseColor | script.js:2188-2197 | the three byte components of a #rrggbb colour; FormatParse states it inverts formatting |
| Visualizer.FormatParse | script.js:2188-2197 | parsing a formatted #rrggbb colour gives back its components |
| Visualizer.Blend | script.js:2199-2201 | one rounded component moved from the first value towards the second by the factor; BlendBetween states it stays between them |
| Visualizer.BlendBetween | script.js:2199-2201 | for a factor in [0, 1] a rounded blended component lies between the two components |
| Visualizer.InterpolateColor | script.js:2187-2204 | interpolateColor: each component is the rounded blend of the two colours' components; InterpolateEnds states its ends and betweenness |
| Visualizer.InterpolateEnds | script.js:2187-2204 | factor 0 gives color1's components, factor 1 gives color2's, and a factor in between gives components within their range |
| Visualizer.LedColorForSegment | script.js:968-975 | the LED colour: red from maxSegments − redTop, yellow for the yellowNext segments below, green beneath; LedOrdered and SixteenSegments state its contract |
| Visualizer.LedOrdered | script.js:968-975 | LED colours climb green, then yellow, then red as the segment index rises; the top segment is always red, and the bottom is green when the red and yellow zones leave room |
| Visualizer.SixteenSegments | script.js:968-975 | with 16 segments, segments 0–10 are green, 11–13 yellow and 14–15 red |
| Visualizer.FindUrl | script.js:1901 | findIndex on the URL returns −1 exactly when no item has it, and otherwise the first item that does |
| Visualizer.Page.constructor | script.js:43-44 | the page starts with an empty playlist and no current track |
| Visualizer.Page.AddToPlaylist | script.js:1900-1910 | a URL already in the playlist only becomes current; a new one is appended and becomes current; either way the current track has the item's URL and URLs stay distinct |

## Left out

- Web Audio, media elements and the microphone are not modelled: the audio graph, loading, playback and `cleanup` in `modules/audio-manager.js`. The gain node and the media element appear only as the volume each holds.
- The DOM and all drawing are not modelled: canvas and 3D rendering, theme colour ramps, indicators, the help modal, `renderPlaylist`, `highlightActiveTrack` and `showTrackError`.
- `savePlaylist` and `loadPlaylist` are not modelled, because they only move the playlist through localStorage and JSON.
- `adjustVolume`, `selectThemeByIndex`, `cycleSelect` and the other shortcut callbacks are not modelled, because each drives DOM controls. A shortcut's callback is identified by its description and logged as fired.
- `getShortcuts`, `getPlaylistInfo`, `getTracks`, `getAnalysisResults`, `getSpectralFeatures`, `getBPMInfo` and `getMusicalNote` are not modelled as separate members. Apart from `getMusicalNote`, they only copy fields the model exposes directly.
- `getMusicalNote`, spectral bandwidth and flatness, dynamic range and `assessAudioQuality` are not modelled, because they rest on `Math.log2`, `Math.log10`, `Math.pow` and square roots. Flatness also divides by zero on silent frames.
- `analyzeFrequencyRange` and `getMagnitudeAtFrequency` are not modelled. Only the bin and frequency conversions they use (`getFrequencyBin`, `getBinFrequency`) are.
- `detectBPMAutocorrelation` is not modelled. It is not on the per-frame path.
- The memory sampler, the long-task observer, `renderQueue`, `dispose3DResources`, `disposeMaterial` and `optimizeCanvas` are not modelled. They depend on browser APIs and three.js objects.
- `fadeIn`, `fadeOut` and `setupAutoCrossfade` are not modelled, because they are timer-driven async gain ramps. `setupNextTrack` is the `ready` input of `StartCrossfade`. The media swap in `completeCrossfade` is not modelled; its clean-up is.
- Timers and animation frames are not modelled: `setInterval`, `requestAnimationFrame`, `performance.now()` and `Date.now()`. Each tick is a method call with an explicit timestamp.
- Randomness is not modelled. Track ids are a parameter, and the Fisher–Yates draws are unconstrained: the shuffle is specified only as a permutation.
- Floating-point rounding, NaN, Infinity and Float32Array storage are not modelled. Arithmetic is exact over reals and integers.
- String case mapping covers ASCII letters only.
- The pow-based band edge frequencies of `buildBandRanges` are an input sequence.
- `mobile-support.js` and `enhanced_script.js` are not part of this model.
- BeatDetection.Detector.DetectBeat requires at least one level and non-negative levels. The source would compute NaN from an empty level list.
- BeatDetection.Detector.DetectBeat takes the beat-sensitivity slider value as an `Option<real>` already parsed. `parseFloat` is not modelled.
- PerformanceManager.Manager.UpdateFrameStats requires two frames not to share a timestamp. The source would record an infinite fps for them.
- Visualizer.InterpolateColor requires two well-formed `#rrggbb` colours. It returns the three components instead of the `rgb(r,g,b)` string.
- KeyboardShortcuts.Shortcuts.constructor takes the binding list as a parameter. The application passes `DefaultBindings`, the list `setupDefaultShortcuts` registers.
- CrossfadeManager.Manager.GetStatus states the bounds of the reported progress, not its formula, which `CrossfadeManager.Progress` states.
- CrossfadeManager.Manager.AnimateCrossfade does not model the volumes written to the media element and gain node. It returns the fade values they are scaled by.
