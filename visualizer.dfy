/** The page script's per-frame state and helpers: the falling bar levels,
    the peak caps and their decay setting, the frequency-band bin ranges,
    colour interpolation, the classic theme's LED colours, and the page
    playlist that refuses a url twice. Levels are band magnitudes in [0, 1];
    the pow-based band edge frequencies are given as inputs. */
module Visualizer {
  import opened Common

  const BarDecayPerFrame: real := 0.03
  const DefaultPeakDecayPerFrame: real := 0.002
  const Fps: real := 60.0
  /** The peak-seconds slider's "Hold" setting. */
  const HoldSeconds: real := -1.0

  // ---------------------------------------------------------------------
  // Bar levels

  /** A bar jumps up to a higher level at once; otherwise it falls by
      BarDecayPerFrame per frame, never below 0 and never faster. */
  function BarLevel(previous: real, level: real): (b: real)
    ensures b >= level && b >= 0.0
    ensures b >= previous - BarDecayPerFrame
    ensures b == level || b == MaxR(0.0, previous - BarDecayPerFrame)
  {
    MaxR(level, MaxR(0.0, previous - BarDecayPerFrame))
  }

  /** The render loop's bar update: the bar array is re-allocated with
      zeros when the number of bands changed, then every bar is updated in
      place. */
  method UpdateBarLevels(bars: array<real>, levels: seq<real>) returns (out: array<real>)
    modifies bars
    ensures out.Length == |levels|
    ensures bars.Length == |levels| ==> out == bars
    ensures bars.Length != |levels| ==> fresh(out) && unchanged(bars)
    ensures forall i :: 0 <= i < |levels| ==>
      out[i] == BarLevel(if bars.Length == |levels| then old(bars[i]) else 0.0, levels[i])
  {
    if bars.Length != |levels| {
      out := new real[|levels|](_ => 0.0);
    } else {
      out := bars;
    }
    ghost var before := out[..];
    assert forall i :: 0 <= i < |levels| ==>
      before[i] == (if bars.Length == |levels| then old(bars[i]) else 0.0);
    for i := 0 to |levels|
      invariant forall k :: 0 <= k < i ==> out[k] == BarLevel(before[k], levels[k])
      invariant forall k :: i <= k < |levels| ==> out[k] == before[k]
      invariant bars.Length != |levels| ==> unchanged(bars)
    {
      out[i] := BarLevel(out[i], levels[i]);
    }
  }

  // ---------------------------------------------------------------------
  // Peak caps

  /** updatePeakDecayFromSeconds: "Hold" (−1) stops the decay; otherwise a
      cap falls from 1 to 0 in `seconds` at 60 frames per second, and in no
      less than one frame. */
  function PeakDecayFromSeconds(seconds: real): (decay: real)
    ensures 0.0 <= decay <= 1.0
    ensures decay == 0.0 <==> seconds == HoldSeconds
  {
    if seconds == HoldSeconds then 0.0
    else
      var frames := MaxR(1.0, seconds * Fps);
      DivBounds(1.0, frames, 0.0);
      DivBounds(1.0, frames, 1.0);
      1.0 / frames
  }

  /** A cap rises to the level at once; otherwise it falls by `decay`, never
      below 0, and holds when the decay is 0. It never exceeds the higher
      of its old value and the level. */
  function PeakStep(peak: real, level: real, decay: real): (p: real)
    ensures level >= peak ==> p == level
    ensures decay <= 0.0 ==> p == MaxR(peak, level)
    ensures decay > 0.0 && level < peak ==> p == MaxR(0.0, peak - decay)
    ensures peak >= 0.0 && level >= 0.0 ==> p >= 0.0
    ensures peak >= 0.0 ==> p <= MaxR(peak, level)
  {
    if level >= peak then level
    else if decay > 0.0 then MaxR(0.0, peak - decay)
    else peak
  }

  /** The cap after `n` silent frames. */
  function PeakAfterSilence(peak: real, decay: real, n: nat): real
  {
    if n == 0 then peak else PeakStep(PeakAfterSilence(peak, decay, n - 1), 0.0, decay)
  }

  /** Silence lowers a non-negative cap by `decay` per frame down to 0. */
  lemma {:induction false} SilenceLowersPeak(peak: real, decay: real, n: nat)
    requires peak >= 0.0 && decay > 0.0
    ensures PeakAfterSilence(peak, decay, n) == MaxR(0.0, peak - n as real * decay)
  {
    if n > 0 {
      SilenceLowersPeak(peak, decay, n - 1);
      MulNonNegReal(n as real, decay);
    }
  }

  /** With any setting but "Hold", a full-scale cap has fallen to 0 after
      seconds · 60 silent frames (at least one frame). */
  lemma SilenceClearsPeak(seconds: real, n: nat)
    requires seconds != HoldSeconds && n as real >= MaxR(1.0, seconds * Fps)
    ensures PeakAfterSilence(1.0, PeakDecayFromSeconds(seconds), n) == 0.0
  {
    var frames := MaxR(1.0, seconds * Fps);
    var decay := PeakDecayFromSeconds(seconds);
    SilenceLowersPeak(1.0, decay, n);
    assert decay * frames == 1.0;
    MulNonNegReal(n as real - frames, decay);
    assert n as real * decay == (n as real - frames) * decay + 1.0;
  }

  /** With "Hold", silence never lowers a non-negative cap. */
  lemma {:induction false} HoldKeepsPeak(peak: real, n: nat)
    ensures n > 0 ==> PeakAfterSilence(peak, PeakDecayFromSeconds(HoldSeconds), n) == MaxR(peak, 0.0)
  {
    if n > 0 {
      HoldKeepsPeak(peak, n - 1);
    }
  }

  /** The render loop's cap update for every band, in place. */
  method UpdatePeaks(peaks: array<real>, levels: seq<real>, decay: real)
    requires peaks.Length == |levels|
    modifies peaks
    ensures forall i :: 0 <= i < peaks.Length ==> peaks[i] == PeakStep(old(peaks[i]), levels[i], decay)
  {
    for i := 0 to peaks.Length
      invariant forall k :: 0 <= k < i ==> peaks[k] == PeakStep(old(peaks[k]), levels[k], decay)
      invariant forall k :: i <= k < peaks.Length ==> peaks[k] == old(peaks[k])
    {
      peaks[i] := PeakStep(peaks[i], levels[i], decay);
    }
  }

  // ---------------------------------------------------------------------
  // Frequency bands

  /** A band's half-open range of FFT bins. */
  datatype BandRange = BandRange(startBin: int, endBin: int)

  /** toBin, clamped to [0, binCount − 1]. */
  function Edge(freq: real, nyquist: real, binCount: int): (e: int)
    requires nyquist > 0.0
    ensures binCount >= 1 ==> 0 <= e <= binCount - 1
  {
    MaxI(0, MinI(binCount - 1, (freq / nyquist * binCount as real).Floor))
  }

  /** Higher frequencies never land in lower bins. */
  lemma EdgeMonotone(f: real, g: real, nyquist: real, binCount: int)
    requires nyquist > 0.0 && binCount >= 0 && f <= g
    ensures Edge(f, nyquist, binCount) <= Edge(g, nyquist, binCount)
  {
    DivBounds(f, nyquist, g / nyquist);
    MulNonNegReal(g / nyquist - f / nyquist, binCount as real);
  }

  /** The clamped bin of every edge frequency. */
  function Edges(freqs: seq<real>, nyquist: real, binCount: int): (edges: seq<int>)
    requires nyquist > 0.0
    ensures |edges| == |freqs|
    ensures binCount >= 1 ==> forall i :: 0 <= i < |edges| ==> 0 <= edges[i] <= binCount - 1
  {
    seq(|freqs|, i requires 0 <= i < |freqs| => Edge(freqs[i], nyquist, binCount))
  }

  /** Band i runs from edge i to edge i + 1, and holds at least one bin. */
  function Ranges(edges: seq<int>): seq<BandRange>
    requires |edges| >= 1
  {
    seq(|edges| - 1, i requires 0 <= i < |edges| - 1 => BandRange(edges[i], MaxI(edges[i] + 1, edges[i + 1])))
  }

  /** Edges within [0, binCount − 1] give non-empty bands within
      [0, binCount]. */
  lemma RangesWithinBins(edges: seq<int>, binCount: int)
    requires |edges| >= 1 && forall i :: 0 <= i < |edges| ==> 0 <= edges[i] <= binCount - 1
    ensures |Ranges(edges)| == |edges| - 1
    ensures forall i :: 0 <= i < |edges| - 1 ==>
      0 <= Ranges(edges)[i].startBin < Ranges(edges)[i].endBin <= binCount
  {
  }

  /** buildBandRanges: `freqs` holds the bandCount + 1 edge frequencies;
      there are bandCount bands, each non-empty and within the bins. */
  method BuildBandRanges(sampleRate: real, binCount: int, freqs: seq<real>) returns (ranges: seq<BandRange>)
    requires sampleRate > 0.0 && |freqs| >= 1
    ensures ranges == Ranges(Edges(freqs, sampleRate / 2.0, binCount))
    ensures |ranges| == |freqs| - 1
    ensures binCount >= 1 ==> forall i :: 0 <= i < |ranges| ==>
      0 <= ranges[i].startBin < ranges[i].endBin <= binCount
  {
    var nyquist := sampleRate / 2.0;
    var bandCount := |freqs| - 1;
    var edges: seq<int> := [];
    for i := 0 to bandCount + 1
      invariant edges == Edges(freqs[..i], nyquist, binCount)
    {
      edges := edges + [Edge(freqs[i], nyquist, binCount)];
    }
    assert freqs[..bandCount + 1] == freqs;
    ranges := [];
    for i := 0 to bandCount
      invariant ranges == Ranges(edges[..i + 1])
    {
      var start := edges[i];
      var end := MaxI(start + 1, edges[i + 1]);
      ranges := ranges + [BandRange(start, end)];
    }
    assert edges[..bandCount + 1] == edges;
    if binCount >= 1 {
      RangesWithinBins(edges, binCount);
    }
  }

  /** With ascending edge frequencies the bands ascend too: each starts no
      lower than the previous one, and where edges differ a band starts
      exactly where the previous one ends. */
  lemma BandsAscend(freqs: seq<real>, nyquist: real, binCount: int, i: int)
    requires nyquist > 0.0 && binCount >= 0 && |freqs| >= 1
    requires 0 <= i < |freqs| - 2 && freqs[i] <= freqs[i + 1]
    ensures var ranges := Ranges(Edges(freqs, nyquist, binCount));
      && ranges[i].startBin <= ranges[i + 1].startBin <= ranges[i].endBin
      && (ranges[i + 1].startBin > ranges[i].startBin ==> ranges[i + 1].startBin == ranges[i].endBin)
  {
    EdgeMonotone(freqs[i], freqs[i + 1], nyquist, binCount);
  }

  // ---------------------------------------------------------------------
  // Colours

  datatype Rgb = Rgb(r: int, g: int, b: int)

  function HexValue(c: char): int
  {
    if '0' <= c <= '9' then c as int - '0' as int
    else if 'a' <= c <= 'f' then c as int - 'a' as int + 10
    else if 'A' <= c <= 'F' then c as int - 'A' as int + 10
    else -1
  }

  predicate IsHexDigit(c: char)
  {
    HexValue(c) >= 0
  }

  /** "#rrggbb" */
  predicate IsHexColor(s: string)
  {
    |s| == 7 && s[0] == '#' && forall i :: 1 <= i < 7 ==> IsHexDigit(s[i])
  }

  /** parseInt(two hex digits, 16) */
  function ParseByte(hi: char, lo: char): (n: int)
    requires IsHexDigit(hi) && IsHexDigit(lo)
    ensures 0 <= n <= 255
  {
    HexValue(hi) * 16 + HexValue(lo)
  }

  function ParseColor(s: string): Rgb
    requires IsHexColor(s)
  {
    Rgb(ParseByte(s[1], s[2]), ParseByte(s[3], s[4]), ParseByte(s[5], s[6]))
  }

  const HexDigits: string := "0123456789abcdef"

  /** The colour written as "#rrggbb". */
  function FormatColor(c: Rgb): string
    requires 0 <= c.r <= 255 && 0 <= c.g <= 255 && 0 <= c.b <= 255
  {
    ['#', HexDigits[c.r / 16], HexDigits[c.r % 16], HexDigits[c.g / 16], HexDigits[c.g % 16],
     HexDigits[c.b / 16], HexDigits[c.b % 16]]
  }

  /** Each digit's value is its position in HexDigits. */
  lemma HexDigitValue(d: int)
    requires 0 <= d < 16
    ensures IsHexDigit(HexDigits[d]) && HexValue(HexDigits[d]) == d
  {
  }

  /** A byte written as two hex digits parses back to itself. */
  lemma ByteRoundTrip(n: int)
    requires 0 <= n <= 255
    ensures IsHexDigit(HexDigits[n / 16]) && IsHexDigit(HexDigits[n % 16])
    ensures ParseByte(HexDigits[n / 16], HexDigits[n % 16]) == n
  {
    HexDigitValue(n / 16);
    HexDigitValue(n % 16);
  }

  /** Every colour written as "#rrggbb" parses back to itself. */
  lemma FormatParse(c: Rgb)
    requires 0 <= c.r <= 255 && 0 <= c.g <= 255 && 0 <= c.b <= 255
    ensures IsHexColor(FormatColor(c)) && ParseColor(FormatColor(c)) == c
  {
    ByteRoundTrip(c.r);
    ByteRoundTrip(c.g);
    ByteRoundTrip(c.b);
  }

  /** Math.round(x1 + (x2 − x1) · factor) */
  function Blend(x1: int, x2: int, factor: real): int
  {
    Round(x1 as real + (x2 - x1) as real * factor)
  }

  /** interpolateColor: each component moves from color1's towards color2's
      by `factor`. */
  function InterpolateColor(color1: string, color2: string, factor: real): Rgb
    requires IsHexColor(color1) && IsHexColor(color2)
  {
    var c1, c2 := ParseColor(color1), ParseColor(color2);
    Rgb(Blend(c1.r, c2.r, factor), Blend(c1.g, c2.g, factor), Blend(c1.b, c2.b, factor))
  }

  /** A blend with factor in [0, 1] lies between its two ends. */
  lemma BlendBetween(x1: int, x2: int, factor: real)
    requires 0.0 <= factor <= 1.0
    ensures MinI(x1, x2) <= Blend(x1, x2, factor) <= MaxI(x1, x2)
  {
    var d := (x2 - x1) as real;
    if x1 <= x2 {
      MulNonNegReal(d, factor);
      MulNonNegReal(d, 1.0 - factor);
    } else {
      MulNonNegReal(-d, factor);
      MulNonNegReal(-d, 1.0 - factor);
    }
  }

  /** Factor 0 gives color1, factor 1 gives color2, and any factor in
      between gives a valid colour between the two, component by
      component. */
  lemma InterpolateEnds(color1: string, color2: string, factor: real)
    requires IsHexColor(color1) && IsHexColor(color2)
    ensures InterpolateColor(color1, color2, 0.0) == ParseColor(color1)
    ensures InterpolateColor(color1, color2, 1.0) == ParseColor(color2)
    ensures 0.0 <= factor <= 1.0 ==>
      var c, c1, c2 := InterpolateColor(color1, color2, factor), ParseColor(color1), ParseColor(color2);
      && MinI(c1.r, c2.r) <= c.r <= MaxI(c1.r, c2.r)
      && MinI(c1.g, c2.g) <= c.g <= MaxI(c1.g, c2.g)
      && MinI(c1.b, c2.b) <= c.b <= MaxI(c1.b, c2.b)
  {
    var c1, c2 := ParseColor(color1), ParseColor(color2);
    RoundInt(c1.r); RoundInt(c1.g); RoundInt(c1.b);
    RoundInt(c2.r); RoundInt(c2.g); RoundInt(c2.b);
    if 0.0 <= factor <= 1.0 {
      BlendBetween(c1.r, c2.r, factor);
      BlendBetween(c1.g, c2.g, factor);
      BlendBetween(c1.b, c2.b, factor);
    }
  }

  lemma RoundInt(n: int)
    ensures Round(n as real) == n
  {
  }

  // ---------------------------------------------------------------------
  // The classic theme's LED meter

  datatype Led = Green | Yellow | Red

  /** The top 2/16 of the segments (at least one) are red, the 3/16 below
      them (at least one) yellow, the rest green. */
  function RedTop(maxSegments: int): int
  {
    MaxI(1, Round(maxSegments as real * (2.0 / 16.0)))
  }

  function YellowNext(maxSegments: int): int
  {
    MaxI(1, Round(maxSegments as real * (3.0 / 16.0)))
  }

  function LedColorForSegment(segmentIndex: int, maxSegments: int): Led
  {
    var redStart := maxSegments - RedTop(maxSegments);
    var yellowStart := MaxI(0, redStart - YellowNext(maxSegments));
    if segmentIndex >= redStart then Red
    else if segmentIndex >= yellowStart then Yellow
    else Green
  }

  function Rank(led: Led): int
  {
    match led
    case Green => 0
    case Yellow => 1
    case Red => 2
  }

  /** Colours only warm up going up the meter, the top segment is always
      red and the bottom one green whenever the meter has room for all
      three colours. */
  lemma LedOrdered(i: int, j: int, maxSegments: int)
    requires i <= j
    ensures Rank(LedColorForSegment(i, maxSegments)) <= Rank(LedColorForSegment(j, maxSegments))
    ensures maxSegments >= 1 ==> LedColorForSegment(maxSegments - 1, maxSegments) == Red
    ensures maxSegments > RedTop(maxSegments) + YellowNext(maxSegments) ==> LedColorForSegment(0, maxSegments) == Green
  {
  }

  /** On a 16-segment meter: 11 green, 3 yellow, 2 red. */
  lemma SixteenSegments(i: int)
    requires 0 <= i < 16
    ensures LedColorForSegment(i, 16) == (if i < 11 then Green else if i < 14 then Yellow else Red)
  {
    assert Round(16.0 * (2.0 / 16.0)) == 2;
    assert Round(16.0 * (3.0 / 16.0)) == 3;
  }

  // ---------------------------------------------------------------------
  // The page playlist

  datatype Item = Item(title: string, url: string, isBlob: bool)

  /** playlist.findIndex(p => p.url === url) */
  function FindUrl(playlist: seq<Item>, url: string): (k: int)
    ensures -1 <= k < |playlist|
    ensures k == -1 <==> forall i :: 0 <= i < |playlist| ==> playlist[i].url != url
    ensures k >= 0 ==> playlist[k].url == url && forall i :: 0 <= i < k ==> playlist[i].url != url
  {
    if |playlist| == 0 then -1
    else if playlist[0].url == url then 0
    else
      var k := FindUrl(playlist[1..], url);
      if k == -1 then -1 else k + 1
  }

  ghost predicate DistinctUrls(playlist: seq<Item>)
  {
    forall i, j :: 0 <= i < j < |playlist| ==> playlist[i].url != playlist[j].url
  }

  /** The page's playlist and its current track. */
  class Page {
    var playlist: seq<Item>
    var currentTrackIndex: int

    ghost predicate Valid()
      reads this
    {
      DistinctUrls(playlist) && -1 <= currentTrackIndex < |playlist|
    }

    constructor()
      ensures Valid() && playlist == [] && currentTrackIndex == -1
    {
      playlist := [];
      currentTrackIndex := -1;
    }

    /** addToPlaylist: a url already listed only becomes current; a new one
        is appended and becomes current. No url is ever listed twice. */
    method AddToPlaylist(item: Item)
      requires Valid()
      modifies this
      ensures Valid()
      ensures FindUrl(old(playlist), item.url) != -1 ==>
        playlist == old(playlist) && currentTrackIndex == FindUrl(old(playlist), item.url)
      ensures FindUrl(old(playlist), item.url) == -1 ==>
        playlist == old(playlist) + [item] && currentTrackIndex == |playlist| - 1
      ensures playlist[currentTrackIndex].url == item.url
    {
      var exist := FindUrl(playlist, item.url);
      if exist != -1 {
        currentTrackIndex := exist;
        return;
      }
      playlist := playlist + [item];
      currentTrackIndex := |playlist| - 1;
    }
  }
}
