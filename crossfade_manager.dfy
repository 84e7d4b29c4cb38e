/** Crossfading between the playing track and the next one: a validated fade
    duration and curve, the four fade curves, the per-frame progress of a
    running fade, and the cleanup that ends it. Loading the next track and
    driving the audio graph are not modelled: a fade starts once the next
    track is ready, timestamps are integer milliseconds passed in by the
    caller, and Math.sqrt is a given function characterised by r · r = p. */
module CrossfadeManager {
  import opened Common

  const MinDuration: real := 500.0
  const MaxDuration: real := 10000.0
  const DefaultDuration: real := 3000.0

  predicate IsCurve(curve: string)
  {
    curve == "linear" || curve == "exponential" || curve == "logarithmic" || curve == "smooth"
  }

  /** Math.sqrt on non-negative arguments: the non-negative root. */
  ghost predicate IsSqrt(sqrt: real -> real)
  {
    forall x :: x >= 0.0 ==> sqrt(x) >= 0.0 && sqrt(x) * sqrt(x) == x
  }

  // ---------------------------------------------------------------------
  // Fade curves

  /** calculateFadeValue: p, p², √p or the S-curve p²(3 − 2p); any other
      curve name fades linearly. */
  function FadeValue(progress: real, curve: string, sqrt: real -> real): (v: real)
    ensures !IsCurve(curve) ==> v == progress
  {
    if curve == "exponential" then progress * progress
    else if curve == "logarithmic" then sqrt(progress)
    else if curve == "smooth" then progress * progress * (3.0 - 2.0 * progress)
    else progress
  }

  lemma SqrtAt(sqrt: real -> real, x: real)
    requires IsSqrt(sqrt) && x >= 0.0
    ensures sqrt(x) >= 0.0 && sqrt(x) * sqrt(x) == x
  {
  }

  /** Squaring keeps the order of non-negative numbers. */
  lemma SquareOrder(a: real, b: real)
    requires 0.0 <= a && 0.0 <= b && a * a <= b * b
    ensures a <= b
  {
    var sum := a + b;
    if sum > 0.0 {
      var product := (b - a) * sum;
      assert product == b * b - a * a;
      assert b - a == product / sum;
      DivBounds(product, sum, 0.0);
    }
  }

  /** A non-negative root of 0 is 0 and of 1 is 1. */
  lemma SqrtEnds(sqrt: real -> real)
    requires IsSqrt(sqrt)
    ensures sqrt(0.0) == 0.0 && sqrt(1.0) == 1.0
  {
    SqrtAt(sqrt, 0.0);
    SqrtAt(sqrt, 1.0);
    SquareOrder(sqrt(0.0), 0.0);
    SquareOrder(sqrt(1.0), 1.0);
    SquareOrder(1.0, sqrt(1.0));
  }

  /** Every curve starts at silence and ends at full volume. */
  lemma FadeEnds(curve: string, sqrt: real -> real)
    requires IsSqrt(sqrt)
    ensures FadeValue(0.0, curve, sqrt) == 0.0
    ensures FadeValue(1.0, curve, sqrt) == 1.0
  {
    SqrtEnds(sqrt);
  }

  /** A root of a number in [0, 1] lies in [0, 1]. */
  lemma SqrtUnit(sqrt: real -> real, p: real)
    requires IsSqrt(sqrt) && 0.0 <= p <= 1.0
    ensures 0.0 <= sqrt(p) <= 1.0
  {
    SqrtAt(sqrt, p);
    SquareOrder(sqrt(p), 1.0);
  }

  /** p²(3 − 2p) stays in [0, 1] on [0, 1]: 1 minus it is (1 − p)²(1 + 2p). */
  lemma SmoothUnit(p: real)
    requires 0.0 <= p <= 1.0
    ensures 0.0 <= p * p * (3.0 - 2.0 * p) <= 1.0
  {
    MulNonNegReal(p, p);
    MulNonNegReal(p * p, 3.0 - 2.0 * p);
    MulNonNegReal(1.0 - p, 1.0 - p);
    MulNonNegReal((1.0 - p) * (1.0 - p), 1.0 + 2.0 * p);
    assert 1.0 - p * p * (3.0 - 2.0 * p) == (1.0 - p) * (1.0 - p) * (1.0 + 2.0 * p);
  }

  /** Every curve maps [0, 1] into [0, 1]. */
  lemma FadeUnit(p: real, curve: string, sqrt: real -> real)
    requires IsSqrt(sqrt) && 0.0 <= p <= 1.0
    ensures 0.0 <= FadeValue(p, curve, sqrt) <= 1.0
  {
    if curve == "exponential" {
      MulNonNegReal(p, p);
      MulNonNegReal(p, 1.0 - p);
    } else if curve == "logarithmic" {
      SqrtUnit(sqrt, p);
    } else if curve == "smooth" {
      SmoothUnit(p);
    }
  }

  /** The fade-out uses 1 − progress, so with the linear and the S-curve the
      two volumes always add up to 1. */
  lemma FadesComplement(p: real, curve: string, sqrt: real -> real)
    requires curve == "smooth" || !IsCurve(curve) || curve == "linear"
    ensures FadeValue(p, curve, sqrt) + FadeValue(1.0 - p, curve, sqrt) == 1.0
  {
    if curve == "smooth" {
      var q := 1.0 - p;
      assert q * q * (3.0 - 2.0 * q) == (1.0 - p) * (1.0 - p) * (1.0 + 2.0 * p);
      assert p * p * (3.0 - 2.0 * p) + (1.0 - p) * (1.0 - p) * (1.0 + 2.0 * p) == 1.0;
    }
  }

  // ---------------------------------------------------------------------
  // Progress

  /** A running fade: when it started, how long it lasts, its curve. */
  datatype Fade = Fade(startTime: int, duration: real, curve: string)

  /** One animation frame: the progress and the two volumes applied. */
  datatype Frame = Frame(progress: real, fadeOut: real, fadeIn: real)

  /** Where the next track comes from: a local file, or a url ("" when
      absent). */
  datatype TrackSource = TrackSource(hasFile: bool, url: string)

  /** The callbacks fired: onFadeStart, onFadeProgress and onFadeComplete. */
  datatype Event =
    | FadeStart(duration: real, curve: string)
    | FadeProgress(frame: Frame)
    | FadeComplete

  /** getStatus's record. */
  datatype Status = Status(isActive: bool, duration: real, curve: string, progress: real)

  /** Math.min(1, elapsed / duration). */
  function Progress(fade: Fade, now: int): (p: real)
    requires fade.duration != 0.0
    ensures p <= 1.0
    ensures fade.duration > 0.0 && now >= fade.startTime ==> 0.0 <= p
  {
    var elapsed := (now - fade.startTime) as real;
    var ratio := elapsed / fade.duration;
    assert fade.duration > 0.0 && elapsed >= 0.0 ==> ratio >= 0.0 by {
      if fade.duration > 0.0 {
        DivBounds(elapsed, fade.duration, 0.0);
      }
    }
    MinR(1.0, ratio)
  }

  /** The fade completes exactly once the whole duration has elapsed. */
  lemma ProgressCompletes(fade: Fade, now: int)
    requires fade.duration > 0.0
    ensures Progress(fade, now) == 1.0 <==> (now - fade.startTime) as real >= fade.duration
  {
    var elapsed := (now - fade.startTime) as real;
    DivBounds(elapsed, fade.duration, 1.0);
  }

  /** `options.x || this.x`: an absent or zero duration and an absent or
      empty curve fall back to the manager's own. */
  function ChosenDuration(option: Option<real>, own: real): real
  {
    if option.Some? && option.value != 0.0 then option.value else own
  }

  function ChosenCurve(option: Option<string>, own: string): string
  {
    if option.Some? && option.value != "" then option.value else own
  }

  // ---------------------------------------------------------------------
  // The manager

  class Manager {
    var isActive: bool
    var duration: real
    var curve: string
    var currentFade: Option<Fade>
    /** Whether the next track holds an audio element, a source node and a
        gain node. */
    var nextElement: bool
    var nextSource: bool
    var nextGain: bool
    /** The callbacks fired so far, oldest first. */
    var events: seq<Event>

    /** The duration is in range, the curve is valid, and a fade is running
        exactly when the manager is active. */
    ghost predicate Valid()
      reads this
    {
      && MinDuration <= duration <= MaxDuration
      && IsCurve(curve)
      && isActive == currentFade.Some?
      && (currentFade.Some? ==> currentFade.value.duration != 0.0)
    }

    constructor()
      ensures Valid()
      ensures !isActive && duration == 3000.0 && curve == "linear" && currentFade == None
      ensures !nextElement && !nextSource && !nextGain && events == []
    {
      isActive := false;
      duration := DefaultDuration;
      curve := "linear";
      currentFade := None;
      nextElement, nextSource, nextGain := false, false, false;
      events := [];
    }

    /** setDuration: clamped to 0.5–10 seconds. */
    method SetDuration(d: real)
      requires Valid()
      modifies `duration
      ensures Valid()
      ensures MinDuration <= duration <= MaxDuration
      ensures MinDuration <= d <= MaxDuration ==> duration == d
      ensures d < MinDuration ==> duration == MinDuration
      ensures d > MaxDuration ==> duration == MaxDuration
    {
      duration := ClampR(d, MinDuration, MaxDuration);
    }

    /** setCurve: only the four known curves are accepted. */
    method SetCurve(c: string)
      requires Valid()
      modifies `curve
      ensures Valid()
      ensures IsCurve(c) ==> curve == c
      ensures !IsCurve(c) ==> curve == old(curve)
    {
      if IsCurve(c) {
        curve := c;
      }
    }

    /** startCrossfade: any running fade is stopped first; the next track
        needs a file or a url, and `ready` says whether it then loaded and
        started playing. On success a fade with the chosen duration and
        curve starts at `now`; once play() has resolved, at `frameTime`, its
        first frame fires onFadeProgress (and completes the fade when
        play() outlasted the duration), and then onFadeStart fires. On
        failure everything is cleaned up and no callback fires. */
    method StartCrossfade(now: int, frameTime: int, source: TrackSource, ready: bool,
                          durationOption: Option<real>, curveOption: Option<string>,
                          sqrt: real -> real)
      returns (ok: bool)
      requires Valid()
      requires frameTime >= now
      modifies this
      ensures Valid()
      ensures ok <==> (source.hasFile || source.url != "") && ready
      ensures ok ==>
        var d, c := ChosenDuration(durationOption, old(duration)), ChosenCurve(curveOption, old(curve));
        var p := Progress(Fade(now, d, c), frameTime);
        && events == old(events) + [FadeProgress(Frame(p, FadeValue(1.0 - p, c, sqrt), FadeValue(p, c, sqrt)))]
                      + (if p >= 1.0 then [FadeComplete] else []) + [FadeStart(d, c)]
        && (isActive <==> p < 1.0)
        && (p < 1.0 ==> currentFade == Some(Fade(now, d, c)) && nextElement && nextSource && nextGain)
        && (p >= 1.0 ==> currentFade == None && !nextElement && !nextSource && !nextGain)
      ensures !ok ==> !isActive && currentFade == None && !nextElement && !nextSource && !nextGain
      ensures !ok ==> events == old(events)
      ensures duration == old(duration) && curve == old(curve)
    {
      if isActive {
        StopCrossfade();
      }
      var d := ChosenDuration(durationOption, duration);
      var c := ChosenCurve(curveOption, curve);
      nextElement := true;
      if !(source.hasFile || source.url != "") || !ready {
        Cleanup();
        return false;
      }
      nextSource, nextGain := true, true;
      isActive := true;
      currentFade := Some(Fade(now, d, c));
      var first := AnimateCrossfade(frameTime, sqrt);
      events := events + [FadeStart(d, c)];
      ok := true;
    }

    /** One animateCrossfade frame: nothing when no fade runs; otherwise the
        progress and both volumes, reported through onFadeProgress, and the
        fade completes (is cleaned up, then onFadeComplete fires) once
        progress reaches 1. */
    method AnimateCrossfade(now: int, sqrt: real -> real) returns (frame: Option<Frame>)
      requires Valid()
      modifies this
      ensures Valid()
      ensures !old(isActive) ==> frame == None && unchanged(this)
      ensures old(isActive) ==>
        var fade := old(currentFade).value;
        var p := Progress(fade, now);
        && frame == Some(Frame(p, FadeValue(1.0 - p, fade.curve, sqrt), FadeValue(p, fade.curve, sqrt)))
        && events == old(events) + [FadeProgress(frame.value)] + (if p >= 1.0 then [FadeComplete] else [])
        && (p < 1.0 ==> isActive && currentFade == old(currentFade)
                        && nextElement == old(nextElement) && nextSource == old(nextSource) && nextGain == old(nextGain))
        && (p >= 1.0 ==> !isActive && currentFade == None && !nextElement && !nextSource && !nextGain)
      ensures duration == old(duration) && curve == old(curve)
    {
      if !isActive || currentFade.None? {
        return None;
      }
      var fade := currentFade.value;
      var progress := Progress(fade, now);
      var fadeOut := FadeValue(1.0 - progress, fade.curve, sqrt);
      var fadeIn := FadeValue(progress, fade.curve, sqrt);
      frame := Some(Frame(progress, fadeOut, fadeIn));
      events := events + [FadeProgress(frame.value)];
      if progress >= 1.0 {
        // completeCrossfade: the next track takes over, then cleanup
        Cleanup();
        events := events + [FadeComplete];
      }
    }

    /** stopCrossfade: nothing when no fade runs; otherwise cleanup. */
    method StopCrossfade()
      requires Valid()
      modifies `isActive, `currentFade, `nextElement, `nextSource, `nextGain
      ensures Valid()
      ensures !old(isActive) ==> unchanged(this)
      ensures old(isActive) ==> !isActive && currentFade == None && !nextElement && !nextSource && !nextGain
    {
      if !isActive {
        return;
      }
      isActive := false;
      currentFade := None;
      Cleanup();
    }

    /** cleanup: no fade, and the next track's element and nodes released. */
    method Cleanup()
      requires Valid()
      modifies `isActive, `currentFade, `nextElement, `nextSource, `nextGain
      ensures Valid()
      ensures !isActive && currentFade == None
      ensures !nextElement && !nextSource && !nextGain
    {
      isActive := false;
      currentFade := None;
      nextSource := false;
      nextGain := false;
      nextElement := false;
    }

    /** getStatus: progress 0 when no fade runs. */
    function GetStatus(now: int): (s: Status)
      requires Valid()
      reads this
      ensures s.isActive == isActive && s.duration == duration && s.curve == curve
      ensures currentFade == None ==> s.progress == 0.0
      ensures s.progress <= 1.0
    {
      Status(isActive, duration, curve, if currentFade.Some? then Progress(currentFade.value, now) else 0.0)
    }
  }
}
