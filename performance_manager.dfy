/** Frame pacing and housekeeping: a frame gate that halves the frame rate in
    low-power mode, a bounded history of measured frame rates that switches
    low-power mode on when the average drops below 30, a FIFO queue of
    resources to dispose, and two helpers that shrink audio buffers and
    particle lists. Timestamps are integer milliseconds passed in by the
    caller; the memory sampler and the long-task observer are not modelled. */
module PerformanceManager {
  import opened Common

  const NormalFrameRate: int := 60
  const LowPowerFrameRate: int := 30
  /** fpsHistory keeps the newest 60 samples. */
  const FpsHistoryLimit: nat := 60
  /** An average below this switches low-power mode on. */
  const LowFpsThreshold: real := 30.0
  const DefaultTargetSize: int := 1024
  const DefaultMaxParticles: int := 1000

  /** 1000 / frameRate: the milliseconds one frame may take. */
  function FrameTime(frameRate: int): (t: real)
    requires frameRate > 0
    ensures t * frameRate as real == 1000.0
  {
    1000.0 / frameRate as real
  }

  /** 1000 / frameTime: the rate one measured frame stands for. */
  function FrameFps(frameTime: int): (fps: real)
    requires frameTime != 0
    ensures fps * frameTime as real == 1000.0
  {
    1000.0 / frameTime as real
  }

  /** A resource handed to scheduleDisposal: whether it has a dispose
      function, and whether calling it throws. */
  datatype Resource = Resource(id: int, hasDispose: bool, throws: bool)

  /** { used, total } in megabytes. */
  datatype Memory = Memory(used: real, total: real)

  /** The record getPerformanceStats returns. */
  datatype Stats = Stats(fps: int, frameCount: int, isLowPowerMode: bool, memoryUsage: Memory, targetFrameRate: int)

  // ---------------------------------------------------------------------
  // Averages

  lemma {:induction false} SumBelow(s: seq<real>, c: real)
    requires |s| > 0 && forall i :: 0 <= i < |s| ==> s[i] < c
    ensures Sum(s) < |s| as real * c
  {
    var init := s[..|s| - 1];
    if |init| == 0 {
      assert Sum(s) == Sum(init) + s[0];
    } else {
      SumBelow(init, c);
    }
  }

  /** When every frame of the history ran below c frames per second, so did
      their average. */
  lemma MeanBelow(s: seq<real>, c: real)
    requires |s| > 0 && forall i :: 0 <= i < |s| ==> s[i] < c
    ensures Mean(s) < c
  {
    SumBelow(s, c);
    DivBounds(Sum(s), |s| as real, c);
  }

  /** The average lies between the slowest and the fastest sample. */
  lemma MeanWithin(s: seq<real>, lo: real, hi: real)
    requires |s| > 0 && forall i :: 0 <= i < |s| ==> lo <= s[i] <= hi
    ensures lo <= Mean(s) <= hi
  {
    SumAtLeast(s, lo);
    SumBoundedBy(s, hi);
    DivBounds(Sum(s), |s| as real, lo);
    DivBounds(Sum(s), |s| as real, hi);
  }

  // ---------------------------------------------------------------------
  // The disposal queue

  /** The resources whose dispose() is called, in queue order: every one
      that has a dispose function, whether or not the call throws. */
  function Disposals(queue: seq<Resource>): (r: seq<Resource>)
    ensures |r| <= |queue|
  {
    if |queue| == 0 then []
    else
      var last := queue[|queue| - 1];
      Disposals(queue[..|queue| - 1]) + (if last.hasDispose then [last] else [])
  }

  /** A resource is disposed exactly when it was queued and has a dispose
      function; one that throws does not keep any other from being disposed. */
  lemma {:induction false} DisposalsMembers(queue: seq<Resource>, r: Resource)
    ensures r in Disposals(queue) <==> r in queue && r.hasDispose
    decreases |queue|
  {
    if |queue| > 0 {
      var init := queue[..|queue| - 1];
      DisposalsMembers(init, r);
      assert queue == init + [queue[|queue| - 1]];
    }
  }

  /** Disposal keeps queue order across any split of the queue. */
  lemma {:induction false} DisposalsConcat(a: seq<Resource>, b: seq<Resource>)
    ensures Disposals(a + b) == Disposals(a) + Disposals(b)
    decreases |b|
  {
    if |b| == 0 {
      assert a + b == a;
    } else {
      var init := b[..|b| - 1];
      assert (a + b)[..|a + b| - 1] == a + init;
      DisposalsConcat(a, init);
    }
  }

  // ---------------------------------------------------------------------
  // Audio buffers

  predicate Bytes(data: seq<int>)
  {
    forall i :: 0 <= i < |data| ==> 0 <= data[i] <= 255
  }

  /** Entry i of the downsampled buffer reads data[floor(i · len / target)],
      stored into a Uint8Array (so reduced modulo 256). */
  function Downsample(data: seq<int>, target: nat): (r: seq<int>)
    requires |data| > target
    ensures |r| == target
    ensures forall i :: 0 <= i < target ==> r[i] == data[SourceIndex(i, |data|, target)] % 256
  {
    seq(target, i requires 0 <= i < target => data[SourceIndex(i, |data|, target)] % 256)
  }

  /** floor(i · step) with step = len / target. */
  function SourceIndex(i: int, len: int, target: int): (j: int)
    requires 0 <= i < target < len
    ensures 0 <= j < len
  {
    DivBelow(i * len, target, len);
    i * len / target
  }

  lemma MulNonNeg(a: int, b: int)
    requires a >= 0 && b >= 0
    ensures a * b >= 0
  {
  }

  /** With t > 0, d · t has the sign of d. */
  lemma MulSign(d: int, t: int)
    requires t > 0
    ensures d >= 0 <==> d * t >= 0
  {
    if d >= 0 {
      MulNonNeg(d, t);
    } else {
      MulNonNeg(-d - 1, t);
      assert d * t == -((-d - 1) * t) - t;
    }
  }

  /** a < t · n gives a / t < n. */
  lemma DivBelow(a: int, t: int, n: int)
    requires a >= 0 && t > 0 && a < t * n
    ensures 0 <= a / t < n
  {
    var q := a / t;
    assert a == q * t + a % t;
    assert (q - n) * t == q * t - n * t;
    MulSign(q - n, t);
    MulSign(q, t);
  }

  /** b ≥ a + t gives b / t > a / t. */
  lemma DivGap(a: int, b: int, t: int)
    requires a >= 0 && t > 0 && b >= a + t
    ensures b / t > a / t
  {
    var p, q := a / t, b / t;
    assert a == p * t + a % t;
    assert b == q * t + b % t;
    assert (p - q) * t == p * t - q * t;
    MulSign(p - q, t);
  }

  /** A shrunk buffer samples the data at strictly increasing positions,
      starting with the first entry. */
  lemma SourceIndexIncreasing(i: int, j: int, len: int, target: int)
    requires 0 <= i < j < target < len
    ensures SourceIndex(0, len, target) == 0
    ensures SourceIndex(i, len, target) < SourceIndex(j, len, target)
  {
    assert (j - i) * len >= len by {
      MulNonNeg(j - i - 1, len);
    }
    assert j * len == i * len + (j - i) * len;
    MulNonNeg(i, len);
    DivGap(i * len, j * len, target);
  }

  /** On byte data the shrunk buffer holds the sampled entries unchanged. */
  lemma DownsampleOfBytes(data: seq<int>, target: nat, i: int)
    requires |data| > target && Bytes(data) && 0 <= i < target
    ensures Downsample(data, target)[i] == data[SourceIndex(i, |data|, target)]
  {
  }

  /** optimizeAudioBuffers: the same buffer when it is short enough,
      otherwise a new one of exactly targetSize entries. */
  method OptimizeAudioBuffers(audioData: array<int>, targetSize: int) returns (r: array<int>)
    requires targetSize >= 0
    ensures audioData.Length <= targetSize ==> r == audioData
    ensures audioData.Length > targetSize ==>
      fresh(r) && r[..] == Downsample(audioData[..], targetSize)
  {
    if audioData.Length <= targetSize {
      return audioData;
    }
    r := new int[targetSize];
    for i := 0 to targetSize
      invariant forall k :: 0 <= k < i ==> r[k] == Downsample(audioData[..], targetSize)[k]
    {
      var index := i * audioData.Length / targetSize;
      assert index == SourceIndex(i, audioData.Length, targetSize);
      r[i] := audioData[index] % 256;
    }
  }

  // ---------------------------------------------------------------------
  // Particles

  /** A particle with its remaining life, whether it has a DOM element, and
      whether that element is attached to a parent node. */
  datatype Particle = Particle(life: real, hasElement: bool, attached: bool)

  predicate Alive(p: Particle)
  {
    p.life > 0.0 && p.hasElement
  }

  predicate InDocument(p: Particle)
  {
    p.hasElement && p.attached
  }

  /** How many particles the shift loop removes: particles.length −
      maxParticles when over the limit, never more than there are. */
  function Overflow(count: nat, maxParticles: int): (n: nat)
    ensures n <= count
    ensures count - n <= MaxI(0, maxParticles)
    ensures count <= maxParticles ==> n == 0
  {
    if count > maxParticles then MinI(count, count - maxParticles) else 0
  }

  /** The filter: live particles, in order. */
  function Survivors(s: seq<Particle>): (r: seq<Particle>)
    ensures |r| <= |s|
    ensures forall i :: 0 <= i < |r| ==> Alive(r[i])
  {
    if |s| == 0 then []
    else Survivors(s[..|s| - 1]) + (if Alive(s[|s| - 1]) then [s[|s| - 1]] else [])
  }

  /** Elements detached by the filter: dead particles still in the document. */
  function Expired(s: seq<Particle>): seq<Particle>
  {
    if |s| == 0 then []
    else
      var last := s[|s| - 1];
      Expired(s[..|s| - 1]) + (if !Alive(last) && InDocument(last) then [last] else [])
  }

  /** Elements detached by the shift loop. */
  function Attached(s: seq<Particle>): seq<Particle>
  {
    if |s| == 0 then []
    else Attached(s[..|s| - 1]) + (if InDocument(s[|s| - 1]) then [s[|s| - 1]] else [])
  }

  /** A particle survives exactly when it is in the list and alive. */
  lemma {:induction false} SurvivorsMembers(s: seq<Particle>, p: Particle)
    ensures p in Survivors(s) <==> p in s && Alive(p)
    decreases |s|
  {
    if |s| > 0 {
      var init := s[..|s| - 1];
      SurvivorsMembers(init, p);
      assert s == init + [s[|s| - 1]];
    }
  }

  /** The filter keeps the original order: filtering a concatenation is the
      concatenation of the filtered parts. */
  lemma {:induction false} SurvivorsConcat(a: seq<Particle>, b: seq<Particle>)
    ensures Survivors(a + b) == Survivors(a) + Survivors(b)
    decreases |b|
  {
    if |b| == 0 {
      assert a + b == a;
    } else {
      var init := b[..|b| - 1];
      assert (a + b)[..|a + b| - 1] == a + init;
      SurvivorsConcat(a, init);
    }
  }

  /** optimizeParticleSystem: the oldest particles beyond maxParticles are
      shifted off (their elements detached), then dead ones are filtered out
      (their elements detached too). `remaining` is what the caller's array
      holds afterwards. */
  method OptimizeParticleSystem(particles: seq<Particle>, maxParticles: int)
    returns (remaining: seq<Particle>, survivors: seq<Particle>, detached: seq<Particle>)
    ensures remaining == particles[Overflow(|particles|, maxParticles)..]
    ensures survivors == Survivors(remaining)
    ensures |survivors| <= MaxI(0, maxParticles)
    ensures detached == Attached(particles[..Overflow(|particles|, maxParticles)]) + Expired(remaining)
  {
    remaining := particles;
    detached := [];
    if |particles| > maxParticles {
      var toRemove := |particles| - maxParticles;
      // shift() on an empty array removes nothing, so the loop may stop early
      var shifted := 0;
      while shifted < toRemove && |remaining| > 0
        invariant 0 <= shifted <= |particles|
        invariant remaining == particles[shifted..]
        invariant detached == Attached(particles[..shifted])
        invariant shifted <= toRemove
        decreases toRemove - shifted
      {
        var particle := remaining[0];
        assert particles[..shifted + 1][..shifted] == particles[..shifted];
        assert particles[..shifted + 1][shifted] == particle;
        remaining := remaining[1..];
        if InDocument(particle) {
          detached := detached + [particle];
        }
        shifted := shifted + 1;
      }
      assert shifted == Overflow(|particles|, maxParticles);
    }
    survivors := Survivors(remaining);
    detached := detached + Expired(remaining);
  }

  // ---------------------------------------------------------------------
  // The manager

  class Manager {
    var frameRate: int
    var targetFrameTime: real
    var lastFrameTime: int
    var frameCount: int
    var fpsHistory: seq<real>
    var memoryUsage: Memory
    var isLowPowerMode: bool
    var disposalQueue: seq<Resource>
    /** The resources whose dispose() ran, oldest first. */
    var disposed: seq<Resource>

    /** The frame rate follows the mode, the frame time follows the frame
        rate, and the history is bounded. */
    ghost predicate Valid()
      reads this
    {
      && frameRate == (if isLowPowerMode then LowPowerFrameRate else NormalFrameRate)
      && targetFrameTime == FrameTime(frameRate)
      && |fpsHistory| <= FpsHistoryLimit
    }

    constructor()
      ensures Valid()
      ensures frameRate == 60 && !isLowPowerMode && lastFrameTime == 0 && frameCount == 0
      ensures fpsHistory == [] && memoryUsage == Memory(0.0, 0.0)
      ensures disposalQueue == [] && disposed == []
    {
      frameRate := NormalFrameRate;
      targetFrameTime := FrameTime(NormalFrameRate);
      lastFrameTime := 0;
      frameCount := 0;
      fpsHistory := [];
      memoryUsage := Memory(0.0, 0.0);
      isLowPowerMode := false;
      disposalQueue := [];
      disposed := [];
    }

    /** shouldRender: enough time has passed since the last frame, at 30
        frames per second in low-power mode. */
    function ShouldRender(timestamp: int): bool
      reads this
    {
      if isLowPowerMode then (timestamp - lastFrameTime) as real >= FrameTime(LowPowerFrameRate)
      else (timestamp - lastFrameTime) as real >= targetFrameTime
    }

    /** The gate opens once a whole frame at the current frame rate has
        passed: after 34 ms in low-power mode and after 17 ms otherwise. */
    lemma ShouldRenderGate(timestamp: int)
      requires Valid()
      ensures ShouldRender(timestamp) <==> (timestamp - lastFrameTime) * frameRate >= 1000
      ensures isLowPowerMode ==> (ShouldRender(timestamp) <==> timestamp - lastFrameTime >= 34)
      ensures !isLowPowerMode ==> (ShouldRender(timestamp) <==> timestamp - lastFrameTime >= 17)
    {
      var elapsed := timestamp - lastFrameTime;
      var x := elapsed as real;
      assert FrameTime(frameRate) * frameRate as real == 1000.0;
      if isLowPowerMode {
        assert FrameTime(30) == 1000.0 / 30.0;
        assert x >= 1000.0 / 30.0 <==> x * 30.0 >= 1000.0;
      } else {
        assert FrameTime(60) == 1000.0 / 60.0;
        assert x >= 1000.0 / 60.0 <==> x * 60.0 >= 1000.0;
      }
    }

    /** updateFrameStats: from the second frame on, the frame's rate joins
        the bounded history and an average below 30 switches low-power mode
        on; every call records the timestamp and counts the frame. */
    method UpdateFrameStats(timestamp: int)
      requires Valid()
      requires lastFrameTime > 0 ==> timestamp != lastFrameTime
      modifies this
      ensures Valid()
      ensures lastFrameTime == timestamp && frameCount == old(frameCount) + 1
      ensures old(lastFrameTime) > 0 ==>
        fpsHistory == PushShift(old(fpsHistory), FrameFps(timestamp - old(lastFrameTime)), FpsHistoryLimit)
      ensures old(lastFrameTime) <= 0 ==> fpsHistory == old(fpsHistory)
      ensures isLowPowerMode == (old(isLowPowerMode) || (old(lastFrameTime) > 0 && Mean(fpsHistory) < LowFpsThreshold))
      ensures memoryUsage == old(memoryUsage) && disposalQueue == old(disposalQueue) && disposed == old(disposed)
    {
      if lastFrameTime > 0 {
        var frameTime := timestamp - lastFrameTime;
        var fps := FrameFps(frameTime);
        fpsHistory := fpsHistory + [fps];
        if |fpsHistory| > FpsHistoryLimit {
          fpsHistory := fpsHistory[1..];
        }
        var avgFps := Mean(fpsHistory);
        if avgFps < LowFpsThreshold && !isLowPowerMode {
          EnableLowPowerMode();
        }
      }
      lastFrameTime := timestamp;
      frameCount := frameCount + 1;
    }

    /** enableLowPowerMode: 30 frames per second. */
    method EnableLowPowerMode()
      modifies `isLowPowerMode, `frameRate, `targetFrameTime
      ensures isLowPowerMode && frameRate == 30 && targetFrameTime == FrameTime(30)
    {
      isLowPowerMode := true;
      frameRate := LowPowerFrameRate;
      targetFrameTime := FrameTime(frameRate);
    }

    /** disableLowPowerMode: back to 60 frames per second. */
    method DisableLowPowerMode()
      modifies `isLowPowerMode, `frameRate, `targetFrameTime
      ensures !isLowPowerMode && frameRate == 60 && targetFrameTime == FrameTime(60)
    {
      isLowPowerMode := false;
      frameRate := NormalFrameRate;
      targetFrameTime := FrameTime(frameRate);
    }

    /** adjustPerformance: switch low-power mode on if it is off. */
    method AdjustPerformance()
      requires Valid()
      modifies `isLowPowerMode, `frameRate, `targetFrameTime
      ensures Valid() && isLowPowerMode && frameRate == 30
    {
      if !isLowPowerMode {
        EnableLowPowerMode();
      }
    }

    method ScheduleDisposal(resource: Resource)
      modifies `disposalQueue
      ensures disposalQueue == old(disposalQueue) + [resource]
    {
      disposalQueue := disposalQueue + [resource];
    }

    /** processDisposalQueue: drain the queue front to back, calling every
        dispose function; a call that throws is caught and the loop goes on. */
    method ProcessDisposalQueue()
      modifies `disposalQueue, `disposed
      ensures disposalQueue == []
      ensures disposed == old(disposed) + Disposals(old(disposalQueue))
    {
      ghost var queue := disposalQueue;
      ghost var done := 0;
      while |disposalQueue| > 0
        invariant 0 <= done <= |queue| && disposalQueue == queue[done..]
        invariant disposed == old(disposed) + Disposals(queue[..done])
        decreases |disposalQueue|
      {
        var resource := disposalQueue[0];
        disposalQueue := disposalQueue[1..];
        assert queue[..done + 1] == queue[..done] + [resource];
        assert queue[..done + 1][..done] == queue[..done];
        if resource.hasDispose {
          // dispose() runs here; whether it throws, the loop continues
          disposed := disposed + [resource];
        }
        done := done + 1;
      }
      assert queue[..done] == queue;
    }

    /** getPerformanceStats: the rounded average rate, 0 with no samples. */
    function PerformanceStats(): (s: Stats)
      reads this
      ensures |fpsHistory| == 0 ==> s.fps == 0
      ensures |fpsHistory| > 0 ==> s.fps == Round(Mean(fpsHistory))
      ensures s.frameCount == frameCount && s.isLowPowerMode == isLowPowerMode
      ensures s.memoryUsage == memoryUsage && s.targetFrameRate == frameRate
    {
      var avgFps := if |fpsHistory| > 0 then Mean(fpsHistory) else 0.0;
      Stats(Round(avgFps), frameCount, isLowPowerMode, memoryUsage, frameRate)
    }

    /** The reported rate lies within half a frame of the slowest and the
        fastest recorded sample, and the target rate reflects the mode. */
    lemma PerformanceStatsBounds(lo: real, hi: real)
      requires Valid()
      requires |fpsHistory| > 0 && forall i :: 0 <= i < |fpsHistory| ==> lo <= fpsHistory[i] <= hi
      ensures lo - 0.5 < PerformanceStats().fps as real <= hi + 0.5
      ensures PerformanceStats().targetFrameRate == (if isLowPowerMode then 30 else 60)
    {
      MeanWithin(fpsHistory, lo, hi);
    }

    /** destroy: drain the disposal queue and forget the frame history. */
    method Destroy()
      modifies `disposalQueue, `disposed, `fpsHistory
      ensures disposalQueue == [] && fpsHistory == []
      ensures disposed == old(disposed) + Disposals(old(disposalQueue))
    {
      ProcessDisposalQueue();
      fpsHistory := [];
      disposalQueue := [];
    }
  }
}
