/**
 * Device tiering and effect throttling of `src/utils/performanceOptimizer.js`.
 *
 * The browser probe (hardware concurrency, device memory, user-agent match,
 * WebGL context) is not modelled: its readings are inputs. Timestamps are
 * integer milliseconds.
 */
module PerformanceOptimizer {
  import opened Wrappers

  datatype Tier = Low | Medium | High

  /** Position of a tier in the order low < medium < high. */
  function Rank(t: Tier): nat
  {
    match t
    case Low => 0
    case Medium => 1
    case High => 2
  }

  /** The `animationQuality` string of a tier's config. */
  function TierName(t: Tier): string
  {
    match t
    case Low => "low"
    case Medium => "medium"
    case High => "high"
  }

  /** What `detectDeviceCapability` reports; `getTier` reads only cores, memory and isMobile. */
  datatype Device = Device(cores: int, memory: real, hasWebGL: bool, isMobile: bool)

  datatype EffectConfig = EffectConfig(
    particleCount: nat,
    animationQuality: string,
    blurIntensity: nat,
    frameRate: nat,
    enableAllEffects: bool)

  const DefaultCores: int := 4
  const DefaultMemory: real := 4.0

  /**
   * Builds the capability record from the probe's readings. JavaScript's `||`
   * replaces a missing reading and also a zero one (both are falsy) by 4.
   */
  function DetectDeviceCapability(
    coresReading: Option<int>, memoryReading: Option<real>, hasWebGL: bool, isMobile: bool): (d: Device)
    ensures d.isMobile == isMobile && d.hasWebGL == hasWebGL
    ensures d.cores != 0 && d.memory != 0.0
    ensures coresReading.Some? && coresReading.value != 0 ==> d.cores == coresReading.value
    ensures memoryReading.Some? && memoryReading.value != 0.0 ==> d.memory == memoryReading.value
    ensures coresReading.None? || coresReading.value == 0 ==> d.cores == DefaultCores
    ensures memoryReading.None? || memoryReading.value == 0.0 ==> d.memory == DefaultMemory
  {
    var cores := if coresReading.Some? && coresReading.value != 0 then coresReading.value else DefaultCores;
    var memory := if memoryReading.Some? && memoryReading.value != 0.0 then memoryReading.value else DefaultMemory;
    Device(cores, memory, hasWebGL, isMobile)
  }

  /** `getTier`: mobile first, then the high and medium thresholds. */
  function GetTier(d: Device): (t: Tier)
    ensures d.isMobile ==> t == Low
    ensures t == High <==> !d.isMobile && d.cores >= 8 && d.memory >= 8.0
    ensures t == Low <==> d.isMobile || d.cores < 4 || d.memory < 4.0
  {
    if d.isMobile then Low
    else if d.cores >= 8 && d.memory >= 8.0 then High
    else if d.cores >= 4 && d.memory >= 4.0 then Medium
    else Low
  }

  /** More cores and more memory on the same kind of device never lower the tier. */
  lemma TierMonotone(d1: Device, d2: Device)
    requires d1.isMobile == d2.isMobile
    requires d1.cores <= d2.cores && d1.memory <= d2.memory
    ensures Rank(GetTier(d1)) <= Rank(GetTier(d2))
  {
  }

  /** A non-mobile device whose probe reports neither cores nor memory is tier medium. */
  lemma MissingReadingsGiveMedium(hasWebGL: bool)
    ensures GetTier(DetectDeviceCapability(None, None, hasWebGL, false)) == Medium
  {
  }

  /** `getEffectConfig`: the fixed table indexed by tier. */
  function GetEffectConfig(t: Tier): (c: EffectConfig)
    ensures c.animationQuality == TierName(t)
    ensures c.enableAllEffects <==> t != Low
    ensures c.frameRate == 60 <==> t == High
    ensures c.particleCount <= 500 && c.blurIntensity <= 40
  {
    match t
    case High => EffectConfig(500, "high", 40, 60, true)
    case Medium => EffectConfig(250, "medium", 20, 30, true)
    case Low => EffectConfig(100, "low", 10, 30, false)
  }

  /** Every numeric knob is non-decreasing from low to medium to high. */
  lemma EffectConfigMonotone(t1: Tier, t2: Tier)
    requires Rank(t1) <= Rank(t2)
    ensures GetEffectConfig(t1).particleCount <= GetEffectConfig(t2).particleCount
    ensures GetEffectConfig(t1).blurIntensity <= GetEffectConfig(t2).blurIntensity
    ensures GetEffectConfig(t1).frameRate <= GetEffectConfig(t2).frameRate
    ensures GetEffectConfig(t1).enableAllEffects ==> GetEffectConfig(t2).enableAllEffects
  {
  }

  /** `shouldDisableHeavyEffects`: the tier is low or the device is mobile. */
  function ShouldDisableHeavyEffects(d: Device): (disable: bool)
    ensures disable <==> GetTier(d) == Low
    ensures disable <==> !GetEffectConfig(GetTier(d)).enableAllEffects
  {
    GetTier(d) == Low || d.isMobile
  }

  const DefaultBaseCount: int := 500

  /** `getOptimizedParticleCount(baseCount)`: the smaller of the request and the tier's ceiling. */
  function GetOptimizedParticleCount(d: Device, baseCount: int): (n: int)
    ensures n <= baseCount && n <= GetEffectConfig(GetTier(d)).particleCount
    ensures n == baseCount || n == GetEffectConfig(GetTier(d)).particleCount
  {
    var ceiling := GetEffectConfig(GetTier(d)).particleCount;
    if baseCount < ceiling then baseCount else ceiling
  }

  /** With the default request of 500 the count is exactly the tier's ceiling. */
  lemma DefaultParticleCountIsCeiling(d: Device)
    ensures GetOptimizedParticleCount(d, DefaultBaseCount) == GetEffectConfig(GetTier(d)).particleCount
  {
  }

  /** `getOptimizedFrameRate`: the tier's frame rate. */
  function GetOptimizedFrameRate(d: Device): (fps: nat)
    ensures fps == 30 || fps == 60
    ensures fps == 60 <==> GetTier(d) == High
  {
    GetEffectConfig(GetTier(d)).frameRate
  }

  // ---------------------------------------------------------------- FrameRateMonitor

  /** Length of a measuring window, in milliseconds. */
  const WindowMs: int := 1000

  /** 2 * d * q <= n2 < 2 * d * (q + 1) for the Euclidean quotient q of n2 by 2 * d. */
  lemma DivBounds(n2: int, d: int)
    requires n2 >= 0 && d > 0
    ensures 2 * d * (n2 / (2 * d)) <= n2 < 2 * d * (n2 / (2 * d) + 1)
  {
  }

  /**
   * `Math.round(frames * 1000 / elapsed)`: the integer nearest to the rate,
   * halves rounded up. The rate of a window never exceeds its frame count.
   */
  function RoundedFps(frames: nat, elapsed: int): (fps: nat)
    requires elapsed >= WindowMs
    ensures 2 * fps * elapsed <= 2000 * frames + elapsed < 2 * (fps + 1) * elapsed
    ensures fps <= frames
  {
    RateBelowFrames(frames, elapsed);
    (2000 * frames + elapsed) / (2 * elapsed)
  }

  /** The rounded rate of a window of at least 1000 ms lies between 0 and the frame count. */
  lemma RateBelowFrames(frames: nat, elapsed: int)
    requires elapsed >= WindowMs
    ensures var q := (2000 * frames + elapsed) / (2 * elapsed);
      && 2 * q * elapsed <= 2000 * frames + elapsed < 2 * (q + 1) * elapsed
      && 0 <= q <= frames
  {
    var q := (2000 * frames + elapsed) / (2 * elapsed);
    DivBounds(2000 * frames + elapsed, elapsed);
    assert 2000 * frames + elapsed < 2 * elapsed * (frames + 1) by {
      assert 2000 * frames <= 2 * elapsed * frames;
    }
  }

  type CallbackId = nat

  /** One call `callback(fps)` made by the monitor. */
  datatype Notification = Notification(callback: CallbackId, fps: nat)

  /** `callbacks.forEach(callback => callback(fps))`: every subscriber once, in registration order. */
  method NotifyAll(callbacks: seq<CallbackId>, fps: nat) returns (delivered: seq<Notification>)
    ensures |delivered| == |callbacks|
    ensures forall i :: 0 <= i < |callbacks| ==> delivered[i] == Notification(callbacks[i], fps)
  {
    delivered := [];
    var i := 0;
    while i < |callbacks|
      invariant 0 <= i <= |callbacks|
      invariant |delivered| == i
      invariant forall k :: 0 <= k < i ==> delivered[k] == Notification(callbacks[k], fps)
    {
      delivered := delivered + [Notification(callbacks[i], fps)];
      i := i + 1;
    }
  }

  class FrameRateMonitor {
    var fps: nat
    var frames: nat
    var lastTime: int
    var callbacks: seq<CallbackId>

    /** `new FrameRateMonitor()` at time `now` (the value of `performance.now()`). */
    constructor (now: int)
      ensures fps == 60 && frames == 0 && lastTime == now && callbacks == []
    {
      fps := 60;
      frames := 0;
      lastTime := now;
      callbacks := [];
    }

    /** `onFpsChange(callback)`: appends a subscriber. */
    method OnFpsChange(callback: CallbackId)
      modifies this
      ensures callbacks == old(callbacks) + [callback]
      ensures fps == old(fps) && frames == old(frames) && lastTime == old(lastTime)
    {
      callbacks := callbacks + [callback];
    }

    /**
     * The frame callback `measure(currentTime)` that `start` schedules: counts
     * the frame and, once a window of at least 1000 ms has elapsed, recomputes
     * fps, opens a new window and notifies every subscriber.
     */
    method Measure(currentTime: int) returns (delivered: seq<Notification>)
      modifies this
      ensures callbacks == old(callbacks)
      ensures currentTime - old(lastTime) >= WindowMs ==>
        && fps == RoundedFps(old(frames) + 1, currentTime - old(lastTime))
        && fps <= old(frames) + 1
        && frames == 0
        && lastTime == currentTime
        && |delivered| == |callbacks|
        && (forall i :: 0 <= i < |callbacks| ==> delivered[i] == Notification(callbacks[i], fps))
      ensures currentTime - old(lastTime) < WindowMs ==>
        fps == old(fps) && frames == old(frames) + 1 && lastTime == old(lastTime) && delivered == []
    {
      frames := frames + 1;
      delivered := [];
      if currentTime - lastTime >= WindowMs {
        fps := RoundedFps(frames, currentTime - lastTime);
        frames := 0;
        lastTime := currentTime;
        delivered := NotifyAll(callbacks, fps);
      }
    }
  }

  // ---------------------------------------------------------------- createSmartThrottle

  const DefaultThrottleDelay: int := 16

  /** Whether a call at `now` is forwarded when the last forwarded call was at `lastTime`. */
  predicate Forwards(lastTime: int, delay: int, now: int)
  {
    now - lastTime >= delay
  }

  /** A throttle state after a sequence of calls: the last forwarded time and the forwarded times. */
  datatype ThrottleRun = ThrottleRun(lastTime: int, forwarded: seq<int>)

  /** Replays the calls at times `calls` on a throttle whose last forwarded time starts as `start`. */
  function Replay(start: int, delay: int, calls: seq<int>): (r: ThrottleRun)
    ensures |r.forwarded| <= |calls|
    ensures r.forwarded == [] ==> r.lastTime == start
    ensures r.forwarded != [] ==> r.lastTime == r.forwarded[|r.forwarded| - 1]
  {
    if calls == [] then ThrottleRun(start, [])
    else
      var prev := Replay(start, delay, calls[..|calls| - 1]);
      var now := calls[|calls| - 1];
      if Forwards(prev.lastTime, delay, now) then ThrottleRun(now, prev.forwarded + [now])
      else prev
  }

  /** Every forwarded time is one of the calls. */
  lemma {:induction false} ForwardedAreCalls(start: int, delay: int, calls: seq<int>)
    ensures forall t :: t in Replay(start, delay, calls).forwarded ==> t in calls
  {
    if calls != [] {
      var init := calls[..|calls| - 1];
      ForwardedAreCalls(start, delay, init);
      assert forall t :: t in init ==> t in calls;
    }
  }

  /**
   * Forwarded calls are at least `delay` apart, and the first is at least
   * `delay` after the starting time.
   */
  lemma {:induction false} ForwardedSpacing(start: int, delay: int, calls: seq<int>)
    ensures var f := Replay(start, delay, calls).forwarded;
      && (f != [] ==> f[0] - start >= delay)
      && (forall k :: 0 < k < |f| ==> f[k] - f[k - 1] >= delay)
  {
    if calls != [] {
      ForwardedSpacing(start, delay, calls[..|calls| - 1]);
    }
  }

  /** The default throttle, `createSmartThrottle(func)`, forwards calls at least 16 ms apart. */
  lemma DefaultThrottleSpacing(calls: seq<int>)
    ensures var f := Replay(0, DefaultThrottleDelay, calls).forwarded;
      && (f != [] ==> f[0] >= 16)
      && (forall k :: 0 < k < |f| ==> f[k] - f[k - 1] >= 16)
  {
    ForwardedSpacing(0, DefaultThrottleDelay, calls);
  }

  class SmartThrottle {
    var lastTime: int
    const adaptiveDelay: int
    /** The times of all calls so far, and of the forwarded ones. */
    ghost var calls: seq<int>
    ghost var forwarded: seq<int>

    ghost predicate Valid()
      reads this
    {
      Replay(0, adaptiveDelay, calls) == ThrottleRun(lastTime, forwarded)
    }

    /** `createSmartThrottle(func, baseDelay)`: nothing forwarded yet, lastTime 0. */
    constructor (baseDelay: int)
      ensures Valid()
      ensures lastTime == 0 && adaptiveDelay == baseDelay && calls == [] && forwarded == []
    {
      lastTime := 0;
      adaptiveDelay := baseDelay;
      calls := [];
      forwarded := [];
    }

    /** One call of the throttled function at time `now`; `forward` says whether `func` runs. */
    method Call(now: int) returns (forward: bool)
      requires Valid()
      modifies this
      ensures Valid()
      ensures forward <==> now - old(lastTime) >= adaptiveDelay
      ensures lastTime == if forward then now else old(lastTime)
      ensures calls == old(calls) + [now]
      ensures forwarded == if forward then old(forwarded) + [now] else old(forwarded)
    {
      forward := now - lastTime >= adaptiveDelay;
      if forward {
        lastTime := now;
        forwarded := forwarded + [now];
      }
      calls := calls + [now];
      assert calls[..|calls| - 1] == old(calls);
    }
  }
}
