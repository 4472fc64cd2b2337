/**
 * The decision logic of `src/components/About.jsx`: the viewport
 * classification of the particle layer and of `useDeviceType`, the
 * generation of the particle list, and the typewriter's tick. The random
 * size, colour, duration, delay and position of each particle are not
 * modelled.
 */
module About {

  const MobileWidth: int := 768
  const TabletWidth: int := 1024

  datatype DeviceType = Mobile | Tablet | Desktop

  /** `newDeviceType` in `generateParticles` for `window.innerWidth == width`. */
  function DeviceTypeFor(width: int): (d: DeviceType)
    ensures d == Mobile <==> width < MobileWidth
    ensures d == Desktop <==> width >= TabletWidth
  {
    if width < MobileWidth then Mobile
    else if width < TabletWidth then Tablet
    else Desktop
  }

  /** `particleCount` for each device type. */
  function ParticleCountFor(d: DeviceType): nat
  {
    match d
    case Mobile => 8
    case Tablet => 12
    case Desktop => 15
  }

  /** A wider viewport never gets fewer particles. */
  lemma ParticleCountMonotone(w1: int, w2: int)
    requires w1 <= w2
    ensures ParticleCountFor(DeviceTypeFor(w1)) <= ParticleCountFor(DeviceTypeFor(w2))
  {
  }

  /** `useDeviceType`'s `isMobile` for the width `width`. */
  predicate IsMobileWidth(width: int)
  {
    width < MobileWidth
  }

  /** The particle container is hidden (`display: none`) on the mobile device type. */
  predicate ContainerHidden(d: DeviceType)
  {
    d == Mobile
  }

  /** The hook and the particle layer draw the mobile line at the same width. */
  lemma MobileAgrees(width: int)
    ensures IsMobileWidth(width) <==> DeviceTypeFor(width) == Mobile
    ensures IsMobileWidth(width) <==> ContainerHidden(DeviceTypeFor(width))
  {
  }

  /** A generated particle; only its `id` is modelled. */
  datatype Particle = Particle(id: nat)

  /** `generateParticles`: classifies the width and builds the list with ids 0, 1, ... in order. */
  method GenerateParticles(width: int) returns (deviceType: DeviceType, particles: seq<Particle>)
    ensures deviceType == DeviceTypeFor(width)
    ensures |particles| == ParticleCountFor(deviceType)
    ensures forall i :: 0 <= i < |particles| ==> particles[i].id == i
  {
    deviceType := Desktop;
    var particleCount := 15;
    if width < MobileWidth {
      deviceType := Mobile;
      particleCount := 8;
    } else if width < TabletWidth {
      deviceType := Tablet;
      particleCount := 12;
    }
    particles := [];
    for i := 0 to particleCount
      invariant |particles| == i
      invariant forall k :: 0 <= k < i ==> particles[k].id == k
    {
      particles := particles + [Particle(i)];
    }
  }

  /** The state of `ParticleSystem`. */
  class ParticleSystem {
    var deviceType: DeviceType
    var particles: seq<Particle>

    /** Mounting: the effect generates particles for the width at that moment. */
    constructor (width: int)
      ensures deviceType == DeviceTypeFor(width)
      ensures |particles| == ParticleCountFor(deviceType)
      ensures forall i :: 0 <= i < |particles| ==> particles[i].id == i
    {
      var d, ps := GenerateParticles(width);
      deviceType, particles := d, ps;
    }

    /** `handleResize`: the list is replaced wholesale by one for the new width. */
    method HandleResize(width: int)
      modifies this
      ensures deviceType == DeviceTypeFor(width)
      ensures |particles| == ParticleCountFor(deviceType)
      ensures forall i :: 0 <= i < |particles| ==> particles[i].id == i
    {
      deviceType, particles := GenerateParticles(width);
    }
  }

  // ---------------------------------------------------------------- MemoizedTypewriter

  /** `currentIndex`, `displayText`, and whether the interval is still set. */
  datatype TypewriterState = TypewriterState(currentIndex: nat, displayText: string, running: bool)

  /** The state the effect starts from on mount. */
  const Initial := TypewriterState(0, "", true)

  /**
   * One run of the interval callback: while the index is within the text it
   * shows the prefix of that length and advances; past it, it clears the
   * interval and shows the same text.
   */
  function Tick(text: string, s: TypewriterState): TypewriterState
  {
    if s.currentIndex <= |text| then
      TypewriterState(s.currentIndex + 1, text[..s.currentIndex], s.running)
    else
      TypewriterState(s.currentIndex, s.displayText, false)
  }

  /** The state after `n` ticks from the mount state. */
  function Ticks(text: string, n: nat): TypewriterState
  {
    if n == 0 then Initial else Tick(text, Ticks(text, n - 1))
  }

  /**
   * After n ticks with n <= |text| + 1 the first n - 1 characters show and the
   * interval runs; from tick |text| + 2 on the interval is cleared and the
   * whole text shows.
   */
  lemma {:induction false} TicksShape(text: string, n: nat)
    ensures n <= |text| + 1 ==>
      Ticks(text, n) == TypewriterState(n, if n == 0 then "" else text[..n - 1], true)
    ensures n > |text| + 1 ==> Ticks(text, n) == TypewriterState(|text| + 1, text, false)
  {
    if n > 0 {
      TicksShape(text, n - 1);
      if n - 1 == |text| + 1 {
        assert text[..|text|] == text;
      }
    }
  }

  /** Each tick shows a prefix of the text, one character longer than the last while it runs. */
  lemma DisplayGrows(text: string, n: nat)
    ensures Ticks(text, n).displayText <= text
    ensures n < |text| + 1 ==> |Ticks(text, n + 1).displayText| == |Ticks(text, n).displayText| + (if n == 0 then 0 else 1)
    ensures n >= |text| + 1 ==> Ticks(text, n + 1).displayText == Ticks(text, n).displayText == text
  {
    TicksShape(text, n);
    TicksShape(text, n + 1);
  }

  class Typewriter {
    var text: string
    var currentIndex: nat
    var displayText: string
    var running: bool

    function State(): TypewriterState
      reads this
    {
      TypewriterState(currentIndex, displayText, running)
    }

    /** The index stays within one past the text and the display is the prefix the last tick wrote. */
    predicate Valid()
      reads this
    {
      && currentIndex <= |text| + 1
      && (currentIndex > 0 ==> displayText == text[..currentIndex - 1])
      && (!running ==> currentIndex == |text| + 1)
    }

    /** Mounting with prop `text`. */
    constructor (text: string)
      ensures Valid() && State() == Initial && this.text == text
    {
      this.text := text;
      currentIndex := 0;
      displayText := "";
      running := true;
    }

    /** One run of the interval callback. */
    method OnTick()
      requires Valid()
      modifies this
      ensures Valid()
      ensures State() == Tick(text, old(State())) && text == old(text)
      ensures displayText <= text
    {
      if currentIndex <= |text| {
        displayText := text[..currentIndex];
        currentIndex := currentIndex + 1;
      } else {
        running := false;
      }
    }

    /**
     * A new `text` prop. The component is memoised and its effect depends on
     * `[text]`, so an unchanged text does nothing; a different one reruns the
     * effect: the index restarts at 0 on a fresh interval, while the shown
     * text stays until the next tick.
     */
    method ChangeText(newText: string)
      requires Valid()
      modifies this
      ensures Valid()
      ensures newText == old(text) ==> State() == old(State()) && text == old(text)
      ensures newText != old(text) ==>
        text == newText && currentIndex == 0 && running && displayText == old(displayText)
    {
      if newText != text {
        text := newText;
        currentIndex := 0;
        running := true;
      }
    }
  }
}
