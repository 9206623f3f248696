/** An abstract view of the FMOD low-level engine as the native layer of
    Amadeus uses it: per-channel fade schedules, a stop delay, a volume, a
    ramp flag and a stopped flag; engine result codes; and the conversion of
    a fade length in seconds into a sample count. What FMOD does inside
    (mixing, interpolation, advancing the DSP clock) is not modelled. */
module Fmod {

  datatype Option<T> = None | Some(value: T)

  /** FMOD_OK, the only result that fn_check lets through. */
  const OK: int := 0

  /** An engine channel handle (a `FMOD::Channel *` in the source). */
  type Handle = nat

  /** One vertex of a volume ramp: at DSP clock `sample`, fade level `volume`. */
  datatype FadePoint = FadePoint(sample: nat, volume: real)

  /** The engine-side state of one channel that the native layer touches. */
  datatype Channel = Channel(
    points: seq<FadePoint>,  // pending fade points, in the order they were added
    stopAt: Option<nat>,     // DSP clock at which the channel stops itself, if any
    volume: real,            // the level set by setVolume and read by getVolume
    ramp: bool,              // setVolumeRamp
    stopped: bool)           // stop() has been called
  {
    /** Channel::addFadePoint(sample, level). */
    function AddFadePoint(sample: nat, level: real): Channel {
      this.(points := points + [FadePoint(sample, level)])
    }

    /** Channel::removeFadePoints(lo, hi), with both ends inclusive. */
    function RemoveFadePoints(lo: nat, hi: nat): Channel {
      this.(points := Outside(points, lo, hi))
    }

    /** Channel::setDelay(0, 0, false): no end delay any more. */
    function ClearDelay(): Channel {
      this.(stopAt := None)
    }

    /** Channel::setDelay(0, at, true): stop the channel at DSP clock `at`. */
    function StopAtClock(at: nat): Channel {
      this.(stopAt := Some(at))
    }

    function SetVolumeRamp(on: bool): Channel {
      this.(ramp := on)
    }

    function SetVolume(level: real): Channel {
      this.(volume := level)
    }

    function Stop(): Channel {
      this.(stopped := true)
    }
  }

  /** `p` lies in the window `[lo, hi]`, both ends included. */
  predicate InWindow(p: FadePoint, lo: nat, hi: nat) {
    lo <= p.sample <= hi
  }

  /** The fade points of `ps` that lie in `[lo, hi]`, in their order. */
  function Inside(ps: seq<FadePoint>, lo: nat, hi: nat): seq<FadePoint> {
    if ps == [] then []
    else if InWindow(ps[0], lo, hi) then [ps[0]] + Inside(ps[1..], lo, hi)
    else Inside(ps[1..], lo, hi)
  }

  /** The fade points of `ps` that lie outside `[lo, hi]`, in their order:
      what survives removeFadePoints(lo, hi). */
  function Outside(ps: seq<FadePoint>, lo: nat, hi: nat): seq<FadePoint> {
    if ps == [] then []
    else if InWindow(ps[0], lo, hi) then Outside(ps[1..], lo, hi)
    else [ps[0]] + Outside(ps[1..], lo, hi)
  }

  /** Inside keeps exactly the points in the window. */
  lemma {:induction false} InsideMembers(ps: seq<FadePoint>, lo: nat, hi: nat, p: FadePoint)
    ensures p in Inside(ps, lo, hi) <==> p in ps && InWindow(p, lo, hi)
  {
    if ps != [] {
      InsideMembers(ps[1..], lo, hi, p);
      assert ps == [ps[0]] + ps[1..];
    }
  }

  /** Outside keeps exactly the points off the window. */
  lemma {:induction false} OutsideMembers(ps: seq<FadePoint>, lo: nat, hi: nat, p: FadePoint)
    ensures p in Outside(ps, lo, hi) <==> p in ps && !InWindow(p, lo, hi)
  {
    if ps != [] {
      OutsideMembers(ps[1..], lo, hi, p);
      assert ps == [ps[0]] + ps[1..];
    }
  }

  /** Every point falls on exactly one side of the window. */
  lemma {:induction false} SplitCount(ps: seq<FadePoint>, lo: nat, hi: nat)
    ensures |Inside(ps, lo, hi)| + |Outside(ps, lo, hi)| == |ps|
  {
    if ps != [] {
      SplitCount(ps[1..], lo, hi);
    }
  }

  lemma {:induction false} InsideAppend(a: seq<FadePoint>, b: seq<FadePoint>, lo: nat, hi: nat)
    ensures Inside(a + b, lo, hi) == Inside(a, lo, hi) + Inside(b, lo, hi)
  {
    if a == [] {
      assert a + b == b;
    } else {
      assert (a + b)[1..] == a[1..] + b;
      InsideAppend(a[1..], b, lo, hi);
    }
  }

  lemma {:induction false} OutsideAppend(a: seq<FadePoint>, b: seq<FadePoint>, lo: nat, hi: nat)
    ensures Outside(a + b, lo, hi) == Outside(a, lo, hi) + Outside(b, lo, hi)
  {
    if a == [] {
      assert a + b == b;
    } else {
      assert (a + b)[1..] == a[1..] + b;
      OutsideAppend(a[1..], b, lo, hi);
    }
  }

  /** Removing a window twice removes nothing more. */
  lemma {:induction false} OutsideIdempotent(ps: seq<FadePoint>, lo: nat, hi: nat)
    ensures Outside(Outside(ps, lo, hi), lo, hi) == Outside(ps, lo, hi)
  {
    if ps != [] {
      OutsideIdempotent(ps[1..], lo, hi);
      if !InWindow(ps[0], lo, hi) {
        assert ([ps[0]] + Outside(ps[1..], lo, hi))[1..] == Outside(ps[1..], lo, hi);
      }
    }
  }

  /** Nothing is left inside a window once it has been removed. */
  lemma {:induction false} InsideOfOutside(ps: seq<FadePoint>, lo: nat, hi: nat)
    ensures Inside(Outside(ps, lo, hi), lo, hi) == []
  {
    if ps != [] {
      InsideOfOutside(ps[1..], lo, hi);
      if !InWindow(ps[0], lo, hi) {
        assert ([ps[0]] + Outside(ps[1..], lo, hi))[1..] == Outside(ps[1..], lo, hi);
      }
    }
  }

  /** The engine calls that fn_check guards. */
  datatype Call =
    | SystemCreate | SystemInit | SystemRelease | SystemUpdate
    | CreateSound | PlayCall | LockDsp | UnlockDsp | GetSoftwareFormat
    | GetDspClock | GetFadePoints | CancelDelay | RemoveFadePoints
    | AddStartPoint | AddEndPoint | SetStopDelay
    | SetVolumeRamp | SetVolume | GetVolume | StopCall

  /** What the engine answers: either every call succeeds, or the one named
      call returns `code`. It stands for the engine's behaviour, which the
      native layer cannot see. */
  datatype Fault = NoFault | FailAt(call: Call, code: int)

  /** The FMOD_RESULT that `call` returns under `fault`. */
  function ResultOf(fault: Fault, call: Call): (r: int)
    ensures r != OK <==> Fails(fault, call)
  {
    if fault.FailAt? && fault.call == call then fault.code else OK
  }

  /** `call` returns something other than FMOD_OK. */
  predicate Fails(fault: Fault, call: Call) {
    fault.FailAt? && fault.call == call && fault.code != OK
  }

  /** `(unsigned long long)(rate * fade)`: the fade length in samples, the
      product truncated toward zero (for a positive fade, its floor). */
  function FadeSamples(rate: nat, fade: real): (n: nat)
    requires fade > 0.0
    ensures n as real <= rate as real * fade < n as real + 1.0
    ensures rate as real * fade < 1.0 <==> n == 0
  {
    var x := rate as real * fade;
    assert x >= 0.0 by {
      assert rate as real >= 0.0;
    }
    x.Floor
  }
}
