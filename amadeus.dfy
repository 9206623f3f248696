/** The native half of the Amadeus Android middleware: the global FMOD
    system, a fixed table of 32 channel slots, and the JNI entry points that
    initialise the engine, tick it, and start, fade and stop sounds on the
    slots.

    Every engine call goes through fn_check, which exits the process with the
    call's result when that is not FMOD_OK. The class `NativeLayer` holds the
    library's globals in fields (the slot table in an array, as
    `channel_list` is) and performs the statements of each entry point one by
    one; an exit is recorded in `exitStatus` and ends the entry point on the
    spot, so nothing after the failing call takes place.

    What the engine answers is a `Fault`, one of its parameters. The values
    the engine hands back (the channel playSound creates, the output rate,
    the DSP clock) are parameters too; what it reports about a channel (the
    pending fade points, the volume) is read from the channel's state. */
module Amadeus {
  import opened Fmod
  import opened FadeSchedule

  /** The length of `channel_list`. */
  const SlotCount: nat := 32

  /** The lifecycle of the global `fmod_system`. */
  datatype System =
    | Unloaded
    | Created(version: nat)
    | Ready(version: nat, channelLimit: int)
    | Released

  // ---------------------------------------------------------------------
  // Which failing call ends an entry point

  /** A call of the shared fade schedule fails; the re-trigger's two calls
      are made only when fade points are pending. */
  predicate ScheduleFails(fault: Fault, pending: bool) {
    || Fails(fault, GetFadePoints)
    || (pending && (Fails(fault, CancelDelay) || Fails(fault, RemoveFadePoints)))
    || Fails(fault, AddStartPoint)
    || Fails(fault, AddEndPoint)
  }

  /** A call of play's fade-in fails after lockDSP has succeeded. */
  predicate FadeInHeldFails(fault: Fault, pending: bool) {
    || Fails(fault, GetSoftwareFormat)
    || Fails(fault, GetDspClock)
    || ScheduleFails(fault, pending)
    || Fails(fault, UnlockDsp)
  }

  /** A call of stop's fade-out fails after lockDSP has succeeded. */
  predicate FadeOutHeldFails(fault: Fault, pending: bool) {
    || Fails(fault, GetSoftwareFormat)
    || Fails(fault, GetVolume)
    || Fails(fault, GetDspClock)
    || ScheduleFails(fault, pending)
    || Fails(fault, SetStopDelay)
    || Fails(fault, UnlockDsp)
  }

  /** createSound or playSound fails. */
  predicate LaunchFails(fault: Fault) {
    Fails(fault, CreateSound) || Fails(fault, PlayCall)
  }

  /** A call of fmodPlaySound after the slot is set, and before update(),
      fails. */
  predicate StartFails(fault: Fault, fading: bool, pending: bool) {
    if fading then Fails(fault, LockDsp) || FadeInHeldFails(fault, pending)
    else Fails(fault, SetVolumeRamp) || Fails(fault, SetVolume)
  }

  /** A call of fmodStopSound before update() fails. */
  predicate FinishFails(fault: Fault, fading: bool, pending: bool) {
    if fading then Fails(fault, LockDsp) || FadeOutHeldFails(fault, pending)
    else Fails(fault, StopCall)
  }

  predicate PlayFails(fault: Fault, fading: bool, pending: bool) {
    LaunchFails(fault) || StartFails(fault, fading, pending) || Fails(fault, SystemUpdate)
  }

  predicate StopFails(fault: Fault, fading: bool, pending: bool) {
    FinishFails(fault, fading, pending) || Fails(fault, SystemUpdate)
  }

  /** The engine calls that fn_check guards in fmodPlaySound. */
  function PlayCalls(fading: bool, pending: bool): seq<Call> {
    [CreateSound, PlayCall]
    + (if fading then
         [LockDsp, GetSoftwareFormat, GetDspClock, GetFadePoints]
         + (if pending then [CancelDelay, RemoveFadePoints] else [])
         + [AddStartPoint, AddEndPoint, UnlockDsp]
       else [SetVolumeRamp, SetVolume])
    + [SystemUpdate]
  }

  /** The engine calls that fn_check guards in fmodStopSound on an occupied slot. */
  function StopCalls(fading: bool, pending: bool): seq<Call> {
    (if fading then
       [LockDsp, GetSoftwareFormat, GetVolume, GetDspClock, GetFadePoints]
       + (if pending then [CancelDelay, RemoveFadePoints] else [])
       + [AddStartPoint, AddEndPoint, SetStopDelay, UnlockDsp]
     else [StopCall])
    + [SystemUpdate]
  }

  /** fmodPlaySound exits exactly when one of the calls it makes fails. */
  lemma PlayFailsOnItsCalls(fault: Fault, fading: bool, pending: bool)
    ensures PlayFails(fault, fading, pending) <==>
              fault.FailAt? && fault.code != OK && fault.call in PlayCalls(fading, pending)
  {
  }

  /** fmodStopSound on an occupied slot exits exactly when one of the calls
      it makes fails. */
  lemma StopFailsOnItsCalls(fault: Fault, fading: bool, pending: bool)
    ensures StopFails(fault, fading, pending) <==>
              fault.FailAt? && fault.code != OK && fault.call in StopCalls(fading, pending)
  {
  }

  // ---------------------------------------------------------------------
  // The library's globals and its entry points

  class NativeLayer {
    /** channel_list; None is a null pointer. */
    const slots: array<Option<Handle>>
    /** The engine's channels, by handle. */
    var channels: map<Handle, Channel>
    /** lockDSP is held. */
    var locked: bool
    /** How many times update() has run. */
    var commits: nat
    /** fmod_system. */
    var system: System
    /** The argument fn_check passed to `exit`, once it has exited the process. */
    var exitStatus: Option<int>

    /** The table has its 32 slots, every occupied slot names a channel the
        engine knows, and the DSP lock is held only by a process that has
        exited in the middle of a fade. */
    ghost predicate Valid()
      reads this, slots
    {
      && slots.Length == SlotCount
      && (locked ==> exitStatus.Some?)
      && forall i :: 0 <= i < slots.Length && slots[i].Some? ==> slots[i].value in channels
    }

    /** The library as loaded: its globals zero-initialised. */
    constructor ()
      ensures Valid() && fresh(slots)
      ensures forall i :: 0 <= i < slots.Length ==> slots[i] == None
      ensures channels == map[] && !locked && commits == 0
      ensures system == Unloaded && exitStatus == None
    {
      slots := new Option<Handle>[SlotCount](_ => None);
      channels := map[];
      locked := false;
      commits := 0;
      system := Unloaded;
      exitStatus := None;
    }

    /** fn_check: a result other than FMOD_OK exits the process with it. */
    method Check(result: int) returns (ok: bool)
      modifies this`exitStatus
      ensures ok <==> result == OK
      ensures exitStatus == if ok then old(exitStatus) else Some(result)
    {
      ok := result == OK;
      if !ok {
        exitStatus := Some(result);
      }
    }

    /** fn_check(fmod_system->update()). */
    method Update(fault: Fault) returns (ok: bool)
      modifies this`commits, this`exitStatus
      ensures ok <==> !Fails(fault, SystemUpdate)
      ensures exitStatus == if ok then old(exitStatus) else Some(fault.code)
      ensures commits == if ok then old(commits) + 1 else old(commits)
    {
      ok := Check(ResultOf(fault, SystemUpdate));
      if !ok { return; }
      commits := commits + 1;
    }

    /** fmodInit: System_Create with the version cast to `unsigned int`,
        then init with the channel limit. */
    method Init(channelLimit: int, version: int, fault: Fault)
      requires exitStatus == None
      modifies this`system, this`exitStatus
      ensures var v := version % 0x1_0000_0000;
              && exitStatus == (if Fails(fault, SystemCreate) || Fails(fault, SystemInit)
                                then Some(fault.code) else None)
              && system == (if Fails(fault, SystemCreate) then old(system)
                            else if Fails(fault, SystemInit) then Created(v)
                            else Ready(v, channelLimit))
    {
      var v := version % 0x1_0000_0000;
      var ok := Check(ResultOf(fault, SystemCreate));
      if !ok { return; }
      system := Created(v);
      ok := Check(ResultOf(fault, SystemInit));
      if !ok { return; }
      system := Ready(v, channelLimit);
    }

    /** fmodShutdown: release the system. */
    method Shutdown(fault: Fault)
      requires exitStatus == None && system.Ready?
      modifies this`system, this`exitStatus
      ensures exitStatus == if Fails(fault, SystemRelease) then Some(fault.code) else None
      ensures system == if Fails(fault, SystemRelease) then old(system) else Released
    {
      var ok := Check(ResultOf(fault, SystemRelease));
      if !ok { return; }
      system := Released;
    }

    /** fmodTick: one update of the system. */
    method Tick(fault: Fault)
      requires Valid() && exitStatus == None && system.Ready?
      modifies this`commits, this`exitStatus
      ensures Valid()
      ensures exitStatus == if Fails(fault, SystemUpdate) then Some(fault.code) else None
      ensures commits == if Fails(fault, SystemUpdate) then old(commits) else old(commits) + 1
    {
      var ok := Update(fault);
    }

    /** The fade schedule both entry points share, on channel `c`; `d` is
        the channel afterwards. */
    method ScheduleFade(c: Channel, clock: nat, samples: nat, from: real, to: real, fault: Fault)
      returns (ok: bool, d: Channel)
      modifies this`exitStatus
      ensures ok <==> !ScheduleFails(fault, |c.points| > 0)
      ensures exitStatus == if ok then old(exitStatus) else Some(fault.code)
      ensures ok ==> d == Scheduled(c, clock, samples, from, to)
    {
      d := c;
      ok := Check(ResultOf(fault, GetFadePoints));
      if !ok { return; }
      if |d.points| > 0 {
        ok := Check(ResultOf(fault, CancelDelay));
        if !ok { return; }
        d := d.ClearDelay();
        ok := Check(ResultOf(fault, RemoveFadePoints));
        if !ok { return; }
        d := d.RemoveFadePoints(clock, clock + samples);
      }
      ok := Check(ResultOf(fault, AddStartPoint));
      if !ok { return; }
      d := d.AddFadePoint(clock, from);
      ok := Check(ResultOf(fault, AddEndPoint));
      if !ok { return; }
      d := d.AddFadePoint(clock + samples, to);
    }

    /** Play's fade-in, under the DSP lock. */
    method FadeIn(c: Channel, volume: real, samples: nat, clock: nat, fault: Fault)
      returns (ok: bool, d: Channel)
      modifies this`locked, this`exitStatus
      ensures ok <==> !StartFails(fault, true, |c.points| > 0)
      ensures exitStatus == if ok then old(exitStatus) else Some(fault.code)
      ensures locked == if Fails(fault, LockDsp) then old(locked) else !ok
      ensures ok ==> d == FadedIn(c, volume, clock, samples)
    {
      d := c;
      ok := Check(ResultOf(fault, LockDsp));
      if !ok { return; }
      locked := true;
      ok := Check(ResultOf(fault, GetSoftwareFormat));
      if !ok { return; }
      ok := Check(ResultOf(fault, GetDspClock));
      if !ok { return; }
      ok, d := ScheduleFade(d, clock, samples, 0.0, volume, fault);
      if !ok { return; }
      ok := Check(ResultOf(fault, UnlockDsp));
      if !ok { return; }
      locked := false;
    }

    /** Play without a fade: ramping off, then the volume. */
    method SetVolumeNow(c: Channel, volume: real, fault: Fault) returns (ok: bool, d: Channel)
      modifies this`exitStatus
      ensures ok <==> !StartFails(fault, false, |c.points| > 0)
      ensures exitStatus == if ok then old(exitStatus) else Some(fault.code)
      ensures ok ==> d == SetAtOnce(c, volume)
    {
      d := c;
      ok := Check(ResultOf(fault, SetVolumeRamp));
      if !ok { return; }
      d := d.SetVolumeRamp(false);
      ok := Check(ResultOf(fault, SetVolume));
      if !ok { return; }
      d := d.SetVolume(volume);
    }

    /** What play does to the channel once it is in its slot. */
    method Start(c: Channel, volume: real, fade: real, rate: nat, clock: nat, fault: Fault)
      returns (ok: bool, d: Channel)
      modifies this`locked, this`exitStatus
      ensures ok <==> !StartFails(fault, fade > 0.0, |c.points| > 0)
      ensures exitStatus == if ok then old(exitStatus) else Some(fault.code)
      ensures locked == if fade > 0.0 && !Fails(fault, LockDsp) then !ok else old(locked)
      ensures ok ==> d == Started(c, volume, fade, rate, clock)
    {
      if fade > 0.0 {
        ok, d := FadeIn(c, volume, FadeSamples(rate, fade), clock, fault);
      } else {
        ok, d := SetVolumeNow(c, volume, fault);
      }
    }

    /** fmodPlaySound from the moment playSound has handed out channel `h`
        (in state `spawned`): store it in slot `id` over whatever was there,
        fade it in or set its volume, and update the engine. */
    method Attach(id: int, h: Handle, spawned: Channel, volume: real, fade: real,
                  rate: nat, clock: nat, fault: Fault)
      requires Valid() && exitStatus == None
      requires 0 <= id < SlotCount
      modifies this`channels, this`locked, this`commits, this`exitStatus, slots
      ensures Valid()
      ensures var pending := |spawned.points| > 0;
              var halts := StartFails(fault, fade > 0.0, pending) || Fails(fault, SystemUpdate);
              && exitStatus == (if halts then Some(fault.code) else None)
              && slots[..] == old(slots[..])[id := Some(h)]
              && (locked <==> fade > 0.0 && FadeInHeldFails(fault, pending))
              && commits == (if halts then old(commits) else old(commits) + 1)
              && (!halts ==> channels == old(channels)[h := Started(spawned, volume, fade, rate, clock)])
      ensures h in channels && channels == old(channels)[h := channels[h]]
      ensures !StartFails(fault, fade > 0.0, |spawned.points| > 0) ==>
                channels == old(channels)[h := Started(spawned, volume, fade, rate, clock)]
    {
      slots[id] := Some(h);
      var ok, c := Start(spawned, volume, fade, rate, clock, fault);
      channels := channels[h := c];
      if !ok { return; }
      ok := Update(fault);
    }

    /** fmodPlaySound: create the sound, play it on a new channel `h` (whose
        state as playSound hands it out is `spawned`), then attach it to slot
        `id`. `rate` and `clock` are what getSoftwareFormat and getDSPClock
        report. */
    method PlaySound(id: int, h: Handle, spawned: Channel, volume: real, fade: real,
                     rate: nat, clock: nat, fault: Fault)
      requires Valid() && exitStatus == None && system.Ready?
      requires 0 <= id < SlotCount
      modifies this`channels, this`locked, this`commits, this`exitStatus, slots
      ensures Valid()
      ensures var pending := |spawned.points| > 0;
              var halts := PlayFails(fault, fade > 0.0, pending);
              && exitStatus == (if halts then Some(fault.code) else None)
              && slots[..] == (if LaunchFails(fault) then old(slots[..]) else old(slots[..])[id := Some(h)])
              && (LaunchFails(fault) ==> channels == old(channels))
              && (locked <==> fade > 0.0 && FadeInHeldFails(fault, pending))
              && commits == (if halts then old(commits) else old(commits) + 1)
              && (!halts ==> channels == old(channels)[h := Started(spawned, volume, fade, rate, clock)])
      ensures !LaunchFails(fault) ==> h in channels && channels == old(channels)[h := channels[h]]
      ensures !LaunchFails(fault) && !StartFails(fault, fade > 0.0, |spawned.points| > 0) ==>
                channels == old(channels)[h := Started(spawned, volume, fade, rate, clock)]
    {
      var ok := Check(ResultOf(fault, CreateSound));
      if !ok { return; }
      ok := Check(ResultOf(fault, PlayCall));
      if !ok { return; }
      Attach(id, h, spawned, volume, fade, rate, clock, fault);
    }

    /** Stop's fade-out, under the DSP lock. */
    method FadeOut(c: Channel, samples: nat, clock: nat, fault: Fault)
      returns (ok: bool, d: Channel)
      modifies this`locked, this`exitStatus
      ensures ok <==> !FinishFails(fault, true, |c.points| > 0)
      ensures exitStatus == if ok then old(exitStatus) else Some(fault.code)
      ensures locked == if Fails(fault, LockDsp) then old(locked) else !ok
      ensures ok ==> d == FadedOut(c, clock, samples)
    {
      d := c;
      ok := Check(ResultOf(fault, LockDsp));
      if !ok { return; }
      locked := true;
      ok := Check(ResultOf(fault, GetSoftwareFormat));
      if !ok { return; }
      ok := Check(ResultOf(fault, GetVolume));
      if !ok { return; }
      var volume := d.volume;
      ok := Check(ResultOf(fault, GetDspClock));
      if !ok { return; }
      ok, d := ScheduleFade(d, clock, samples, volume, 0.0, fault);
      if !ok { return; }
      ok := Check(ResultOf(fault, SetStopDelay));
      if !ok { return; }
      d := d.StopAtClock(clock + samples);
      ok := Check(ResultOf(fault, UnlockDsp));
      if !ok { return; }
      locked := false;
    }

    /** What stop does to the channel in the slot before update(). */
    method Finish(c: Channel, fade: real, rate: nat, clock: nat, fault: Fault)
      returns (ok: bool, d: Channel)
      modifies this`locked, this`exitStatus
      ensures ok <==> !FinishFails(fault, fade > 0.0, |c.points| > 0)
      ensures exitStatus == if ok then old(exitStatus) else Some(fault.code)
      ensures locked == if fade > 0.0 && !Fails(fault, LockDsp) then !ok else old(locked)
      ensures ok ==> d == Finished(c, fade, rate, clock)
    {
      if fade > 0.0 {
        ok, d := FadeOut(c, FadeSamples(rate, fade), clock, fault);
      } else {
        d := c;
        ok := Check(ResultOf(fault, StopCall));
        if !ok { return; }
        d := d.Stop();
      }
    }

    /** fmodStopSound: an empty slot is left alone; otherwise fade the
        channel out and stop it at the fade's end, or stop it at once, then
        update the engine and empty the slot. `rate` and `clock` are what
        getSoftwareFormat and getDSPClock report. */
    method StopSound(id: int, fade: real, rate: nat, clock: nat, fault: Fault)
      requires Valid() && exitStatus == None
      requires 0 <= id < SlotCount
      modifies this`channels, this`locked, this`commits, this`exitStatus, slots
      ensures Valid()
      ensures old(slots[id]).None? ==>
                && slots[..] == old(slots[..]) && channels == old(channels) && !locked
                && commits == old(commits) && exitStatus == None
      ensures old(slots[id]).Some? ==>
                var h := old(slots[id]).value;
                var c := old(channels)[h];
                var halts := StopFails(fault, fade > 0.0, |c.points| > 0);
                && exitStatus == (if halts then Some(fault.code) else None)
                && slots[..] == (if halts then old(slots[..]) else old(slots[..])[id := None])
                && (locked <==> fade > 0.0 && FadeOutHeldFails(fault, |c.points| > 0))
                && commits == (if halts then old(commits) else old(commits) + 1)
                && (!halts ==> channels == old(channels)[h := Finished(c, fade, rate, clock)])
      ensures old(slots[id]).Some? ==>
                var h := old(slots[id]).value;
                && h in channels && channels == old(channels)[h := channels[h]]
                && (!FinishFails(fault, fade > 0.0, |old(channels)[h].points| > 0) ==>
                      channels == old(channels)[h := Finished(old(channels)[h], fade, rate, clock)])
    {
      var channel := slots[id];
      if channel.None? { return; }
      var h := channel.value;
      var ok, c := Finish(channels[h], fade, rate, clock, fault);
      channels := channels[h := c];
      if !ok { return; }
      ok := Update(fault);
      if !ok { return; }
      slots[id] := None;
    }
  }
}
