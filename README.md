# Amadeus native layer, modelled in Dafny

This project models `android/src/main/cpp/amadeus.cpp`, the native half of the
Amadeus Android audio middleware. It captures these parts of that file:

- the global FMOD system;
- the table `channel_list` of 32 channel slots;
- `fn_check`, which exits the process on any engine result other than
  `FMOD_OK`;
- the JNI entry points `fmodInit`, `fmodShutdown`, `fmodTick`,
  `fmodPlaySound` and `fmodStopSound`.

The model has three files:

- `fmod.dfy` (module `Fmod`) is an abstract view of the FMOD engine as the
  layer uses it. It covers:
  - a channel's pending fade points, stop delay, volume, ramp flag and
    stopped flag;
  - `removeFadePoints` over an inclusive window;
  - a `Fault` that says which engine call, if any, returns a non-OK code;
  - the conversion of a fade length in seconds into a sample count.
- `schedule.dfy` (module `FadeSchedule`) gives, as functions of the channel's
  state, what play and stop do to one channel. It includes the re-trigger,
  which cancels the stop delay and clears the fade window when points are
  pending. The lemmas about those functions state the properties of that
  schedule.
- `amadeus.dfy` (module `Amadeus`) holds the class `NativeLayer`.
  - Its fields are the library's globals: the slot table is an array, as
    `channel_list` is. Alongside them are the engine's channels by handle,
    the DSP lock, a count of `update()` calls, the system's lifecycle and the
    exit status.
  - Each entry point is a method that carries out the source's statements in
    order.
  - A failing `fn_check` records the exit status and ends the method on the
    spot. Every later statement is skipped: slot writes, `unlockDSP` and
    `update()` among them.
  - What the engine hands back and reports comes in as parameters: the new
    channel's state, the output rate and the DSP clock. What it reports
    about a channel (the pending fade-point count, its volume) is read from
    the channel's state.

## Model

| member | source | states |
|---|---|---|
| Fmod.ResultOf | android/src/main/cpp/amadeus.cpp:11-15 | a call's result is something other than FMOD_OK exactly when the fault names that call with a non-OK code, so it is exactly then that fn_check exits |
| Fmod.FadeSamples | android/src/main/cpp/amadeus.cpp:52 | the fade length in samples is the product of rate and fade truncated toward zero: at most the product and within one of it, and zero exactly when the product is below one |
| Fmod.OutsideMembers | android/src/main/cpp/amadeus.cpp:61 | removeFadePoints(lo, hi) keeps exactly the points whose sample lies outside the inclusive window |
| Fmod.InsideOfOutside | android/src/main/cpp/amadeus.cpp:61 | after removeFadePoints(lo, hi) no point is left inside [lo, hi] |
| Fmod.OutsideIdempotent | android/src/main/cpp/amadeus.cpp:61 | removing the same window twice removes nothing more |
| Fmod.SplitCount | android/src/main/cpp/amadeus.cpp:61 | every pending point lies either inside the window or outside it, never both |
| FadeSchedule.ScheduledPoints | android/src/main/cpp/amadeus.cpp:58-65 | the schedule keeps, in order, the points outside [clock, clock+samples] and appends (clock, from) then (clock+samples, to); with nothing pending, those two are all the points |
| FadeSchedule.ScheduledWindow | android/src/main/cpp/amadeus.cpp:58-65 | after the re-trigger and the two additions, the only points inside [clock, clock+samples] are the two new ones, in order |
| FadeSchedule.ScheduledKeepsOutside | android/src/main/cpp/amadeus.cpp:58-65 | the points outside the window are exactly those that were outside it before |
| FadeSchedule.ScheduledCount | android/src/main/cpp/amadeus.cpp:58-65 | the number of points afterwards is the number before, less those in the window, plus two |
| FadeSchedule.ScheduledRest | android/src/main/cpp/amadeus.cpp:59-62 | the stop delay is cleared exactly when points were pending; volume, ramp and the stopped flag are untouched |
| FadeSchedule.RescheduleOverrides | android/src/main/cpp/amadeus.cpp:58-65 | a second schedule over the same window leaves the points the second alone would leave: fades do not stack |
| FadeSchedule.PlayFadesIn | android/src/main/cpp/amadeus.cpp:47-67 | with fade > 0 the last two points are (clock, 0) and (clock + FadeSamples(rate, fade), volume); they are the only points in that window, the outside is unchanged, and volume, ramp and stopped are untouched |
| FadeSchedule.PlaySetsAtOnce | android/src/main/cpp/amadeus.cpp:68-71 | with fade <= 0 ramping is off and the volume is the requested one; no fade point is added or removed and the stop delay is unchanged |
| FadeSchedule.StopFadesOut | android/src/main/cpp/amadeus.cpp:86-110 | with fade > 0 the last two points are (clock, the volume getVolume reports) and (clock + samples, 0), and the stop delay is set at the very sample of that end point; the channel is not stopped at once |
| FadeSchedule.StopAtOnce | android/src/main/cpp/amadeus.cpp:111-113 | with fade <= 0 stop() is called and nothing else about the channel changes |
| FadeSchedule.FadeOutReplacesFadeIn | android/src/main/cpp/amadeus.cpp:100-107 | a faded stop over the same window as a fade-in still in progress leaves only the fade-out's two points after what lay outside the window before the play |
| Amadeus.PlayFailsOnItsCalls | android/src/main/cpp/amadeus.cpp:41-73 | fmodPlaySound exits exactly when one of the calls it makes, for its fade and pending cases, fails |
| Amadeus.StopFailsOnItsCalls | android/src/main/cpp/amadeus.cpp:86-115 | fmodStopSound on an occupied slot exits exactly when one of the calls it makes fails |
| Amadeus.NativeLayer.constructor | android/src/main/cpp/amadeus.cpp:8-9 | the globals start zero-initialised: every slot empty, no system, nothing locked, no exit |
| Amadeus.NativeLayer.Check | android/src/main/cpp/amadeus.cpp:11-15 | fn_check lets FMOD_OK through and otherwise records the result as the exit status |
| Amadeus.NativeLayer.Update | android/src/main/cpp/amadeus.cpp:73 | update() is committed exactly when it does not fail; on failure the process exits with its code |
| Amadeus.NativeLayer.Init | android/src/main/cpp/amadeus.cpp:17-23 | System_Create with the version cast to unsigned int, then init with the channel limit; a failure of either exits, and an init failure leaves the system created but not initialised |
| Amadeus.NativeLayer.Shutdown | android/src/main/cpp/amadeus.cpp:25-27 | the system is released unless release() fails, which exits with its code |
| Amadeus.NativeLayer.Tick | android/src/main/cpp/amadeus.cpp:29-31 | one update() of the system, nothing else |
| Amadeus.NativeLayer.ScheduleFade | android/src/main/cpp/amadeus.cpp:57-65 | the getFadePoints check, the re-trigger when points are pending, and the two additions; it succeeds exactly when none of those calls fails, leaving the channel as Scheduled says |
| Amadeus.NativeLayer.FadeIn | android/src/main/cpp/amadeus.cpp:47-67 | under lockDSP, the fade from silence to the volume; the lock is held afterwards exactly when a call after lockDSP failed |
| Amadeus.NativeLayer.SetVolumeNow | android/src/main/cpp/amadeus.cpp:68-71 | setVolumeRamp(false), then setVolume(volume), each checked |
| Amadeus.NativeLayer.Start | android/src/main/cpp/amadeus.cpp:47-71 | the fade-in when fade > 0, the immediate volume otherwise, with the lock left held exactly on a failure inside the lock |
| Amadeus.NativeLayer.Attach | android/src/main/cpp/amadeus.cpp:45-73 | the new channel is stored in slot id over any previous occupant before the fade, other slots unchanged; only channel h changes; once the fade-in or volume setting succeeds h is as Started says, even if update() then fails; update() runs only if nothing before it failed |
| Amadeus.NativeLayer.PlaySound | android/src/main/cpp/amadeus.cpp:33-74 | if createSound or playSound fails, nothing changes but the exit; otherwise slot id holds the new channel even if a later call fails, the lock stays held exactly on a failure after lockDSP, update() runs only when nothing failed; no channel but h changes, and h is as Started says once the fade-in or volume setting has succeeded |
| Amadeus.NativeLayer.FadeOut | android/src/main/cpp/amadeus.cpp:86-110 | under lockDSP, the fade from the channel's volume to silence and the stop delay at the fade's end; the lock is held afterwards exactly when a call after lockDSP failed |
| Amadeus.NativeLayer.Finish | android/src/main/cpp/amadeus.cpp:86-113 | the fade-out when fade > 0, stop() otherwise |
| Amadeus.NativeLayer.StopSound | android/src/main/cpp/amadeus.cpp:76-117 | an empty slot changes nothing and does not update the engine; otherwise the channel is faded out or stopped, update() runs, and only slot id is cleared; a failing call leaves the slot table as it was and skips update(); no other channel changes, and the slot's channel is as Finished says once the fade-out or stop() has succeeded, even if update() then fails |

## Left out

- The JNI marshalling is left out (`JNIEnv`, `jstring`, `jint`, `jfloat`). Slot ids and volumes arrive as plain integers and reals.
- `GetStringUTFChars` is left out, and the string it returns is never released in the source either.
- The `FMOD::Sound` that createSound returns is not modelled. The source never releases it.
- The `mode` flags and the file path are not modelled. Only the success or failure of createSound is.
- FMOD's own behaviour is not modelled: mixing, ramp interpolation, the DSP clock advancing, and channels ending or being stolen.
- Which channel playSound hands out, and its state at that moment, is an input (`h`, `spawned`). So the re-trigger on play is reachable.
- lockDSP is modelled only as a held/free flag. Concurrent mixing is not modelled.
- Floating point is not modelled. Volumes, fades and `rate * fade` are exact reals, so float rounding of the product is not captured.
- Amadeus.NativeLayer.FadeIn: `clock + samples` is an unbounded sum, so the wrap-around of `unsigned long long` is not captured. The same holds for Amadeus.NativeLayer.FadeOut and Amadeus.NativeLayer.ScheduleFade.
- Amadeus.NativeLayer.FadeIn: the sample count is computed before lockDSP rather than after getSoftwareFormat. Nothing observable depends on the moment, because the computation is pure. The same holds for Amadeus.NativeLayer.FadeOut.
- Amadeus.NativeLayer.PlaySound and Amadeus.NativeLayer.StopSound require `0 <= id < 32`.
  - The source indexes `channel_list` without a bounds check, so other ids are undefined behaviour, not a handled error.
  - PlaySound, Tick and Shutdown also require an initialised system, because the source dereferences `fmod_system` unconditionally.
- Amadeus.NativeLayer.Attach: after a call inside the fade-in or the volume setting fails, the contract says the channel map differs from before only at `h`, but not what `h`'s channel then is (whatever the calls before the failing one did). After a failing `update()` it is as `Started` says. The same holds for Amadeus.NativeLayer.PlaySound.
- Amadeus.NativeLayer.StopSound: after a call inside the fade-out fails, the contract says the channel map differs from before only at the slot's channel, but not what that channel then is. After a failing `update()`, it is as `Finished` says: stop() or the fade-out has already taken effect.
- After an exit every entry point requires that the process is still running (`exitStatus == None`), so nothing is said about calls after an exit.
- `exitStatus` holds the argument passed to `exit((int) result)`. The low 8 bits the operating system reports are not modelled.
- Fade points are kept in the order they were added, and "the last two points" in the lemmas relies on that. The order in which FMOD stores them cannot be seen, and may be by clock; the window facts (what lies inside or outside `[clock, clock + samples]`) do not depend on order.
- Facts about the code that the model follows:
  - the sample count is `(unsigned long long)(rate * fade)`, which truncates;
  - any non-OK result calls `exit`, so nothing after it runs;
  - slot ids are not bounds-checked;
  - `fmodTick` only calls `update()`;
  - `fmodStopSound` clears the slot at once, after `update()`, also on the faded path;
  - `channel_list` has 32 entries whatever `channel_limit` is.
- The library has no other native entry points. The Java class's methods are stubs apart from `init`, which calls `org.fmod.FMOD.init`; the Java side and `amadeus.hpp` are not part of this model.
