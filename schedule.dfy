/** What fmodPlaySound and fmodStopSound do to one engine channel, as
    functions of the channel's state before the call and of what the engine
    reports (its output rate and the channel's DSP clock).

    Both entry points share one fade schedule: a re-trigger, which cancels
    the end delay and clears the fade window when fade points are pending,
    followed by a start point at the current clock and an end point
    `samples` later. Play ramps from silence up to the requested volume;
    stop ramps from the channel's volume down to silence and stops the
    channel when the ramp ends. */
module FadeSchedule {
  import opened Fmod

  /** The re-trigger: with fade points pending, setDelay(0, 0, 0) and then
      removeFadePoints(lo, hi); with none, nothing. */
  function Retriggered(c: Channel, lo: nat, hi: nat): Channel {
    if |c.points| > 0 then c.ClearDelay().RemoveFadePoints(lo, hi) else c
  }

  /** The shared schedule: re-trigger over `[clock, clock + samples]`, then
      a point at `clock` with level `from` and one at `clock + samples` with
      level `to`. */
  function Scheduled(c: Channel, clock: nat, samples: nat, from: real, to: real): Channel {
    Retriggered(c, clock, clock + samples).AddFadePoint(clock, from).AddFadePoint(clock + samples, to)
  }

  /** fmodPlaySound with a fade: a ramp from silence up to `volume`. */
  function FadedIn(c: Channel, volume: real, clock: nat, samples: nat): Channel {
    Scheduled(c, clock, samples, 0.0, volume)
  }

  /** fmodPlaySound without a fade: setVolumeRamp(false), then setVolume. */
  function SetAtOnce(c: Channel, volume: real): Channel {
    c.SetVolumeRamp(false).SetVolume(volume)
  }

  /** What fmodPlaySound does to the channel playSound handed out. */
  function Started(c: Channel, volume: real, fade: real, rate: nat, clock: nat): Channel {
    if fade > 0.0 then FadedIn(c, volume, clock, FadeSamples(rate, fade)) else SetAtOnce(c, volume)
  }

  /** fmodStopSound with a fade: a ramp from the level getVolume reports
      down to silence, and a stop delay at the ramp's end. */
  function FadedOut(c: Channel, clock: nat, samples: nat): Channel {
    Scheduled(c, clock, samples, c.volume, 0.0).StopAtClock(clock + samples)
  }

  /** What fmodStopSound does to the channel in the slot. */
  function Finished(c: Channel, fade: real, rate: nat, clock: nat): Channel {
    if fade > 0.0 then FadedOut(c, clock, FadeSamples(rate, fade)) else c.Stop()
  }

  // ---------------------------------------------------------------------
  // The shared schedule

  /** The schedule keeps, in order, the points outside the window and
      appends the two new points; with nothing pending, those two are the
      whole schedule. */
  lemma ScheduledPoints(c: Channel, clock: nat, samples: nat, from: real, to: real)
    ensures Scheduled(c, clock, samples, from, to).points
              == Outside(c.points, clock, clock + samples)
                 + [FadePoint(clock, from), FadePoint(clock + samples, to)]
    ensures |c.points| == 0 ==>
              Scheduled(c, clock, samples, from, to).points
                == [FadePoint(clock, from), FadePoint(clock + samples, to)]
  {
  }

  /** After the schedule, the only points inside the window are the two new
      ones: whatever was pending there has been replaced. */
  lemma {:induction false} ScheduledWindow(c: Channel, clock: nat, samples: nat, from: real, to: real)
    ensures Inside(Scheduled(c, clock, samples, from, to).points, clock, clock + samples)
              == [FadePoint(clock, from), FadePoint(clock + samples, to)]
  {
    var lo, hi := clock, clock + samples;
    var pair := [FadePoint(lo, from), FadePoint(hi, to)];
    ScheduledPoints(c, clock, samples, from, to);
    InsideAppend(Outside(c.points, lo, hi), pair, lo, hi);
    InsideOfOutside(c.points, lo, hi);
    assert Inside(pair, lo, hi) == pair by {
      assert pair[1..] == [pair[1]];
      assert [pair[1]][1..] == [];
      assert Inside([pair[1]], lo, hi) == [pair[1]];
    }
  }

  /** The points off the window are exactly those that were off it before. */
  lemma {:induction false} ScheduledKeepsOutside(c: Channel, clock: nat, samples: nat, from: real, to: real)
    ensures Outside(Scheduled(c, clock, samples, from, to).points, clock, clock + samples)
              == Outside(c.points, clock, clock + samples)
  {
    var lo, hi := clock, clock + samples;
    var pair := [FadePoint(lo, from), FadePoint(hi, to)];
    ScheduledPoints(c, clock, samples, from, to);
    OutsideAppend(Outside(c.points, lo, hi), pair, lo, hi);
    OutsideIdempotent(c.points, lo, hi);
    assert Outside(pair, lo, hi) == [] by {
      assert pair[1..] == [pair[1]];
      assert [pair[1]][1..] == [];
      assert Outside([pair[1]], lo, hi) == [];
    }
  }

  /** Of the pending points, those inside the window go and two come in. */
  lemma {:induction false} ScheduledCount(c: Channel, clock: nat, samples: nat, from: real, to: real)
    ensures |Scheduled(c, clock, samples, from, to).points|
              == |c.points| - |Inside(c.points, clock, clock + samples)| + 2
  {
    ScheduledPoints(c, clock, samples, from, to);
    SplitCount(c.points, clock, clock + samples);
  }

  /** Apart from the points, the schedule changes only the end delay, and
      that only when it re-triggers. */
  lemma ScheduledRest(c: Channel, clock: nat, samples: nat, from: real, to: real)
    ensures var r := Scheduled(c, clock, samples, from, to);
            && r.stopAt == (if |c.points| > 0 then None else c.stopAt)
            && r.volume == c.volume && r.ramp == c.ramp && r.stopped == c.stopped
  {
  }

  /** A second schedule over the same window overrides the first: the
      points are those the second alone would leave. */
  lemma {:induction false} RescheduleOverrides(c: Channel, clock: nat, samples: nat,
                                               from: real, to: real, from2: real, to2: real)
    ensures Scheduled(Scheduled(c, clock, samples, from, to), clock, samples, from2, to2).points
              == Scheduled(c, clock, samples, from2, to2).points
  {
    var c1 := Scheduled(c, clock, samples, from, to);
    ScheduledPoints(c1, clock, samples, from2, to2);
    ScheduledPoints(c, clock, samples, from2, to2);
    ScheduledKeepsOutside(c, clock, samples, from, to);
  }

  // ---------------------------------------------------------------------
  // fmodPlaySound

  /** With a fade, play schedules a ramp that starts from silence at the
      channel's clock and reaches `volume` exactly `FadeSamples(rate, fade)`
      later; those are the last two points and the only ones in the window,
      and the channel's own volume and ramp flag are left alone. */
  lemma {:induction false} PlayFadesIn(c: Channel, volume: real, fade: real, rate: nat, clock: nat)
    requires fade > 0.0
    ensures var r := Started(c, volume, fade, rate, clock);
            var n := FadeSamples(rate, fade);
            && |r.points| >= 2
            && r.points[|r.points| - 2] == FadePoint(clock, 0.0)
            && r.points[|r.points| - 1] == FadePoint(clock + n, volume)
            && Inside(r.points, clock, clock + n) == [FadePoint(clock, 0.0), FadePoint(clock + n, volume)]
            && Outside(r.points, clock, clock + n) == Outside(c.points, clock, clock + n)
            && r.volume == c.volume && r.ramp == c.ramp && r.stopped == c.stopped
  {
    var n := FadeSamples(rate, fade);
    ScheduledPoints(c, clock, n, 0.0, volume);
    ScheduledWindow(c, clock, n, 0.0, volume);
    ScheduledKeepsOutside(c, clock, n, 0.0, volume);
  }

  /** Without a fade, play turns ramping off and sets the volume; no fade
      point is added or removed and the end delay is left alone. */
  lemma PlaySetsAtOnce(c: Channel, volume: real, fade: real, rate: nat, clock: nat)
    requires fade <= 0.0
    ensures var r := Started(c, volume, fade, rate, clock);
            && r.points == c.points && r.stopAt == c.stopAt
            && !r.ramp && r.volume == volume && r.stopped == c.stopped
  {
  }

  // ---------------------------------------------------------------------
  // fmodStopSound

  /** With a fade, stop schedules a ramp from the channel's current volume
      down to silence and sets the stop delay at the very sample where that
      ramp ends; the channel is not stopped at once. */
  lemma {:induction false} StopFadesOut(c: Channel, fade: real, rate: nat, clock: nat)
    requires fade > 0.0
    ensures var r := Finished(c, fade, rate, clock);
            var n := FadeSamples(rate, fade);
            && |r.points| >= 2
            && r.points[|r.points| - 2] == FadePoint(clock, c.volume)
            && r.points[|r.points| - 1] == FadePoint(clock + n, 0.0)
            && r.stopAt == Some(r.points[|r.points| - 1].sample)
            && Inside(r.points, clock, clock + n) == [FadePoint(clock, c.volume), FadePoint(clock + n, 0.0)]
            && Outside(r.points, clock, clock + n) == Outside(c.points, clock, clock + n)
            && r.volume == c.volume && r.ramp == c.ramp && r.stopped == c.stopped
  {
    var n := FadeSamples(rate, fade);
    ScheduledPoints(c, clock, n, c.volume, 0.0);
    ScheduledWindow(c, clock, n, c.volume, 0.0);
    ScheduledKeepsOutside(c, clock, n, c.volume, 0.0);
  }

  /** Without a fade, stop calls stop() and touches nothing else. */
  lemma StopAtOnce(c: Channel, fade: real, rate: nat, clock: nat)
    requires fade <= 0.0
    ensures Finished(c, fade, rate, clock) == c.(stopped := true)
  {
  }

  /** Stopping with a fade at the clock and length of a fade-in still in
      progress replaces that fade-in: what is left is the fade-out alone,
      over whatever lay outside the window before the play. */
  lemma {:induction false} FadeOutReplacesFadeIn(c: Channel, volume: real, clock: nat, samples: nat)
    ensures FadedOut(FadedIn(c, volume, clock, samples), clock, samples).points
              == Outside(c.points, clock, clock + samples)
                 + [FadePoint(clock, c.volume), FadePoint(clock + samples, 0.0)]
  {
    RescheduleOverrides(c, clock, samples, 0.0, volume, c.volume, 0.0);
    ScheduledPoints(c, clock, samples, c.volume, 0.0);
  }
}
