/** The countdown Timer: a duration, the time remaining, and the running/done flags. */
module Timers {

  /** The abstract value of a Timer object. */
  datatype TimerState = TimerState(time: real, remaining: real, running: bool, done: bool)

  /** A timer that was just reset and started with duration `time`. */
  function Restarted(time: real): TimerState
  {
    TimerState(time, time, true, false)
  }

  /**
   * One frame of `Timer::update` with frame time `dt`: nothing happens while paused;
   * otherwise `dt` is taken off the remaining time, and the timer latches `done`
   * and stops as soon as the remaining time is no longer positive.
   */
  function Tick(s: TimerState, dt: real): (r: TimerState)
    ensures r.time == s.time
    ensures !s.running ==> r == s
    ensures s.running ==> r.remaining == s.remaining - dt
    ensures s.running ==> (r.running <==> r.remaining > 0.0)
    ensures s.running ==> (r.done <==> s.done || r.remaining <= 0.0)
  {
    if !s.running then s
    else
      var remaining := s.remaining - dt;
      if remaining <= 0.0 then s.(remaining := remaining, done := true, running := false)
      else s.(remaining := remaining)
  }

  /** The timer after a run of frames with the given frame times, in order. */
  function Run(s: TimerState, dts: seq<real>): TimerState
    decreases |dts|
  {
    if dts == [] then s else Run(Tick(s, dts[0]), dts[1..])
  }

  /** Total time elapsed over a run of frames. */
  function Elapsed(dts: seq<real>): real
    decreases |dts|
  {
    if dts == [] then 0.0 else dts[0] + Elapsed(dts[1..])
  }

  /** Number of frames in a run at which the timer fires (stops because it ran out). */
  function Firings(s: TimerState, dts: seq<real>): nat
    decreases |dts|
  {
    if dts == [] then 0
    else
      var t := Tick(s, dts[0]);
      (if s.running && !t.running then 1 else 0) + Firings(t, dts[1..])
  }

  /** Frame times are never negative. */
  predicate NonNegative(dts: seq<real>)
  {
    forall i :: 0 <= i < |dts| ==> dts[i] >= 0.0
  }

  lemma {:induction false} ElapsedNonNegative(dts: seq<real>)
    requires NonNegative(dts)
    ensures Elapsed(dts) >= 0.0
    decreases |dts|
  {
    if dts != [] {
      ElapsedNonNegative(dts[1..]);
    }
  }

  /** A stopped timer (paused, or fired) ignores every later frame and never fires. */
  lemma {:induction false} StoppedTimerIgnoresFrames(s: TimerState, dts: seq<real>)
    requires !s.running
    ensures Run(s, dts) == s
    ensures Firings(s, dts) == 0
    decreases |dts|
  {
    if dts != [] {
      StoppedTimerIgnoresFrames(Tick(s, dts[0]), dts[1..]);
    }
  }

  /** Without a start or reset in between, a timer fires at most once. */
  lemma {:induction false} FiresAtMostOnce(s: TimerState, dts: seq<real>)
    ensures Firings(s, dts) <= 1
    decreases |dts|
  {
    if dts != [] {
      var t := Tick(s, dts[0]);
      if s.running && !t.running {
        StoppedTimerIgnoresFrames(t, dts[1..]);
      } else {
        FiresAtMostOnce(t, dts[1..]);
      }
    }
  }

  /**
   * A running timer that has not fired, with `remaining` seconds left, is done after
   * a run of frames exactly when at least `remaining` seconds elapsed, and then it
   * fired exactly once; before that it has not fired.
   */
  lemma {:induction false} FiresWhenTimeElapsed(s: TimerState, dts: seq<real>)
    requires s.running && !s.done && s.remaining > 0.0
    requires NonNegative(dts)
    ensures Run(s, dts).done <==> Elapsed(dts) >= s.remaining
    ensures Firings(s, dts) == if Elapsed(dts) >= s.remaining then 1 else 0
    decreases |dts|
  {
    if dts != [] {
      var t := Tick(s, dts[0]);
      ElapsedNonNegative(dts[1..]);
      if t.running {
        FiresWhenTimeElapsed(t, dts[1..]);
      } else {
        StoppedTimerIgnoresFrames(t, dts[1..]);
      }
    }
  }

  /** A timer freshly reset and started with duration `d > 0` fires once `d` seconds have elapsed. */
  lemma RestartedFiresAfterDuration(d: real, dts: seq<real>)
    requires d > 0.0 && NonNegative(dts)
    ensures Run(Restarted(d), dts).done <==> Elapsed(dts) >= d
    ensures Firings(Restarted(d), dts) == if Elapsed(dts) >= d then 1 else 0
  {
    FiresWhenTimeElapsed(Restarted(d), dts);
  }

  /** The Timer class: a countdown updated in place once per frame. */
  class Timer {
    var time: real
    var remaining: real
    var running: bool
    var done: bool

    function State(): TimerState
      reads this
    {
      TimerState(time, remaining, running, done)
    }

    /** A new timer counts down `timeInSeconds`; it starts running and not done. */
    constructor (timeInSeconds: real)
      ensures State() == Restarted(timeInSeconds)
    {
      time := timeInSeconds;
      remaining := timeInSeconds;
      running := true;
      done := false;
    }

    method Update(dt: real)
      modifies this
      ensures State() == Tick(old(State()), dt)
    {
      if !running {
        return;
      }
      remaining := remaining - dt;
      if remaining <= 0.0 {
        done := true;
        running := false;
      }
    }

    /** Resumes the countdown; only `running` changes. */
    method Start()
      modifies this
      ensures State() == old(State()).(running := true)
    {
      running := true;
    }

    /** Suspends the countdown; only `running` changes. */
    method Pause()
      modifies this
      ensures State() == old(State()).(running := false)
    {
      running := false;
    }

    /** Restores the full duration and clears `done`; `running` and `time` are kept. */
    method Reset()
      modifies this
      ensures State() == old(State()).(remaining := old(time), done := false)
    {
      remaining := time;
      done := false;
    }

    /** Changes the duration used by later resets; the current countdown is untouched. */
    method SetTime(timeInSeconds: real)
      modifies this
      ensures State() == old(State()).(time := timeInSeconds)
    {
      time := timeInSeconds;
    }
  }
}
