/**
 * The rest-timer state machine (packages/core/src/utils/restTimer.ts).
 * Times are millisecond timestamps; elapsed time is counted in whole seconds,
 * `floor((now - lastStartedAt) / 1000)` (Dafny's `/` by a positive divisor is floor).
 */
module RestTimer {
  import opened Wrappers

  datatype Mode = Idle | Running | Paused | Completed

  datatype RestTimerState = RestTimerState(
    mode: Mode,
    remainingSeconds: int,
    totalSeconds: int,
    lastStartedAt: Option<int>)

  function Max(a: int, b: int): int { if a >= b then a else b }

  /** Whole seconds between `last` and `now`, rounded down. */
  function ElapsedSeconds(last: int, now: int): (e: int)
    ensures 1000 * e <= now - last < 1000 * e + 1000
  {
    (now - last) / 1000
  }

  /** A fresh timer: idle, with the full duration remaining and no start time. */
  function Create(seconds: int): (r: RestTimerState)
    ensures r.mode == Idle && r.lastStartedAt == None
    ensures r.remainingSeconds == seconds && r.totalSeconds == seconds
  {
    RestTimerState(Idle, seconds, seconds, None)
  }

  /** Starting a running timer changes nothing; otherwise it runs from `now` with the same durations. */
  function Start(s: RestTimerState, now: int): (r: RestTimerState)
    ensures s.mode == Running ==> r == s
    ensures s.mode != Running ==>
      && r.mode == Running && r.lastStartedAt == Some(now)
      && r.remainingSeconds == s.remainingSeconds && r.totalSeconds == s.totalSeconds
  {
    if s.mode == Running then s else s.(mode := Running, lastStartedAt := Some(now))
  }

  /** A running timer with a start time becomes paused with the elapsed seconds deducted (not below 0). */
  function Pause(s: RestTimerState, now: int): (r: RestTimerState)
    ensures s.mode != Running || s.lastStartedAt.None? ==> r == s
    ensures s.mode == Running && s.lastStartedAt.Some? ==>
      && r.mode == Paused && r.lastStartedAt == None && r.totalSeconds == s.totalSeconds
      && r.remainingSeconds == Max(0, s.remainingSeconds - ElapsedSeconds(s.lastStartedAt.value, now))
  {
    if s.mode != Running || s.lastStartedAt.None? then s
    else
      var remaining := Max(0, s.remainingSeconds - ElapsedSeconds(s.lastStartedAt.value, now));
      s.(mode := Paused, remainingSeconds := remaining, lastStartedAt := None)
  }

  /**
   * A running timer deducts the seconds elapsed since its start time. At 0 it completes
   * and forgets the start time; otherwise it keeps running with the SAME start time,
   * so the next tick deducts the already-counted seconds again.
   */
  function Tick(s: RestTimerState, now: int): (r: RestTimerState)
    ensures s.mode != Running || s.lastStartedAt.None? ==> r == s
    ensures s.mode == Running && s.lastStartedAt.Some? ==>
      var remaining := Max(0, s.remainingSeconds - ElapsedSeconds(s.lastStartedAt.value, now));
      && r.totalSeconds == s.totalSeconds
      && (remaining == 0 ==> r.mode == Completed && r.remainingSeconds == 0 && r.lastStartedAt == None)
      && (remaining != 0 ==> r.mode == Running && r.remainingSeconds == remaining
                             && r.lastStartedAt == s.lastStartedAt)
  {
    if s.mode != Running || s.lastStartedAt.None? then s
    else
      var remaining := Max(0, s.remainingSeconds - ElapsedSeconds(s.lastStartedAt.value, now));
      if remaining == 0 then s.(mode := Completed, remainingSeconds := 0, lastStartedAt := None)
      else s.(remainingSeconds := remaining)
  }

  /** Reset ignores the old state: an idle timer of `seconds`. */
  function Reset(s: RestTimerState, seconds: int): (r: RestTimerState)
    ensures r == Create(seconds)
  {
    RestTimerState(Idle, seconds, seconds, None)
  }

  /** Adds `delta` to both durations, each floored at 0; mode and start time stay. */
  function AddSeconds(s: RestTimerState, delta: int): (r: RestTimerState)
    ensures r.mode == s.mode && r.lastStartedAt == s.lastStartedAt
    ensures r.remainingSeconds == Max(0, s.remainingSeconds + delta)
    ensures r.totalSeconds == Max(0, s.totalSeconds + delta)
  {
    s.(remainingSeconds := Max(0, s.remainingSeconds + delta),
       totalSeconds := Max(0, s.totalSeconds + delta))
  }

  /** The timer's invariant: no negative remaining time, and a start time exactly while running. */
  predicate Inv(s: RestTimerState) {
    s.remainingSeconds >= 0 && (s.lastStartedAt.Some? <==> s.mode == Running)
  }

  /** Every transition keeps the invariant (creation needs a non-negative duration). */
  lemma InvPreserved(s: RestTimerState, now: int, delta: int, seconds: int)
    requires Inv(s) && seconds >= 0
    ensures Inv(Create(seconds)) && Inv(Reset(s, seconds))
    ensures Inv(Start(s, now)) && Inv(Pause(s, now)) && Inv(Tick(s, now)) && Inv(AddSeconds(s, delta))
  {
  }

  /** Remaining time never goes negative, whatever the state, and a tick that completes leaves 0. */
  lemma {:induction false} RemainingNonNegative(s: RestTimerState, now: int, delta: int)
    requires s.remainingSeconds >= 0
    ensures Pause(s, now).remainingSeconds >= 0
    ensures Tick(s, now).remainingSeconds >= 0
    ensures AddSeconds(s, delta).remainingSeconds >= 0
    ensures s.mode == Running && Tick(s, now).mode == Completed ==> Tick(s, now).remainingSeconds == 0
  {
  }

  /** When the clock has not gone backwards, pausing or ticking never adds time. */
  lemma TickPauseNeverIncrease(s: RestTimerState, now: int)
    requires s.remainingSeconds >= 0
    requires s.lastStartedAt.Some? ==> s.lastStartedAt.value <= now
    ensures Tick(s, now).remainingSeconds <= s.remainingSeconds
    ensures Pause(s, now).remainingSeconds <= s.remainingSeconds
  {
  }

  /** Pausing and restarting keeps the remaining time and the total; the new start time is `later`. */
  lemma PauseThenStart(s: RestTimerState, now: int, later: int)
    requires s.mode == Running && s.lastStartedAt.Some?
    ensures var p := Pause(s, now);
            var q := Start(p, later);
            q.mode == Running && q.lastStartedAt == Some(later)
            && q.remainingSeconds == p.remainingSeconds && q.totalSeconds == s.totalSeconds
  {
  }

  /** tick(start(create(10), 0), 5000) has 5 s left; a tick at 15000 completes it. */
  lemma StartTickCompleteExample()
    ensures Tick(Start(Create(10), 0), 5000).remainingSeconds == 5
    ensures Tick(Start(Create(10), 0), 5000).mode == Running
    ensures Tick(Tick(Start(Create(10), 0), 5000), 15000).mode == Completed
    ensures Tick(Tick(Start(Create(10), 0), 5000), 15000).remainingSeconds == 0
  {
    assert ElapsedSeconds(0, 5000) == 5;
    assert ElapsedSeconds(0, 15000) == 15;
  }

  /** pause(start(create(20), 0), 5000) is paused at 15; adding -5 gives 10; reset to 30 gives 30. */
  lemma PauseAdjustResetExample()
    ensures Pause(Start(Create(20), 0), 5000).mode == Paused
    ensures Pause(Start(Create(20), 0), 5000).remainingSeconds == 15
    ensures AddSeconds(Pause(Start(Create(20), 0), 5000), -5).remainingSeconds == 10
    ensures Reset(AddSeconds(Pause(Start(Create(20), 0), 5000), -5), 30).remainingSeconds == 30
    ensures Reset(AddSeconds(Pause(Start(Create(20), 0), 5000), -5), 30).mode == Idle
  {
    assert ElapsedSeconds(0, 5000) == 5;
  }

  /**
   * As written, two ticks one second apart deduct three seconds: a 10 s timer started
   * at 0 and ticked at 1000 and 2000 shows 7 s left although only 2 s have passed.
   */
  lemma TickOverlapCounterexample()
    ensures Tick(Tick(Start(Create(10), 0), 1000), 2000).remainingSeconds == 7
    ensures Max(0, 10 - ElapsedSeconds(0, 2000)) == 8
  {
    assert ElapsedSeconds(0, 1000) == 1;
    assert ElapsedSeconds(0, 2000) == 2;
  }

  /**
   * The intended tick: deduct the whole seconds elapsed and move the start time forward
   * by exactly those seconds, so no second is counted twice.
   */
  function TickAnchored(s: RestTimerState, now: int): (r: RestTimerState)
    ensures s.mode != Running || s.lastStartedAt.None? ==> r == s
    ensures r.totalSeconds == s.totalSeconds
  {
    if s.mode != Running || s.lastStartedAt.None? then s
    else
      var last := s.lastStartedAt.value;
      var e := ElapsedSeconds(last, now);
      var remaining := Max(0, s.remainingSeconds - e);
      if remaining == 0 then s.(mode := Completed, remainingSeconds := 0, lastStartedAt := None)
      else s.(remainingSeconds := remaining, lastStartedAt := Some(last + 1000 * e))
  }

  lemma ElapsedSplit(last: int, t1: int, t2: int)
    requires last <= t1 <= t2
    ensures ElapsedSeconds(last + 1000 * ElapsedSeconds(last, t1), t2)
         == ElapsedSeconds(last, t2) - ElapsedSeconds(last, t1)
    ensures ElapsedSeconds(last, t1) <= ElapsedSeconds(last, t2)
  {
    var e1 := ElapsedSeconds(last, t1);
    var e := ElapsedSeconds(last, t2);
    var d := ElapsedSeconds(last + 1000 * e1, t2);
    assert 1000 * d <= t2 - last - 1000 * e1 < 1000 * d + 1000;
    assert 1000 * e <= t2 - last < 1000 * e + 1000;
    assert 1000 * (d + e1) <= t2 - last < 1000 * (d + e1) + 1000;
    assert d + e1 == e;
  }

  /** With the corrected tick, ticking at t1 and then at t2 is the same as ticking once at t2. */
  lemma {:induction false} TickAnchoredComposes(s: RestTimerState, t1: int, t2: int)
    requires s.remainingSeconds >= 0
    requires s.lastStartedAt.Some? ==> s.lastStartedAt.value <= t1
    requires t1 <= t2
    ensures TickAnchored(TickAnchored(s, t1), t2) == TickAnchored(s, t2)
  {
    if s.mode == Running && s.lastStartedAt.Some? {
      ElapsedSplit(s.lastStartedAt.value, t1, t2);
    }
  }
}
