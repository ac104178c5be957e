/** The idle-notification backoff of the renderer control thread
    (chrome/renderer/render_thread.cc:62, 168-176, 469-481), on exact reals.
    The source computes in double precision; the model uses Dafny's `real`
    and so idealises the rounding away. */
module IdleBackoff {

  /** kInitialIdleHandlerDelayS: the delay, in seconds, that the idle timer
      is reset to when the last visible widget is hidden. */
  const InitialIdleDelay: real := 1.0

  /** The damping step applied after an idle notification that did not
      reclaim everything: delay := delay + 1 / (delay + 2). */
  function Damp(d: real): real
    requires d > -2.0
  {
    d + 1.0 / (d + 2.0)
  }

  /** Each damping step adds a positive amount, at most a half once the
      delay is non-negative and at most a third once it is at least the
      initial delay. */
  lemma DampStep(d: real)
    requires d > -2.0
    ensures Damp(d) > d
    ensures d >= 0.0 ==> Damp(d) - d <= 0.5
    ensures d >= InitialIdleDelay ==> Damp(d) - d <= 1.0 / 3.0
  {
    var x := d + 2.0;
    assert Damp(d) - d == 1.0 / x;
    assert 1.0 / x > 0.0;
    if d >= 0.0 {
      assert x * (1.0 / x) == 1.0;
      assert 1.0 / x <= 0.5;
    }
    if d >= InitialIdleDelay {
      assert x * (1.0 / x) == 1.0;
      assert 1.0 / x <= 1.0 / 3.0;
    }
  }

  /** The timer period for a delay of `d` seconds:
      static_cast<int64>(floor(d)) * 1000 milliseconds. */
  function TimerDelayMs(d: real): int {
    d.Floor * 1000
  }

  /** The period is the largest whole number of seconds not above `d`,
      in milliseconds, and at least one second for any delay the thread
      uses. */
  lemma TimerDelayBounds(d: real)
    ensures TimerDelayMs(d) % 1000 == 0
    ensures TimerDelayMs(d) as real <= 1000.0 * d < TimerDelayMs(d) as real + 1000.0
    ensures d >= InitialIdleDelay ==> TimerDelayMs(d) >= 1000
  {
  }

  /** The delay after `n` consecutive incomplete idle notifications since
      the timer was last armed. */
  function DelayAfter(n: nat): (d: real)
    ensures d >= InitialIdleDelay
  {
    if n == 0 then InitialIdleDelay
    else
      DampStep(DelayAfter(n - 1));
      Damp(DelayAfter(n - 1))
  }

  /** The damping step is monotone on non-negative delays. */
  lemma DampMonotone(a: real, b: real)
    requires 0.0 <= a <= b
    ensures Damp(a) <= Damp(b)
  {
    var x, y := a + 2.0, b + 2.0;
    assert 1.0 / x - 1.0 / y == (y - x) / (x * y);
    assert x * y >= 1.0;
    assert (y - x) / (x * y) <= y - x;
  }

  /** The backoff is strictly increasing: a later timer never uses a
      shorter delay than an earlier one in the same idle period. */
  lemma {:induction false} DelayStrictlyIncreasing(m: nat, n: nat)
    requires m < n
    ensures DelayAfter(m) < DelayAfter(n)
    decreases n
  {
    if m < n - 1 {
      DelayStrictlyIncreasing(m, n - 1);
    }
  }

  /** The backoff is slow: each step adds at most a third of a second. */
  lemma {:induction false} DelayGrowsSlowly(n: nat)
    ensures DelayAfter(n) <= InitialIdleDelay + n as real / 3.0
  {
    if n > 0 {
      DelayGrowsSlowly(n - 1);
      DampStep(DelayAfter(n - 1));
    }
  }

  /** The first exact values: 1, 4/3, 49/30 (so not 3/2 after one step). */
  lemma FirstDelays()
    ensures DelayAfter(1) == 4.0 / 3.0
    ensures DelayAfter(2) == 49.0 / 30.0
  {
    assert DelayAfter(1) == 4.0 / 3.0;
  }

  /** Carries an interval around the delay through one damping step: if the
      delay after n steps lies in [lo, hi] and damping maps that interval
      into [lo', hi'], then so does the delay after n + 1 steps. */
  lemma DelayBetween(n: nat, lo: real, hi: real, lo': real, hi': real)
    requires 0.0 <= lo <= DelayAfter(n) <= hi
    requires lo' <= Damp(lo) && Damp(hi) <= hi'
    ensures lo' <= DelayAfter(n + 1) <= hi'
  {
    DampMonotone(lo, DelayAfter(n));
    DampMonotone(DelayAfter(n), hi);
  }

  /** The periods of the timers rescheduled by successive incomplete
      notifications are 1, 1, 1, 2, 2, 2, 2, 3, 3 seconds: the dampening
      sequence the source's comment at render_thread.cc:472-473 describes. */
  lemma RescheduleSchedule()
    ensures seq(9, k requires 0 <= k < 9 => TimerDelayMs(DelayAfter(k + 1)))
         == [1000, 1000, 1000, 2000, 2000, 2000, 2000, 3000, 3000]
  {
    FirstDelays();
    DelayBetween(2, 1.633, 1.634, 1.908, 1.910);
    DelayBetween(3, 1.908, 1.910, 2.163, 2.166);
    DelayBetween(4, 2.163, 2.166, 2.403, 2.407);
    DelayBetween(5, 2.403, 2.407, 2.630, 2.634);
    DelayBetween(6, 2.630, 2.634, 2.845, 2.850);
    DelayBetween(7, 2.845, 2.850, 3.051, 3.057);
    DelayBetween(8, 3.051, 3.057, 3.248, 3.255);
  }
}
