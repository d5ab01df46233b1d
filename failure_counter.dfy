/**
 * The failure-counting state machine of a proxy group, one reported dial
 * result at a time. Each reported failure is handled as one atomic step
 * (the whole body of the task it spawns); times are in milliseconds.
 */
module FailureCounter {

  /** Failures within one window that trigger a health-check sweep. */
  const MaxFailedTimes: int := 5

  /** Length of the failure window, 5 seconds. */
  const FailedTimeoutIntervalMs: int := 5000

  /** `failedTimes`, `failedTime` and `failedTesting` of a group. */
  datatype FailureState = FailureState(failedTimes: int, failedTime: int, failedTesting: bool)

  /** The state after one step, and whether the step ran a health-check sweep. */
  datatype Step = Step(state: FailureState, sweep: bool)

  const Idle := FailureState(0, 0, false)

  /** One reported dial failure at time `now`. */
  function DialFailed(s: FailureState, now: int): (r: Step)
    ensures 0 <= s.failedTimes < MaxFailedTimes ==> 0 <= r.state.failedTimes < MaxFailedTimes
    ensures r.sweep ==> r.state.failedTimes == 0 && s.failedTimes + 1 >= MaxFailedTimes
    ensures !r.state.failedTesting <==> !s.failedTesting
    ensures !s.failedTesting && s.failedTimes == 0 ==> r == Step(FailureState(1, now, false), false)
    ensures !s.failedTesting && s.failedTimes >= 1 && now - s.failedTime > FailedTimeoutIntervalMs
      ==> r == Step(s.(failedTimes := 0), false)
    ensures r.sweep ==> now - s.failedTime <= FailedTimeoutIntervalMs && !s.failedTesting
  {
    if s.failedTesting then Step(s, false)
    else
      var times := s.failedTimes + 1;
      if times == 1 then Step(FailureState(1, now, false), false)
      else if now - s.failedTime > FailedTimeoutIntervalMs then Step(s.(failedTimes := 0), false)
      else if times >= MaxFailedTimes then Step(s.(failedTimes := 0), true)
      else Step(s.(failedTimes := times), false)
  }

  /** One reported dial success. */
  function DialSucceeded(s: FailureState): (r: FailureState)
    ensures r.failedTime == s.failedTime && r.failedTesting == s.failedTesting
    ensures r.failedTimes == if s.failedTesting then s.failedTimes else 0
  {
    if s.failedTesting then s else s.(failedTimes := 0)
  }

  /** Failures reported at the times `nows`, in order: the final state and the number of sweeps run. */
  function RunFailures(s: FailureState, nows: seq<int>): (r: (FailureState, nat))
    decreases |nows|
  {
    if nows == [] then (s, 0)
    else
      var (mid, sweeps) := RunFailures(s, nows[..|nows| - 1]);
      var step := DialFailed(mid, nows[|nows| - 1]);
      (step.state, sweeps + if step.sweep then 1 else 0)
  }

  /** While a sweep is in progress, failures change nothing and successes do not reset the count. */
  lemma {:induction false} TestingIgnoresFailures(s: FailureState, nows: seq<int>)
    requires s.failedTesting
    ensures RunFailures(s, nows) == (s, 0)
    ensures DialSucceeded(s) == s
    decreases |nows|
  {
    if nows != [] {
      TestingIgnoresFailures(s, nows[..|nows| - 1]);
    }
  }

  /**
   * From an idle count, up to five failures that all fall within five
   * seconds of the first: fewer than five only count, and the fifth runs
   * exactly one sweep and resets the count.
   */
  lemma {:induction false} BurstWithinWindow(s: FailureState, nows: seq<int>)
    requires s.failedTimes == 0 && !s.failedTesting
    requires 1 <= |nows| <= MaxFailedTimes
    requires forall j :: 0 <= j < |nows| ==> nows[j] - nows[0] <= FailedTimeoutIntervalMs
    ensures |nows| < MaxFailedTimes ==> RunFailures(s, nows) == (FailureState(|nows|, nows[0], false), 0)
    ensures |nows| == MaxFailedTimes ==> RunFailures(s, nows) == (FailureState(0, nows[0], false), 1)
    decreases |nows|
  {
    var n := |nows| - 1;
    if n > 0 {
      var init := nows[..n];
      assert forall j :: 0 <= j < n ==> init[j] == nows[j];
      BurstWithinWindow(s, init);
    }
  }

  /**
   * Four failures within the window followed by a fifth more than five
   * seconds after the first: no sweep, and the count is reset.
   */
  lemma StaleStreakResets(s: FailureState, nows: seq<int>)
    requires s.failedTimes == 0 && !s.failedTesting
    requires |nows| == MaxFailedTimes
    requires forall j :: 0 <= j < MaxFailedTimes - 1 ==> nows[j] - nows[0] <= FailedTimeoutIntervalMs
    requires nows[MaxFailedTimes - 1] - nows[0] > FailedTimeoutIntervalMs
    ensures RunFailures(s, nows) == (FailureState(0, nows[0], false), 0)
  {
    var init := nows[..MaxFailedTimes - 1];
    assert forall j :: 0 <= j < |init| ==> init[j] == nows[j];
    BurstWithinWindow(s, init);
  }

  /** Between steps the count stays within 0..4. */
  lemma {:induction false} CountStaysBelowThreshold(s: FailureState, nows: seq<int>)
    requires 0 <= s.failedTimes < MaxFailedTimes
    ensures 0 <= RunFailures(s, nows).0.failedTimes < MaxFailedTimes
    decreases |nows|
  {
    if nows != [] {
      CountStaysBelowThreshold(s, nows[..|nows| - 1]);
    }
  }

  /**
   * Sweeps cannot storm: every sweep consumes five counted failures, so
   * five times the sweeps plus the count left over never exceeds the count
   * at the start plus the failures reported.
   */
  lemma {:induction false} SweepsBoundedByFailures(s: FailureState, nows: seq<int>)
    requires 0 <= s.failedTimes
    ensures 0 <= RunFailures(s, nows).0.failedTimes
    ensures MaxFailedTimes * RunFailures(s, nows).1 + RunFailures(s, nows).0.failedTimes
      <= s.failedTimes + |nows|
    decreases |nows|
  {
    if nows != [] {
      SweepsBoundedByFailures(s, nows[..|nows| - 1]);
    }
  }
}
