/**
 * Properties of the connection monitor and the logging lifecycle across
 * several calls: a failure streak counts every attempt, keeps its start time and
 * never shortens its interval; a successful probe ends the streak and starts logging.
 */
module Monitor {
  import opened Base
  import opened Config
  import opened Retry
  import opened Client

  /** The state after a probe failing at each of `times`, and the retry plan each failure scheduled. */
  datatype Streak = Streak(state: State, plans: seq<RetryPlan>)

  function FailAll(s: State, times: seq<nat>): (r: Streak)
    ensures |r.plans| == |times|
    decreases |times|
  {
    if times == [] then Streak(s, [])
    else
      var p := ProbeCompleted(s, false, times[0]);
      var rest := FailAll(p.state, times[1..]);
      Streak(rest.state, [p.outcome.plan] + rest.plans)
  }

  /** The time the streak is measured from once the failures at `times` have happened. */
  function StreakStart(s: State, times: seq<nat>): nat {
    if s.retryCount == 0 && |times| > 0 then times[0] else s.retryStartTime
  }

  predicate NonDecreasing(times: seq<nat>) {
    forall k, l :: 0 <= k <= l < |times| ==> times[k] <= times[l]
  }

  /**
   * A run of failed probes: every failure adds one to the retry count, the
   * streak's start is the first failure of the streak, and each scheduled retry
   * uses the tier of the streak's age at that failure.
   */
  lemma {:induction false} FailureStreak(s: State, times: seq<nat>)
    ensures FailAll(s, times).state.retryCount == s.retryCount + |times|
    ensures FailAll(s, times).state.retryStartTime == StreakStart(s, times)
    ensures |times| > 0 ==> FailAll(s, times).state.status == Disconnected
    ensures FailAll(s, times).state.queue == s.queue
    ensures forall k :: 0 <= k < |times| ==>
      FailAll(s, times).plans[k] == NextRetry(times[k] - StreakStart(s, times))
    decreases |times|
  {
    if times != [] {
      var p := ProbeCompleted(s, false, times[0]);
      FailureStreak(p.state, times[1..]);
      assert StreakStart(p.state, times[1..]) == StreakStart(s, times);
      var rest := FailAll(p.state, times[1..]);
      forall k | 1 <= k < |times|
        ensures FailAll(s, times).plans[k] == NextRetry(times[k] - StreakStart(s, times))
      {
        assert FailAll(s, times).plans[k] == rest.plans[k - 1];
        assert times[1..][k - 1] == times[k];
      }
    }
  }

  /** With a non-decreasing clock, the retry interval of a streak never gets shorter. */
  lemma IntervalsEscalate(s: State, times: seq<nat>)
    requires NonDecreasing(times)
    ensures forall k, l :: 0 <= k <= l < |times| ==>
      FailAll(s, times).plans[k].interval <= FailAll(s, times).plans[l].interval
  {
    FailureStreak(s, times);
    forall k, l | 0 <= k <= l < |times|
      ensures FailAll(s, times).plans[k].interval <= FailAll(s, times).plans[l].interval
    {
      IntervalMonotone(times[k] - StreakStart(s, times), times[l] - StreakStart(s, times));
    }
  }

  /**
   * A short outage: a fresh streak whose failures all fall within 15 minutes of
   * the first retries every second; a probe that then succeeds resets the retry
   * count and leaves the client connected and logging.
   */
  lemma ShortOutage(s: State, times: seq<nat>, reconnect: nat)
    requires s.retryCount == 0 && |times| > 0
    requires forall k :: 0 <= k < |times| ==> times[0] <= times[k] < times[0] + Tier1Duration
    ensures forall k :: 0 <= k < |times| ==> FailAll(s, times).plans[k] == RetryPlan(1000, 1)
    ensures FailAll(s, times).state.retryCount == |times|
    ensures
      var after := ProbeCompleted(FailAll(s, times).state, true, reconnect).state;
      after.retryCount == 0 && after.retryStartTime == 0 && after.status == Connected && after.isLogging
  {
    FailureStreak(s, times);
  }

  /** Starting twice is starting once: the second call changes nothing and reports no start. */
  lemma StartLoggingIdempotent(s: State)
    ensures StartLogging(StartLogging(s).state).state == StartLogging(s).state
    ensures StartLogging(StartLogging(s).state).outcome != Started
  {
  }

  /** Stopping twice is stopping once, and the second stop flushes nothing. */
  lemma StopLoggingIdempotent(s: State)
    ensures StopLogging(StopLogging(s).state).state == StopLogging(s).state
    ensures StopLogging(StopLogging(s).state).flushed == None
  {
  }

  /** Every transition sequence from a valid state ends in a valid state. */
  function ApplyAll(s: State, steps: seq<Step>): State
    decreases |steps|
  {
    if steps == [] then s else ApplyAll(Apply(s, steps[0]), steps[1..])
  }

  lemma {:induction false} ReachableStatesValid(s: State, steps: seq<Step>)
    requires Valid(s)
    ensures Valid(ApplyAll(s, steps))
    decreases |steps|
  {
    if steps != [] {
      StepPreservesValid(s, steps[0]);
      ReachableStatesValid(Apply(s, steps[0]), steps[1..]);
    }
  }
}
