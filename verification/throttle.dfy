/**
 * Properties of the content-capture throttle across two calls of
 * `captureContentIfNeeded`. They bound those calls only: the direct capture of
 * `captureActiveSelectionContent` bypasses the throttle.
 */
module Throttle {
  import opened Config
  import opened Cells
  import opened Client

  /** Two throttled capture requests at most 200 ms apart yield at most one capture; exactly 200 ms is too close. */
  lemma AtMostOneCaptureInWindow(s: State, rd1: RangeReading, t1: nat, rd2: RangeReading, t2: nat)
    requires t2 <= t1 + ContentThrottleTime
    ensures
      var a := CaptureContentIfNeeded(s, rd1, t1);
      var b := CaptureContentIfNeeded(a.state, rd2, t2);
      !(a.captured && b.captured)
  {
  }

  /** Throttled requests spaced by more than the window, the first one due, are both captured. */
  lemma SpacedCapturesAccepted(s: State, rd1: RangeReading, t1: nat, rd2: RangeReading, t2: nat)
    requires t1 - s.lastContentCapture > ContentThrottleTime
    requires t2 - t1 > ContentThrottleTime
    ensures
      var a := CaptureContentIfNeeded(s, rd1, t1);
      var b := CaptureContentIfNeeded(a.state, rd2, t2);
      a.captured && b.captured && b.state.lastContentCapture == t2
  {
  }

  /** A capture queues exactly one `cell_content` event while logging, and none otherwise. */
  lemma CaptureQueuesOneEvent(s: State, rd: RangeReading, now: nat)
    requires now - s.lastContentCapture > ContentThrottleTime
    ensures s.isLogging ==>
      |CaptureContentIfNeeded(s, rd, now).state.queue| == |s.queue| + 1
    ensures !s.isLogging ==> CaptureContentIfNeeded(s, rd, now).state.queue == s.queue
  {
  }
}
