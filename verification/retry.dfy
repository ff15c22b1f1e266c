/**
 * The tiered retry schedule of the connection monitor: the wait before the next
 * probe depends only on the time elapsed since the first failure of the streak.
 */
module Retry {
  import opened Config

  /** The retry interval and tier chosen for one failed probe. */
  datatype RetryPlan = RetryPlan(interval: nat, tier: nat)

  /** The interval each tier waits. */
  function TierInterval(tier: nat): nat {
    if tier == 1 then Tier1Interval else if tier == 2 then Tier2Interval else Tier3Interval
  }

  /**
   * The tier selection of `retryWithBackoff`, on the millisecond elapsed time.
   * A negative elapsed time (the clock went backwards) falls in tier 1.
   */
  function NextRetry(elapsed: int): (p: RetryPlan)
    ensures 1 <= p.tier <= 3
    ensures p.interval == TierInterval(p.tier)
    ensures 0 < p.interval <= Tier3Interval
    ensures p.tier == 1 <==> elapsed < Tier1Duration
    ensures p.tier == 3 <==> Tier1Duration + Tier2Duration <= elapsed
  {
    if elapsed < Tier1Duration then RetryPlan(Tier1Interval, 1)
    else if elapsed < Tier1Duration + Tier2Duration then RetryPlan(Tier2Interval, 2)
    else RetryPlan(Tier3Interval, 3)
  }

  /**
   * The tier the status display shows: elapsed time is first floored to whole
   * seconds (`Math.floor(ms / 1000)`, which Dafny's `/` by a positive divisor is)
   * and compared against the tier durations in seconds.
   */
  function DisplayTier(elapsed: int): nat {
    var seconds := elapsed / 1000;
    if seconds < Tier1Duration / 1000 then 1
    else if seconds < (Tier1Duration + Tier2Duration) / 1000 then 2
    else 3
  }

  /** Flooring to seconds never moves the elapsed time across a tier boundary. */
  lemma DisplayTierAgrees(elapsed: int)
    ensures DisplayTier(elapsed) == NextRetry(elapsed).tier
  {
  }

  /** The interval (and the tier) never decrease as the streak gets older. */
  lemma IntervalMonotone(earlier: int, later: int)
    requires earlier <= later
    ensures NextRetry(earlier).interval <= NextRetry(later).interval
    ensures NextRetry(earlier).tier <= NextRetry(later).tier
  {
  }

  /** The table at its boundaries: 14:59.999 → 1 s, 15:00 → 3 s, 29:59.999 → 3 s, 30:00 → 60 s. */
  lemma TierBoundaries()
    ensures NextRetry(0) == RetryPlan(1000, 1)
    ensures NextRetry(899999) == RetryPlan(1000, 1)
    ensures NextRetry(900000) == RetryPlan(3000, 2)
    ensures NextRetry(1799999) == RetryPlan(3000, 2)
    ensures NextRetry(1800000) == RetryPlan(60000, 3)
  {
  }
}
