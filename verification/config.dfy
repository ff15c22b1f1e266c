/** The fixed configuration of the logger (taskpane.js, top of file). Durations are milliseconds. */
module Config {

  /** Minimum gap, exclusive, between two accepted content captures. */
  const ContentThrottleTime: nat := 200

  /** Retry tier 1: probe every second during the first 15 minutes of a failure streak. */
  const Tier1Interval: nat := 1000
  const Tier1Duration: nat := 15 * 60 * 1000

  /** Retry tier 2: probe every 3 seconds during the next 15 minutes. */
  const Tier2Interval: nat := 3000
  const Tier2Duration: nat := 15 * 60 * 1000

  /** Retry tier 3: probe every minute, forever. */
  const Tier3Interval: nat := 60000

  /** Ranges with more cells than this are captured as a bounded sample only. */
  const LargeRangeCells: nat := 100

  /** Side of the square sample kept from a large range. */
  const SampleSize: nat := 3
}
