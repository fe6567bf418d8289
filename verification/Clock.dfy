/** Instants as nanoseconds since the zero time of the monitor bot, which is 0. */
module Clock {
  type Instant = nat

  const SECOND := 1_000_000_000
  const MINUTE := 60 * SECOND
  const HOUR := 60 * MINUTE
  const DAY := 24 * HOUR
}
