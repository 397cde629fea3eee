/** Instants and durations. PostgreSQL keeps timestamps to the microsecond. */
module Clock {
  // Microseconds since a fixed epoch.
  type Time = int

  const SECOND: int := 1_000_000
  const MINUTE: int := 60 * SECOND
  const HOUR: int := 60 * MINUTE
  const DAY: int := 24 * HOUR

  function Min(a: Time, b: Time): Time {
    if a <= b then a else b
  }
}
