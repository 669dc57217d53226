/**
 * Time as the model sees it: instants and durations are integers counted in
 * nanoseconds (Go's time.Duration unit), and the wall clock is a `now`
 * parameter supplied by the caller.
 */
module Clock {
  const Millisecond: int := 1_000_000
  const Second: int := 1000 * Millisecond
  const Minute: int := 60 * Second

  /** time.Time.After */
  predicate After(t: int, u: int) {
    t > u
  }
}
