/** Instants in nanoseconds, and the whole seconds that their written form keeps. */
module Clock {
  type Time = int

  const SECOND: Time := 1_000_000_000

  /** Instants are written as RFC 3339 text, which drops the fraction of a second. */
  function WholeSeconds(t: Time): (r: Time)
    ensures t - SECOND < r <= t && r % SECOND == 0
  {
    t - t % SECOND
  }
}
