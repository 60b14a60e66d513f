/** Shared by all parts of the model. Times and durations are in nanoseconds, as in the source. */
module Common {

  const SECOND := 1_000_000_000
  const MINUTE := 60 * SECOND

  /** A time as the API server stores it: RFC 3339, cut to whole seconds. */
  function WholeSeconds(t: int): (s: int)
    ensures t - SECOND < s <= t
    ensures s % SECOND == 0
  {
    t - t % SECOND
  }

  datatype Option<+T> = None | Some(value: T)
}
