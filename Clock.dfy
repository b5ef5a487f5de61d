/** Wall-clock readings, which the front ends stamp history entries with. */
module Clock {
  /** A reading of `datetime.now()`, as a count; the clock itself is a parameter of every operation that reads it. */
  type Timestamp = nat
}
