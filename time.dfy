/** `struct timespec` and the subtraction with borrow of `subtract_time`. */
module Time {

  const NSEC_PER_SEC: int := 1000000000

  /** A `struct timespec`: whole seconds and nanoseconds. */
  datatype TimeSpec = TimeSpec(sec: int, nsec: int)

  /** The form the monotonic clock returns: nanoseconds below one second. */
  predicate Normalized(t: TimeSpec) {
    0 <= t.nsec < NSEC_PER_SEC
  }

  /** The instant or duration in nanoseconds. */
  function Nanos(t: TimeSpec): int {
    t.sec * NSEC_PER_SEC + t.nsec
  }

  /** `subtract_time(later, former)`: `later` is overwritten by a reading of the
      monotonic clock (the parameter `clock`) and then reduced by `former`,
      borrowing one second by hand when the nanoseconds would go negative. */
  method SubtractTime(clock: TimeSpec, former: TimeSpec) returns (later: TimeSpec)
    ensures Nanos(later) == Nanos(clock) - Nanos(former)
    ensures Normalized(clock) && Normalized(former) ==> Normalized(later)
  {
    later := clock;
    later := later.(sec := later.sec - former.sec);
    if later.nsec < former.nsec {
      later := later.(sec := later.sec - 1);
      later := later.(nsec := NSEC_PER_SEC + later.nsec - former.nsec);
    } else {
      later := later.(nsec := later.nsec - former.nsec);
    }
  }

  /** A normalised timespec is determined by its length in nanoseconds, so the
      two postconditions of SubtractTime pin its result down completely. */
  lemma NormalizedUnique(a: TimeSpec, b: TimeSpec)
    requires Normalized(a) && Normalized(b)
    requires Nanos(a) == Nanos(b)
    ensures a == b
  {
  }

  /** A normalised duration that is not negative has non-negative seconds. */
  lemma NonNegativeSeconds(t: TimeSpec)
    requires Normalized(t) && 0 <= Nanos(t)
    ensures 0 <= t.sec
  {
  }
}
