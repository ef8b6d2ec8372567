/** The two failure-carrying shapes used throughout the model: a value that may be
    missing (Python's None) and the result of an operation that may raise. */
module Outcomes {

  datatype Option<T> = None | Some(value: T) {
    /** The value, or `default` when missing (Python's `x if x is not None else default`). */
    function GetOr(default: T): T {
      match this
      case Some(v) => v
      case None => default
    }
  }

  datatype Result<T, E> = Success(value: T) | Failure(error: E)
}

/** Instants and days, at the resolution of Python's `datetime`. */
module Time {

  /** Microseconds since 0001-01-01T00:00:00 (naive UTC). A `datetime` never lies past
      `MaxInstant`; the type does not bound it, and the operations that can leave the
      range say so. */
  type Instant = nat

  const MicrosPerSecond: nat := 1_000_000
  const MicrosPerDay: nat := 86_400_000_000

  /** `datetime.max`, 9999-12-31T23:59:59.999999: the last instant before day 3652059.
      Arithmetic that leaves the range raises OverflowError. */
  const MaxInstant: nat := 3_652_059 * MicrosPerDay - 1

  /** The day `datetime.date()` keeps of an instant: day 0 is 0001-01-01. */
  function DayOf(t: Instant): nat {
    t / MicrosPerDay
  }
}
