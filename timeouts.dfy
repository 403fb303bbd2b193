/** The wait-timeout rule of Platform::waitForEvents: the caller's timeout is
    combined with the display buffer's time until its next pending flush.
    Both are C `int` millisecond counts in which a negative value means
    "no deadline" (wait indefinitely, or nothing to flush). */
module Timeouts {

  /** A C `int` on the platforms the framework targets (32 bits). */
  type CInt = x: int | -0x8000_0000 <= x < 0x8000_0000

  /** The meaning of a millisecond count: no deadline, or a deadline `ms` from now. */
  datatype Deadline = Never | After(ms: nat)

  function DeadlineOf(ms: int): Deadline {
    if ms < 0 then Never else After(ms)
  }

  /** The earlier of two deadlines; `Never` is later than every `After`. */
  function Earliest(a: Deadline, b: Deadline): Deadline {
    match (a, b)
    case (Never, _) => b
    case (_, Never) => a
    case (After(x), After(y)) => After(if x <= y then x else y)
  }

  /** The timeout waitForEvents hands to the waiter: it wakes at the earlier of
      the caller's deadline and the display buffer's flush deadline. When the
      caller asks for an indefinite wait the flush value is passed through
      exactly, whatever its sign; a finite request is never lengthened. */
  function EffectiveTimeout(ms: CInt, flushMs: CInt): (r: CInt)
    ensures DeadlineOf(r) == Earliest(DeadlineOf(ms), DeadlineOf(flushMs))
    ensures ms < 0 ==> r == flushMs
    ensures ms >= 0 ==> 0 <= r <= ms
    ensures ms >= 0 && flushMs < 0 ==> r == ms
  {
    if ms < 0 then flushMs
    else if flushMs >= 0 then (if ms <= flushMs then ms else flushMs)
    else ms
  }
}
