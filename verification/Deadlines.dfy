/** Timeouts and deadlines. Every time is a real number of milliseconds. */
module Deadlines {
  import opened Messages

  datatype TimeoutError = TimeoutOutOfRange

  /** Python's int(x): truncation toward zero. */
  function Trunc(x: real): int {
    if x >= 0.0 then x.Floor else -((-x).Floor)
  }

  function Max0(n: int): nat {
    if n < 0 then 0 else n
  }

  /** The client's signed remaining budget: None means block forever. */
  function Remaining(deadline: Option<real>, now: real): Option<int> {
    match deadline
    case None => None
    case Some(d) => Some(Trunc(d - now))
  }

  function DeadlineAfter(timeout: Option<int>, now: real): Option<real> {
    match timeout
    case None => None
    case Some(t) => Some(now + t as real)
  }

  /** The server's remaining budget, clamped at zero. */
  function ServerRemaining(deadline: real, now: real): nat {
    Max0(Trunc(deadline - now))
  }

  function NormalizeTimeout(timeout: Option<int>, maxTimeout: nat): (r: Result<nat, TimeoutError>)
    ensures r.Err? <==> timeout.Some? && !(0 <= timeout.value <= maxTimeout)
    ensures r.Ok? ==> r.value <= maxTimeout && (if timeout.Some? then r.value == timeout.value else r.value == maxTimeout)
  {
    match timeout
    case None => Ok(maxTimeout)
    case Some(t) => if t < 0 || t > maxTimeout then Err(TimeoutOutOfRange) else Ok(t)
  }

  /** Truncation toward zero is what lets a poll start late: the signed budget is still
      accepted exactly while the deadline is overdue by less than one millisecond. */
  lemma PollMayStartIffOverdueByLessThanOneMs(deadline: real, now: real)
    ensures Remaining(Some(deadline), now).value >= 0 <==> now < deadline + 1.0
    ensures Remaining(Some(deadline), now).value as real <= if now <= deadline then deadline - now else 0.0
  {
  }

  /** A wait granted by the clamped budget ends by the deadline, or at once when the deadline has passed. */
  lemma GrantedWaitEndsByDeadline(deadline: real, now: real)
    ensures now + ServerRemaining(deadline, now) as real <= if now <= deadline then deadline else now
    ensures now < deadline ==> deadline - 1.0 < now + ServerRemaining(deadline, now) as real
  {
  }
}
