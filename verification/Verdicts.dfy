/** How every receiving call ends, and which timeouts it sends on the way, read off the answers it
    consumed, the clock and the caller's timeout alone. */
module Verdicts {
  import opened Messages
  import opened Deadlines
  import opened Collect
  import opened CollectTheorems

  // ---------------------------------------------------------------- the clock and the budgets

  /** When the answer to poll `n` is awaited: once the polls before it have been answered. */
  function At(polls: seq<Poll>, n: nat, now: real): real
    requires n <= |polls|
    decreases n
  {
    if n == 0 then now else At(polls[1..], n - 1, now + polls[0].took)
  }

  /** What a poll at time `at` sends: without a deadline nothing; before the deadline the whole
      milliseconds that are left; and 0 when it is overdue by less than one. */
  ghost predicate BudgetFor(left: Option<int>, deadline: Option<real>, at: real) {
    match deadline
    case None => left == None
    case Some(d) =>
      && left.Some? && at < d + 1.0
      && if at <= d then d - at - 1.0 < left.value as real <= d - at else left.value == 0
  }

  ghost predicate Budgets(sent: seq<Option<int>>, polls: seq<Poll>, deadline: Option<real>, now: real) {
    |sent| <= |polls| && forall i :: 0 <= i < |sent| ==> BudgetFor(sent[i], deadline, At(polls, i, now))
  }

  lemma RemainingIsBudget(deadline: Option<real>, at: real)
    ensures var left := Remaining(deadline, at);
            if left.Some? && left.value < 0 then deadline.Some? && at >= deadline.value + 1.0 else BudgetFor(left, deadline, at)
  {
  }

  lemma OneMoreBudget(left: Option<int>, sent: seq<Option<int>>, polls: seq<Poll>, deadline: Option<real>, now: real)
    requires polls != [] && BudgetFor(left, deadline, now) && Budgets(sent, polls[1..], deadline, now + polls[0].took)
    ensures Budgets([left] + sent, polls, deadline, now)
  {
    var all := [left] + sent;
    forall i | 0 <= i < |all|
      ensures BudgetFor(all[i], deadline, At(polls, i, now))
    {
      if i > 0 {
        assert all[i] == sent[i - 1];
      }
    }
  }

  // ---------------------------------------------------------------- the loops

  /** An answer after which a loop goes on if it is not satisfied. */
  ghost predicate GoesOn(poll: Poll, deadline: Option<real>) {
    poll.Got? || (poll.Empty? && deadline.None?)
  }

  /** How a polling loop ends that consumed `n` answers: a failure is raised as it is, a 204 with a
      deadline is a timeout, and otherwise the loop returns if it is satisfied, times out when its
      deadline is overdue by a millisecond, and is left waiting only when there is no more answer. */
  ghost predicate Ends<T>(outcome: Outcome<T>, polls: seq<Poll>, n: nat, deadline: Option<real>, end: real, satisfied: bool)
    requires n <= |polls|
  {
    if n > 0 && polls[n - 1].Failed? then
      outcome == Raised(polls[n - 1].error)
    else if n > 0 && polls[n - 1].Empty? && deadline.Some? then
      outcome == Raised(TimedOut)
    else if satisfied then
      outcome.Returned?
    else if deadline.Some? && end >= deadline.value + 1.0 then
      outcome == Raised(TimedOut)
    else
      outcome == Waiting && n == |polls|
  }

  /** The whole of what a loop does apart from the cache. */
  ghost predicate Verdict<T>(d: Drive<T>, polls: seq<Poll>, deadline: Option<real>, now: real, satisfied: bool) {
    && Budgets(d.sent, polls, deadline, now)
    && d.now == At(polls, |d.sent|, now)
    && (forall i :: 0 <= i < |d.sent| - 1 ==> GoesOn(polls[i], deadline))
    && Ends(d.outcome, polls, |d.sent|, deadline, d.now, satisfied)
  }

  lemma OneMoreTurn<T>(left: Option<int>, d: Drive<T>, polls: seq<Poll>, deadline: Option<real>, now: real, satisfied: bool)
    requires polls != [] && BudgetFor(left, deadline, now) && GoesOn(polls[0], deadline)
    requires Verdict(d, polls[1..], deadline, now + polls[0].took, satisfied)
    ensures Verdict(Prepend(left, d), polls, deadline, now, satisfied)
  {
    OneMoreBudget(left, d.sent, polls, deadline, now);
    var n := |d.sent|;
    forall i | 0 <= i < n
      ensures GoesOn(polls[i], deadline)
    {
      if i > 0 {
        assert polls[i] == polls[1..][i - 1];
      }
    }
    if n > 0 {
      assert polls[n] == polls[1..][n - 1];
    }
  }

  lemma {:induction false} LoopVerdict(done: Condition, cache: Cache, polls: seq<Poll>, deadline: Option<real>, now: real)
    ensures var d := LoopUntil(done, cache, polls, deadline, now);
            |d.sent| <= |polls| && Verdict(d, polls, deadline, now, done(CacheAfter(cache, polls[..|d.sent|])))
    decreases |polls|
  {
    hide Remaining, Verdict;
    var d := LoopUntil(done, cache, polls, deadline, now);
    var left := Remaining(deadline, now);
    ShortestPrefix(done, cache, polls, deadline, now);
    RemainingIsBudget(deadline, now);
    var goesOn := !done(cache) && !(left.Some? && left.value < 0) && polls != [] && GoesOn(polls[0], deadline);
    if goesOn {
      var cache1 := if polls[0].Got? then cache[polls[0].response.requestId := polls[0].response] else cache;
      var rest := LoopUntil(done, cache1, polls[1..], deadline, now + polls[0].took);
      LoopVerdict(done, cache1, polls[1..], deadline, now + polls[0].took);
      ShortestPrefix(done, cache1, polls[1..], deadline, now + polls[0].took);
      OneMoreTurn(left, rest, polls, deadline, now, done(rest.cache));
    } else {
      LastTurn(d, polls, deadline, now, done(d.cache));
    }
  }

  /** A loop that ends without going on. */
  lemma LastTurn<T>(d: Drive<T>, polls: seq<Poll>, deadline: Option<real>, now: real, satisfied: bool)
    requires |d.sent| <= 1 && Budgets(d.sent, polls, deadline, now)
    requires d.now == if d.sent == [] then now else now + polls[0].took
    requires Ends(d.outcome, polls, |d.sent|, deadline, d.now, satisfied)
    ensures Verdict(d, polls, deadline, now, satisfied)
  {
  }

  /** The last of `n` answers brought the response to `rid`. */
  ghost predicate BroughtLast(polls: seq<Poll>, n: nat, rid: RequestId)
    requires n <= |polls|
  {
    n > 0 && polls[n - 1].Got? && polls[n - 1].response.requestId == rid
  }

  lemma {:induction false} GetLoopVerdict(rid: RequestId, cache: Cache, polls: seq<Poll>, deadline: Option<real>, now: real)
    ensures var d := GetLoop(rid, cache, polls, deadline, now);
            && |d.sent| <= |polls| && Verdict(d, polls, deadline, now, BroughtLast(polls, |d.sent|, rid))
            && (d.outcome.Returned? ==> |d.sent| > 0 && Got(d.outcome.value, polls[|d.sent| - 1].took) == polls[|d.sent| - 1])
    decreases |polls|
  {
    hide Remaining, Verdict;
    var d := GetLoop(rid, cache, polls, deadline, now);
    var left := Remaining(deadline, now);
    GetLoopUsesNoMoreThanPolls(rid, cache, polls, deadline, now);
    RemainingIsBudget(deadline, now);
    var goesOn := !(left.Some? && left.value < 0) && polls != [] && GoesOn(polls[0], deadline) && !BroughtLast(polls, 1, rid);
    if goesOn {
      var cache1 := if polls[0].Got? then cache[polls[0].response.requestId := polls[0].response] else cache;
      var rest := GetLoop(rid, cache1, polls[1..], deadline, now + polls[0].took);
      GetLoopVerdict(rid, cache1, polls[1..], deadline, now + polls[0].took);
      OneMoreTurn(left, rest, polls, deadline, now, BroughtLast(polls[1..], |rest.sent|, rid));
      assert |d.sent| == |rest.sent| + 1;
      if |rest.sent| > 0 {
        assert polls[1..][|rest.sent| - 1] == polls[|d.sent| - 1];
      }
    } else {
      LastTurn(d, polls, deadline, now, BroughtLast(polls, |d.sent|, rid));
    }
  }

  // ---------------------------------------------------------------- the calls

  function DeadlineOf(timeout: Option<int>, now: real): Option<real> {
    if timeout.Some? then Some(now + timeout.value as real) else None
  }

  /** get_response: a cached response is popped at once; otherwise it ends as its answers, its clock
      and its timeout say. */
  lemma GetVerdict(rid: RequestId, cache: Cache, polls: seq<Poll>, timeout: Option<int>, now: real)
    ensures var d := Get(rid, cache, polls, timeout, now);
            if rid in cache then d == Drive(Returned(cache[rid]), cache - {rid}, [], now)
            else && |d.sent| <= |polls| && Verdict(d, polls, DeadlineOf(timeout, now), now, BroughtLast(polls, |d.sent|, rid))
                 && (d.outcome.Returned? ==> |d.sent| > 0 && Got(d.outcome.value, polls[|d.sent| - 1].took) == polls[|d.sent| - 1])
  {
    if rid !in cache {
      GetLoopVerdict(rid, cache, polls, DeadlineOf(timeout, now), now);
    }
  }

  /** The any-, all- and quorum-calls, by the condition of their loop on what they have cached. */
  lemma GatherVerdict(done: Condition, wanted: set<RequestId>, cache: Cache, polls: seq<Poll>, timeout: Option<int>, now: real)
    ensures var d := Gather(done, wanted, cache, polls, DeadlineAfter(timeout, now), now);
            |d.sent| <= |polls| && Verdict(d, polls, DeadlineOf(timeout, now), now, done(CacheAfter(cache, polls[..|d.sent|])))
  {
    hide LoopUntil, CacheAfter, Budgets;
    LoopVerdict(done, cache, polls, DeadlineOf(timeout, now), now);
  }

  /** The timeout that call sends with its POST is the caller's, but never negative. */
  lemma PostTimeoutIsCallers(timeout: Option<int>, now: real)
    ensures PostTimeout(timeout, now) == if timeout.None? then None else Some(if timeout.value >= 0 then timeout.value else 0)
  {
    if timeout.Some? {
      assert (now + timeout.value as real) - now == timeout.value as real;
    }
  }

  /** The deadline of the polls of call, whose POST has been answered at `after`: the caller's, cut to
      whole milliseconds from then on, or that moment when the deadline is less than one overdue. */
  ghost predicate CutDeadline(cut: Option<real>, timeout: Option<int>, now: real, after: real) {
    match timeout
    case None => cut == None
    case Some(t) =>
      var deadline := now + t as real;
      && cut.Some? && cut.value >= after
      && if after <= deadline then deadline - 1.0 < cut.value <= deadline else cut.value == after
  }

  /** call: a POST that is refused or fails ends it, a POST that brings the response returns it, and
      otherwise it goes on as get_response for the time that is left. */
  ghost predicate CallEnds(d: Drive<PypeResponse>, rid: RequestId, cache: Cache, reply: PostReply, polls: seq<Poll>,
                           timeout: Option<int>, now: real, cut: Option<real>)
  {
    var after := now + reply.took;
    match reply
    case QueueFull(_) => d == Drive(Raised(TimedOut), cache, [], after)
    case PostFailed(e, _) => d == Drive(Raised(e), cache, [], after)
    case Answered(x, _) =>
      if x.requestId == rid then d == Drive(Returned(x), cache, [], after)
      else FallbackEnds(d, rid, cache[x.requestId := x], polls, timeout, now, after, cut)
    case Accepted(_) => FallbackEnds(d, rid, cache, polls, timeout, now, after, cut)
  }

  ghost predicate FallbackEnds(d: Drive<PypeResponse>, rid: RequestId, cache: Cache, polls: seq<Poll>,
                               timeout: Option<int>, now: real, after: real, cut: Option<real>)
  {
    if timeout.Some? && after >= now + timeout.value as real + 1.0 then
      d == Drive(Raised(TimedOut), cache, [], after)
    else if rid in cache then
      d == Drive(Returned(cache[rid]), cache - {rid}, [], after)
    else
      && CutDeadline(cut, timeout, now, after)
      && |d.sent| <= |polls| && Verdict(d, polls, cut, after, BroughtLast(polls, |d.sent|, rid))
      && (d.outcome.Returned? ==> |d.sent| > 0 && Got(d.outcome.value, polls[|d.sent| - 1].took) == polls[|d.sent| - 1])
  }

  lemma CallVerdict(rid: RequestId, cache: Cache, reply: PostReply, polls: seq<Poll>, timeout: Option<int>, now: real)
    returns (cut: Option<real>)
    ensures CallEnds(Call(rid, cache, reply, polls, timeout, now), rid, cache, reply, polls, timeout, now, cut)
  {
    hide FallbackEnds, Fallback;
    var after := now + reply.took;
    var cache1 := if reply.Answered? then cache[reply.response.requestId := reply.response] else cache;
    cut := FallbackVerdict(rid, cache1, polls, timeout, now, after);
  }

  lemma FallbackVerdict(rid: RequestId, cache: Cache, polls: seq<Poll>, timeout: Option<int>, now: real, after: real)
    returns (cut: Option<real>)
    ensures FallbackEnds(Fallback(rid, cache, polls, DeadlineAfter(timeout, now), after), rid, cache, polls, timeout, now, after, cut)
  {
    hide Get, Verdict;
    var left := Remaining(DeadlineAfter(timeout, now), after);
    cut := DeadlineOf(left, after);
    RemainingIsBudget(DeadlineAfter(timeout, now), after);
    GetVerdict(rid, cache, polls, left, after);
  }

  /** A POST that is refused or fails ends call and send_request alike. */
  lemma FailedPostEndsBoth(rid: RequestId, cache: Cache, reply: PostReply, polls: seq<Poll>, timeout: Option<int>, now: real)
    requires reply.QueueFull? || reply.PostFailed?
    ensures Call(rid, cache, reply, polls, timeout, now) == SendThenGet(rid, cache, reply, polls, timeout, now)
  {
  }
}
