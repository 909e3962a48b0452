/** What the collecting operations of a client connection compute, as functions of the cache,
    of the answers the server will give to the coming polls, and of the clock.

    A poll that the server never answers is the end of the `polls` sequence: the caller is then
    still waiting. An unbounded stream is covered by all of its finite prefixes. */
module Collect {
  import opened Messages
  import opened Deadlines

  datatype Error = Closed | BadArguments | TimedOut | Http(detail: string)

  /** send_request expects nothing but 202. */
  const UNEXPECTED_200: Error := Http("unexpected status 200")

  datatype Outcome<+T> = Returned(value: T) | Raised(error: Error) | Waiting

  type Cache = map<RequestId, PypeResponse>

  /** Every response is cached under its own id. */
  ghost predicate Keyed(cache: Cache) {
    forall rid :: rid in cache ==> cache[rid].requestId == rid
  }

  /** One answer to GET /clients/{id}: 200, 204, or anything that makes the library raise. */
  datatype Poll =
    | Got(response: PypeResponse, took: real)
    | Empty(took: real)
    | Failed(error: Error, took: real)

  /** One answer to POST /services/{name}: 200, 202, 503, or anything else that raises. */
  datatype PostReply =
    | Answered(response: PypeResponse, took: real)
    | Accepted(took: real)
    | QueueFull(took: real)
    | PostFailed(error: Error, took: real)

  /** When a collect call is satisfied: an is_done closure, as a function of the cache it reads. */
  type Condition = Cache -> bool

  function AnyOf(wanted: set<RequestId>): Condition {
    (cache: Cache) => exists rid :: rid in wanted && rid in cache
  }

  function AllOf(wanted: set<RequestId>): Condition {
    (cache: Cache) => wanted <= cache.Keys
  }

  function QuorumOf(quorum: int, wanted: set<RequestId>): Condition {
    (cache: Cache) => |wanted * cache.Keys| >= quorum
  }

  /** The end of a call: how it came out, the cache it left, the timeout sent with each poll it
      consumed, and the clock. */
  datatype Drive<+T> = Drive(outcome: Outcome<T>, cache: Cache, sent: seq<Option<int>>, now: real)

  function Prepend<T>(left: Option<int>, d: Drive<T>): Drive<T> {
    d.(sent := [left] + d.sent)
  }

  /** _loop_until. */
  function LoopUntil(done: Condition, cache: Cache, polls: seq<Poll>, deadline: Option<real>, now: real): Drive<()>
    decreases |polls|
  {
    if done(cache) then
      Drive(Returned(()), cache, [], now)
    else
      var left := Remaining(deadline, now);
      if left.Some? && left.value < 0 then
        Drive(Raised(TimedOut), cache, [], now)
      else if polls == [] then
        Drive(Waiting, cache, [], now)
      else
        match polls[0]
        case Failed(e, took) => Drive(Raised(e), cache, [left], now + took)
        case Empty(took) =>
          if deadline.Some? then Drive(Raised(TimedOut), cache, [left], now + took)
          else Prepend(left, LoopUntil(done, cache, polls[1..], deadline, now + took))
        case Got(x, took) =>
          Prepend(left, LoopUntil(done, cache[x.requestId := x], polls[1..], deadline, now + took))
  }

  function Restrict(cache: Cache, wanted: set<RequestId>): Cache {
    map rid | rid in cache && rid in wanted :: cache[rid]
  }

  /** The loop, then _pop_matching when it returned. */
  function Gather(done: Condition, wanted: set<RequestId>, cache: Cache, polls: seq<Poll>, deadline: Option<real>, now: real): Drive<Cache> {
    var d := LoopUntil(done, cache, polls, deadline, now);
    match d.outcome
    case Returned(_) => Drive(Returned(Restrict(d.cache, wanted)), d.cache - wanted, d.sent, d.now)
    case Raised(e) => Drive(Raised(e), d.cache, d.sent, d.now)
    case Waiting => Drive(Waiting, d.cache, d.sent, d.now)
  }

  /** The polling loop of get_response, once the cache has been found not to hold `rid`. */
  function GetLoop(rid: RequestId, cache: Cache, polls: seq<Poll>, deadline: Option<real>, now: real): Drive<PypeResponse>
    decreases |polls|
  {
    var left := Remaining(deadline, now);
    if left.Some? && left.value < 0 then
      Drive(Raised(TimedOut), cache, [], now)
    else if polls == [] then
      Drive(Waiting, cache, [], now)
    else
      match polls[0]
      case Failed(e, took) => Drive(Raised(e), cache, [left], now + took)
      case Empty(took) =>
        if deadline.Some? then Drive(Raised(TimedOut), cache, [left], now + took)
        else Prepend(left, GetLoop(rid, cache, polls[1..], deadline, now + took))
      case Got(x, took) =>
        if x.requestId == rid then Drive(Returned(x), cache, [left], now + took)
        else Prepend(left, GetLoop(rid, cache[x.requestId := x], polls[1..], deadline, now + took))
  }

  /** get_response: a cached response is popped without polling. */
  function Get(rid: RequestId, cache: Cache, polls: seq<Poll>, timeout: Option<int>, now: real): Drive<PypeResponse> {
    if rid in cache then Drive(Returned(cache[rid]), cache - {rid}, [], now)
    else GetLoop(rid, cache, polls, DeadlineAfter(timeout, now), now)
  }

  /** send_request, then get_response for the id it returned. */
  function SendThenGet(rid: RequestId, cache: Cache, reply: PostReply, polls: seq<Poll>, timeout: Option<int>, now: real): Drive<PypeResponse> {
    match reply
    case Accepted(took) => Get(rid, cache, polls, timeout, now + took)
    case QueueFull(took) => Drive(Raised(TimedOut), cache, [], now + took)
    case PostFailed(e, took) => Drive(Raised(e), cache, [], now + took)
    case Answered(_, took) => Drive(Raised(UNEXPECTED_200), cache, [], now + took)
  }

  /** The timeout that call sends with its POST. */
  function PostTimeout(timeout: Option<int>, now: real): Option<int> {
    match Remaining(DeadlineAfter(timeout, now), now)
    case None => None
    case Some(n) => Some(Max0(n))
  }

  /** The second half of call: what is left of the one deadline goes to get_response. */
  function Fallback(rid: RequestId, cache: Cache, polls: seq<Poll>, deadline: Option<real>, now: real): Drive<PypeResponse> {
    match Remaining(deadline, now)
    case None => Get(rid, cache, polls, None, now)
    case Some(n) => if n < 0 then Drive(Raised(TimedOut), cache, [], now) else Get(rid, cache, polls, Some(n), now)
  }

  /** call, after the POST with block=1 has been answered by `reply`. */
  function Call(rid: RequestId, cache: Cache, reply: PostReply, polls: seq<Poll>, timeout: Option<int>, now: real): Drive<PypeResponse> {
    var deadline := DeadlineAfter(timeout, now);
    match reply
    case QueueFull(took) => Drive(Raised(TimedOut), cache, [], now + took)
    case PostFailed(e, took) => Drive(Raised(e), cache, [], now + took)
    case Answered(x, took) =>
      if x.requestId == rid then Drive(Returned(x), cache, [], now + took)
      else Fallback(rid, cache[x.requestId := x], polls, deadline, now + took)
    case Accepted(took) => Fallback(rid, cache, polls, deadline, now + took)
  }

  /** get_response on each id of `ids` in turn, keeping what each call returns. */
  function GetEach(ids: seq<RequestId>, cache: Cache, polls: seq<Poll>, now: real): Drive<Cache>
    decreases |ids|
  {
    if ids == [] then
      Drive(Returned(map[]), cache, [], now)
    else
      var first := Get(ids[0], cache, polls, None, now);
      match first.outcome
      case Raised(e) => Drive(Raised(e), first.cache, first.sent, first.now)
      case Waiting => Drive(Waiting, first.cache, first.sent, first.now)
      case Returned(x) =>
        GetUsesNoMoreThanPolls(ids[0], cache, polls, None, now);
        var rest := GetEach(ids[1..], first.cache, polls[|first.sent|..], first.now);
        var sent := first.sent + rest.sent;
        match rest.outcome
        case Returned(m) =>
          Drive(Returned(m[ids[0] := x]), rest.cache, sent, rest.now)
        case _ => Drive(rest.outcome, rest.cache, sent, rest.now)
  }

  lemma {:induction false} GetLoopUsesNoMoreThanPolls(rid: RequestId, cache: Cache, polls: seq<Poll>, deadline: Option<real>, now: real)
    ensures |GetLoop(rid, cache, polls, deadline, now).sent| <= |polls|
    decreases |polls|
  {
    if polls != [] {
      match polls[0]
      case Failed(_, _) =>
      case Empty(took) => GetLoopUsesNoMoreThanPolls(rid, cache, polls[1..], deadline, now + took);
      case Got(x, took) =>
        GetLoopUsesNoMoreThanPolls(rid, cache[x.requestId := x], polls[1..], deadline, now + took);
    }
  }

  lemma GetUsesNoMoreThanPolls(rid: RequestId, cache: Cache, polls: seq<Poll>, timeout: Option<int>, now: real)
    ensures |Get(rid, cache, polls, timeout, now).sent| <= |polls|
  {
    GetLoopUsesNoMoreThanPolls(rid, cache, polls, DeadlineAfter(timeout, now), now);
  }
}
