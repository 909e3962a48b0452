/** The caller's connection: a cache, a counter and a flag, changed in place by blocking calls. */
module Connection {
  import opened Messages
  import opened Deadlines
  import opened Collect
  import opened CollectTheorems
  import opened Decimals
  import opened Verdicts

  /** The HTTP session, seen from the client: what the server will answer, in order, the clock,
      and the timeouts sent with the polls and the POSTs answered so far. */
  class Session {
    var posts: seq<PostReply>
    var polls: seq<Poll>
    var now: real
    ghost var sent: seq<Option<int>>
    ghost var posted: seq<Option<int>>

    constructor (posts: seq<PostReply>, polls: seq<Poll>, now: real)
      ensures this.posts == posts && this.polls == polls && this.now == now && sent == [] && posted == []
    {
      this.posts, this.polls, this.now, this.sent, this.posted := posts, polls, now, [], [];
    }
  }

  /** `rest` is what remains of the call `whole` once the timeouts `used` have been sent. */
  ghost predicate Resumes<T>(whole: Drive<T>, used: seq<Option<int>>, rest: Drive<T>) {
    whole.outcome == rest.outcome && whole.cache == rest.cache && whole.now == rest.now && whole.sent == used + rest.sent
  }

  lemma ResumesAfterTurn<T>(whole: Drive<T>, used: seq<Option<int>>, left: Option<int>, rest: Drive<T>)
    requires Resumes(whole, used, Prepend(left, rest))
    ensures Resumes(whole, used + [left], rest)
  {
    assert used + ([left] + rest.sent) == (used + [left]) + rest.sent;
  }

  lemma LoopIsDone(done: Condition, cache: Cache, polls: seq<Poll>, deadline: Option<real>, now: real)
    requires done(cache)
    ensures LoopUntil(done, cache, polls, deadline, now) == Drive(Returned(()), cache, [], now)
  {
  }

  class ClientConnection {
    const session: Session
    var closed: bool
    var nextRequestId: nat
    var cache: Cache

    constructor (session: Session)
      ensures this.session == session && !closed && nextRequestId == 0 && cache == map[]
    {
      this.session := session;
      closed, nextRequestId, cache := false, 0, map[];
    }

    /** A call has left the given cache and clock, and has sent one poll for each timeout of `sent`. */
    twostate predicate Left(new cache: Cache, new sent: seq<Option<int>>, now: real)
      reads this, session
    {
      && this.cache == cache
      && |sent| <= |old(session.polls)| && session.polls == old(session.polls)[|sent|..]
      && session.sent == old(session.sent) + sent
      && session.now == now
    }

    /** The polls since then have been sent the budgets of the timeout, and the outcome is the one
        that their answers and the clock give. */
    twostate predicate Ended<T>(new r: Outcome<T>, timeout: Option<int>, satisfied: seq<Poll> -> bool)
      reads this, session
    {
      && |old(session.sent)| <= |session.sent|
      && var used := session.sent[|old(session.sent)|..];
         var deadline := DeadlineOf(timeout, old(session.now));
         && Budgets(used, old(session.polls), deadline, old(session.now))
         && Ends(r, old(session.polls), |used|, deadline, session.now, satisfied(old(session.polls)[..|used|]))
    }

    // ------------------------------------------------------------------ send

    method MintRequestId() returns (rid: RequestId)
      modifies this`nextRequestId
      ensures nextRequestId == old(nextRequestId) + 1
      ensures rid == Decimal(nextRequestId)
      ensures forall n: nat :: n <= old(nextRequestId) ==> rid != Decimal(n)
    {
      nextRequestId := nextRequestId + 1;
      rid := Decimal(nextRequestId);
      forall n: nat | n <= old(nextRequestId)
        ensures rid != Decimal(n)
      {
        if rid == Decimal(n) {
          DecimalIsInjective(nextRequestId, n);
        }
      }
    }

    /** One POST; None when the server never answers it. */
    method Post(timeout: Option<int>) returns (reply: Option<PostReply>)
      modifies session`posts, session`now, session`posted
      ensures session.posted == old(session.posted) + [timeout]
      ensures old(session.posts) == [] ==> reply == None && session.posts == [] && session.now == old(session.now)
      ensures old(session.posts) != [] ==>
                && reply == Some(old(session.posts)[0]) && session.posts == old(session.posts)[1..]
                && session.now == old(session.now) + reply.value.took
    {
      session.posted := session.posted + [timeout];
      if session.posts == [] {
        return None;
      }
      reply := Some(session.posts[0]);
      session.posts := session.posts[1..];
      session.now := session.now + reply.value.took;
    }

    method SendRequest(timeout: Option<int>) returns (r: Outcome<RequestId>)
      modifies this`nextRequestId, session`posts, session`now, session`posted
      ensures old(closed) ==> r == Raised(Closed) && unchanged(this) && unchanged(session)
      ensures !old(closed) ==> nextRequestId == old(nextRequestId) + 1 && session.posted == old(session.posted) + [timeout]
      ensures !old(closed) && old(session.posts) == [] ==> r == Waiting && session.now == old(session.now)
      ensures !old(closed) && old(session.posts) != [] ==>
                && session.posts == old(session.posts)[1..]
                && session.now == old(session.now) + old(session.posts)[0].took
                && match old(session.posts)[0]
                   case Accepted(_) => r == Returned(Decimal(nextRequestId))
                   case QueueFull(_) => r == Raised(TimedOut)
                   case PostFailed(e, _) => r == Raised(e)
                   case Answered(_, _) => r == Raised(UNEXPECTED_200)
    {
      if closed {
        return Raised(Closed);
      }
      var rid := MintRequestId();
      var reply := Post(timeout);
      if reply == None {
        return Waiting;
      }
      match reply.value
      case Accepted(_) => r := Returned(rid);
      case QueueFull(_) => r := Raised(TimedOut);
      case PostFailed(e, _) => r := Raised(e);
      case Answered(_, _) => r := Raised(UNEXPECTED_200);
    }

    /** call: one POST with block=1, then, unless it brought the wanted response, get_response. */
    method CallService(timeout: Option<int>) returns (r: Outcome<PypeResponse>)
      modifies this`nextRequestId, this`cache, session
      ensures old(closed) ==> r == Raised(Closed) && unchanged(this) && unchanged(session)
      ensures !old(closed) ==>
                && nextRequestId == old(nextRequestId) + 1
                && session.posted == old(session.posted) + [PostTimeout(timeout, old(session.now))]
                && PostTimeout(timeout, old(session.now)) == if timeout.None? then None else Some(if timeout.value >= 0 then timeout.value else 0)
      ensures !old(closed) && old(session.posts) == [] ==> r == Waiting && cache == old(cache) && session.polls == old(session.polls)
      ensures !old(closed) && old(session.posts) != [] ==>
                && session.posts == old(session.posts)[1..]
                && var d := Call(Decimal(nextRequestId), old(cache), old(session.posts)[0], old(session.polls), timeout, old(session.now));
                   r == d.outcome && Left(d.cache, d.sent, d.now)
      ensures !old(closed) && old(session.posts) != [] && (old(session.posts)[0].QueueFull? || old(session.posts)[0].PostFailed?) ==>
                && r == Raised(if old(session.posts)[0].QueueFull? then TimedOut else old(session.posts)[0].error)
                && cache == old(cache) && session.polls == old(session.polls) && session.sent == old(session.sent)
    {
      hide ClientConnection.Ended, Get, PostTimeout, Fallback, DeadlineAfter;
      PostTimeoutIsCallers(timeout, session.now);
      if closed {
        return Raised(Closed);
      }
      var rid := MintRequestId();
      var deadline := DeadlineAfter(timeout, session.now);
      var reply := Post(PostTimeout(timeout, session.now));
      if reply == None {
        return Waiting;
      }
      match reply.value {
        case QueueFull(_) =>
          return Raised(TimedOut);
        case PostFailed(e, _) =>
          return Raised(e);
        case Answered(x, _) =>
          if x.requestId == rid {
            return Returned(x);
          }
          cache := cache[x.requestId := x];
        case Accepted(_) =>
      }
      r := FallBack(rid, deadline);
    }

    /** The second half of call: get_response for what is left of the deadline. */
    method FallBack(rid: RequestId, deadline: Option<real>) returns (r: Outcome<PypeResponse>)
      requires !closed
      modifies this`cache, session`polls, session`now, session`sent
      ensures var d := Fallback(rid, old(cache), old(session.polls), deadline, old(session.now));
              r == d.outcome && Left(d.cache, d.sent, d.now)
    {
      hide ClientConnection.Ended, Get, Remaining;
      var left := Remaining(deadline, session.now);
      if left.Some? && left.value < 0 {
        return Raised(TimedOut);
      }
      r := GetResponse(rid, left);
    }

    // ------------------------------------------------------------------ get_response variants

    method GetResponse(rid: RequestId, timeout: Option<int>) returns (r: Outcome<PypeResponse>)
      modifies this`cache, session`polls, session`now, session`sent
      ensures old(closed) ==> r == Raised(Closed) && unchanged(this) && unchanged(session)
      ensures !old(closed) ==>
                var d := Get(rid, old(cache), old(session.polls), timeout, old(session.now));
                r == d.outcome && Left(d.cache, d.sent, d.now)
      ensures !old(closed) && rid in old(cache) ==> r == Returned(old(cache)[rid]) && cache == old(cache) - {rid} && unchanged(session)
      ensures !old(closed) && rid !in old(cache) ==> Ended(r, timeout, (polls: seq<Poll>) => BroughtLast(polls, |polls|, rid))
    {
      hide GetLoop, Budgets, Ends;
      if closed {
        return Raised(Closed);
      }
      GetVerdict(rid, cache, session.polls, timeout, session.now);
      if rid in cache {
        r := Returned(cache[rid]);
        cache := cache - {rid};
        return;
      }
      r := PollFor(rid, timeout);
    }

    /** The loop of get_response, for an id the cache does not hold. */
    method PollFor(rid: RequestId, timeout: Option<int>) returns (r: Outcome<PypeResponse>)
      modifies this`cache, session`polls, session`now, session`sent
      ensures var d := GetLoop(rid, old(cache), old(session.polls), DeadlineAfter(timeout, old(session.now)), old(session.now));
              r == d.outcome && Left(d.cache, d.sent, d.now)
    {
      hide GetLoop, Remaining;
      var deadline := DeadlineAfter(timeout, session.now);
      ghost var whole := GetLoop(rid, cache, session.polls, deadline, session.now);
      ghost var used: seq<Option<int>> := [];
      while true
        invariant |used| <= |old(session.polls)| && session.polls == old(session.polls)[|used|..]
        invariant session.sent == old(session.sent) + used
        invariant Resumes(whole, used, GetLoop(rid, cache, session.polls, deadline, session.now))
        decreases |session.polls|
      {
        ghost var before := session.now;
        var turned := GetTurn(rid, deadline);
        if turned.Some? {
          return turned.value;
        }
        ghost var left := Remaining(deadline, before);
        ResumesAfterTurn(whole, used, left, GetLoop(rid, cache, session.polls, deadline, session.now));
        used := used + [left];
      }
    }

    /** One turn of that loop: None when it goes on. */
    method GetTurn(rid: RequestId, deadline: Option<real>) returns (r: Option<Outcome<PypeResponse>>)
      modifies this`cache, session`polls, session`now, session`sent
      ensures var d := GetLoop(rid, old(cache), old(session.polls), deadline, old(session.now));
              if r.Some? then r.value == d.outcome && Left(d.cache, d.sent, d.now)
              else && old(session.polls) != [] && session.polls == old(session.polls)[1..]
                   && var left := Remaining(deadline, old(session.now));
                      && session.sent == old(session.sent) + [left]
                      && d == Prepend(left, GetLoop(rid, cache, session.polls, deadline, session.now))
    {
      hide Remaining;
      var polled := PollOne(Remaining(deadline, session.now));
      match polled
      case Raised(e) =>
        return Some(Raised(e));
      case Waiting =>
        return Some(Waiting);
      case Returned(None) =>
        if deadline.Some? {
          return Some(Raised(TimedOut));
        }
        return None;
      case Returned(Some(x)) =>
        if x.requestId == rid {
          return Some(Returned(x));
        }
        cache := cache[x.requestId := x];
        return None;
    }

    method GetAnyResponses(ids: seq<RequestId>, timeout: Option<int>) returns (r: Outcome<Cache>)
      modifies this`cache, session`polls, session`now, session`sent
      ensures old(closed) || ids == [] ==> r == Raised(if old(closed) then Closed else BadArguments) && unchanged(this) && unchanged(session)
      ensures !old(closed) && ids != [] ==>
                var wanted := set rid | rid in ids;
                var d := Gather(AnyOf(wanted), wanted, old(cache), old(session.polls), DeadlineAfter(timeout, old(session.now)), old(session.now));
                && r == d.outcome && Left(d.cache, d.sent, d.now)
                && Ended(r, timeout, (polls: seq<Poll>) => AnyOf(wanted)(CacheAfter(old(cache), polls)))
    {
      if closed {
        return Raised(Closed);
      }
      if ids == [] {
        return Raised(BadArguments);
      }
      var wanted := set rid | rid in ids;
      r := GatherMatching(AnyOf(wanted), wanted, timeout);
    }

    method GetAllResponses(ids: seq<RequestId>, timeout: Option<int>) returns (r: Outcome<Cache>)
      modifies this`cache, session`polls, session`now, session`sent
      ensures old(closed) || ids == [] ==> r == Raised(if old(closed) then Closed else BadArguments) && unchanged(this) && unchanged(session)
      ensures !old(closed) && ids != [] ==>
                var wanted := set rid | rid in ids;
                var d := Gather(AllOf(wanted), wanted, old(cache), old(session.polls), DeadlineAfter(timeout, old(session.now)), old(session.now));
                && r == d.outcome && Left(d.cache, d.sent, d.now)
                && Ended(r, timeout, (polls: seq<Poll>) => AllOf(wanted)(CacheAfter(old(cache), polls)))
    {
      if closed {
        return Raised(Closed);
      }
      if ids == [] {
        return Raised(BadArguments);
      }
      var wanted := set rid | rid in ids;
      r := GatherMatching(AllOf(wanted), wanted, timeout);
    }

    /** The quorum is checked against the number of arguments, not of distinct ids. */
    method GetResponseQuorum(quorum: int, ids: seq<RequestId>, timeout: Option<int>) returns (r: Outcome<Cache>)
      modifies this`cache, session`polls, session`now, session`sent
      ensures old(closed) ==> r == Raised(Closed) && unchanged(this) && unchanged(session)
      ensures !old(closed) && !(1 <= quorum <= |ids|) ==> r == Raised(BadArguments) && unchanged(this) && unchanged(session)
      ensures !old(closed) && 1 <= quorum <= |ids| ==>
                var wanted := set rid | rid in ids;
                var d := Gather(QuorumOf(quorum, wanted), wanted, old(cache), old(session.polls), DeadlineAfter(timeout, old(session.now)), old(session.now));
                && r == d.outcome && Left(d.cache, d.sent, d.now)
                && Ended(r, timeout, (polls: seq<Poll>) => QuorumOf(quorum, wanted)(CacheAfter(old(cache), polls)))
    {
      if closed {
        return Raised(Closed);
      }
      if ids == [] {
        return Raised(BadArguments);
      }
      if quorum < 1 || quorum > |ids| {
        return Raised(BadArguments);
      }
      var wanted := set rid | rid in ids;
      r := GatherMatching(QuorumOf(quorum, wanted), wanted, timeout);
    }

    method GatherMatching(done: Condition, wanted: set<RequestId>, timeout: Option<int>) returns (r: Outcome<Cache>)
      modifies this`cache, session`polls, session`now, session`sent
      ensures var d := Gather(done, wanted, old(cache), old(session.polls), DeadlineAfter(timeout, old(session.now)), old(session.now));
              r == d.outcome && Left(d.cache, d.sent, d.now)
      ensures Ended(r, timeout, (polls: seq<Poll>) => done(CacheAfter(old(cache), polls)))
    {
      hide LoopUntil, Budgets, Ends, CacheAfter;
      GatherVerdict(done, wanted, cache, session.polls, timeout, session.now);
      var looped := PollUntil(done, timeout);
      match looped
      case Raised(e) => r := Raised(e);
      case Waiting => r := Waiting;
      case Returned(_) =>
        var out := PopMatching(wanted);
        r := Returned(out);
    }

    // ------------------------------------------------------------------ shared loop

    /** _loop_until. */
    method PollUntil(done: Condition, timeout: Option<int>) returns (r: Outcome<()>)
      modifies this`cache, session`polls, session`now, session`sent
      ensures var d := LoopUntil(done, old(cache), old(session.polls), DeadlineAfter(timeout, old(session.now)), old(session.now));
              r == d.outcome && Left(d.cache, d.sent, d.now)
    {
      hide LoopUntil, Remaining;
      var deadline := DeadlineAfter(timeout, session.now);
      if done(cache) {
        LoopIsDone(done, cache, session.polls, deadline, session.now);
        return Returned(());
      }
      ghost var whole := LoopUntil(done, cache, session.polls, deadline, session.now);
      ghost var used: seq<Option<int>> := [];
      while true
        invariant !done(cache)
        invariant |used| <= |old(session.polls)| && session.polls == old(session.polls)[|used|..]
        invariant session.sent == old(session.sent) + used
        invariant Resumes(whole, used, LoopUntil(done, cache, session.polls, deadline, session.now))
        decreases |session.polls|
      {
        ghost var before := session.now;
        var turned := Turn(done, deadline);
        if turned.Some? {
          return turned.value;
        }
        ghost var left := Remaining(deadline, before);
        ResumesAfterTurn(whole, used, left, LoopUntil(done, cache, session.polls, deadline, session.now));
        used := used + [left];
      }
    }

    /** One turn of its loop: None when the loop goes on. */
    method Turn(done: Condition, deadline: Option<real>) returns (r: Option<Outcome<()>>)
      requires !done(cache)
      modifies this`cache, session`polls, session`now, session`sent
      ensures var d := LoopUntil(done, old(cache), old(session.polls), deadline, old(session.now));
              if r.Some? then r.value == d.outcome && Left(d.cache, d.sent, d.now)
              else && !done(cache) && old(session.polls) != [] && session.polls == old(session.polls)[1..]
                   && var left := Remaining(deadline, old(session.now));
                      && session.sent == old(session.sent) + [left]
                      && d == Prepend(left, LoopUntil(done, cache, session.polls, deadline, session.now))
    {
      hide Remaining;
      var polled := PollOne(Remaining(deadline, session.now));
      match polled
      case Raised(e) =>
        return Some(Raised(e));
      case Waiting =>
        return Some(Waiting);
      case Returned(None) =>
        if deadline.Some? {
          return Some(Raised(TimedOut));
        }
        return None;
      case Returned(Some(x)) =>
        cache := cache[x.requestId := x];
        return if done(cache) then Some(Returned(())) else None;
    }

    /** One server call. Nothing is sent when the local deadline is already negative. */
    method PollOne(left: Option<int>) returns (r: Outcome<Option<PypeResponse>>)
      modifies session`polls, session`now, session`sent
      ensures left.Some? && left.value < 0 ==> r == Raised(TimedOut) && unchanged(session)
      ensures !(left.Some? && left.value < 0) && old(session.polls) == [] ==> r == Waiting && unchanged(session)
      ensures !(left.Some? && left.value < 0) && old(session.polls) != [] ==>
                && session.polls == old(session.polls)[1..]
                && session.now == old(session.now) + old(session.polls)[0].took
                && session.sent == old(session.sent) + [left]
                && r == match old(session.polls)[0]
                        case Got(x, _) => Returned(Some(x))
                        case Empty(_) => Returned(None)
                        case Failed(e, _) => Raised(e)
    {
      if left.Some? && left.value < 0 {
        return Raised(TimedOut);
      }
      if session.polls == [] {
        return Waiting;
      }
      var poll := session.polls[0];
      session.polls := session.polls[1..];
      session.now := session.now + poll.took;
      session.sent := session.sent + [left];
      match poll
      case Got(x, _) => r := Returned(Some(x));
      case Empty(_) => r := Returned(None);
      case Failed(e, _) => r := Raised(e);
    }

    method PopMatching(wanted: set<RequestId>) returns (out: Cache)
      modifies this`cache
      ensures out == Restrict(old(cache), wanted)
      ensures cache == old(cache) - wanted
    {
      out := map[];
      var todo := wanted;
      while todo != {}
        invariant todo <= wanted
        invariant out == Restrict(old(cache), wanted - todo)
        invariant cache == old(cache) - (wanted - todo)
        decreases todo
      {
        var rid :| rid in todo;
        if rid in cache {
          out := out[rid := cache[rid]];
          cache := cache - {rid};
        }
        todo := todo - {rid};
      }
      assert wanted - todo == wanted;
    }

    method Close()
      modifies this`closed
      ensures closed
    {
      closed := true;
    }
  }

  /** send_request, then get_response for the id it returned, on one connection. */
  method SendAndGet(b: ClientConnection, timeout: Option<int>) returns (r: Outcome<PypeResponse>)
    requires !b.closed && b.session.posts != []
    modifies b, b.session
    ensures b.nextRequestId == old(b.nextRequestId) + 1 && b.session.posts == old(b.session.posts)[1..]
    ensures b.session.posted == old(b.session.posted) + [timeout]
    ensures var d := SendThenGet(Decimal(b.nextRequestId), old(b.cache), old(b.session.posts)[0], old(b.session.polls), timeout, old(b.session.now));
            r == d.outcome && b.Left(d.cache, d.sent, d.now)
    ensures old(b.session.posts)[0].Answered? ==> r == Raised(UNEXPECTED_200)
  {
    hide Get, ClientConnection.Ended, Decimal;
    var sent := b.SendRequest(timeout);
    if sent.Raised? {
      return Raised(sent.error);
    }
    r := b.GetResponse(sent.value, timeout);
  }

  /** The same request made by call on one connection and by send_request and get_response on an
      equal one, with timeout None and with the responses in the same order: the results agree, and
      the connections are equal again, having used the same answers. */
  method CallVersusSendThenGet(a: ClientConnection, b: ClientConnection) returns (x: Outcome<PypeResponse>, y: Outcome<PypeResponse>)
    requires a != b && a.session != b.session
    requires !a.closed && !b.closed && a.nextRequestId == b.nextRequestId && a.cache == b.cache
    requires AllMinted(a.cache, a.nextRequestId) && a.session.now == b.session.now
    requires a.session.posts != [] && (a.session.posts[0].Answered? || a.session.posts[0].Accepted?)
    requires b.session.posts != [] && b.session.posts[0].Accepted?
    requires b.session.polls == AsPolls(a.session.posts[0], b.session.posts[0].took, a.session.polls)
    modifies a, a.session, b, b.session
    ensures x == y && a.cache == b.cache && a.nextRequestId == b.nextRequestId
    ensures a.session.polls == b.session.polls && a.session.now == b.session.now
    ensures a.session.posts == old(a.session.posts)[1..] && b.session.posts == old(b.session.posts)[1..]
  {
    hide Call, Get, AllMinted, ClientConnection.Ended, PostTimeout, Decimal;
    CallIsSendThenGet(a.nextRequestId, a.cache, a.session.posts[0], b.session.posts[0].took, a.session.polls, a.session.now);
    ghost var polls, all := a.session.polls, b.session.polls;
    x := a.CallService(None);
    y := SendAndGet(b, None);
  }

  /** And with the same failure of the POST: both raise it, and neither polls. */
  method FailedCallVersusSend(a: ClientConnection, b: ClientConnection) returns (x: Outcome<PypeResponse>, y: Outcome<RequestId>)
    requires a != b && a.session != b.session
    requires !a.closed && !b.closed && a.nextRequestId == b.nextRequestId
    requires a.session.posts != [] && b.session.posts != [] && b.session.posts[0] == a.session.posts[0]
    requires a.session.posts[0].QueueFull? || a.session.posts[0].PostFailed?
    modifies a, a.session, b, b.session
    ensures var reply := old(a.session.posts)[0];
            x.Raised? && y == Raised(x.error) && x.error == if reply.QueueFull? then TimedOut else reply.error
    ensures a.cache == old(a.cache) && b.cache == old(b.cache) && a.nextRequestId == b.nextRequestId
    ensures a.session.polls == old(a.session.polls) && b.session.polls == old(b.session.polls)
    ensures a.session.posts == old(a.session.posts)[1..] && b.session.posts == old(b.session.posts)[1..]
  {
    hide Call;
    x := a.CallService(None);
    y := b.SendRequest(None);
  }
}
