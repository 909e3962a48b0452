/** What the collecting operations guarantee, for every stream of answers. */
module CollectTheorems {
  import opened Messages
  import opened Deadlines
  import opened Collect
  import opened Decimals
  import opened FiniteSets

  // ---------------------------------------------------------------- the cache after a prefix

  /** Everything the polls brought, written over the cache in the order it came: the last writer wins. */
  function CacheAfter(cache: Cache, polls: seq<Poll>): Cache
    decreases |polls|
  {
    if polls == [] then cache
    else match polls[0]
      case Got(x, _) => CacheAfter(cache[x.requestId := x], polls[1..])
      case _ => CacheAfter(cache, polls[1..])
  }

  ghost predicate NoFailure(polls: seq<Poll>) {
    forall p :: p in polls ==> !p.Failed?
  }

  /** The loop consumes the shortest prefix of the stream whose responses satisfy its condition; it
      keeps exactly those responses and returns if and only if the condition then holds. */
  lemma {:induction false} ShortestPrefix(done: Condition, cache: Cache, polls: seq<Poll>, deadline: Option<real>, now: real)
    ensures var d := LoopUntil(done, cache, polls, deadline, now);
            && |d.sent| <= |polls|
            && d.cache == CacheAfter(cache, polls[..|d.sent|])
            && (d.outcome.Returned? <==> done(d.cache))
            && forall j :: 0 <= j < |d.sent| ==> !done(CacheAfter(cache, polls[..j]))
    decreases |polls|
  {
    var d := LoopUntil(done, cache, polls, deadline, now);
    if d.sent != [] {
      var cache1 := if polls[0].Got? then cache[polls[0].response.requestId := polls[0].response] else cache;
      forall j | 0 < j <= |polls|
        ensures CacheAfter(cache, polls[..j]) == CacheAfter(cache1, polls[1..][..j - 1])
      {
        assert polls[..j][1..] == polls[1..][..j - 1];
      }
      if polls[0].Got? || (polls[0].Empty? && deadline.None?) {
        ShortestPrefix(done, cache1, polls[1..], deadline, now + polls[0].took);
        var rest := LoopUntil(done, cache1, polls[1..], deadline, now + polls[0].took);
        assert d.sent[1..] == rest.sent;
        forall j | 0 <= j < |d.sent|
          ensures !done(CacheAfter(cache, polls[..j]))
        {
          if j > 0 {
            assert !done(CacheAfter(cache1, polls[1..][..j - 1]));
          }
        }
      } else {
        assert CacheAfter(cache, polls[..1]) == CacheAfter(cache1, polls[1..][..0]);
      }
    }
  }

  /** With timeout None, and whatever 204s come between, the loop returns exactly when some prefix of
      the stream satisfies the condition; otherwise the caller keeps waiting and every answer was consumed. */
  lemma {:induction false} UnboundedLoopReturnsIffEverMet(done: Condition, cache: Cache, polls: seq<Poll>, now: real)
    requires NoFailure(polls)
    ensures var d := LoopUntil(done, cache, polls, None, now);
            if exists k :: 0 <= k <= |polls| && done(CacheAfter(cache, polls[..k]))
            then d.outcome.Returned? else d.outcome.Waiting? && |d.sent| == |polls|
  {
    ShortestPrefix(done, cache, polls, None, now);
    UnboundedLoopEnds(done, cache, polls, now);
    assert polls[..|polls|] == polls;
  }

  lemma {:induction false} UnboundedLoopEnds(done: Condition, cache: Cache, polls: seq<Poll>, now: real)
    requires NoFailure(polls)
    ensures var d := LoopUntil(done, cache, polls, None, now);
            d.outcome.Returned? || (d.outcome.Waiting? && |d.sent| == |polls|)
    decreases |polls|
  {
    if !done(cache) && polls != [] {
      assert polls[0] in polls;
      match polls[0]
      case Empty(took) => UnboundedLoopEnds(done, cache, polls[1..], now + took);
      case Got(x, took) => UnboundedLoopEnds(done, cache[x.requestId := x], polls[1..], now + took);
    }
  }

  // ---------------------------------------------------------------- quorum sizes

  lemma OneMoreKey(cache: Cache, x: PypeResponse, wanted: set<RequestId>)
    ensures |wanted * cache[x.requestId := x].Keys| <= |wanted * cache.Keys| + 1
  {
    var before, after := wanted * cache.Keys, wanted * cache[x.requestId := x].Keys;
    assert after <= before + {x.requestId};
    SubsetSize(after, before + {x.requestId});
  }

  lemma {:induction false} CacheAfterOneMore(cache: Cache, polls: seq<Poll>)
    requires polls != []
    ensures var last := polls[|polls| - 1];
            var before := CacheAfter(cache, polls[..|polls| - 1]);
            CacheAfter(cache, polls) == if last.Got? then before[last.response.requestId := last.response] else before
    decreases |polls|
  {
    if |polls| > 1 {
      CacheAfterOneMore(if polls[0].Got? then cache[polls[0].response.requestId := polls[0].response] else cache, polls[1..]);
      assert polls[1..][..|polls| - 2] == polls[..|polls| - 1][1..];
    }
  }

  lemma QuorumLoopStopsExactly(q: int, wanted: set<RequestId>, cache: Cache, polls: seq<Poll>, deadline: Option<real>, now: real)
    requires |wanted * cache.Keys| < q
    ensures var d := LoopUntil(QuorumOf(q, wanted), cache, polls, deadline, now);
            d.outcome.Returned? ==> |wanted * d.cache.Keys| == q
  {
    var done := QuorumOf(q, wanted);
    var d := LoopUntil(done, cache, polls, deadline, now);
    ShortestPrefix(done, cache, polls, deadline, now);
    if d.outcome.Returned? {
      assert !done(cache);
      var used := polls[..|d.sent|];
      CacheAfterOneMore(cache, used);
      assert used[..|used| - 1] == polls[..|used| - 1];
      var before, last := CacheAfter(cache, polls[..|used| - 1]), used[|used| - 1];
      assert !done(before);
      if last.Got? {
        OneMoreKey(before, last.response, wanted);
      }
    }
  }

  lemma RestrictKeys(cache: Cache, wanted: set<RequestId>)
    ensures Restrict(cache, wanted).Keys == wanted * cache.Keys
    ensures |Restrict(cache, wanted)| == |wanted * cache.Keys|
  {
    assert Restrict(cache, wanted).Keys == wanted * cache.Keys;
  }

  /** If fewer than `q` of the wanted ids were cached at the start, a quorum call that returns
      brings back exactly `q` responses; otherwise it returns at once, without polling, with every
      wanted response that was cached. */
  lemma QuorumSize(q: int, wanted: set<RequestId>, cache: Cache, polls: seq<Poll>, deadline: Option<real>, now: real)
    ensures var d := Gather(QuorumOf(q, wanted), wanted, cache, polls, deadline, now);
            if |wanted * cache.Keys| >= q
            then d == Drive(Returned(Restrict(cache, wanted)), cache - wanted, [], now)
            else d.outcome.Returned? ==> |d.outcome.value| == q
  {
    if |wanted * cache.Keys| < q {
      QuorumLoopStopsExactly(q, wanted, cache, polls, deadline, now);
      RestrictKeys(LoopUntil(QuorumOf(q, wanted), cache, polls, deadline, now).cache, wanted);
    }
  }

  lemma {:induction false} SameConditionSameLoop(g: Condition, h: Condition, cache: Cache, polls: seq<Poll>, deadline: Option<real>, now: real)
    requires forall c: Cache :: g(c) <==> h(c)
    ensures LoopUntil(g, cache, polls, deadline, now) == LoopUntil(h, cache, polls, deadline, now)
    decreases |polls|
  {
    assert g(cache) <==> h(cache);
    if !g(cache) && polls != [] {
      match polls[0]
      case Failed(_, _) =>
      case Empty(took) => SameConditionSameLoop(g, h, cache, polls[1..], deadline, now + took);
      case Got(x, took) =>
        SameConditionSameLoop(g, h, cache[x.requestId := x], polls[1..], deadline, now + took);
    }
  }

  /** get_any_responses is the quorum call at 1. */
  lemma AnyIsQuorumOne(wanted: set<RequestId>, cache: Cache, polls: seq<Poll>, deadline: Option<real>, now: real)
    ensures Gather(AnyOf(wanted), wanted, cache, polls, deadline, now) == Gather(QuorumOf(1, wanted), wanted, cache, polls, deadline, now)
  {
    forall c: Cache
      ensures AnyOf(wanted)(c) <==> QuorumOf(1, wanted)(c)
    {
      if rid :| rid in wanted && rid in c {
        assert rid in wanted * c.Keys;
      } else {
        assert wanted * c.Keys == {};
      }
    }
    SameConditionSameLoop(AnyOf(wanted), QuorumOf(1, wanted), cache, polls, deadline, now);
  }

  /** get_all_responses is the quorum call at the number of distinct ids. */
  lemma AllIsFullQuorum(wanted: set<RequestId>, cache: Cache, polls: seq<Poll>, deadline: Option<real>, now: real)
    ensures Gather(AllOf(wanted), wanted, cache, polls, deadline, now) == Gather(QuorumOf(|wanted|, wanted), wanted, cache, polls, deadline, now)
  {
    forall c: Cache
      ensures AllOf(wanted)(c) <==> QuorumOf(|wanted|, wanted)(c)
    {
      SubsetSize(wanted * c.Keys, wanted);
      if AllOf(wanted)(c) {
        assert wanted * c.Keys == wanted;
      }
    }
    SameConditionSameLoop(AllOf(wanted), QuorumOf(|wanted|, wanted), cache, polls, deadline, now);
  }

  ghost predicate QuorumAttainable(q: int, wanted: set<RequestId>, cache: Cache) {
    exists polls: seq<Poll>, deadline: Option<real>, now: real ::
      Gather(QuorumOf(q, wanted), wanted, cache, polls, deadline, now).outcome.Returned?
  }

  /** The argument check compares the quorum with the number of arguments. What decides is the
      number of distinct ids: above it no stream of answers and no timeout lets the call return,
      up to it some stream does. */
  lemma QuorumAttainableIffEnoughDistinctIds(q: int, wanted: set<RequestId>, cache: Cache)
    ensures QuorumAttainable(q, wanted, cache) <==> q <= |wanted|
  {
    if q > |wanted| {
      forall polls: seq<Poll>, deadline: Option<real>, now: real
        ensures !Gather(QuorumOf(q, wanted), wanted, cache, polls, deadline, now).outcome.Returned?
      {
        ShortestPrefix(QuorumOf(q, wanted), cache, polls, deadline, now);
        SubsetSize(wanted * LoopUntil(QuorumOf(q, wanted), cache, polls, deadline, now).cache.Keys, wanted);
      }
    } else {
      var polls := AnswerEach(wanted, cache);
      UnboundedLoopReturnsIffEverMet(QuorumOf(q, wanted), cache, polls, 0.0);
      assert polls[..|polls|] == polls;
      assert QuorumOf(q, wanted)(CacheAfter(cache, polls)) by {
        assert wanted * CacheAfter(cache, polls).Keys == wanted;
      }
      assert Gather(QuorumOf(q, wanted), wanted, cache, polls, None, 0.0).outcome.Returned?;
    }
  }

  /** A stream that answers every id of `wanted`. */
  lemma {:induction false} AnswerEach(wanted: set<RequestId>, cache: Cache) returns (polls: seq<Poll>)
    ensures NoFailure(polls)
    ensures wanted <= CacheAfter(cache, polls).Keys
    ensures cache.Keys <= CacheAfter(cache, polls).Keys
    decreases wanted
  {
    if wanted == {} {
      polls := [];
    } else {
      var rid :| rid in wanted;
      var x := PypeResponse(rid, "", []);
      var rest := AnswerEach(wanted - {rid}, cache[rid := x]);
      polls := [Got(x, 0.0)] + rest;
      assert polls[1..] == rest;
    }
  }

  // ---------------------------------------------------------------- nothing is lost

  /** A collect call that does not return pops nothing: the cache is the old one overwritten by
      exactly the responses polled. A call that returns splits that same cache in two. */
  lemma NothingIsLost(done: Condition, wanted: set<RequestId>, cache: Cache, polls: seq<Poll>, deadline: Option<real>, now: real)
    ensures var d := Gather(done, wanted, cache, polls, deadline, now);
            && |d.sent| <= |polls|
            && var all := CacheAfter(cache, polls[..|d.sent|]);
            if d.outcome.Returned?
            then d.outcome.value.Keys !! d.cache.Keys && d.outcome.value + d.cache == all && d.outcome.value.Keys <= wanted && d.cache.Keys !! wanted
            else d.cache == all
  {
    ShortestPrefix(done, cache, polls, deadline, now);
  }

  /** The same for get_response: its own response is the only one it keeps out of the cache. */
  lemma GetLosesNothing(rid: RequestId, cache: Cache, polls: seq<Poll>, timeout: Option<int>, now: real)
    ensures var d := Get(rid, cache, polls, timeout, now);
            && |d.sent| <= |polls|
            && var all := CacheAfter(cache, polls[..|d.sent|]);
            if d.outcome.Returned?
            then rid !in d.cache && all == d.cache[rid := d.outcome.value] && (Keyed(cache) ==> d.outcome.value.requestId == rid)
            else d.cache == all
  {
    if rid !in cache {
      GetLoopLosesNothing(rid, cache, polls, DeadlineAfter(timeout, now), now);
    }
  }

  lemma {:induction false} GetLoopLosesNothing(rid: RequestId, cache: Cache, polls: seq<Poll>, deadline: Option<real>, now: real)
    requires rid !in cache
    ensures var d := GetLoop(rid, cache, polls, deadline, now);
            && |d.sent| <= |polls|
            && var all := CacheAfter(cache, polls[..|d.sent|]);
            if d.outcome.Returned?
            then rid !in d.cache && d.outcome.value.requestId == rid && all == d.cache[rid := d.outcome.value]
            else d.cache == all
    decreases |polls|
  {
    var d := GetLoop(rid, cache, polls, deadline, now);
    if d.sent != [] {
      if polls[0].Got? && polls[0].response.requestId != rid {
        GetLoopLosesNothing(rid, cache[polls[0].response.requestId := polls[0].response], polls[1..], deadline, now + polls[0].took);
      } else if polls[0].Empty? && deadline.None? {
        GetLoopLosesNothing(rid, cache, polls[1..], deadline, now + polls[0].took);
      } else {
        assert polls[..1][1..] == [];
      }
      assert polls[..|d.sent|][1..] == polls[1..][..|d.sent| - 1];
    }
  }

  /** With no timeout and no failing answer get_response returns exactly when its response is cached
      or some poll brings it, however many 204s and other responses come between; otherwise it has
      used every answer and still waits. */
  lemma GetReturnsIffItsResponseComes(rid: RequestId, cache: Cache, polls: seq<Poll>, now: real)
    requires NoFailure(polls)
    ensures var d := Get(rid, cache, polls, None, now);
            if rid in cache || Brings(polls, rid) then d.outcome.Returned? else d.outcome.Waiting? && |d.sent| == |polls|
  {
    if rid !in cache {
      GetLoopReturnsIffItComes(rid, cache, polls, now);
    }
  }

  ghost predicate Brings(polls: seq<Poll>, rid: RequestId) {
    exists i :: 0 <= i < |polls| && polls[i].Got? && polls[i].response.requestId == rid
  }

  lemma {:induction false} GetLoopReturnsIffItComes(rid: RequestId, cache: Cache, polls: seq<Poll>, now: real)
    requires NoFailure(polls)
    ensures var d := GetLoop(rid, cache, polls, None, now);
            if Brings(polls, rid) then d.outcome.Returned? else d.outcome.Waiting? && |d.sent| == |polls|
    decreases |polls|
  {
    if polls != [] {
      assert polls[0] in polls;
      var rest := polls[1..];
      assert Brings(polls, rid) <==> (polls[0].Got? && polls[0].response.requestId == rid) || Brings(rest, rid) by {
        if i :| 0 <= i < |polls| && polls[i].Got? && polls[i].response.requestId == rid && i > 0 {
          assert rest[i - 1] == polls[i];
        }
        if i :| 0 <= i < |rest| && rest[i].Got? && rest[i].response.requestId == rid {
          assert polls[i + 1] == rest[i];
        }
      }
      match polls[0]
      case Empty(took) => GetLoopReturnsIffItComes(rid, cache, rest, now + took);
      case Got(x, took) => GetLoopReturnsIffItComes(rid, cache[x.requestId := x], rest, now + took);
    }
  }

  // ---------------------------------------------------------------- all == fold of get

  ghost predicate Fresh(polls: seq<Poll>, cache: Cache) {
    && (forall i :: 0 <= i < |polls| && polls[i].Got? ==> polls[i].response.requestId !in cache)
    && (forall i, j :: 0 <= i < j < |polls| && polls[i].Got? && polls[j].Got? ==>
          polls[i].response.requestId != polls[j].response.requestId)
  }

  /** Two calls that used the same answers, ended at the same time and came out the same way; if
      they returned, they also left the same cache. */
  ghost predicate SameCall<T>(d: Drive<T>, e: Drive<T>) {
    && d.outcome == e.outcome && d.sent == e.sent && d.now == e.now
    && (d.outcome.Returned? ==> d.cache == e.cache)
  }

  /** Taking a cached id out of the cache and out of the wanted set changes nothing else. */
  lemma {:induction false} PopCachedFirst(rid: RequestId, wanted: set<RequestId>, cache: Cache, polls: seq<Poll>, now: real)
    requires rid in cache && rid !in wanted
    requires Fresh(polls, cache)
    ensures var d := Gather(AllOf(wanted + {rid}), wanted + {rid}, cache, polls, None, now);
            var e := Gather(AllOf(wanted), wanted, cache - {rid}, polls, None, now);
            && d.sent == e.sent && d.now == e.now
            && (if e.outcome.Returned?
                then d.outcome == Returned(e.outcome.value[rid := cache[rid]]) && d.cache == e.cache
                else d.outcome == e.outcome)
    decreases |polls|
  {
    hide AllOf, Gather;
    var more := wanted + {rid};
    AllOfOneMore(rid, wanted, cache);
    if AllOf(wanted)(cache - {rid}) {
      GatherNow(more, cache, polls, now);
      GatherNow(wanted, cache - {rid}, polls, now);
      assert Restrict(cache, more) == Restrict(cache - {rid}, wanted)[rid := cache[rid]];
      assert cache - more == (cache - {rid}) - wanted;
    } else if polls == [] {
      GatherNever(more, cache, now);
      GatherNever(wanted, cache - {rid}, now);
    } else {
      GatherTurn(AllOf(more), more, cache, polls, now);
      GatherTurn(AllOf(wanted), wanted, cache - {rid}, polls, now);
      match polls[0]
      case Failed(_, _) =>
      case Empty(took) => PopCachedFirst(rid, wanted, cache, polls[1..], now + took);
      case Got(x, took) =>
        assert cache[x.requestId := x] - {rid} == (cache - {rid})[x.requestId := x];
        PopCachedFirst(rid, wanted, cache[x.requestId := x], polls[1..], now + took);
    }
  }

  lemma AllOfOneMore(rid: RequestId, wanted: set<RequestId>, cache: Cache)
    requires rid in cache && rid !in wanted
    ensures AllOf(wanted + {rid})(cache) <==> AllOf(wanted)(cache - {rid})
  {
  }

  lemma GatherNow(wanted: set<RequestId>, cache: Cache, polls: seq<Poll>, now: real)
    requires AllOf(wanted)(cache)
    ensures Gather(AllOf(wanted), wanted, cache, polls, None, now) == Drive(Returned(Restrict(cache, wanted)), cache - wanted, [], now)
  {
  }

  lemma GatherNever(wanted: set<RequestId>, cache: Cache, now: real)
    requires !AllOf(wanted)(cache)
    ensures Gather(AllOf(wanted), wanted, cache, [], None, now) == Drive(Waiting, cache, [], now)
  {
  }

  lemma {:induction false} FreshAfter(polls: seq<Poll>, cache: Cache, n: nat)
    requires Fresh(polls, cache) && n <= |polls|
    ensures Fresh(polls[n..], CacheAfter(cache, polls[..n]))
    decreases |polls|
  {
    if n > 0 {
      var cache1 := if polls[0].Got? then cache[polls[0].response.requestId := polls[0].response] else cache;
      FreshAfter(polls[1..], cache1, n - 1);
      assert polls[..n][1..] == polls[1..][..n - 1];
      assert polls[1..][n - 1..] == polls[n..];
    }
  }

  /** One turn of an unbounded loop whose condition does not hold yet. */
  lemma GatherTurn(done: Condition, wanted: set<RequestId>, cache: Cache, polls: seq<Poll>, now: real)
    requires !done(cache) && polls != []
    ensures var d := Gather(done, wanted, cache, polls, None, now);
            match polls[0]
            case Failed(e, took) => d == Drive(Raised(e), cache, [None], now + took)
            case Empty(took) => d == Prepend(None, Gather(done, wanted, cache, polls[1..], None, now + took))
            case Got(x, took) => d == Prepend(None, Gather(done, wanted, cache[x.requestId := x], polls[1..], None, now + took))
  {
  }

  /** `d` is the call `f` for `rid`, followed, if that returned, by the call `e`. */
  ghost predicate Sequenced(rid: RequestId, d: Drive<Cache>, f: Drive<PypeResponse>, e: Drive<Cache>) {
    match f.outcome
    case Returned(x) =>
      && d.sent == f.sent + e.sent && d.now == e.now
      && (if e.outcome.Returned?
          then d.outcome == Returned(e.outcome.value[rid := x]) && d.cache == e.cache
          else d.outcome == e.outcome)
    case Raised(error) => d.outcome == Raised(error) && d.sent == f.sent && d.now == f.now
    case Waiting => d.outcome == Waiting && d.sent == f.sent && d.now == f.now
  }

  lemma SequencedTurn(rid: RequestId, d: Drive<Cache>, f: Drive<PypeResponse>, e: Drive<Cache>)
    requires Sequenced(rid, d, f, e)
    ensures Sequenced(rid, Prepend(None, d), Prepend(None, f), e)
  {
  }

  ghost function TheRest(wanted: set<RequestId>, f: Drive<PypeResponse>, polls: seq<Poll>): Drive<Cache>
    requires |f.sent| <= |polls|
  {
    Gather(AllOf(wanted), wanted, f.cache, polls[|f.sent|..], None, f.now)
  }

  /** The first response polled is the one waited for. */
  lemma GotOneThenRest(rid: RequestId, wanted: set<RequestId>, cache: Cache, polls: seq<Poll>, now: real)
    requires rid !in wanted && Fresh(polls, cache)
    requires rid !in cache && polls != [] && polls[0].Got? && polls[0].response.requestId == rid
    ensures var f := Get(rid, cache, polls, None, now);
            && |f.sent| <= |polls|
            && Sequenced(rid, Gather(AllOf(wanted + {rid}), wanted + {rid}, cache, polls, None, now), f, TheRest(wanted, f, polls))
  {
    var x, took := polls[0].response, polls[0].took;
    assert rid in wanted + {rid} && !AllOf(wanted + {rid})(cache);
    GatherTurn(AllOf(wanted + {rid}), wanted + {rid}, cache, polls, now);
    assert cache[rid := x] - {rid} == cache;
    PopCachedFirst(rid, wanted, cache[rid := x], polls[1..], now + took);
  }

  /** The response waited for is cached. */
  lemma CachedThenRest(rid: RequestId, wanted: set<RequestId>, cache: Cache, polls: seq<Poll>, now: real)
    requires rid !in wanted && rid in cache && Fresh(polls, cache)
    ensures var f := Get(rid, cache, polls, None, now);
            && |f.sent| <= |polls|
            && Sequenced(rid, Gather(AllOf(wanted + {rid}), wanted + {rid}, cache, polls, None, now), f, TheRest(wanted, f, polls))
  {
    hide LoopUntil, Gather, Restrict;
    assert polls[0..] == polls;
    PopCachedFirst(rid, wanted, cache, polls, now);
  }

  /** A poll that brings another response, or none, only delays get_response. */
  lemma GetGoesOn(rid: RequestId, cache: Cache, polls: seq<Poll>, now: real)
    requires rid !in cache && polls != [] && !polls[0].Failed? && !(polls[0].Got? && polls[0].response.requestId == rid)
    ensures var cache1 := if polls[0].Got? then cache[polls[0].response.requestId := polls[0].response] else cache;
            Get(rid, cache, polls, None, now) == Prepend(None, Get(rid, cache1, polls[1..], None, now + polls[0].took))
  {
  }

  /** Neither call gets anywhere. */
  lemma NothingThenRest(rid: RequestId, wanted: set<RequestId>, cache: Cache, polls: seq<Poll>, now: real)
    requires rid !in cache && (polls == [] || polls[0].Failed?)
    ensures var f := Get(rid, cache, polls, None, now);
            && |f.sent| <= |polls|
            && Sequenced(rid, Gather(AllOf(wanted + {rid}), wanted + {rid}, cache, polls, None, now), f, TheRest(wanted, f, polls))
  {
    assert rid in wanted + {rid} && !AllOf(wanted + {rid})(cache);
  }

  /** Waiting for one id first, then for the others, is waiting for all of them. */
  lemma {:induction false} GetOneThenRest(rid: RequestId, wanted: set<RequestId>, cache: Cache, polls: seq<Poll>, now: real)
    requires rid !in wanted
    requires Fresh(polls, cache)
    ensures var f := Get(rid, cache, polls, None, now);
            && |f.sent| <= |polls|
            && Sequenced(rid, Gather(AllOf(wanted + {rid}), wanted + {rid}, cache, polls, None, now), f, TheRest(wanted, f, polls))
    decreases |polls|
  {
    hide GetLoop, LoopUntil, Gather, Restrict, Sequenced;
    GetUsesNoMoreThanPolls(rid, cache, polls, None, now);
    if rid in cache {
      CachedThenRest(rid, wanted, cache, polls, now);
    } else if polls == [] || polls[0].Failed? {
      NothingThenRest(rid, wanted, cache, polls, now);
    } else if polls[0].Got? && polls[0].response.requestId == rid {
      GotOneThenRest(rid, wanted, cache, polls, now);
    } else {
      assert rid in wanted + {rid} && !AllOf(wanted + {rid})(cache);
      GatherTurn(AllOf(wanted + {rid}), wanted + {rid}, cache, polls, now);
      GetGoesOn(rid, cache, polls, now);
      var cache1 := if polls[0].Got? then cache[polls[0].response.requestId := polls[0].response] else cache;
      GetOneThenRest(rid, wanted, cache1, polls[1..], now + polls[0].took);
      var f := Get(rid, cache1, polls[1..], None, now + polls[0].took);
      assert polls[1..][|f.sent|..] == polls[1 + |f.sent|..];
      SequencedTurn(rid, Gather(AllOf(wanted + {rid}), wanted + {rid}, cache1, polls[1..], None, now + polls[0].took), f, TheRest(wanted, f, polls[1..]));
    }
  }

  /** get_all_responses equals get_response on each id in turn, in any order of the ids. */
  lemma {:induction false} AllIsGetEach(ids: seq<RequestId>, cache: Cache, polls: seq<Poll>, now: real)
    requires forall i, j :: 0 <= i < j < |ids| ==> ids[i] != ids[j]
    requires Fresh(polls, cache)
    ensures var wanted := set rid | rid in ids;
            SameCall(Gather(AllOf(wanted), wanted, cache, polls, None, now), GetEach(ids, cache, polls, now))
    decreases |ids|
  {
    if ids == [] {
      assert Restrict(cache, {}) == map[];
      assert cache - {} == cache;
    } else {
      var rid, rest := ids[0], set r | r in ids[1..];
      assert (set r | r in ids) == rest + {rid};
      assert rid !in rest;
      GetOneThenRest(rid, rest, cache, polls, now);
      var f := Get(rid, cache, polls, None, now);
      if f.outcome.Returned? {
        GetLosesNothing(rid, cache, polls, None, now);
        FreshAfter(polls, cache, |f.sent|);
        AllIsGetEach(ids[1..], f.cache, polls[|f.sent|..], f.now);
      }
    }
  }

  // ---------------------------------------------------------------- call, and fresh ids

  /** Ids the connection has minted so far. */
  ghost predicate Minted(rid: RequestId, counter: nat) {
    exists n: nat :: 1 <= n <= counter && rid == Decimal(n)
  }

  ghost predicate AllMinted(cache: Cache, counter: nat) {
    forall rid :: rid in cache ==> Minted(rid, counter)
  }

  /** If every response polled so far answers a request this connection sent, the next minted id
      is not in the cache. */
  lemma NextIdIsFresh(cache: Cache, counter: nat)
    requires AllMinted(cache, counter)
    ensures Decimal(counter + 1) !in cache
  {
    var rid := Decimal(counter + 1);
    if rid in cache {
      var n: nat :| 1 <= n <= counter && rid == Decimal(n);
      DecimalIsInjective(n, counter + 1);
    }
  }

  lemma {:induction false} PollsKeepMinted(cache: Cache, polls: seq<Poll>, counter: nat)
    requires AllMinted(cache, counter)
    requires forall p :: p in polls && p.Got? ==> Minted(p.response.requestId, counter)
    ensures AllMinted(CacheAfter(cache, polls), counter)
    decreases |polls|
  {
    if polls != [] {
      assert polls[0] in polls;
      PollsKeepMinted(if polls[0].Got? then cache[polls[0].response.requestId := polls[0].response] else cache, polls[1..], counter);
    }
  }

  /** What the server answers to the polls of a client whose POST took `sendTook`, in the order in
      which it would have answered the POST of call with `reply`, and then `polls`. */
  function AsPolls(reply: PostReply, sendTook: real, polls: seq<Poll>): seq<Poll>
    requires reply.Answered? || reply.Accepted?
  {
    match reply
    case Answered(x, took) => [Got(x, took - sendTook)] + polls
    case Accepted(took) => [Empty(took - sendTook)] + polls
  }

  /** With timeout None, call is send_request followed by get_response in one round trip fewer. For a
      connection whose cache answers only requests it has sent, and over the same order of
      responses, both return the same response for the id minted next, leave the same cache and end
      at the same time, and call sends one poll less. */
  lemma CallIsSendThenGet(counter: nat, cache: Cache, reply: PostReply, sendTook: real, polls: seq<Poll>, now: real)
    requires AllMinted(cache, counter)
    requires reply.Answered? || reply.Accepted?
    ensures var rid := Decimal(counter + 1);
            var c := Call(rid, cache, reply, polls, None, now);
            var g := SendThenGet(rid, cache, Accepted(sendTook), AsPolls(reply, sendTook, polls), None, now);
            c.outcome == g.outcome && c.cache == g.cache && c.now == g.now && [None] + c.sent == g.sent
  {
    NextIdIsFresh(cache, counter);
    assert AsPolls(reply, sendTook, polls)[1..] == polls;
  }

  // ---------------------------------------------------------------- time

  /** The server kept every timeout it was sent. */
  ghost predicate Prompt(polls: seq<Poll>, sent: seq<Option<int>>) {
    && |sent| <= |polls|
    && forall i :: 0 <= i < |sent| ==> polls[i].took >= 0.0 && (sent[i].Some? ==> polls[i].took <= sent[i].value as real)
  }

  ghost predicate WithinBudget(sent: seq<Option<int>>, budget: real) {
    forall i :: 0 <= i < |sent| ==> sent[i].Some? && 0 <= sent[i].value && sent[i].value as real <= budget
  }

  lemma PromptTail(polls: seq<Poll>, left: Option<int>, sent: seq<Option<int>>)
    requires Prompt(polls, [left] + sent)
    ensures Prompt(polls[1..], sent) && polls[0].took >= 0.0 && (left.Some? ==> polls[0].took <= left.value as real)
  {
  }

  /** A collect call that starts by its deadline never waits past it, and every timeout it sends
      lies between zero and the budget it started with. */
  lemma {:induction false} LoopKeepsDeadline(done: Condition, cache: Cache, polls: seq<Poll>, deadline: real, now: real)
    requires now <= deadline
    requires Prompt(polls, LoopUntil(done, cache, polls, Some(deadline), now).sent)
    ensures var d := LoopUntil(done, cache, polls, Some(deadline), now);
            now <= d.now <= deadline && WithinBudget(d.sent, deadline - now)
    decreases |polls|
  {
    var d := LoopUntil(done, cache, polls, Some(deadline), now);
    if d.sent != [] {
      var left := Remaining(Some(deadline), now);
      PollMayStartIffOverdueByLessThanOneMs(deadline, now);
      assert d.sent == [left] + d.sent[1..];
      PromptTail(polls, left, d.sent[1..]);
      if polls[0].Got? {
        var cache1 := cache[polls[0].response.requestId := polls[0].response];
        var rest := LoopUntil(done, cache1, polls[1..], Some(deadline), now + polls[0].took);
        assert d.sent[1..] == rest.sent;
        LoopKeepsDeadline(done, cache1, polls[1..], deadline, now + polls[0].took);
      }
    }
  }

  lemma {:induction false} GetLoopKeepsDeadline(rid: RequestId, cache: Cache, polls: seq<Poll>, deadline: real, now: real)
    requires now <= deadline
    requires Prompt(polls, GetLoop(rid, cache, polls, Some(deadline), now).sent)
    ensures var d := GetLoop(rid, cache, polls, Some(deadline), now);
            now <= d.now <= deadline && WithinBudget(d.sent, deadline - now)
    decreases |polls|
  {
    var d := GetLoop(rid, cache, polls, Some(deadline), now);
    if d.sent != [] {
      var left := Remaining(Some(deadline), now);
      PollMayStartIffOverdueByLessThanOneMs(deadline, now);
      assert d.sent == [left] + d.sent[1..];
      PromptTail(polls, left, d.sent[1..]);
      if polls[0].Got? && polls[0].response.requestId != rid {
        var cache1 := cache[polls[0].response.requestId := polls[0].response];
        var rest := GetLoop(rid, cache1, polls[1..], Some(deadline), now + polls[0].took);
        assert d.sent[1..] == rest.sent;
        GetLoopKeepsDeadline(rid, cache1, polls[1..], deadline, now + polls[0].took);
      }
    }
  }

  /** The POST of call and every poll of its fallback together take no longer than the caller's timeout. */
  lemma CallKeepsTimeout(rid: RequestId, cache: Cache, reply: PostReply, polls: seq<Poll>, timeout: nat, now: real)
    requires 0.0 <= reply.took <= PostTimeout(Some(timeout), now).value as real
    requires Prompt(polls, Call(rid, cache, reply, polls, Some(timeout), now).sent)
    ensures PostTimeout(Some(timeout), now) == Some(timeout)
    ensures var d := Call(rid, cache, reply, polls, Some(timeout), now);
            now <= d.now <= now + timeout as real && WithinBudget(d.sent, timeout as real)
  {
    assert (now + timeout as real) - now == timeout as real;
    var deadline, after := now + timeout as real, now + reply.took;
    PollMayStartIffOverdueByLessThanOneMs(deadline, after);
    var n := Remaining(Some(deadline), after).value;
    var cache1 := if reply.Answered? then cache[reply.response.requestId := reply.response] else cache;
    if (reply.Accepted? || (reply.Answered? && reply.response.requestId != rid)) && rid !in cache1 {
      GetLoopKeepsDeadline(rid, cache1, polls, after + n as real, after);
    }
  }

  /** With a finite timeout, and once the server's queue is empty after the responses it holds,
      a collect call makes at most one poll more than there are responses. */
  lemma {:induction false} BacklogBound(done: Condition, cache: Cache, polls: seq<Poll>, deadline: real, now: real, backlog: nat)
    requires backlog < |polls| && polls[backlog].Empty?
    ensures var d := LoopUntil(done, cache, polls, Some(deadline), now);
            |d.sent| <= backlog + 1 && !d.outcome.Waiting?
    decreases |polls|
  {
    if polls[0].Got? {
      BacklogBound(done, cache[polls[0].response.requestId := polls[0].response], polls[1..], deadline, now + polls[0].took, backlog - 1);
    }
  }

  lemma {:induction false} GetBacklogBound(rid: RequestId, cache: Cache, polls: seq<Poll>, deadline: real, now: real, backlog: nat)
    requires backlog < |polls| && polls[backlog].Empty?
    ensures var d := GetLoop(rid, cache, polls, Some(deadline), now);
            |d.sent| <= backlog + 1 && !d.outcome.Waiting?
    decreases |polls|
  {
    if polls[0].Got? && polls[0].response.requestId != rid {
      GetBacklogBound(rid, cache[polls[0].response.requestId := polls[0].response], polls[1..], deadline, now + polls[0].took, backlog - 1);
    }
  }
}
