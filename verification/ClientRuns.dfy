/** The operations of a client connection as runs of the protocol: what a call returns and what it
    leaves in the cache are what the protocol's steps of that client return and cache. */
module ClientRuns {
  import opened Messages
  import opened Deadlines
  import opened Collect
  import opened CollectTheorems
  import opened Protocol
  import opened Frames
  import opened Conservation
  import opened ConservationTheorems

  // ---------------------------------------------------------------- a client's part of a run

  /** A response arrives and goes to the caller or to the cache, or the caller takes a cached one. */
  datatype ClientEvent = Arrived(response: PypeResponse, toCaller: bool) | Popped(requestId: RequestId)

  ghost function IdsOf(tokens: set<Token>, c: ClientId): set<RequestId> {
    set t | t in tokens && t.client == c :: t.requestId
  }

  /** What client `c` has cached. */
  ghost function CacheOf(s: State, c: ClientId): Cache {
    Part(s.caches, c)
  }

  ghost function Part(caches: map<Token, PypeResponse>, c: ClientId): Cache {
    map rid | rid in IdsOf(caches.Keys, c) && Token(c, rid) in caches :: caches[Token(c, rid)]
  }

  /** The ids of the responses that calls of client `c` have returned. */
  ghost function ReturnedOf(s: State, c: ClientId): set<RequestId> {
    IdsOf(s.returned, c)
  }

  ghost function EventOf(s: State, step: Step, c: ClientId): seq<ClientEvent> {
    if step.CollectResponse? && step.h in s.replies && s.replies[step.h].Response? && s.replies[step.h].client == c
    then [Arrived(s.replies[step.h].response, step.toCaller)]
    else if step.PopCached? && step.token.client == c then [Popped(step.token.requestId)]
    else []
  }

  /** What a run is for client `c`, whatever happens around it. */
  ghost function Trace(cfg: Config, s: State, steps: seq<Step>, c: ClientId): seq<ClientEvent>
    requires cfg.Valid() && Inv(cfg, s) && Legal(cfg, s, steps)
    decreases |steps|
  {
    if steps == [] then []
    else
      StepKeepsInv(cfg, s, steps[0]);
      EventOf(s, steps[0], c) + Trace(cfg, Apply(cfg, s, steps[0]), steps[1..], c)
  }

  /** A client as it sees itself: its cache, and what it has returned. */
  datatype View = View(cache: Cache, returned: set<RequestId>)

  ghost function ViewOf(s: State, c: ClientId): View {
    View(CacheOf(s, c), ReturnedOf(s, c))
  }

  function After(v: View, e: ClientEvent): View {
    match e
    case Arrived(x, true) => View(v.cache, v.returned + {x.requestId})
    case Arrived(x, false) => View(v.cache[x.requestId := x], v.returned)
    case Popped(rid) => View(v.cache - {rid}, v.returned + {rid})
  }

  function Replay(v: View, events: seq<ClientEvent>): View
    decreases |events|
  {
    if events == [] then v else Replay(After(v, events[0]), events[1..])
  }

  lemma OneMoreId(tokens: set<Token>, t: Token, c: ClientId)
    ensures IdsOf(tokens + {t}, c) == if t.client == c then IdsOf(tokens, c) + {t.requestId} else IdsOf(tokens, c)
  {
  }

  lemma InPart(caches: map<Token, PypeResponse>, c: ClientId, rid: RequestId)
    ensures rid in Part(caches, c) <==> Token(c, rid) in caches
    ensures rid in Part(caches, c) ==> Part(caches, c)[rid] == caches[Token(c, rid)]
  {
    if Token(c, rid) in caches {
      assert Token(c, rid).client == c && Token(c, rid) in caches.Keys;
    }
  }

  lemma OneMoreCached(caches: map<Token, PypeResponse>, t: Token, x: PypeResponse, c: ClientId)
    ensures Part(caches[t := x], c) == if t.client == c then Part(caches, c)[t.requestId := x] else Part(caches, c)
  {
    hide Part;
    var a, b := Part(caches[t := x], c), if t.client == c then Part(caches, c)[t.requestId := x] else Part(caches, c);
    forall rid
      ensures rid in a <==> rid in b
      ensures rid in a ==> a[rid] == b[rid]
    {
      InPart(caches, c, rid);
      InPart(caches[t := x], c, rid);
    }
  }

  lemma OneLessCached(caches: map<Token, PypeResponse>, t: Token, c: ClientId)
    ensures Part(caches - {t}, c) == if t.client == c then Part(caches, c) - {t.requestId} else Part(caches, c)
  {
    hide Part;
    var a, b := Part(caches - {t}, c), if t.client == c then Part(caches, c) - {t.requestId} else Part(caches, c);
    forall rid
      ensures rid in a <==> rid in b
      ensures rid in a ==> a[rid] == b[rid]
    {
      InPart(caches, c, rid);
      InPart(caches - {t}, c, rid);
    }
  }

  lemma ReplayOne(v: View, e: ClientEvent)
    ensures Replay(v, [e]) == After(v, e)
  {
    assert [e][1..] == [];
  }

  lemma CollectIsArrival(s: State, h: nat, toCaller: bool, c: ClientId)
    requires h in s.replies && s.replies[h].Response?
    ensures ViewOf(DoCollectResponse(s, h, toCaller), c) == Replay(ViewOf(s, c), EventOf(s, CollectResponse(h, toCaller), c))
  {
    hide Replay, IdsOf, Part;
    var x, token := s.replies[h].response, Token(s.replies[h].client, s.replies[h].response.requestId);
    OneMoreId(s.returned, token, c);
    OneMoreCached(s.caches, token, x, c);
    ReplayOne(ViewOf(s, c), Arrived(x, toCaller));
    ReplayNone(ViewOf(s, c));
  }

  lemma ReplayNone(v: View)
    ensures Replay(v, []) == v
  {
  }

  lemma PopIsPop(s: State, token: Token, c: ClientId)
    requires token in s.caches
    ensures ViewOf(DoPopCached(s, token), c) == Replay(ViewOf(s, c), EventOf(s, PopCached(token), c))
  {
    hide Replay, IdsOf, Part;
    OneMoreId(s.returned, token, c);
    OneLessCached(s.caches, token, c);
    ReplayOne(ViewOf(s, c), Popped(token.requestId));
    ReplayNone(ViewOf(s, c));
  }

  lemma ClientSteps(cfg: Config, s: State, step: Step)
    requires cfg.Valid() && Inv(cfg, s) && Enabled(cfg, s, step)
    ensures step.CollectResponse? ==>
              step.h in s.replies && s.replies[step.h].Response? && Apply(cfg, s, step) == DoCollectResponse(s, step.h, step.toCaller)
    ensures step.PopCached? ==> step.token in s.caches && Apply(cfg, s, step) == DoPopCached(s, step.token)
  {
    hide Inv, DoCollectResponse, DoPopCached, MayGiveUp, MayAdvance;
  }

  lemma StepIsEvent(cfg: Config, s: State, step: Step, c: ClientId)
    requires cfg.Valid() && Inv(cfg, s) && Enabled(cfg, s, step)
    ensures ViewOf(Apply(cfg, s, step), c) == Replay(ViewOf(s, c), EventOf(s, step, c))
  {
    hide Inv, Enabled, Apply, After, DoCollectResponse, DoPopCached;
    ClientSteps(cfg, s, step);
    if step.CollectResponse? {
      CollectIsArrival(s, step.h, step.toCaller, c);
    } else if step.PopCached? {
      PopIsPop(s, step.token, c);
    } else {
      StepClock(cfg, s, step);
    }
  }

  lemma {:induction false} ReplayInTwo(v: View, a: seq<ClientEvent>, b: seq<ClientEvent>)
    ensures Replay(v, a + b) == Replay(Replay(v, a), b)
    decreases |a|
  {
    if a == [] {
      assert [] + b == b;
    } else {
      assert (a + b)[0] == a[0] && (a + b)[1..] == a[1..] + b;
      ReplayInTwo(After(v, a[0]), a[1..], b);
    }
  }

  /** A run does to a client exactly what the client's own events do. */
  lemma {:induction false} RunIsReplay(cfg: Config, s: State, steps: seq<Step>, c: ClientId)
    requires cfg.Valid() && Inv(cfg, s) && Legal(cfg, s, steps)
    ensures ViewOf(Exec(cfg, s, steps), c) == Replay(ViewOf(s, c), Trace(cfg, s, steps, c))
    decreases |steps|
  {
    hide Inv, Enabled, Apply, ViewOf, EventOf, After;
    if steps != [] {
      var s1 := Apply(cfg, s, steps[0]);
      StepKeepsInv(cfg, s, steps[0]);
      StepIsEvent(cfg, s, steps[0], c);
      RunIsReplay(cfg, s1, steps[1..], c);
      ReplayInTwo(ViewOf(s, c), EventOf(s, steps[0], c), Trace(cfg, s1, steps[1..], c));
    }
  }

  // ---------------------------------------------------------------- the events of each operation

  /** The polled responses, each handed to the caller exactly if it is the one waited for. */
  function Arrivals(polls: seq<Poll>, waitedFor: Option<RequestId>): seq<ClientEvent>
    decreases |polls|
  {
    if polls == [] then []
    else if polls[0].Got?
    then [Arrived(polls[0].response, waitedFor == Some(polls[0].response.requestId))] + Arrivals(polls[1..], waitedFor)
    else Arrivals(polls[1..], waitedFor)
  }

  function Pops(ids: seq<RequestId>): seq<ClientEvent>
    decreases |ids|
  {
    if ids == [] then [] else [Popped(ids[0])] + Pops(ids[1..])
  }

  /** get_response: a cached response is popped, otherwise `n` polls are answered. */
  function GetEvents(rid: RequestId, cache: Cache, polls: seq<Poll>, n: nat): seq<ClientEvent>
    requires n <= |polls|
  {
    if rid in cache then [Popped(rid)] else Arrivals(polls[..n], Some(rid))
  }

  /** The collect calls: every answer goes to the cache; when the loop returns, the wanted ids that
      are cached, `ids`, are popped. */
  function GatherEvents(polls: seq<Poll>, n: nat, ids: seq<RequestId>): seq<ClientEvent>
    requires n <= |polls|
  {
    Arrivals(polls[..n], None) + Pops(ids)
  }

  /** call: the answer to the POST first, if it brings one, then those of get_response. */
  function CallEvents(rid: RequestId, cache: Cache, reply: PostReply, polls: seq<Poll>, timeout: Option<int>, now: real): seq<ClientEvent> {
    var deadline := DeadlineAfter(timeout, now);
    match reply
    case QueueFull(_) => []
    case PostFailed(_, _) => []
    case Answered(x, took) =>
      [Arrived(x, x.requestId == rid)]
      + if x.requestId == rid then [] else FallbackEvents(rid, cache[x.requestId := x], polls, deadline, now + took)
    case Accepted(took) => FallbackEvents(rid, cache, polls, deadline, now + took)
  }

  function FallbackEvents(rid: RequestId, cache: Cache, polls: seq<Poll>, deadline: Option<real>, now: real): seq<ClientEvent> {
    var left := Remaining(deadline, now);
    if left.Some? && left.value < 0 then []
    else
      GetUsesNoMoreThanPolls(rid, cache, polls, left, now);
      GetEvents(rid, cache, polls, |Get(rid, cache, polls, left, now).sent|)
  }

  /** The client after the call `d`, which returns the responses with the ids `got` if it returns. */
  ghost predicate Leaves<T>(v: View, d: Drive<T>, got: set<RequestId>, w: View) {
    w == View(d.cache, if d.outcome.Returned? then v.returned + got else v.returned)
  }

  // ---------------------------------------------------------------- their replay is the call

  lemma {:induction false} GetLoopReplayed(rid: RequestId, v: View, polls: seq<Poll>, deadline: Option<real>, now: real)
    ensures var d := GetLoop(rid, v.cache, polls, deadline, now);
            |d.sent| <= |polls| && Leaves(v, d, {rid}, Replay(v, Arrivals(polls[..|d.sent|], Some(rid))))
    decreases |polls|
  {
    var d := GetLoop(rid, v.cache, polls, deadline, now);
    GetLoopUsesNoMoreThanPolls(rid, v.cache, polls, deadline, now);
    if d.sent != [] {
      assert polls[..|d.sent|][1..] == polls[1..][..|d.sent| - 1];
      if polls[0].Got? && polls[0].response.requestId != rid {
        var x := polls[0].response;
        GetLoopReplayed(rid, View(v.cache[x.requestId := x], v.returned), polls[1..], deadline, now + polls[0].took);
      } else if polls[0].Empty? && deadline.None? {
        GetLoopReplayed(rid, v, polls[1..], deadline, now + polls[0].took);
      }
    }
  }

  lemma GetReplayed(rid: RequestId, v: View, polls: seq<Poll>, timeout: Option<int>, now: real)
    ensures var d := Get(rid, v.cache, polls, timeout, now);
            |d.sent| <= |polls| && Leaves(v, d, {rid}, Replay(v, GetEvents(rid, v.cache, polls, |d.sent|)))
  {
    if rid in v.cache {
      assert [Popped(rid)][1..] == [];
    } else {
      GetLoopReplayed(rid, v, polls, DeadlineAfter(timeout, now), now);
    }
  }

  lemma {:induction false} ArrivalsAreCached(v: View, polls: seq<Poll>)
    ensures Replay(v, Arrivals(polls, None)) == View(CacheAfter(v.cache, polls), v.returned)
    decreases |polls|
  {
    if polls != [] {
      if polls[0].Got? {
        var x := polls[0].response;
        ArrivalsAreCached(View(v.cache[x.requestId := x], v.returned), polls[1..]);
        assert Arrivals(polls, None)[1..] == Arrivals(polls[1..], None);
      } else {
        ArrivalsAreCached(v, polls[1..]);
      }
    }
  }

  lemma {:induction false} PopsReplayed(v: View, ids: seq<RequestId>)
    ensures Replay(v, Pops(ids)) == View(v.cache - (set rid | rid in ids), v.returned + (set rid | rid in ids))
    decreases |ids|
  {
    if ids == [] {
      assert v.cache - {} == v.cache;
    } else {
      var rest := set rid | rid in ids[1..];
      assert (set rid | rid in ids) == {ids[0]} + rest;
      PopsReplayed(After(v, Popped(ids[0])), ids[1..]);
      assert v.cache - {ids[0]} - rest == v.cache - ({ids[0]} + rest);
    }
  }

  /** `ids` lists what a collect call pops: nothing, unless its loop has returned. */
  ghost predicate ListsPopped(ids: seq<RequestId>, wanted: set<RequestId>, looped: Drive<()>) {
    (set rid | rid in ids) == if looped.outcome.Returned? then wanted * looped.cache.Keys else {}
  }

  lemma GatherReplayed(done: Condition, wanted: set<RequestId>, v: View, polls: seq<Poll>, deadline: Option<real>, now: real, ids: seq<RequestId>)
    requires ListsPopped(ids, wanted, LoopUntil(done, v.cache, polls, deadline, now))
    ensures var d := Gather(done, wanted, v.cache, polls, deadline, now);
            && |d.sent| <= |polls|
            && Leaves(v, d, if d.outcome.Returned? then d.outcome.value.Keys else {}, Replay(v, GatherEvents(polls, |d.sent|, ids)))
  {
    hide LoopUntil, CacheAfter, Replay, Arrivals, Pops, Gather;
    var looped := LoopUntil(done, v.cache, polls, deadline, now);
    ShortestPrefix(done, v.cache, polls, deadline, now);
    GatherShape(done, wanted, v.cache, polls, deadline, now);
    var used := polls[..|looped.sent|];
    ArrivalsAreCached(v, used);
    ReplayInTwo(v, Arrivals(used, None), Pops(ids));
    PopsReplayed(View(looped.cache, v.returned), ids);
    NothingTaken(View(looped.cache, v.returned));
  }

  lemma NothingTaken(v: View)
    ensures View(v.cache - {}, v.returned + {}) == v
  {
    assert v.cache - {} == v.cache;
  }

  lemma GatherShape(done: Condition, wanted: set<RequestId>, cache: Cache, polls: seq<Poll>, deadline: Option<real>, now: real)
    ensures var d, looped := Gather(done, wanted, cache, polls, deadline, now), LoopUntil(done, cache, polls, deadline, now);
            && d.sent == looped.sent && d.outcome.Returned? == looped.outcome.Returned?
            && if d.outcome.Returned?
               then d.outcome.value.Keys == wanted * looped.cache.Keys && d.cache == looped.cache - (wanted * looped.cache.Keys)
               else d.cache == looped.cache
  {
    hide LoopUntil;
    var looped := LoopUntil(done, cache, polls, deadline, now);
    RestrictKeys(looped.cache, wanted);
    assert looped.cache - wanted == looped.cache - (wanted * looped.cache.Keys);
  }

  lemma FallbackReplayed(rid: RequestId, v: View, polls: seq<Poll>, deadline: Option<real>, now: real)
    ensures Leaves(v, Fallback(rid, v.cache, polls, deadline, now), {rid}, Replay(v, FallbackEvents(rid, v.cache, polls, deadline, now)))
  {
    var left := Remaining(deadline, now);
    GetReplayed(rid, v, polls, left, now);
  }

  /** The POST brought a response to another request. */
  lemma MismatchReplayed(rid: RequestId, v: View, x: PypeResponse, polls: seq<Poll>, deadline: Option<real>, now: real)
    ensures var cache := v.cache[x.requestId := x];
            Leaves(v, Fallback(rid, cache, polls, deadline, now), {rid},
                   Replay(v, [Arrived(x, false)] + FallbackEvents(rid, cache, polls, deadline, now)))
  {
    hide Fallback, FallbackEvents, Replay;
    var v1 := View(v.cache[x.requestId := x], v.returned);
    ReplayInTwo(v, [Arrived(x, false)], FallbackEvents(rid, v1.cache, polls, deadline, now));
    ReplayOne(v, Arrived(x, false));
    FallbackReplayed(rid, v1, polls, deadline, now);
  }

  lemma CallReplayed(rid: RequestId, v: View, reply: PostReply, polls: seq<Poll>, timeout: Option<int>, now: real)
    ensures Leaves(v, Call(rid, v.cache, reply, polls, timeout, now), {rid},
                   Replay(v, CallEvents(rid, v.cache, reply, polls, timeout, now)))
  {
    hide Fallback, FallbackEvents, Replay;
    var deadline := DeadlineAfter(timeout, now);
    ReplayNone(v);
    match reply
    case QueueFull(_) =>
    case PostFailed(_, _) =>
    case Accepted(took) => FallbackReplayed(rid, v, polls, deadline, now + took);
    case Answered(x, took) =>
      ReplayOne(v, Arrived(x, true));
      assert [Arrived(x, true)] + [] == [Arrived(x, true)];
      MismatchReplayed(rid, v, x, polls, deadline, now + took);
  }

  // ---------------------------------------------------------------- in every run

  /** In every run in which client `c` does what get_response does, whatever happens around it, the
      cache it leaves and what is returned to the caller are those of the call. */
  lemma GetIsARun(cfg: Config, s: State, steps: seq<Step>, c: ClientId, rid: RequestId, polls: seq<Poll>, timeout: Option<int>, now: real)
    requires cfg.Valid() && Inv(cfg, s) && Legal(cfg, s, steps)
    requires var d := Get(rid, CacheOf(s, c), polls, timeout, now);
             |d.sent| <= |polls| && Trace(cfg, s, steps, c) == GetEvents(rid, CacheOf(s, c), polls, |d.sent|)
    ensures Leaves(ViewOf(s, c), Get(rid, CacheOf(s, c), polls, timeout, now), {rid}, ViewOf(Exec(cfg, s, steps), c))
  {
    hide Inv, Legal, Exec, Trace, Get, CacheOf, ReturnedOf, GetEvents, Replay;
    RunIsReplay(cfg, s, steps, c);
    GetReplayed(rid, ViewOf(s, c), polls, timeout, now);
  }

  /** The same for the any-, all- and quorum-calls. */
  lemma GatherIsARun(cfg: Config, s: State, steps: seq<Step>, c: ClientId, done: Condition, wanted: set<RequestId>,
                     polls: seq<Poll>, deadline: Option<real>, now: real, ids: seq<RequestId>)
    requires cfg.Valid() && Inv(cfg, s) && Legal(cfg, s, steps)
    requires ListsPopped(ids, wanted, LoopUntil(done, CacheOf(s, c), polls, deadline, now))
    requires var d := Gather(done, wanted, CacheOf(s, c), polls, deadline, now);
             |d.sent| <= |polls| && Trace(cfg, s, steps, c) == GatherEvents(polls, |d.sent|, ids)
    ensures var d := Gather(done, wanted, CacheOf(s, c), polls, deadline, now);
            Leaves(ViewOf(s, c), d, if d.outcome.Returned? then d.outcome.value.Keys else {}, ViewOf(Exec(cfg, s, steps), c))
  {
    hide Inv, Legal, Exec, Trace, Gather, LoopUntil, CacheOf, ReturnedOf, GatherEvents, Replay, ListsPopped;
    RunIsReplay(cfg, s, steps, c);
    GatherReplayed(done, wanted, ViewOf(s, c), polls, deadline, now, ids);
  }

  /** The same for call, whose POST may bring a response itself. */
  lemma CallIsARun(cfg: Config, s: State, steps: seq<Step>, c: ClientId, rid: RequestId, reply: PostReply, polls: seq<Poll>,
                   timeout: Option<int>, now: real)
    requires cfg.Valid() && Inv(cfg, s) && Legal(cfg, s, steps)
    requires Trace(cfg, s, steps, c) == CallEvents(rid, CacheOf(s, c), reply, polls, timeout, now)
    ensures Leaves(ViewOf(s, c), Call(rid, CacheOf(s, c), reply, polls, timeout, now), {rid}, ViewOf(Exec(cfg, s, steps), c))
  {
    hide Inv, Legal, Exec, Trace, Call, CacheOf, ReturnedOf, CallEvents, Replay;
    RunIsReplay(cfg, s, steps, c);
    CallReplayed(rid, ViewOf(s, c), reply, polls, timeout, now);
  }

  // ---------------------------------------------------------------- and there is such a run

  /** The responses that the events bring are on the wire to `c`, as the replies of handlers `hs`. */
  ghost predicate OnTheWire(replies: map<nat, Reply>, c: ClientId, events: seq<ClientEvent>, hs: seq<nat>)
    decreases |events|
  {
    events == [] ||
    match events[0]
    case Arrived(x, _) =>
      hs != [] && hs[0] in replies && replies[hs[0]] == Response(c, x) && OnTheWire(replies - {hs[0]}, c, events[1..], hs[1..])
    case Popped(_) => OnTheWire(replies, c, events[1..], hs)
  }

  /** Every pop finds its response cached. */
  ghost predicate Poppable(v: View, events: seq<ClientEvent>)
    decreases |events|
  {
    events == [] || ((events[0].Popped? ==> events[0].requestId in v.cache) && Poppable(After(v, events[0]), events[1..]))
  }

  ghost function StepOf(e: ClientEvent, c: ClientId, hs: seq<nat>): Step
    requires e.Arrived? ==> hs != []
  {
    match e
    case Arrived(_, toCaller) => CollectResponse(hs[0], toCaller)
    case Popped(rid) => PopCached(Token(c, rid))
  }

  lemma EventIsAStep(cfg: Config, s: State, c: ClientId, e: ClientEvent, hs: seq<nat>)
    requires cfg.Valid() && Inv(cfg, s) && s.hot == None
    requires e.Arrived? ==> hs != [] && hs[0] in s.replies && s.replies[hs[0]] == Response(c, e.response)
    requires e.Popped? ==> e.requestId in CacheOf(s, c)
    ensures var step := StepOf(e, c, hs);
            && Enabled(cfg, s, step) && EventOf(s, step, c) == [e]
            && var t := Apply(cfg, s, step);
               && t.hot == None && t.replies == (if e.Arrived? then s.replies - {hs[0]} else s.replies)
  {
    hide Inv, Part;
    if e.Popped? {
      InPart(s.caches, c, e.requestId);
    }
  }

  /** Whatever a client does with the responses on the wire to it and in its cache is a run. */
  lemma {:induction false} EventsAreARun(cfg: Config, s: State, c: ClientId, events: seq<ClientEvent>, hs: seq<nat>) returns (steps: seq<Step>)
    requires cfg.Valid() && Inv(cfg, s) && s.hot == None
    requires OnTheWire(s.replies, c, events, hs) && Poppable(ViewOf(s, c), events)
    ensures Legal(cfg, s, steps) && Trace(cfg, s, steps, c) == events && HonestRun(cfg, s, steps)
    decreases |events|
  {
    hide Inv, Enabled, Apply, EventOf, CacheOf, ReturnedOf, After;
    steps := [];
    if events != [] {
      var step := StepOf(events[0], c, hs);
      EventIsAStep(cfg, s, c, events[0], hs);
      StepKeepsInv(cfg, s, step);
      StepIsEvent(cfg, s, step, c);
      ReplayOne(ViewOf(s, c), events[0]);
      var rest := EventsAreARun(cfg, Apply(cfg, s, step), c, events[1..], if events[0].Arrived? then hs[1..] else hs);
      steps := [step] + rest;
      assert steps[0] == step && steps[1..] == rest;
      assert [events[0]] + events[1..] == events;
    }
  }

  lemma {:induction false} ArrivalsPop(v: View, polls: seq<Poll>, waitedFor: Option<RequestId>)
    ensures Poppable(v, Arrivals(polls, waitedFor))
    decreases |polls|
  {
    if polls != [] {
      if polls[0].Got? {
        var e := Arrived(polls[0].response, waitedFor == Some(polls[0].response.requestId));
        assert Arrivals(polls, waitedFor)[1..] == Arrivals(polls[1..], waitedFor);
        ArrivalsPop(After(v, e), polls[1..], waitedFor);
      } else {
        ArrivalsPop(v, polls[1..], waitedFor);
      }
    }
  }

  lemma {:induction false} PopsPop(v: View, ids: seq<RequestId>)
    requires forall i, j :: 0 <= i < j < |ids| ==> ids[i] != ids[j]
    requires forall i :: 0 <= i < |ids| ==> ids[i] in v.cache
    ensures Poppable(v, Pops(ids))
    decreases |ids|
  {
    if ids != [] {
      assert Pops(ids)[1..] == Pops(ids[1..]);
      PopsPop(After(v, Popped(ids[0])), ids[1..]);
    }
  }

  lemma {:induction false} PopInTwo(v: View, a: seq<ClientEvent>, b: seq<ClientEvent>)
    requires Poppable(v, a) && Poppable(Replay(v, a), b)
    ensures Poppable(v, a + b)
    decreases |a|
  {
    if a == [] {
      assert [] + b == b;
    } else {
      assert (a + b)[0] == a[0] && (a + b)[1..] == a[1..] + b;
      PopInTwo(After(v, a[0]), a[1..], b);
    }
  }

  lemma GetPops(rid: RequestId, v: View, polls: seq<Poll>, n: nat)
    requires n <= |polls|
    ensures Poppable(v, GetEvents(rid, v.cache, polls, n))
  {
    if rid in v.cache {
      assert [Popped(rid)][1..] == [];
    } else {
      ArrivalsPop(v, polls[..n], Some(rid));
    }
  }

  lemma GatherPops(done: Condition, wanted: set<RequestId>, v: View, polls: seq<Poll>, deadline: Option<real>, now: real, ids: seq<RequestId>)
    requires forall i, j :: 0 <= i < j < |ids| ==> ids[i] != ids[j]
    requires ListsPopped(ids, wanted, LoopUntil(done, v.cache, polls, deadline, now))
    ensures var d := LoopUntil(done, v.cache, polls, deadline, now);
            |d.sent| <= |polls| && Poppable(v, GatherEvents(polls, |d.sent|, ids))
  {
    hide LoopUntil, CacheAfter, Replay, Arrivals, Pops, Poppable;
    var looped := LoopUntil(done, v.cache, polls, deadline, now);
    ShortestPrefix(done, v.cache, polls, deadline, now);
    var used := polls[..|looped.sent|];
    var w := View(looped.cache, v.returned);
    ArrivalsAreCached(v, used);
    ArrivalsPop(v, used, None);
    forall i | 0 <= i < |ids|
      ensures ids[i] in w.cache
    {
      var listed := set rid | rid in ids;
      assert ids[i] in listed;
      assert listed <= looped.cache.Keys;
    }
    PopsPop(w, ids);
    PopInTwo(v, Arrivals(used, None), Pops(ids));
  }

  lemma FallbackPops(rid: RequestId, v: View, polls: seq<Poll>, deadline: Option<real>, now: real)
    ensures Poppable(v, FallbackEvents(rid, v.cache, polls, deadline, now))
  {
    hide GetEvents;
    var left := Remaining(deadline, now);
    GetUsesNoMoreThanPolls(rid, v.cache, polls, left, now);
    GetPops(rid, v, polls, |Get(rid, v.cache, polls, left, now).sent|);
  }

  lemma CallPops(rid: RequestId, v: View, reply: PostReply, polls: seq<Poll>, timeout: Option<int>, now: real)
    ensures Poppable(v, CallEvents(rid, v.cache, reply, polls, timeout, now))
  {
    hide FallbackEvents;
    var deadline := DeadlineAfter(timeout, now);
    match reply
    case QueueFull(_) =>
    case PostFailed(_, _) =>
    case Accepted(took) => FallbackPops(rid, v, polls, deadline, now + took);
    case Answered(x, took) =>
      var first := Arrived(x, x.requestId == rid);
      if x.requestId == rid {
        assert [first] + [] == [first] && [first][1..] == [];
      } else {
        var rest := FallbackEvents(rid, v.cache[x.requestId := x], polls, deadline, now + took);
        FallbackPops(rid, After(v, first), polls, deadline, now + took);
        assert ([first] + rest)[1..] == rest;
      }
  }

  /** get_response on the responses on the wire to `c` is a run of the protocol, and an honest one,
      in which each response goes to the caller exactly if it is the one waited for. */
  lemma GetHasARun(cfg: Config, s: State, c: ClientId, rid: RequestId, polls: seq<Poll>, timeout: Option<int>, now: real, hs: seq<nat>)
    returns (steps: seq<Step>)
    requires cfg.Valid() && Inv(cfg, s) && s.hot == None
    requires var d := Get(rid, CacheOf(s, c), polls, timeout, now);
             |d.sent| <= |polls| && OnTheWire(s.replies, c, GetEvents(rid, CacheOf(s, c), polls, |d.sent|), hs)
    ensures Legal(cfg, s, steps) && HonestRun(cfg, s, steps)
    ensures var d := Get(rid, CacheOf(s, c), polls, timeout, now);
            |d.sent| <= |polls| && Trace(cfg, s, steps, c) == GetEvents(rid, CacheOf(s, c), polls, |d.sent|)
    ensures Leaves(ViewOf(s, c), Get(rid, CacheOf(s, c), polls, timeout, now), {rid}, ViewOf(Exec(cfg, s, steps), c))
  {
    hide Inv, Legal, Exec, Trace, Get, CacheOf, ReturnedOf, GetEvents, Replay, Leaves, Poppable, OnTheWire;
    var n := |Get(rid, CacheOf(s, c), polls, timeout, now).sent|;
    GetPops(rid, ViewOf(s, c), polls, n);
    steps := EventsAreARun(cfg, s, c, GetEvents(rid, CacheOf(s, c), polls, n), hs);
    GetIsARun(cfg, s, steps, c, rid, polls, timeout, now);
  }

  /** So is a collect call: each response goes to the cache, and then exactly the wanted ones that
      are cached are popped. */
  lemma GatherHasARun(cfg: Config, s: State, c: ClientId, done: Condition, wanted: set<RequestId>,
                      polls: seq<Poll>, deadline: Option<real>, now: real, ids: seq<RequestId>, hs: seq<nat>)
    returns (steps: seq<Step>)
    requires cfg.Valid() && Inv(cfg, s) && s.hot == None
    requires forall i, j :: 0 <= i < j < |ids| ==> ids[i] != ids[j]
    requires ListsPopped(ids, wanted, LoopUntil(done, CacheOf(s, c), polls, deadline, now))
    requires var d := Gather(done, wanted, CacheOf(s, c), polls, deadline, now);
             |d.sent| <= |polls| && OnTheWire(s.replies, c, GatherEvents(polls, |d.sent|, ids), hs)
    ensures Legal(cfg, s, steps) && HonestRun(cfg, s, steps)
    ensures var d := Gather(done, wanted, CacheOf(s, c), polls, deadline, now);
            && |d.sent| <= |polls| && Trace(cfg, s, steps, c) == GatherEvents(polls, |d.sent|, ids)
            && Leaves(ViewOf(s, c), d, if d.outcome.Returned? then d.outcome.value.Keys else {}, ViewOf(Exec(cfg, s, steps), c))
  {
    hide Inv, Legal, Exec, Trace, Gather, LoopUntil, CacheOf, ReturnedOf, GatherEvents, Replay, Leaves, Poppable, OnTheWire, ListsPopped;
    var n := |Gather(done, wanted, CacheOf(s, c), polls, deadline, now).sent|;
    GatherShape(done, wanted, CacheOf(s, c), polls, deadline, now);
    GatherPops(done, wanted, ViewOf(s, c), polls, deadline, now, ids);
    steps := EventsAreARun(cfg, s, c, GatherEvents(polls, n, ids), hs);
    GatherIsARun(cfg, s, steps, c, done, wanted, polls, deadline, now, ids);
  }

  /** And so is call, whose POST may have brought the first response. */
  lemma CallHasARun(cfg: Config, s: State, c: ClientId, rid: RequestId, reply: PostReply, polls: seq<Poll>,
                    timeout: Option<int>, now: real, hs: seq<nat>)
    returns (steps: seq<Step>)
    requires cfg.Valid() && Inv(cfg, s) && s.hot == None
    requires OnTheWire(s.replies, c, CallEvents(rid, CacheOf(s, c), reply, polls, timeout, now), hs)
    ensures Legal(cfg, s, steps) && HonestRun(cfg, s, steps)
    ensures Trace(cfg, s, steps, c) == CallEvents(rid, CacheOf(s, c), reply, polls, timeout, now)
    ensures Leaves(ViewOf(s, c), Call(rid, CacheOf(s, c), reply, polls, timeout, now), {rid}, ViewOf(Exec(cfg, s, steps), c))
  {
    hide Inv, Legal, Exec, Trace, Call, CacheOf, ReturnedOf, CallEvents, Replay, Leaves, Poppable, OnTheWire;
    CallPops(rid, ViewOf(s, c), reply, polls, timeout, now);
    steps := EventsAreARun(cfg, s, c, CallEvents(rid, CacheOf(s, c), reply, polls, timeout, now), hs);
    CallIsARun(cfg, s, steps, c, rid, reply, polls, timeout, now);
  }

  // ---------------------------------------------------------------- no response is returned twice

  function IdOf(e: ClientEvent): RequestId {
    match e
    case Arrived(x, _) => x.requestId
    case Popped(rid) => rid
  }

  /** What arrives or is popped has not been returned before. */
  lemma EventIsNew(s: State, step: Step, c: ClientId, rid: RequestId)
    requires Conserved(s) && rid in ReturnedOf(s, c)
    requires step.PopCached? ==> step.token in s.caches
    ensures forall e :: e in EventOf(s, step, c) ==> IdOf(e) != rid
  {
    hide AtService, AtEntry, AtPost, RequestMail, Part;
    var token := Token(c, rid);
    assert At(s, token, WithCaller);
    if step.CollectResponse? {
      assert !At(s, token, ToClient(step.h));
    } else {
      assert !At(s, token, InCache);
    }
  }

  lemma ReturnedStays(v: View, events: seq<ClientEvent>, rid: RequestId)
    requires rid in v.returned && |events| <= 1
    ensures rid in Replay(v, events).returned
  {
    if events != [] {
      ReplayOne(v, events[0]);
      assert events == [events[0]];
    } else {
      ReplayNone(v);
    }
  }

  lemma {:induction false} ReturnedNeverComesAgain(cfg: Config, s: State, steps: seq<Step>, c: ClientId, rid: RequestId)
    requires cfg.Valid() && Inv(cfg, s) && Legal(cfg, s, steps) && HonestRun(cfg, s, steps) && Accounted(s)
    requires rid in ReturnedOf(s, c)
    ensures forall e :: e in Trace(cfg, s, steps, c) ==> IdOf(e) != rid
    decreases |steps|
  {
    hide Inv, Enabled, Apply, EventOf, ReturnedOf, CacheOf, Honest, NoDuplicates, PostersNew, Replay, Conserved;
    if steps != [] {
      var step, s1 := steps[0], Apply(cfg, s, steps[0]);
      StepKeepsInv(cfg, s, step);
      StepKeepsAccounted(cfg, s, step);
      ClientSteps(cfg, s, step);
      EventIsNew(s, step, c, rid);
      StepIsEvent(cfg, s, step, c);
      AtMostOneEvent(s, step, c);
      ReturnedStays(ViewOf(s, c), EventOf(s, step, c), rid);
      ReturnedNeverComesAgain(cfg, s1, steps[1..], c, rid);
    }
  }

  lemma AtMostOneEvent(s: State, step: Step, c: ClientId)
    ensures |EventOf(s, step, c)| <= 1
  {
  }

  lemma {:induction false} GetLoopBringsIt(rid: RequestId, cache: Cache, polls: seq<Poll>, deadline: Option<real>, now: real)
    requires GetLoop(rid, cache, polls, deadline, now).outcome.Returned?
    ensures var d := GetLoop(rid, cache, polls, deadline, now);
            |d.sent| <= |polls| && exists e :: e in Arrivals(polls[..|d.sent|], Some(rid)) && IdOf(e) == rid
    decreases |polls|
  {
    var d := GetLoop(rid, cache, polls, deadline, now);
    GetLoopUsesNoMoreThanPolls(rid, cache, polls, deadline, now);
    var used := polls[..|d.sent|];
    assert used[1..] == polls[1..][..|d.sent| - 1];
    if polls[0].Got? && polls[0].response.requestId == rid {
      var e := Arrived(polls[0].response, true);
      assert Arrivals(used, Some(rid))[0] == e;
      assert e in Arrivals(used, Some(rid)) && IdOf(e) == rid;
    } else {
      var cache1 := if polls[0].Got? then cache[polls[0].response.requestId := polls[0].response] else cache;
      GetLoopBringsIt(rid, cache1, polls[1..], deadline, now + polls[0].took);
      var e :| e in Arrivals(used[1..], Some(rid)) && IdOf(e) == rid;
      assert e in Arrivals(used, Some(rid));
    }
  }

  lemma GetBringsIt(rid: RequestId, cache: Cache, polls: seq<Poll>, timeout: Option<int>, now: real)
    requires Get(rid, cache, polls, timeout, now).outcome.Returned?
    ensures var d := Get(rid, cache, polls, timeout, now);
            |d.sent| <= |polls| && exists e :: e in GetEvents(rid, cache, polls, |d.sent|) && IdOf(e) == rid
  {
    if rid in cache {
      assert Popped(rid) in GetEvents(rid, cache, polls, 0);
    } else {
      GetLoopBringsIt(rid, cache, polls, DeadlineAfter(timeout, now), now);
    }
  }

  /** Once a response has been returned to its caller, in an honest run, no get_response for the
      same id ever returns again. */
  lemma NeverReturnedTwice(cfg: Config, s: State, steps: seq<Step>, c: ClientId, rid: RequestId, polls: seq<Poll>, timeout: Option<int>, now: real)
    requires cfg.Valid() && Inv(cfg, s) && Legal(cfg, s, steps) && HonestRun(cfg, s, steps) && Accounted(s)
    requires rid in ReturnedOf(s, c)
    requires var d := Get(rid, CacheOf(s, c), polls, timeout, now);
             |d.sent| <= |polls| && Trace(cfg, s, steps, c) == GetEvents(rid, CacheOf(s, c), polls, |d.sent|)
    ensures !Get(rid, CacheOf(s, c), polls, timeout, now).outcome.Returned?
  {
    hide Inv, Legal, HonestRun, Accounted, Trace, Get, CacheOf, ReturnedOf, GetEvents;
    ReturnedNeverComesAgain(cfg, s, steps, c, rid);
    if Get(rid, CacheOf(s, c), polls, timeout, now).outcome.Returned? {
      GetBringsIt(rid, CacheOf(s, c), polls, timeout, now);
    }
  }

  /** Nor does any any-, all- or quorum-call ever return it again. */
  lemma NeverGatheredTwice(cfg: Config, s: State, steps: seq<Step>, c: ClientId, rid: RequestId, done: Condition, wanted: set<RequestId>,
                           polls: seq<Poll>, deadline: Option<real>, now: real, ids: seq<RequestId>)
    requires cfg.Valid() && Inv(cfg, s) && Legal(cfg, s, steps) && HonestRun(cfg, s, steps) && Accounted(s)
    requires rid in ReturnedOf(s, c)
    requires ListsPopped(ids, wanted, LoopUntil(done, CacheOf(s, c), polls, deadline, now))
    requires var d := Gather(done, wanted, CacheOf(s, c), polls, deadline, now);
             |d.sent| <= |polls| && Trace(cfg, s, steps, c) == GatherEvents(polls, |d.sent|, ids)
    ensures var d := Gather(done, wanted, CacheOf(s, c), polls, deadline, now);
            d.outcome.Returned? ==> rid !in d.outcome.value
  {
    hide Inv, Legal, HonestRun, Accounted, Trace, Gather, LoopUntil, CacheOf, ReturnedOf, GatherEvents, ListsPopped;
    var d := Gather(done, wanted, CacheOf(s, c), polls, deadline, now);
    ReturnedNeverComesAgain(cfg, s, steps, c, rid);
    if d.outcome.Returned? && rid in d.outcome.value {
      GatherBringsIt(done, wanted, CacheOf(s, c), polls, deadline, now, ids, rid);
    }
  }

  lemma GatherBringsIt(done: Condition, wanted: set<RequestId>, cache: Cache, polls: seq<Poll>, deadline: Option<real>, now: real,
                       ids: seq<RequestId>, rid: RequestId)
    requires ListsPopped(ids, wanted, LoopUntil(done, cache, polls, deadline, now))
    requires var d := Gather(done, wanted, cache, polls, deadline, now);
             |d.sent| <= |polls| && d.outcome.Returned? && rid in d.outcome.value
    ensures exists e :: e in GatherEvents(polls, |Gather(done, wanted, cache, polls, deadline, now).sent|, ids) && IdOf(e) == rid
  {
    hide Gather, LoopUntil, Arrivals, Pops;
    var d := Gather(done, wanted, cache, polls, deadline, now);
    GatherShape(done, wanted, cache, polls, deadline, now);
    var listed := set r | r in ids;
    assert rid in listed;
    PopsAreListed(ids, rid);
    var e := Popped(rid);
    assert e in GatherEvents(polls, |d.sent|, ids) && IdOf(e) == rid;
  }

  lemma {:induction false} PopsAreListed(ids: seq<RequestId>, rid: RequestId)
    requires rid in ids
    ensures Popped(rid) in Pops(ids)
    decreases |ids|
  {
    if ids[0] != rid {
      PopsAreListed(ids[1..], rid);
    }
  }

  lemma CallBringsIt(rid: RequestId, cache: Cache, reply: PostReply, polls: seq<Poll>, timeout: Option<int>, now: real)
    requires Call(rid, cache, reply, polls, timeout, now).outcome.Returned?
    ensures exists e :: e in CallEvents(rid, cache, reply, polls, timeout, now) && IdOf(e) == rid
  {
    hide GetEvents, Get;
    var deadline := DeadlineAfter(timeout, now);
    var after := now + reply.took;
    var events := CallEvents(rid, cache, reply, polls, timeout, now);
    if reply.Answered? && reply.response.requestId == rid {
      assert Arrived(reply.response, true) in events && IdOf(Arrived(reply.response, true)) == rid;
    } else {
      var cache1 := if reply.Answered? then cache[reply.response.requestId := reply.response] else cache;
      var left := Remaining(deadline, after);
      GetBringsIt(rid, cache1, polls, left, after);
      var e :| e in GetEvents(rid, cache1, polls, |Get(rid, cache1, polls, left, after).sent|) && IdOf(e) == rid;
      assert e in events;
    }
  }

  /** Nor does call, whatever its POST brings. */
  lemma NeverCalledTwice(cfg: Config, s: State, steps: seq<Step>, c: ClientId, rid: RequestId, reply: PostReply, polls: seq<Poll>,
                         timeout: Option<int>, now: real)
    requires cfg.Valid() && Inv(cfg, s) && Legal(cfg, s, steps) && HonestRun(cfg, s, steps) && Accounted(s)
    requires rid in ReturnedOf(s, c)
    requires Trace(cfg, s, steps, c) == CallEvents(rid, CacheOf(s, c), reply, polls, timeout, now)
    ensures !Call(rid, CacheOf(s, c), reply, polls, timeout, now).outcome.Returned?
  {
    hide Inv, Legal, HonestRun, Accounted, Trace, Call, CacheOf, ReturnedOf, CallEvents;
    ReturnedNeverComesAgain(cfg, s, steps, c, rid);
    if Call(rid, CacheOf(s, c), reply, polls, timeout, now).outcome.Returned? {
      CallBringsIt(rid, CacheOf(s, c), reply, polls, timeout, now);
    }
  }

  /** And what a call has returned is with its caller and nowhere else, and answers a request that
      was accepted. */
  lemma ReturnedIsWithCaller(cfg: Config, steps: seq<Step>, c: ClientId, rid: RequestId)
    requires cfg.Valid() && IsHonestRun(cfg, steps) && rid in ReturnedOf(Reached(cfg, steps), c)
    ensures var t := Reached(cfg, steps);
            Token(c, rid) in t.accepted && forall p :: At(t, Token(c, rid), p) <==> p == WithCaller
  {
    hide IsRun, Reached, Conserved;
    var t := Reached(cfg, steps);
    assert At(t, Token(c, rid), WithCaller);
    EveryRequestInExactlyOnePlace(cfg, steps, Token(c, rid));
  }
}
