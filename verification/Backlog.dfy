/** How often a client with a deadline polls: at most once more than there are responses for it,
    counted on the server's queues and on the wire, whatever else happens meanwhile. */
module Backlog {
  import opened Messages
  import opened Deadlines
  import opened Store
  import opened Sweeping
  import opened Collect
  import opened CollectTheorems
  import opened Protocol
  import opened Frames
  import opened Conservation
  import opened ConservationTheorems
  import opened ClientRuns

  // ---------------------------------------------------------------- what waits for a client

  /** How many responses lie in the entries of client `c`, registered or not. */
  function Held(entries: seq<Entry>, c: ClientId): nat
    decreases |entries|
  {
    if entries == [] then 0
    else
      var n := |entries| - 1;
      Held(entries[..n], c) + if entries[n].client == c then |entries[n].queue.items| else 0
  }

  /** The replies on the wire that bring client `c` a response. */
  function MailFor(replies: map<nat, Reply>, c: ClientId): set<nat> {
    set h | h in replies && replies[h].Response? && replies[h].client == c
  }

  /** The responses waiting for client `c`. */
  function BacklogOf(s: State, c: ClientId): nat {
    Held(s.clients.entries, c) + |MailFor(s.replies, c)|
  }

  lemma {:induction false} HeldSame(a: Clients, b: Clients, c: ClientId)
    requires SameEntryItems(a, b)
    ensures Held(b.entries, c) == Held(a.entries, c)
    decreases |b.entries|
  {
    if b.entries != [] {
      var n := |b.entries| - 1;
      var b1 := Clients(b.entries[..n], b.registry);
      if |a.entries| == |b.entries| {
        HeldSame(Clients(a.entries[..n], a.registry), b1, c);
      } else {
        HeldSame(a, b1, c);
      }
    }
  }

  lemma {:induction false} HeldUpdate(entries: seq<Entry>, r: Ref, e: Entry, c: ClientId)
    requires r < |entries| && e.client == entries[r].client
    ensures Held(entries[r := e], c)
            == Held(entries, c) + if e.client == c then |e.queue.items| - |entries[r].queue.items| else 0
    decreases |entries|
  {
    var n := |entries| - 1;
    if r < n {
      HeldUpdate(entries[..n], r, e, c);
      assert entries[r := e][..n] == entries[..n][r := e];
    } else {
      assert entries[r := e][..n] == entries[..n];
    }
  }

  lemma MailSame(a: map<nat, Reply>, b: map<nat, Reply>, c: ClientId)
    requires SameMail(a, b)
    ensures MailFor(b, c) == MailFor(a, c)
  {
  }

  lemma OneMoreMail(a: map<nat, Reply>, h: nat, d: ClientId, x: PypeResponse, c: ClientId)
    requires h !in a
    ensures |MailFor(a[h := Response(d, x)], c)| == |MailFor(a, c)| + if d == c then 1 else 0
  {
    assert MailFor(a[h := Response(d, x)], c) == MailFor(a, c) + if d == c then {h} else {};
  }

  lemma OneLessMail(a: map<nat, Reply>, h: nat, c: ClientId)
    requires h in a && a[h].Response?
    ensures |MailFor(a - {h}, c)| == |MailFor(a, c)| - if a[h].client == c then 1 else 0
  {
    assert MailFor(a - {h}, c) == MailFor(a, c) - {h};
  }

  lemma RequestIsNoMail(a: map<nat, Reply>, h: nat, request: PypeRequest, c: ClientId)
    requires h !in a || a[h].Request?
    ensures MailFor(a[h := Request(request)], c) == MailFor(a, c)
    ensures MailFor(a - {h}, c) == MailFor(a, c)
  {
  }

  // ---------------------------------------------------------------- one step

  /** The step puts a response for `c` on a queue. */
  function PutOf(s: State, step: Step, c: ClientId): nat {
    if step.PutResponse? && step.h in s.handlers && s.handlers[step.h].Delivering? && s.handlers[step.h].client == c then 1 else 0
  }

  /** How many of the events are arrivals. */
  function ArrivedIn(events: seq<ClientEvent>): nat
    decreases |events|
  {
    if events == [] then 0 else (if events[0].Arrived? then 1 else 0) + ArrivedIn(events[1..])
  }

  /** Nothing was put and nothing arrived. */
  ghost predicate SameBacklog(s: State, t: State, c: ClientId) {
    Held(t.clients.entries, c) == Held(s.clients.entries, c) && MailFor(t.replies, c) == MailFor(s.replies, c)
  }

  lemma StillBacklog(s: State, t: State, c: ClientId)
    requires SameEntryItems(s.clients, t.clients) && SameMail(s.replies, t.replies)
    ensures SameBacklog(s, t, c)
  {
    HeldSame(s.clients, t.clients, c);
    MailSame(s.replies, t.replies, c);
  }

  lemma PostRequestBacklog(cfg: Config, s: State, client: ClientId, service: ServiceName, request: PypeRequest, timeout: Option<int>, block: bool, c: ClientId)
    requires s.next !in s.replies
    ensures SameBacklog(s, DoPostRequest(cfg, s, client, service, request, timeout, block), c)
  {
    hide DoPostRequest, NormalizeTimeout, Clients.GetOrCreate, Clients.Bump, SameEntryItems;
    PostRequestShape(cfg, s, client, service, request, timeout, block);
    TouchKeepsItems(s.clients, client, s.clock, {});
    NoMail(s.replies, s.next, BadRequest);
    StillBacklog(s, DoPostRequest(cfg, s, client, service, request, timeout, block), c);
  }

  lemma PostResponseBacklog(cfg: Config, s: State, client: ClientId, x: PypeResponse, timeout: Option<int>, c: ClientId)
    requires s.next !in s.replies
    ensures SameBacklog(s, DoPostResponse(cfg, s, client, x, timeout), c)
  {
    hide DoPostResponse, NormalizeTimeout, Clients.GetOrCreate, Clients.Bump, SameEntryItems;
    PostResponseShape(cfg, s, client, x, timeout);
    TouchKeepsItems(s.clients, client, s.clock, {});
    NoMail(s.replies, s.next, BadRequest);
    StillBacklog(s, DoPostResponse(cfg, s, client, x, timeout), c);
  }

  lemma PutRequestBacklog(s: State, h: nat, c: ClientId)
    requires h in s.handlers && h !in s.replies && s.handlers[h].Enqueuing? && s.handlers[h].service in s.services
    ensures SameBacklog(s, DoPutRequest(s, h), c)
  {
    hide DoPutRequest, Clients.Bump, SameEntryItems;
    PutRequestShape(s, h);
    TouchKeepsItems(s.clients, s.handlers[h].client, s.clock, {});
    NoMail(s.replies, h, AcceptedReply);
    StillBacklog(s, DoPutRequest(s, h), c);
  }

  lemma TakeRequestBacklog(s: State, h: nat, c: ClientId)
    requires h !in s.replies && RequestAvailable(s, h)
    ensures SameBacklog(s, DoTakeRequest(s, h), c)
  {
    hide Held;
    RequestIsNoMail(s.replies, h, s.services[s.handlers[h].service].items[0], c);
  }

  lemma PutResponseBacklog(s: State, h: nat, c: ClientId)
    requires h in s.handlers && h !in s.replies && s.handlers[h].Delivering? && s.handlers[h].entry < |s.clients.entries|
    requires s.clients.entries[s.handlers[h].entry].client == s.handlers[h].client
    ensures BacklogOf(DoPutResponse(s, h), c) == BacklogOf(s, c) + if s.handlers[h].client == c then 1 else 0
  {
    hide Held;
    var p := s.handlers[h];
    var e := s.clients.entries[p.entry];
    HeldUpdate(s.clients.entries, p.entry, e.(queue := e.queue.Put(p.response)), c);
    NoMail(s.replies, h, AcceptedReply);
    MailSame(s.replies, s.replies[h := AcceptedReply], c);
  }

  lemma RefuseResponseBacklog(s: State, h: nat, c: ClientId)
    requires h in s.handlers && h !in s.replies && s.handlers[h].Delivering?
    ensures SameBacklog(s, DoRefuseResponse(s, h), c)
  {
    hide Held;
    NoMail(s.replies, h, Unavailable);
    MailSame(s.replies, s.replies[h := Unavailable], c);
  }

  /** A take moves a response from the queue to the wire. */
  lemma TakeResponseBacklog(s: State, h: nat, c: ClientId)
    requires ResponseAvailable(s, h) && h !in s.replies
    requires s.clients.entries[s.handlers[h].entry].client == s.handlers[h].client
    ensures BacklogOf(DoTakeResponse(s, h), c) == BacklogOf(s, c)
  {
    hide DoTakeResponse, Held, MailFor, Clients.Bump, SameEntryItems;
    var p, t := s.handlers[h], DoTakeResponse(s, h);
    var e := s.clients.entries[p.entry];
    var taken := s.clients.Take(p.entry);
    TakeResponseShape(s, h);
    HeldUpdate(s.clients.entries, p.entry, e.(queue := e.queue.Take()), c);
    TouchKeepsItems(taken, p.client, s.clock, {});
    if t.clients != taken {
      HeldSame(taken, t.clients, c);
    }
    OneMoreMail(s.replies, h, p.client, e.queue.items[0], c);
  }

  lemma CollectBacklog(s: State, h: nat, toCaller: bool, c: ClientId)
    requires h in s.replies
    ensures s.replies[h].Request? ==> SameBacklog(s, DoCollectRequest(s, h), c)
    ensures s.replies[h].Response? ==>
              BacklogOf(DoCollectResponse(s, h, toCaller), c) == BacklogOf(s, c) - if s.replies[h].client == c then 1 else 0
  {
    hide Held, MailFor;
    if s.replies[h].Request? {
      RequestIsNoMail(s.replies, h, s.replies[h].request, c);
    } else if s.replies[h].Response? {
      OneLessMail(s.replies, h, c);
    }
  }

  /** A step changes the backlog of a client by what it puts for it and by what arrives. */
  lemma StepBacklog(cfg: Config, s: State, step: Step, c: ClientId)
    requires cfg.Valid() && Inv(cfg, s) && Enabled(cfg, s, step)
    ensures BacklogOf(Apply(cfg, s, step), c) + ArrivedIn(EventOf(s, step, c)) == BacklogOf(s, c) + PutOf(s, step, c)
  {
    hide DoPostRequest, DoPollResponses, DoPullRequest, DoPostResponse, DoEnqueue, DoPutRequest, DoRefuseRequest, DoReap, DoLogoff, Ensure;
    hide DoTakeRequest, DoNoRequest, DoTakeResponse, DoNoResponse, DoAnswer, DoPutResponse, DoRefuseResponse, DoCollectRequest, DoCollectResponse;
    hide Inv, MayGiveUp, MayAdvance, Held, MailFor, Still, SameEntryItems, SameMail;
    NextIsNew(cfg, s);
    match step
    case PostRequest(d, service, request, timeout, block) => PostRequestBacklog(cfg, s, d, service, request, timeout, block, c);
    case PostResponse(d, x, timeout) => PostResponseBacklog(cfg, s, d, x, timeout, c);
    case PutRequest(h) =>
      NotReplied(cfg, s, h);
      PutRequestBacklog(s, h, c);
    case TakeRequest(h) =>
      NotReplied(cfg, s, h);
      TakeRequestBacklog(s, h, c);
    case PutResponse(h) =>
      HandlerIsOk(cfg, s, h);
      NotReplied(cfg, s, h);
      PutResponseBacklog(s, h, c);
    case RefuseResponse(h) =>
      NotReplied(cfg, s, h);
      RefuseResponseBacklog(s, h, c);
    case TakeResponse(h) =>
      HandlerIsOk(cfg, s, h);
      NotReplied(cfg, s, h);
      TakeResponseBacklog(s, h, c);
    case CollectRequest(h) => CollectBacklog(s, h, false, c);
    case CollectResponse(h, toCaller) => CollectBacklog(s, h, toCaller, c);
    case PopCached(_) =>
    case _ => StillStepBacklog(cfg, s, step, c);
  }

  lemma StillStepBacklog(cfg: Config, s: State, step: Step, c: ClientId)
    requires cfg.Valid() && Inv(cfg, s) && Enabled(cfg, s, step)
    requires step.Enqueue? || step.RefuseRequest? || step.PollResponses? || step.NoResponse? || step.Answer? || step.PullRequest?
             || step.NoRequest? || step.AuthService? || step.Logoff? || step.Reap? || step.Advance?
    ensures SameBacklog(s, Apply(cfg, s, step), c)
  {
    hide Inv, Enabled, Apply, Held, MailFor;
    StillStep(cfg, s, step);
    StillBacklog(s, Apply(cfg, s, step), c);
  }

  // ---------------------------------------------------------------- whole runs

  /** How often the run puts a response for `c` on a queue. */
  ghost function PutsFor(cfg: Config, s: State, steps: seq<Step>, c: ClientId): nat
    requires cfg.Valid() && Inv(cfg, s) && Legal(cfg, s, steps)
    decreases |steps|
  {
    if steps == [] then 0
    else
      StepKeepsInv(cfg, s, steps[0]);
      PutOf(s, steps[0], c) + PutsFor(cfg, Apply(cfg, s, steps[0]), steps[1..], c)
  }

  lemma {:induction false} ArrivedInTwo(a: seq<ClientEvent>, b: seq<ClientEvent>)
    ensures ArrivedIn(a + b) == ArrivedIn(a) + ArrivedIn(b)
    decreases |a|
  {
    if a == [] {
      assert [] + b == b;
    } else {
      assert (a + b)[0] == a[0] && (a + b)[1..] == a[1..] + b;
      ArrivedInTwo(a[1..], b);
    }
  }

  /** What arrives at a client during a run, and what waits for it at the end, is what waited for it
      at the start and what was put for it meanwhile. */
  lemma {:induction false} ArrivalsUseUpBacklog(cfg: Config, s: State, steps: seq<Step>, c: ClientId)
    requires cfg.Valid() && Inv(cfg, s) && Legal(cfg, s, steps)
    ensures ArrivedIn(Trace(cfg, s, steps, c)) + BacklogOf(Exec(cfg, s, steps), c) == BacklogOf(s, c) + PutsFor(cfg, s, steps, c)
    decreases |steps|
  {
    hide Inv, Enabled, Apply, EventOf, BacklogOf, PutOf, ArrivedIn;
    if steps == [] {
      NothingArrived();
    } else {
      var s1 := Apply(cfg, s, steps[0]);
      StepKeepsInv(cfg, s, steps[0]);
      StepBacklog(cfg, s, steps[0], c);
      ArrivalsUseUpBacklog(cfg, s1, steps[1..], c);
      ArrivedInTwo(EventOf(s, steps[0], c), Trace(cfg, s1, steps[1..], c));
    }
  }

  lemma NothingArrived()
    ensures ArrivedIn([]) == 0
  {
  }

  // ---------------------------------------------------------------- the polls of a call

  /** With a deadline, every poll but the last brings a response. */
  lemma {:induction false} LoopPollsBring(done: Condition, cache: Cache, polls: seq<Poll>, deadline: real, now: real)
    ensures var d := LoopUntil(done, cache, polls, Some(deadline), now);
            |d.sent| <= |polls| && |d.sent| <= ArrivedIn(Arrivals(polls[..|d.sent|], None)) + 1
    decreases |polls|
  {
    var d := LoopUntil(done, cache, polls, Some(deadline), now);
    if d.sent != [] && polls[0].Got? {
      var x := polls[0].response;
      LoopPollsBring(done, cache[x.requestId := x], polls[1..], deadline, now + polls[0].took);
      assert polls[..|d.sent|][1..] == polls[1..][..|d.sent| - 1];
      FirstArrival(x, polls[..|d.sent|], None);
    }
  }

  lemma {:induction false} GetLoopPollsBring(rid: RequestId, cache: Cache, polls: seq<Poll>, deadline: real, now: real)
    ensures var d := GetLoop(rid, cache, polls, Some(deadline), now);
            |d.sent| <= |polls| && |d.sent| <= ArrivedIn(Arrivals(polls[..|d.sent|], Some(rid))) + 1
    decreases |polls|
  {
    var d := GetLoop(rid, cache, polls, Some(deadline), now);
    if d.sent != [] && polls[0].Got? && polls[0].response.requestId != rid {
      var x := polls[0].response;
      GetLoopPollsBring(rid, cache[x.requestId := x], polls[1..], deadline, now + polls[0].took);
      assert polls[..|d.sent|][1..] == polls[1..][..|d.sent| - 1];
      FirstArrival(x, polls[..|d.sent|], Some(rid));
    }
  }

  lemma FirstArrival(x: PypeResponse, polls: seq<Poll>, waitedFor: Option<RequestId>)
    requires polls != [] && polls[0].Got? && polls[0].response == x
    ensures ArrivedIn(Arrivals(polls, waitedFor)) == 1 + ArrivedIn(Arrivals(polls[1..], waitedFor))
  {
    assert Arrivals(polls, waitedFor)[1..] == Arrivals(polls[1..], waitedFor);
  }

  lemma GetPollsBring(rid: RequestId, cache: Cache, polls: seq<Poll>, timeout: int, now: real)
    ensures var d := Get(rid, cache, polls, Some(timeout), now);
            |d.sent| <= |polls| && |d.sent| <= ArrivedIn(GetEvents(rid, cache, polls, |d.sent|)) + 1
  {
    hide GetLoop, ArrivedIn, Arrivals;
    if rid !in cache {
      GetLoopPollsBring(rid, cache, polls, now + timeout as real, now);
    }
  }

  lemma CallPollsBring(rid: RequestId, cache: Cache, reply: PostReply, polls: seq<Poll>, timeout: int, now: real)
    ensures var d := Call(rid, cache, reply, polls, Some(timeout), now);
            |d.sent| <= ArrivedIn(CallEvents(rid, cache, reply, polls, Some(timeout), now)) + 1
  {
    hide Get, GetEvents, ArrivedIn;
    var deadline, after := Some(now + timeout as real), now + reply.took;
    var left := Remaining(deadline, after);
    if reply.Accepted? && left.value >= 0 {
      GetPollsBring(rid, cache, polls, left.value, after);
    } else if reply.Answered? && reply.response.requestId != rid && left.value >= 0 {
      var x := reply.response;
      var cache1 := cache[x.requestId := x];
      GetPollsBring(rid, cache1, polls, left.value, after);
      ArrivedInTwo([Arrived(x, false)], FallbackEvents(rid, cache1, polls, deadline, after));
    }
  }

  /** A get_response with a timeout, in any run: it polls at most once more than responses wait for
      its client at the start or are put for it meanwhile. */
  lemma GetPollsWithinBacklog(cfg: Config, s: State, steps: seq<Step>, c: ClientId, rid: RequestId, polls: seq<Poll>, timeout: int, now: real)
    requires cfg.Valid() && Inv(cfg, s) && Legal(cfg, s, steps)
    requires var d := Get(rid, CacheOf(s, c), polls, Some(timeout), now);
             |d.sent| <= |polls| && Trace(cfg, s, steps, c) == GetEvents(rid, CacheOf(s, c), polls, |d.sent|)
    ensures |Get(rid, CacheOf(s, c), polls, Some(timeout), now).sent| <= BacklogOf(s, c) + PutsFor(cfg, s, steps, c) + 1
  {
    hide Inv, Legal, Exec, Trace, Get, CacheOf, GetEvents, BacklogOf, ArrivedIn, PutsFor;
    GetPollsBring(rid, CacheOf(s, c), polls, timeout, now);
    ArrivalsUseUpBacklog(cfg, s, steps, c);
  }

  /** So do the any-, all- and quorum-calls. */
  lemma GatherPollsWithinBacklog(cfg: Config, s: State, steps: seq<Step>, c: ClientId, done: Condition, wanted: set<RequestId>,
                                 polls: seq<Poll>, deadline: real, now: real, ids: seq<RequestId>)
    requires cfg.Valid() && Inv(cfg, s) && Legal(cfg, s, steps)
    requires var d := Gather(done, wanted, CacheOf(s, c), polls, Some(deadline), now);
             |d.sent| <= |polls| && Trace(cfg, s, steps, c) == GatherEvents(polls, |d.sent|, ids)
    ensures |Gather(done, wanted, CacheOf(s, c), polls, Some(deadline), now).sent| <= BacklogOf(s, c) + PutsFor(cfg, s, steps, c) + 1
  {
    hide Inv, Legal, Exec, Trace, Gather, LoopUntil, CacheOf, BacklogOf, ArrivedIn, PutsFor, Arrivals, Pops;
    var d := Gather(done, wanted, CacheOf(s, c), polls, Some(deadline), now);
    GatherShape(done, wanted, CacheOf(s, c), polls, Some(deadline), now);
    LoopPollsBring(done, CacheOf(s, c), polls, deadline, now);
    ArrivedInTwo(Arrivals(polls[..|d.sent|], None), Pops(ids));
    ArrivalsUseUpBacklog(cfg, s, steps, c);
  }

  /** And so does call, besides its POST. */
  lemma CallPollsWithinBacklog(cfg: Config, s: State, steps: seq<Step>, c: ClientId, rid: RequestId, reply: PostReply, polls: seq<Poll>,
                               timeout: int, now: real)
    requires cfg.Valid() && Inv(cfg, s) && Legal(cfg, s, steps)
    requires Trace(cfg, s, steps, c) == CallEvents(rid, CacheOf(s, c), reply, polls, Some(timeout), now)
    ensures |Call(rid, CacheOf(s, c), reply, polls, Some(timeout), now).sent| <= BacklogOf(s, c) + PutsFor(cfg, s, steps, c) + 1
  {
    hide Inv, Legal, Exec, Trace, Call, CacheOf, CallEvents, BacklogOf, ArrivedIn, PutsFor;
    CallPollsBring(rid, CacheOf(s, c), reply, polls, timeout, now);
    ArrivalsUseUpBacklog(cfg, s, steps, c);
  }
}
