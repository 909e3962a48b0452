/** The life of entries and queues over whole runs: who can still reach a detached entry, and what
    every queue has seen. */
module LifeCycle {
  import opened Messages
  import opened Deadlines
  import opened FiniteSets
  import opened Store
  import opened Sweeping
  import opened Protocol

  // ---------------------------------------------------------------- one step

  ghost predicate ServicesContinue(a: Services, b: Services) {
    forall n :: n in a ==> n in b && Continues(a[n], b[n])
  }

  ghost predicate Holds(s: State, h: nat, r: Ref) {
    h in s.handlers && !s.handlers[h].Pulling? && s.handlers[h].entry == r
  }

  /** A handler that may still take a response from the entry it holds. */
  predicate MayTake(p: Handler) {
    p.Polling? || p.Awaiting? || ((p.Posting? || p.Enqueuing?) && p.block)
  }

  /** What one step does to the store and to the handlers' references: queues continue, entries
      age, and the only new reference is to an entry registered at that moment. */
  ghost predicate Ages(s: State, t: State) {
    && Grows(s.clients, t.clients)
    && ServicesContinue(s.services, t.services)
    && s.next <= t.next
    && forall h :: h in t.handlers && !t.handlers[h].Pulling? ==>
         if h in s.handlers
         then !s.handlers[h].Pulling? && s.handlers[h].entry == t.handlers[h].entry && (MayTake(t.handlers[h]) ==> MayTake(s.handlers[h]))
         else h == s.next && Registered(t.clients, t.handlers[h].entry)
  }

  /** No entry that was there has been taken from. */
  ghost predicate Untaken(a: Clients, b: Clients) {
    forall r :: 0 <= r < |a.entries| && r < |b.entries| ==> b.entries[r].queue.taken == a.entries[r].queue.taken
  }

  ghost predicate AgesUntaken(s: State, t: State) {
    Ages(s, t) && Untaken(s.clients, t.clients)
  }

  lemma TouchGrows(cfg: Config, s: State, c: ClientId)
    requires Inv(cfg, s)
    ensures var cs := Touch(s, c).clients; Grows(s.clients, cs) && Untaken(s.clients, cs) && Registered(cs, cs.registry[c])
    ensures var cs := s.clients.Bump(c, s.clock); Grows(s.clients, cs) && Untaken(s.clients, cs)
    ensures var cs := s.clients.GetOrCreate(c, s.clock);
            Grows(s.clients, cs) && Untaken(s.clients, cs) && c in cs.registry && Registered(cs, cs.registry[c])
  {
    CreateEvolves(s.clients, c, cfg.clientMax, s.clock);
    BumpEvolves(s.clients.GetOrCreate(c, s.clock), c, cfg.clientMax, s.clock);
    BumpEvolves(s.clients, c, cfg.clientMax, s.clock);
  }

  lemma PutRequestAges(cfg: Config, s: State, h: nat)
    requires Inv(cfg, s) && h in s.handlers && s.handlers[h].Enqueuing? && s.handlers[h].service in s.services
    ensures AgesUntaken(s, DoPutRequest(s, h))
  {
    hide Inv, Grows, Untaken, Clients.Bump;
    TouchGrows(cfg, s, s.handlers[h].client);
  }

  /** One item leaves the queue of `r`, and `c` may be bumped. */
  lemma TakeGrows(cfg: Config, s: State, r: Ref, c: ClientId)
    requires Inv(cfg, s) && r < |s.clients.entries| && s.clients.entries[r].queue.items != []
    ensures var cs, now := s.clients, s.clock;
            var taken, bumped := cs.Take(r), cs.Take(r).Bump(c, now);
            && Grows(cs, taken) && Grows(cs, bumped)
            && forall i :: 0 <= i < |cs.entries| ==>
                 && |taken.entries[i].queue.taken| == |cs.entries[i].queue.taken| + (if i == r then 1 else 0)
                 && bumped.entries[i].queue.taken == taken.entries[i].queue.taken
  {
    TakeEvolves(s.clients, r, cfg.clientMax, s.clock);
    BumpEvolves(s.clients.Take(r), c, cfg.clientMax, s.clock);
  }

  lemma TakeResponseAges(cfg: Config, s: State, h: nat)
    requires Inv(cfg, s) && ResponseAvailable(s, h)
    ensures var t := DoTakeResponse(s, h);
            && Ages(s, t)
            && forall r :: 0 <= r < |s.clients.entries| ==>
                 |t.clients.entries[r].queue.taken| == |s.clients.entries[r].queue.taken| + if r == s.handlers[h].entry then 1 else 0
  {
    hide Inv, Grows, Clients.Take, Clients.Bump;
    TakeGrows(cfg, s, s.handlers[h].entry, s.handlers[h].client);
  }

  lemma FinishAges(s: State, h: nat, reply: Reply)
    requires h in s.handlers
    ensures AgesUntaken(s, Finish(s, h, reply))
  {
  }

  lemma BumpAndFinishAges(cfg: Config, s: State, h: nat, c: ClientId, reply: Reply)
    requires Inv(cfg, s) && h in s.handlers
    ensures AgesUntaken(s, Finish(Bump(s, c), h, reply))
  {
    TouchGrows(cfg, s, c);
  }

  lemma PutResponseAges(cfg: Config, s: State, h: nat)
    requires Inv(cfg, s) && h in s.handlers && s.handlers[h].Delivering? && s.handlers[h].entry < |s.clients.entries|
    requires |s.clients.entries[s.handlers[h].entry].queue.items| < cfg.clientMax
    ensures AgesUntaken(s, DoPutResponse(s, h))
  {
    PutEvolves(s.clients, s.handlers[h].entry, s.handlers[h].response, cfg.clientMax, s.clock);
  }

  /** A handler that starts: the entry it holds, if it does not answer at once, is registered. */
  lemma StartAges(s: State, t: State)
    requires s.next !in s.handlers && t.next == s.next + 1
    requires Grows(s.clients, t.clients) && Untaken(s.clients, t.clients) && t.services == s.services
    requires t.handlers == s.handlers
             || (s.next in t.handlers && t.handlers == s.handlers[s.next := t.handlers[s.next]]
                 && !t.handlers[s.next].Pulling? && Registered(t.clients, t.handlers[s.next].entry))
    ensures AgesUntaken(s, t)
  {
  }

  lemma PostRequestAges(cfg: Config, s: State, c: ClientId, service: ServiceName, request: PypeRequest, timeout: Option<int>, block: bool)
    requires Inv(cfg, s)
    ensures AgesUntaken(s, DoPostRequest(cfg, s, c, service, request, timeout, block))
  {
    hide Inv, Ages, Grows, Untaken, Registered, Clients.GetOrCreate, Clients.Bump, NormalizeTimeout;
    TouchGrows(cfg, s, c);
    NextIsNew(cfg, s);
    StartAges(s, DoPostRequest(cfg, s, c, service, request, timeout, block));
  }

  lemma PollResponsesAges(cfg: Config, s: State, c: ClientId, timeout: Option<int>)
    requires Inv(cfg, s)
    ensures AgesUntaken(s, DoPollResponses(cfg, s, c, timeout))
  {
    hide Inv, Ages, Grows, Untaken, Registered, Clients.GetOrCreate, Clients.Bump, NormalizeTimeout;
    TouchGrows(cfg, s, c);
    NextIsNew(cfg, s);
    StartAges(s, DoPollResponses(cfg, s, c, timeout));
  }

  lemma PostResponseAges(cfg: Config, s: State, c: ClientId, x: PypeResponse, timeout: Option<int>)
    requires Inv(cfg, s)
    ensures AgesUntaken(s, DoPostResponse(cfg, s, c, x, timeout))
  {
    hide Inv, Ages, Grows, Untaken, Registered, Clients.GetOrCreate, Clients.Bump, NormalizeTimeout;
    TouchGrows(cfg, s, c);
    NextIsNew(cfg, s);
    StartAges(s, DoPostResponse(cfg, s, c, x, timeout));
  }

  lemma EnsureAges(s: State, service: ServiceName)
    ensures AgesUntaken(s, Ensure(s, service))
  {
  }

  lemma PullRequestAges(cfg: Config, s: State, service: ServiceName, timeout: Option<int>)
    ensures AgesUntaken(s, DoPullRequest(cfg, s, service, timeout))
  {
    EnsureAges(s, service);
  }

  lemma TakeRequestAges(s: State, h: nat)
    requires RequestAvailable(s, h)
    ensures AgesUntaken(s, DoTakeRequest(s, h))
  {
  }

  lemma EnqueueAges(s: State, h: nat)
    requires h in s.handlers && s.handlers[h].Posting?
    ensures AgesUntaken(s, DoEnqueue(s, h))
  {
    EnsureAges(s, s.handlers[h].service);
  }

  lemma AnswerAges(s: State, h: nat)
    requires h in s.handlers && s.handlers[h].Answering?
    ensures AgesUntaken(s, DoAnswer(s, h))
  {
  }

  lemma EvictionAges(cfg: Config, s: State, t: State, gone: set<ClientId>)
    requires Inv(cfg, s)
    requires t == s.(clients := s.clients.RemoveAll(gone), cursor := t.cursor)
    ensures AgesUntaken(s, t)
  {
    RemoveEvolves(s.clients, gone, cfg.clientMax, s.clock);
  }

  lemma RefuseResponseAges(s: State, h: nat)
    requires h in s.handlers && s.handlers[h].Delivering?
    ensures AgesUntaken(s, DoRefuseResponse(s, h))
  {
  }

  lemma SameStoreAges(s: State, t: State)
    requires t.clients == s.clients && t.services == s.services && t.handlers == s.handlers && t.next == s.next
    ensures AgesUntaken(s, t)
  {
  }

  lemma StepAges(cfg: Config, s: State, step: Step)
    requires cfg.Valid() && Inv(cfg, s) && Enabled(cfg, s, step)
    ensures Ages(s, Apply(cfg, s, step))
    ensures !step.TakeResponse? ==> Untaken(s.clients, Apply(cfg, s, step).clients)
  {
    hide Ages, Untaken, DoPostRequest, DoPollResponses, DoPostResponse, DoPullRequest, DoEnqueue, DoPutRequest, DoTakeResponse;
    hide DoAnswer, DoPutResponse, DoRefuseResponse, DoTakeRequest, Finish, Bump, Ensure, Evicted, TickCursor, StoreInv;
    hide Clients.LastSeen, MayGiveUp, MayAdvance;
    match step
    case PostRequest(c, service, request, timeout, block) => PostRequestAges(cfg, s, c, service, request, timeout, block);
    case PollResponses(c, timeout) => PollResponsesAges(cfg, s, c, timeout);
    case PostResponse(c, x, timeout) => PostResponseAges(cfg, s, c, x, timeout);
    case PullRequest(service, timeout) => PullRequestAges(cfg, s, service, timeout);
    case Enqueue(h) => EnqueueAges(s, h);
    case PutRequest(h) => PutRequestAges(cfg, s, h);
    case RefuseRequest(h) => BumpAndFinishAges(cfg, s, h, s.handlers[h].client, Unavailable);
    case TakeResponse(h) => TakeResponseAges(cfg, s, h);
    case NoResponse(h) =>
      BumpAndFinishAges(cfg, s, h, s.handlers[h].client, NoContent);
      FinishAges(s, h, AcceptedReply);
    case Answer(h) => AnswerAges(s, h);
    case PutResponse(h) => PutResponseAges(cfg, s, h);
    case RefuseResponse(h) => RefuseResponseAges(s, h);
    case TakeRequest(h) => TakeRequestAges(s, h);
    case NoRequest(h) => FinishAges(s, h, NoContent);
    case AuthService(service) => EnsureAges(s, service);
    case Logoff(c) => EvictionAges(cfg, s, DoLogoff(s, c), {c});
    case Reap(snapshot) => EvictionAges(cfg, s, DoReap(cfg, s, snapshot), Evicted(cfg.reaper, s.cursor, MomentOf(s, snapshot)));
    case Advance(_) => SameStoreAges(s, Apply(cfg, s, step));
    case CollectRequest(_) => SameStoreAges(s, Apply(cfg, s, step));
    case CollectResponse(_, _) => SameStoreAges(s, Apply(cfg, s, step));
    case PopCached(_) => SameStoreAges(s, Apply(cfg, s, step));
  }

  // ---------------------------------------------------------------- whole runs

  /** 0 uncreated, 1 registered, 2 detached. */
  ghost function Stage(s: State, r: Ref): nat {
    if r >= |s.clients.entries| then 0 else if Registered(s.clients, r) then 1 else 2
  }

  lemma StageGrows(s: State, t: State, r: Ref)
    requires Ages(s, t)
    ensures Stage(s, r) <= Stage(t, r)
    ensures Stage(s, r) > 0 ==> t.clients.entries[r].client == s.clients.entries[r].client
                                && Continues(s.clients.entries[r].queue, t.clients.entries[r].queue)
  {
    if Stage(s, r) == 2 {
      assert Detached(s.clients, r);
    }
  }

  lemma ContinuesTransitively(a: Services, b: Services, c: Services)
    requires ServicesContinue(a, b) && ServicesContinue(b, c)
    ensures ServicesContinue(a, c)
  {
  }

  /** Over any run an entry reference goes from uncreated to registered to detached and never
      back; its client, its history and the history of every service queue are only extended; and
      no two registered entries are of the same client. */
  lemma {:induction false} EntriesOnlyAge(cfg: Config, s: State, steps: seq<Step>, r: Ref)
    requires cfg.Valid() && Inv(cfg, s) && Legal(cfg, s, steps)
    ensures var t := Exec(cfg, s, steps);
            && Stage(s, r) <= Stage(t, r)
            && (Stage(s, r) > 0 ==> t.clients.entries[r].client == s.clients.entries[r].client
                                    && Continues(s.clients.entries[r].queue, t.clients.entries[r].queue))
            && ServicesContinue(s.services, t.services)
            && (Stage(t, r) == 1 ==> forall q: Ref :: q != r && Stage(t, q) == 1 ==> t.clients.entries[q].client != t.clients.entries[r].client)
    decreases |steps|
  {
    if steps != [] {
      var s1 := Apply(cfg, s, steps[0]);
      StepKeepsInv(cfg, s, steps[0]);
      StepAges(cfg, s, steps[0]);
      StageGrows(s, s1, r);
      EntriesOnlyAge(cfg, s1, steps[1..], r);
      var t := Exec(cfg, s, steps);
      ContinuesTransitively(s.services, s1.services, t.services);
    }
  }

  lemma StillRegistered(cfg: Config, s: State, steps: seq<Step>, r: Ref)
    requires cfg.Valid() && Inv(cfg, s) && Legal(cfg, s, steps) && r < |s.clients.entries|
    requires Registered(Exec(cfg, s, steps).clients, r)
    ensures Registered(s.clients, r)
  {
    hide Inv, Legal, Exec, Registered;
    EntriesOnlyAge(cfg, s, steps, r);
  }

  lemma StillThere(cfg: Config, s: State, steps: seq<Step>, r: Ref)
    requires cfg.Valid() && Inv(cfg, s) && Legal(cfg, s, steps) && r < |s.clients.entries|
    ensures r < |Exec(cfg, s, steps).clients.entries|
  {
    hide Inv, Legal, Exec, Registered;
    EntriesOnlyAge(cfg, s, steps, r);
  }

  lemma ClientStays(cfg: Config, s: State, step: Step, r: Ref)
    requires cfg.Valid() && Inv(cfg, s) && Enabled(cfg, s, step) && r < |s.clients.entries|
    ensures var t := Apply(cfg, s, step);
            r < |t.clients.entries| && t.clients.entries[r].client == s.clients.entries[r].client
  {
    hide Inv, Enabled, Apply, Registered, Detached;
    StepAges(cfg, s, step);
  }

  /** In every reachable state, for every queue: what was put is what was taken followed by the
      contents, and the contents never exceed the maximum. */
  lemma QueueHistory(cfg: Config, steps: seq<Step>)
    requires cfg.Valid() && IsRun(cfg, steps)
    ensures var t := Reached(cfg, steps);
            && (forall r :: 0 <= r < |t.clients.entries| ==> var q := t.clients.entries[r].queue;
                  q.put == q.taken + q.items && |q.items| <= cfg.clientMax)
            && (forall n :: n in t.services ==> var q := t.services[n];
                  q.put == q.taken + q.items && |q.items| <= cfg.serviceMax && |q.items| == |q.put| - |q.taken|)
  {
  }

  /** The handlers that may still take from `r`. */
  ghost function Takers(s: State, r: Ref): set<nat> {
    set h | h in s.handlers && Holds(s, h, r) && MayTake(s.handlers[h])
  }

  lemma TakersShrink(cfg: Config, s: State, step: Step, r: Ref)
    requires cfg.Valid() && Inv(cfg, s) && Enabled(cfg, s, step) && Detached(s.clients, r)
    ensures var t := Apply(cfg, s, step);
            && Detached(t.clients, r)
            && Takers(t, r) <= Takers(s, r)
            && (forall h :: Holds(t, h, r) ==> Holds(s, h, r))
  {
    StepAges(cfg, s, step);
    var t := Apply(cfg, s, step);
    forall h | Holds(t, h, r)
      ensures Holds(s, h, r) && (MayTake(t.handlers[h]) ==> MayTake(s.handlers[h]))
    {
      assert Detached(t.clients, r);
    }
  }

  lemma TakenOnlyByTakers(cfg: Config, s: State, step: Step, r: Ref)
    requires cfg.Valid() && Inv(cfg, s) && Enabled(cfg, s, step) && r < |s.clients.entries|
    ensures var t := Apply(cfg, s, step);
            && r < |t.clients.entries|
            && var before, after := s.clients.entries[r].queue.taken, t.clients.entries[r].queue.taken;
               if step.TakeResponse? && s.handlers[step.h].entry == r
               then step.h in Takers(s, r) && step.h !in Takers(t, r) && |after| == |before| + 1
               else |after| == |before|
  {
    hide Enabled, Apply, StoreInv, DoTakeResponse, Registered, Detached;
    StepAges(cfg, s, step);
    if step.TakeResponse? {
      TakeIsDoTake(cfg, s, step);
      TakeResponseAges(cfg, s, step.h);
    }
  }

  lemma TakeIsDoTake(cfg: Config, s: State, step: Step)
    requires cfg.Valid() && Enabled(cfg, s, step) && step.TakeResponse?
    ensures ResponseAvailable(s, step.h) && Apply(cfg, s, step) == DoTakeResponse(s, step.h)
    ensures step.h !in DoTakeResponse(s, step.h).handlers
  {
  }

  /** An item in a detached queue can only be taken by a handler that held the reference before the
      detachment, and each such handler takes at most one. With no such handler left the queue is
      never taken from again. */
  lemma {:induction false} DetachedOnlyToOldHolders(cfg: Config, s: State, steps: seq<Step>, r: Ref)
    requires cfg.Valid() && Inv(cfg, s) && Legal(cfg, s, steps) && Detached(s.clients, r)
    ensures var t := Exec(cfg, s, steps);
            && Detached(t.clients, r)
            && (forall h :: Holds(t, h, r) ==> Holds(s, h, r))
            && Takers(t, r) <= Takers(s, r)
            && |t.clients.entries[r].queue.taken| - |s.clients.entries[r].queue.taken| <= |Takers(s, r)| - |Takers(t, r)|
    decreases |steps|
  {
    if steps != [] {
      var step := steps[0];
      var s1 := Apply(cfg, s, step);
      StepKeepsInv(cfg, s, step);
      TakersShrink(cfg, s, step, r);
      TakenOnlyByTakers(cfg, s, step, r);
      if step.TakeResponse? && s.handlers[step.h].entry == r {
        SubsetSize(Takers(s1, r), Takers(s, r) - {step.h});
      } else {
        SubsetSize(Takers(s1, r), Takers(s, r));
      }
      DetachedOnlyToOldHolders(cfg, s1, steps[1..], r);
    }
  }
}
