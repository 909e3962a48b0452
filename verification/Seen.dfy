/** When a client counts as seen, and how long that keeps its entry. */
module Seen {
  import opened Messages
  import opened Deadlines
  import opened Store
  import opened Sweeping
  import opened Protocol
  import opened Frames
  import opened Orphans
  import opened Answers
  import LifeCycle

  /** When the client registered as `c` was last seen. */
  ghost function SeenOf(clients: Clients, c: ClientId): Option<real> {
    if c in clients.registry && clients.registry[c] < |clients.entries| then Some(clients.entries[clients.registry[c]].lastSeen) else None
  }

  /** The start of a GET or of a POST to a service: it registers its client, if need be. */
  predicate Comes(step: Step, c: ClientId) {
    (step.PostRequest? || step.PollResponses?) && step.client == c
  }

  /** The end of a GET, or of the first phase of a POST to a service. */
  predicate Returns(s: State, step: Step, c: ClientId) {
    match step
    case PutRequest(h) => h in s.handlers && s.handlers[h].Enqueuing? && s.handlers[h].client == c
    case RefuseRequest(h) => h in s.handlers && s.handlers[h].Enqueuing? && s.handlers[h].client == c
    case TakeResponse(h) => h in s.handlers && s.handlers[h].Polling? && s.handlers[h].client == c
    case NoResponse(h) => h in s.handlers && s.handlers[h].Polling? && s.handlers[h].client == c
    case _ => false
  }

  /** When `c` was last seen, after the step. */
  ghost function SeenAfter(cfg: Config, s: State, step: Step, c: ClientId): Option<real>
    requires cfg.Valid()
  {
    var before := SeenOf(s.clients, c);
    if Comes(step, c) then
      Some(s.clock)
    else if before.Some? && Returns(s, step, c) then
      Some(s.clock)
    else if before.None? && step.PostResponse? && step.client == c then
      Some(s.clock)
    else if step == Logoff(c) || (step.Reap? && c in Evicted(cfg.reaper, s.cursor, MomentOf(s, step.snapshot))) then
      None
    else
      before
  }

  lemma BumpSeen(clients: Clients, d: ClientId, now: real, max: nat, c: ClientId)
    requires clients.Valid(max)
    ensures SeenOf(clients.Bump(d, now), c) == if c == d && SeenOf(clients, c).Some? then Some(now) else SeenOf(clients, c)
  {
  }

  lemma CreateSeen(clients: Clients, d: ClientId, now: real, max: nat, c: ClientId)
    requires clients.Valid(max)
    ensures clients.GetOrCreate(d, now).Valid(max)
    ensures SeenOf(clients.GetOrCreate(d, now), c) == if c == d && SeenOf(clients, c).None? then Some(now) else SeenOf(clients, c)
  {
  }

  lemma RemoveSeen(clients: Clients, gone: set<ClientId>, c: ClientId)
    ensures SeenOf(clients.RemoveAll(gone), c) == if c in gone then None else SeenOf(clients, c)
    ensures SeenOf(clients.Remove(c), c) == None
    ensures forall d: ClientId :: d != c ==> SeenOf(clients.Remove(d), c) == SeenOf(clients, c)
  {
  }

  lemma QueueSeen(clients: Clients, r: Ref, x: PypeResponse, max: nat, c: ClientId)
    requires clients.Valid(max) && r < |clients.entries|
    ensures SeenOf(clients.Put(r, x), c) == SeenOf(clients, c)
    ensures clients.entries[r].queue.items != [] ==> clients.Take(r).Valid(max) && SeenOf(clients.Take(r), c) == SeenOf(clients, c)
  {
    if clients.entries[r].queue.items != [] {
      TakeEvolves(clients, r, max, 0.0);
    }
  }

  lemma TouchSeen(s: State, d: ClientId, max: nat, c: ClientId)
    requires s.clients.Valid(max)
    ensures SeenOf(s.clients.GetOrCreate(d, s.clock).Bump(d, s.clock), c) == if c == d then Some(s.clock) else SeenOf(s.clients, c)
  {
    hide Clients.GetOrCreate, Clients.Bump, Clients.Valid;
    CreateSeen(s.clients, d, s.clock, max, d);
    CreateSeen(s.clients, d, s.clock, max, c);
    BumpSeen(s.clients.GetOrCreate(d, s.clock), d, s.clock, max, c);
  }

  lemma WaitsSeen(s: State, h: nat, max: nat, c: ClientId)
    requires s.clients.Valid(max) && h in s.handlers
    ensures s.handlers[h].Enqueuing? ==> DoRefuseRequest(s, h).clients == s.clients.Bump(s.handlers[h].client, s.clock)
    ensures GetsResponse(s, h) ==> DoNoResponse(s, h).clients == if s.handlers[h].Polling? then s.clients.Bump(s.handlers[h].client, s.clock) else s.clients
    ensures ResponseAvailable(s, h) ==>
              var taken := s.clients.Take(s.handlers[h].entry);
              DoTakeResponse(s, h).clients == if s.handlers[h].Polling? then taken.Bump(s.handlers[h].client, s.clock) else taken
    ensures s.handlers[h].Delivering? && s.handlers[h].entry < |s.clients.entries| ==>
              DoPutResponse(s, h).clients == s.clients.Put(s.handlers[h].entry, s.handlers[h].response)
  {
    hide Clients.Bump, Clients.Take, Clients.Put;
  }

  lemma StartSeen(cfg: Config, s: State, step: Step, c: ClientId)
    requires cfg.Valid() && Inv(cfg, s) && Enabled(cfg, s, step)
    requires step.PostRequest? || step.PollResponses? || step.PostResponse?
    ensures SeenOf(Apply(cfg, s, step).clients, c) == SeenAfter(cfg, s, step, c)
  {
    hide DoPostRequest, DoPollResponses, DoPostResponse, DoPutRequest, DoRefuseRequest, DoTakeResponse, DoNoResponse, DoPutResponse;
    hide HandlersInv, MayGiveUp, MayAdvance, DoEnqueue, DoAnswer, DoRefuseResponse, DoPullRequest, DoTakeRequest, DoNoRequest;
    hide Clients.Valid, Clients.GetOrCreate, Clients.Bump, Clients.Put, Clients.Take, Clients.Remove, Clients.RemoveAll, SeenOf, Evicted, TickCursor;
    match step
    case PostRequest(d, service, request, timeout, block) =>
      PostRequestShape(cfg, s, d, service, request, timeout, block);
      TouchSeen(s, d, cfg.clientMax, c);
    case PollResponses(d, timeout) =>
      PollShape(cfg, s, d, timeout);
      TouchSeen(s, d, cfg.clientMax, c);
    case PostResponse(d, x, timeout) =>
      PostResponseShape(cfg, s, d, x, timeout);
      CreateSeen(s.clients, d, s.clock, cfg.clientMax, c);
  }

  lemma PhaseSeen(cfg: Config, s: State, step: Step, c: ClientId)
    requires cfg.Valid() && Inv(cfg, s) && Enabled(cfg, s, step)
    requires step.PutRequest? || step.RefuseRequest?
    ensures SeenOf(Apply(cfg, s, step).clients, c) == SeenAfter(cfg, s, step, c)
  {
    hide DoPostRequest, DoPollResponses, DoPostResponse, DoPutRequest, DoRefuseRequest, DoTakeResponse, DoNoResponse, DoPutResponse;
    hide HandlersInv, MayGiveUp, MayAdvance, DoEnqueue, DoAnswer, DoRefuseResponse, DoPullRequest, DoTakeRequest, DoNoRequest;
    hide Clients.Valid, Clients.GetOrCreate, Clients.Bump, Clients.Put, Clients.Take, Clients.Remove, Clients.RemoveAll, SeenOf, Evicted, TickCursor;
    HandlerIsOk(cfg, s, step.h);
    if step.PutRequest? {
      PutRequestShape(s, step.h);
    } else {
      WaitsSeen(s, step.h, cfg.clientMax, c);
    }
    BumpSeen(s.clients, s.handlers[step.h].client, s.clock, cfg.clientMax, c);
  }

  lemma TakeSeen(cfg: Config, s: State, h: nat, c: ClientId)
    requires cfg.Valid() && Inv(cfg, s) && Enabled(cfg, s, TakeResponse(h))
    ensures SeenOf(Apply(cfg, s, TakeResponse(h)).clients, c) == SeenAfter(cfg, s, TakeResponse(h), c)
  {
    hide DoPostRequest, DoPollResponses, DoPostResponse, DoPutRequest, DoRefuseRequest, DoTakeResponse, DoNoResponse, DoPutResponse;
    hide HandlersInv, MayGiveUp, MayAdvance, DoEnqueue, DoAnswer, DoRefuseResponse, DoPullRequest, DoTakeRequest, DoNoRequest;
    hide Clients.Valid, Clients.GetOrCreate, Clients.Bump, Clients.Put, Clients.Take, Clients.Remove, Clients.RemoveAll, SeenOf, Evicted, TickCursor;
    var p := s.handlers[h];
    WaitsSeen(s, h, cfg.clientMax, c);
    QueueSeen(s.clients, p.entry, s.clients.entries[p.entry].queue.items[0], cfg.clientMax, c);
    BumpSeen(s.clients.Take(p.entry), p.client, s.clock, cfg.clientMax, c);
  }

  lemma EndSeen(cfg: Config, s: State, step: Step, c: ClientId)
    requires cfg.Valid() && Inv(cfg, s) && Enabled(cfg, s, step)
    requires step.NoResponse? || step.PutResponse?
    ensures SeenOf(Apply(cfg, s, step).clients, c) == SeenAfter(cfg, s, step, c)
  {
    hide DoPostRequest, DoPollResponses, DoPostResponse, DoPutRequest, DoRefuseRequest, DoTakeResponse, DoNoResponse, DoPutResponse;
    hide HandlersInv, MayGiveUp, MayAdvance, DoEnqueue, DoAnswer, DoRefuseResponse, DoPullRequest, DoTakeRequest, DoNoRequest;
    hide Clients.Valid, Clients.GetOrCreate, Clients.Bump, Clients.Put, Clients.Take, Clients.Remove, Clients.RemoveAll, SeenOf, Evicted, TickCursor;
    var p := s.handlers[step.h];
    WaitsSeen(s, step.h, cfg.clientMax, c);
    if step.NoResponse? {
      BumpSeen(s.clients, p.client, s.clock, cfg.clientMax, c);
    } else {
      QueueSeen(s.clients, p.entry, p.response, cfg.clientMax, c);
    }
  }

  lemma RemovalSeen(cfg: Config, s: State, step: Step, c: ClientId)
    requires cfg.Valid() && Inv(cfg, s) && Enabled(cfg, s, step) && (step.Reap? || step.Logoff?)
    ensures SeenOf(Apply(cfg, s, step).clients, c) == SeenAfter(cfg, s, step, c)
  {
    hide DoPostRequest, DoPollResponses, DoPostResponse, DoPutRequest, DoRefuseRequest, DoTakeResponse, DoNoResponse, DoPutResponse;
    hide HandlersInv, MayGiveUp, MayAdvance, DoEnqueue, DoAnswer, DoRefuseResponse, DoPullRequest, DoTakeRequest, DoNoRequest;
    hide Clients.Valid, Clients.GetOrCreate, Clients.Bump, Clients.Put, Clients.Take, Clients.Remove, Clients.RemoveAll, SeenOf, Evicted, TickCursor;
    if step.Reap? {
      RemoveSeen(s.clients, Evicted(cfg.reaper, s.cursor, MomentOf(s, step.snapshot)), c);
    } else {
      RemoveSeen(s.clients, {}, c);
    }
  }

  /** When a client was last seen changes exactly so: to now when a GET or a POST to a service of its
      starts, and when the GET or the put of the request ends if it is registered then; a response
      posted to an unknown client creates it as just seen, and one posted to a known client is no sign
      of it. */
  lemma StepSeen(cfg: Config, s: State, step: Step, c: ClientId)
    requires cfg.Valid() && Inv(cfg, s) && Enabled(cfg, s, step)
    ensures SeenOf(Apply(cfg, s, step).clients, c) == SeenAfter(cfg, s, step, c)
  {
    hide Inv, Enabled, Apply, SeenOf, Evicted;
    if LeavesClients(step) {
      ClientsLeft(cfg, s, step);
    } else if step.PutRequest? || step.RefuseRequest? {
      PhaseSeen(cfg, s, step, c);
    } else if step.TakeResponse? {
      TakeSeen(cfg, s, step.h, c);
    } else if step.NoResponse? || step.PutResponse? {
      EndSeen(cfg, s, step, c);
    } else if step.Reap? || step.Logoff? {
      RemovalSeen(cfg, s, step, c);
    } else {
      StartSeen(cfg, s, step, c);
    }
  }

  /** An entry stays registered for at least the threshold after its client was last seen, in every
      run without a logoff of that client. */
  lemma {:induction false} SeenEntryStays(cfg: Config, s: State, steps: seq<Step>, r: Ref)
    requires cfg.Valid() && Inv(cfg, s) && Legal(cfg, s, steps) && Registered(s.clients, r)
    requires Logoff(s.clients.entries[r].client) !in steps
    requires Exec(cfg, s, steps).clock - LastSeenOf(s, r) <= cfg.reaper.threshold
    ensures Registered(Exec(cfg, s, steps).clients, r) && LastSeenOf(Exec(cfg, s, steps), r) >= LastSeenOf(s, r)
    decreases |steps|
  {
    hide Inv, Enabled, Apply;
    if steps != [] {
      var s1 := Apply(cfg, s, steps[0]);
      StepKeepsInv(cfg, s, steps[0]);
      ClockMovesOn(cfg, s, steps[0]);
      ClockMovesOnInRun(cfg, s1, steps[1..]);
      LifeCycle.ClientStays(cfg, s, steps[0], r);
      StepStaysAlive(cfg, s, steps[0], r);
      SeenEntryStays(cfg, s1, steps[1..], r);
    }
  }
}
