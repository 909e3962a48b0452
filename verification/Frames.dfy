/** What a step leaves alone, step by step. */
module Frames {
  import opened Messages
  import opened Deadlines
  import opened Store
  import opened Sweeping
  import opened Protocol
  import LifeCycle

  /** The clock, the reaper's cursor, the record of posts and the clients' own state are as they were. */
  ghost predicate SameClock(s: State, t: State) {
    t.clock == s.clock && t.cursor == s.cursor && t.posted == s.posted && SameClients(s, t)
  }

  ghost predicate SameClients(s: State, t: State) {
    t.caches == s.caches && t.returned == s.returned
  }

  lemma PostRequestKeepsClock(cfg: Config, s: State, c: ClientId, service: ServiceName, request: PypeRequest, timeout: Option<int>, block: bool)
    ensures SameClock(s, DoPostRequest(cfg, s, c, service, request, timeout, block))
  {
    hide Clients.GetOrCreate, Clients.Bump, NormalizeTimeout, TokenOf;
  }

  lemma PollResponsesKeepsClock(cfg: Config, s: State, c: ClientId, timeout: Option<int>)
    ensures SameClock(s, DoPollResponses(cfg, s, c, timeout))
  {
    hide Clients.GetOrCreate, Clients.Bump, NormalizeTimeout;
  }

  lemma PullRequestKeepsClock(cfg: Config, s: State, service: ServiceName, timeout: Option<int>)
    ensures SameClock(s, DoPullRequest(cfg, s, service, timeout))
  {
    hide EnsureService, NormalizeTimeout;
  }

  lemma PostResponseClock(cfg: Config, s: State, c: ClientId, x: PypeResponse, timeout: Option<int>)
    ensures var t := DoPostResponse(cfg, s, c, x, timeout);
            t.clock == s.clock && t.cursor == s.cursor && t.posted == s.posted + {(c, x)} && SameClients(s, t)
  {
    hide Clients.GetOrCreate, NormalizeTimeout;
  }

  lemma RequestPhasesKeepClock(s: State, h: nat)
    requires h in s.handlers
    ensures s.handlers[h].Posting? ==> SameClock(s, DoEnqueue(s, h))
    ensures s.handlers[h].Enqueuing? && s.handlers[h].service in s.services ==> SameClock(s, DoPutRequest(s, h))
    ensures s.handlers[h].Enqueuing? ==> SameClock(s, DoRefuseRequest(s, h))
    ensures RequestAvailable(s, h) ==> SameClock(s, DoTakeRequest(s, h))
    ensures SameClock(s, DoNoRequest(s, h))
  {
    hide Clients.Bump, EnsureService, ServerRemaining, TokenOf;
  }

  lemma ResponsePhasesKeepClock(s: State, h: nat)
    requires h in s.handlers
    ensures ResponseAvailable(s, h) ==> SameClock(s, DoTakeResponse(s, h))
    ensures GetsResponse(s, h) ==> SameClock(s, DoNoResponse(s, h))
    ensures s.handlers[h].Answering? ==> SameClock(s, DoAnswer(s, h))
    ensures s.handlers[h].Delivering? && s.handlers[h].entry < |s.clients.entries| ==> SameClock(s, DoPutResponse(s, h))
    ensures s.handlers[h].Delivering? ==> SameClock(s, DoRefuseResponse(s, h))
  {
    hide Clients.Bump, Clients.Take, Clients.Put;
  }

  /** Only time passing moves the clock, only a tick moves the cursor, only a POST to a client is
      recorded as one, and only a client's own steps change what it has cached and returned. */
  lemma StepClock(cfg: Config, s: State, step: Step)
    requires cfg.Valid() && Inv(cfg, s) && Enabled(cfg, s, step)
    ensures var t := Apply(cfg, s, step);
            && t.clock == (if step.Advance? then step.to else s.clock)
            && t.cursor == (if step.Reap? then TickCursor(cfg.reaper, s.cursor, MomentOf(s, step.snapshot)) else s.cursor)
            && t.posted == (if step.PostResponse? then s.posted + {(step.client, step.response)} else s.posted)
            && (!step.CollectResponse? && !step.PopCached? ==> SameClients(s, t))
  {
    hide Inv, DoPostRequest, DoPollResponses, DoPullRequest, DoPostResponse, DoEnqueue, DoPutRequest, DoRefuseRequest;
    hide DoTakeRequest, DoNoRequest, DoTakeResponse, DoNoResponse, DoAnswer, DoPutResponse, DoRefuseResponse;
    hide TickCursor, Evicted, MomentOf, MayGiveUp;
    match step
    case PostRequest(c, service, request, timeout, block) => PostRequestKeepsClock(cfg, s, c, service, request, timeout, block);
    case PollResponses(c, timeout) => PollResponsesKeepsClock(cfg, s, c, timeout);
    case PullRequest(service, timeout) => PullRequestKeepsClock(cfg, s, service, timeout);
    case AuthService(_) =>
    case Logoff(_) =>
    case PostResponse(c, x, timeout) => PostResponseClock(cfg, s, c, x, timeout);
    case Enqueue(h) => RequestPhasesKeepClock(s, h);
    case PutRequest(h) =>
      HandlerIsOk(cfg, s, h);
      RequestPhasesKeepClock(s, h);
    case RefuseRequest(h) => RequestPhasesKeepClock(s, h);
    case TakeRequest(h) => RequestPhasesKeepClock(s, h);
    case NoRequest(h) => RequestPhasesKeepClock(s, h);
    case TakeResponse(h) => ResponsePhasesKeepClock(s, h);
    case NoResponse(h) => ResponsePhasesKeepClock(s, h);
    case Answer(h) => ResponsePhasesKeepClock(s, h);
    case PutResponse(h) =>
      HandlerIsOk(cfg, s, h);
      ResponsePhasesKeepClock(s, h);
    case RefuseResponse(h) => ResponsePhasesKeepClock(s, h);
    case Reap(_) =>
    case Advance(_) =>
    case CollectRequest(_) =>
    case CollectResponse(_, _) =>
    case PopCached(_) =>
  }

  // ---------------------------------------------------------------- handlers

  /** The handler has gone, and the others are as they were. */
  ghost predicate Gone(s: State, t: State, h: nat) {
    t.handlers == s.handlers - {h}
  }

  lemma EndsAreGone(s: State, h: nat)
    requires h in s.handlers
    ensures s.handlers[h].Enqueuing? ==> Gone(s, DoRefuseRequest(s, h), h)
    ensures RequestAvailable(s, h) ==> Gone(s, DoTakeRequest(s, h), h)
    ensures Gone(s, DoNoRequest(s, h), h)
    ensures ResponseAvailable(s, h) ==> Gone(s, DoTakeResponse(s, h), h)
    ensures GetsResponse(s, h) ==> Gone(s, DoNoResponse(s, h), h)
    ensures s.handlers[h].Delivering? && s.handlers[h].entry < |s.clients.entries| ==> Gone(s, DoPutResponse(s, h), h)
    ensures s.handlers[h].Delivering? ==> Gone(s, DoRefuseResponse(s, h), h)
  {
    hide Clients.Bump, Clients.Take, Clients.Put;
  }

  predicate Starts(step: Step) {
    step.PostRequest? || step.PollResponses? || step.PostResponse? || step.PullRequest?
  }

  /** The step takes a handler that stays from one wait to the next. */
  predicate GoesOn(step: Step) {
    step.Enqueue? || step.PutRequest? || step.Answer?
  }

  /** Any other step leaves handlers as they were, or ends one. */
  lemma HandlersStay(cfg: Config, s: State, step: Step)
    requires cfg.Valid() && Inv(cfg, s) && Enabled(cfg, s, step) && !Starts(step) && !GoesOn(step)
    ensures var t := Apply(cfg, s, step); forall h :: h in t.handlers ==> h in s.handlers && t.handlers[h] == s.handlers[h]
  {
    hide Inv, DoRefuseRequest, DoTakeRequest, DoNoRequest, DoTakeResponse, DoNoResponse, DoPutResponse, DoRefuseResponse;
    hide TickCursor, Evicted, MomentOf, MayGiveUp, MayAdvance;
    match step
    case RefuseRequest(h) => EndsAreGone(s, h);
    case TakeRequest(h) => EndsAreGone(s, h);
    case NoRequest(h) => EndsAreGone(s, h);
    case TakeResponse(h) => EndsAreGone(s, h);
    case NoResponse(h) => EndsAreGone(s, h);
    case PutResponse(h) =>
      HandlerIsOk(cfg, s, h);
      EndsAreGone(s, h);
    case RefuseResponse(h) => EndsAreGone(s, h);
    case AuthService(_) =>
    case Logoff(_) =>
    case Reap(_) =>
    case Advance(_) =>
    case CollectRequest(_) =>
    case CollectResponse(_, _) =>
    case PopCached(_) =>
  }

  /** The other handlers are as they were, and at most the handler `next` is new. */
  ghost predicate AddsNext(s: State, t: State) {
    && t.handlers.Keys <= s.handlers.Keys + {s.next}
    && forall h :: h in s.handlers && h != s.next ==> h in t.handlers && t.handlers[h] == s.handlers[h]
  }

  lemma PostRequestAddsNext(cfg: Config, s: State, c: ClientId, service: ServiceName, request: PypeRequest, timeout: Option<int>, block: bool)
    ensures AddsNext(s, DoPostRequest(cfg, s, c, service, request, timeout, block))
  {
  }

  lemma PollAddsNext(cfg: Config, s: State, c: ClientId, timeout: Option<int>)
    ensures AddsNext(s, DoPollResponses(cfg, s, c, timeout))
  {
  }

  lemma PostResponseAddsNext(cfg: Config, s: State, c: ClientId, x: PypeResponse, timeout: Option<int>)
    ensures var t := DoPostResponse(cfg, s, c, x, timeout);
            AddsNext(s, t) && (s.next !in s.handlers && s.next in t.handlers ==> t.handlers[s.next].Answering?)
  {
  }

  lemma PullRequestAddsNext(cfg: Config, s: State, service: ServiceName, timeout: Option<int>)
    ensures var t := DoPullRequest(cfg, s, service, timeout);
            AddsNext(s, t) && (s.next !in s.handlers && s.next in t.handlers ==> t.handlers[s.next].Pulling?)
  {
  }

  lemma StartAddsNext(cfg: Config, s: State, step: Step)
    requires cfg.Valid() && Inv(cfg, s) && Enabled(cfg, s, step) && Starts(step)
    ensures var t := Apply(cfg, s, step);
            && AddsNext(s, t) && s.next !in s.handlers
            && ((step.PostResponse? || step.PullRequest?) && s.next in t.handlers ==> t.handlers[s.next].Answering? || t.handlers[s.next].Pulling?)
  {
    assert s.next !in s.handlers;
    hide DoPostRequest, DoPollResponses, DoPostResponse, DoPullRequest, Inv;
    match step
    case PostRequest(c, service, request, timeout, block) => PostRequestAddsNext(cfg, s, c, service, request, timeout, block);
    case PollResponses(c, timeout) => PollAddsNext(cfg, s, c, timeout);
    case PostResponse(c, x, timeout) => PostResponseAddsNext(cfg, s, c, x, timeout);
    case PullRequest(service, timeout) => PullRequestAddsNext(cfg, s, service, timeout);
  }

  lemma MoveStays(cfg: Config, s: State, h: nat)
    requires h in s.handlers
    ensures s.handlers[h].Posting? ==>
              && DoEnqueue(s, h).handlers == s.handlers[h := DoEnqueue(s, h).handlers[h]]
              && DoEnqueue(s, h).handlers[h].Enqueuing? && DoEnqueue(s, h).handlers[h].client == s.handlers[h].client
    ensures s.handlers[h].Answering? ==>
              && DoAnswer(s, h).handlers == s.handlers[h := DoAnswer(s, h).handlers[h]]
              && DoAnswer(s, h).handlers[h].Delivering? && DoAnswer(s, h).handlers[h].client == s.handlers[h].client
  {
  }

  /** Only the four starting steps add a handler. */
  lemma OnlyStartsAddHandlers(cfg: Config, s: State, step: Step)
    requires cfg.Valid() && Inv(cfg, s) && Enabled(cfg, s, step) && !Starts(step)
    ensures Apply(cfg, s, step).handlers.Keys <= s.handlers.Keys
  {
    hide Inv, DoEnqueue, DoAnswer, DoPutRequest, MayGiveUp, MayAdvance, Evicted, TickCursor;
    if step.Enqueue? || step.Answer? {
      MoveStays(cfg, s, step.h);
    } else if step.PutRequest? {
      HandlerIsOk(cfg, s, step.h);
      PutRequestShape(s, step.h);
    } else {
      HandlersStay(cfg, s, step);
    }
  }

  /** A handler that is gone does not come back: its number is never used again. */
  lemma GoneForGood(cfg: Config, s: State, step: Step, h: nat)
    requires cfg.Valid() && Inv(cfg, s) && Enabled(cfg, s, step)
    requires h !in s.handlers && h < s.next
    ensures h !in Apply(cfg, s, step).handlers && h < Apply(cfg, s, step).next
  {
    hide Inv, Enabled, Apply;
    LifeCycle.StepAges(cfg, s, step);
    if Starts(step) {
      StartAddsNext(cfg, s, step);
    } else {
      OnlyStartsAddHandlers(cfg, s, step);
    }
  }

  lemma {:induction false} GoneAfterRun(cfg: Config, s: State, steps: seq<Step>, h: nat)
    requires cfg.Valid() && Inv(cfg, s) && Legal(cfg, s, steps)
    requires h !in s.handlers && h < s.next
    ensures h !in Exec(cfg, s, steps).handlers
    decreases |steps|
  {
    hide Inv, Enabled, Apply;
    if steps != [] {
      StepKeepsInv(cfg, s, steps[0]);
      GoneForGood(cfg, s, steps[0], h);
      GoneAfterRun(cfg, Apply(cfg, s, steps[0]), steps[1..], h);
    }
  }

  lemma NumberStaysUsed(cfg: Config, s: State, step: Step, h: nat)
    requires cfg.Valid() && Inv(cfg, s) && Enabled(cfg, s, step) && h in s.handlers
    ensures h < Apply(cfg, s, step).next
  {
    hide Enabled, Apply, StoreInv, HandlerOk;
    LifeCycle.StepAges(cfg, s, step);
  }

  // ---------------------------------------------------------------- clients

  predicate LeavesClients(step: Step) {
    || step.Enqueue? || step.Answer? || step.RefuseResponse? || step.PullRequest? || step.TakeRequest? || step.NoRequest?
    || step.AuthService? || step.Advance? || step.CollectRequest? || step.CollectResponse? || step.PopCached?
  }

  lemma PullRequestLeavesClients(cfg: Config, s: State, service: ServiceName, timeout: Option<int>)
    ensures DoPullRequest(cfg, s, service, timeout).clients == s.clients
  {
    hide EnsureService, NormalizeTimeout;
  }

  lemma PhasesLeaveClients(s: State, h: nat)
    requires h in s.handlers
    ensures s.handlers[h].Posting? ==> DoEnqueue(s, h).clients == s.clients
    ensures s.handlers[h].Answering? ==> DoAnswer(s, h).clients == s.clients
    ensures s.handlers[h].Delivering? ==> DoRefuseResponse(s, h).clients == s.clients
    ensures RequestAvailable(s, h) ==> DoTakeRequest(s, h).clients == s.clients
    ensures DoNoRequest(s, h).clients == s.clients
  {
    hide EnsureService, ServerRemaining;
  }

  lemma ClientsLeft(cfg: Config, s: State, step: Step)
    requires cfg.Valid() && Inv(cfg, s) && Enabled(cfg, s, step) && LeavesClients(step)
    ensures Apply(cfg, s, step).clients == s.clients
  {
    hide Inv, DoEnqueue, DoAnswer, DoRefuseResponse, DoPullRequest, DoTakeRequest, DoNoRequest, MayGiveUp, MayAdvance;
    match step
    case Enqueue(h) => PhasesLeaveClients(s, h);
    case Answer(h) => PhasesLeaveClients(s, h);
    case RefuseResponse(h) => PhasesLeaveClients(s, h);
    case TakeRequest(h) => PhasesLeaveClients(s, h);
    case NoRequest(h) => PhasesLeaveClients(s, h);
    case PullRequest(service, timeout) => PullRequestLeavesClients(cfg, s, service, timeout);
    case AuthService(_) =>
    case Advance(_) =>
    case CollectRequest(_) =>
    case CollectResponse(_, _) =>
    case PopCached(_) =>
  }

  // ---------------------------------------------------------------- the whole effect of some stretches

  /** Requests and responses elsewhere than in queues and handlers are where they were. */
  ghost predicate SameSets(s: State, t: State) {
    t.hands == s.hands && t.caches == s.caches && t.returned == s.returned && t.dropped == s.dropped
  }

  /** What a poll leaves behind it before it waits. */
  lemma PollShape(cfg: Config, s: State, c: ClientId, timeout: Option<int>)
    ensures var t := DoPollResponses(cfg, s, c, timeout);
            var n := NormalizeTimeout(timeout, cfg.maxTimeout);
            && t.clients == s.clients.GetOrCreate(c, s.clock).Bump(c, s.clock) && t.services == s.services
            && c in t.clients.registry && t.clients.registry == s.clients.GetOrCreate(c, s.clock).registry
            && (n.Err? ==> t.replies == s.replies[s.next := BadRequest])
            && (n.Ok? ==> t.handlers == s.handlers[s.next := Polling(c, t.clients.registry[c], s.clock + n.value as real)])
  {
  }

  /** What a pull leaves behind it before it waits; one that is refused leaves no queue. */
  lemma PullShape(cfg: Config, s: State, service: ServiceName, timeout: Option<int>)
    ensures var t := DoPullRequest(cfg, s, service, timeout);
            var n := NormalizeTimeout(timeout, cfg.maxTimeout);
            && t.clients == s.clients && t.accepted == s.accepted && SameSets(s, t)
            && if n.Ok?
               then && t.services == EnsureService(s.services, service) && t.replies == s.replies
                    && t.handlers == s.handlers[s.next := Pulling(service, s.clock + n.value as real)]
               else t.services == s.services && t.handlers == s.handlers && t.replies == s.replies[s.next := BadRequest]
  {
  }

  /** What the POST of a response leaves behind it before it reads its body. */
  lemma PostResponseShape(cfg: Config, s: State, c: ClientId, x: PypeResponse, timeout: Option<int>)
    ensures var token, t := Token(c, x.requestId), DoPostResponse(cfg, s, c, x, timeout);
            var n := NormalizeTimeout(timeout, cfg.maxTimeout);
            && t.clients == s.clients.GetOrCreate(c, s.clock) && t.services == s.services && c in t.clients.registry
            && t.accepted == s.accepted && t.hands == s.hands - {token} && t.caches == s.caches && t.returned == s.returned
            && if n.Ok?
               then && t.handlers == s.handlers[s.next := Answering(c, t.clients.registry[c], x, n.value)]
                    && t.replies == s.replies && t.dropped == s.dropped
               else t.handlers == s.handlers && t.replies == s.replies[s.next := BadRequest] && t.dropped == s.dropped + {token}
  {
  }

  /** What the POST of a request leaves behind it before it reads its body. */
  lemma PostRequestShape(cfg: Config, s: State, c: ClientId, service: ServiceName, request: PypeRequest, timeout: Option<int>, block: bool)
    ensures var t := DoPostRequest(cfg, s, c, service, request, timeout, block);
            var n := NormalizeTimeout(timeout, cfg.maxTimeout);
            && t.clients == s.clients.GetOrCreate(c, s.clock).Bump(c, s.clock) && t.services == s.services
            && c in t.clients.registry && t.clients.registry == s.clients.GetOrCreate(c, s.clock).registry
            && SameSets(s, t) && t.accepted == s.accepted && t.minted == s.minted + {TokenOf(request)}
            && if n.Ok?
               then && t.handlers == s.handlers[s.next := Posting(c, t.clients.registry[c], service, request, n.value, block, s.clock)]
                    && t.replies == s.replies
               else t.handlers == s.handlers && t.replies == s.replies[s.next := BadRequest]
  {
  }

  /** How phase 1 of the POST of a request ends when there was room. */
  lemma PutRequestShape(s: State, h: nat)
    requires h in s.handlers && s.handlers[h].Enqueuing? && s.handlers[h].service in s.services
    ensures var t, p := DoPutRequest(s, h), s.handlers[h];
            && t.clients == s.clients.Bump(p.client, s.clock)
            && t.services == s.services[p.service := s.services[p.service].Put(p.request)]
            && SameSets(s, t) && t.accepted == s.accepted + {TokenOf(p.request)} && t.minted == s.minted
            && if p.block
               then && t.handlers == s.handlers[h := Awaiting(p.client, p.entry, p.total, s.clock - p.since, p.deadline,
                                                              s.clock + ServerRemaining(p.deadline, s.clock) as real)]
                    && t.replies == s.replies
               else t.handlers == s.handlers - {h} && t.replies == s.replies[h := AcceptedReply]
  {
  }
}
