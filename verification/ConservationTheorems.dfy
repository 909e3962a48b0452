/** Conservation over whole runs: what every step of an honest run keeps, and what follows. */
module ConservationTheorems {
  import opened Messages
  import opened Deadlines
  import opened Store
  import opened Sweeping
  import opened Protocol
  import opened Frames
  import opened Conservation
  import CrossClient

  // ---------------------------------------------------------------- steps that move nothing

  /** No request starts on its way, and none is accepted. */
  ghost predicate NoNewPosters(s: State, t: State) {
    && t.accepted == s.accepted && s.minted <= t.minted
    && forall h :: h in t.handlers && IsPoster(t.handlers[h]) ==>
         h in s.handlers && IsPoster(s.handlers[h]) && t.handlers[h].request == s.handlers[h].request
  }

  lemma PostersStayNew(s: State, t: State)
    requires PostersNew(s) && NoNewPosters(s, t)
    ensures PostersNew(t)
  {
  }

  /** Nothing moves and no request starts. */
  ghost predicate Still(s: State, t: State) {
    && SameServiceItems(s.services, t.services) && SameEntryItems(s.clients, t.clients)
    && SamePosts(s.handlers, t.handlers) && SameMail(s.replies, t.replies) && SameHoldings(s, t)
    && NoNewPosters(s, t)
  }

  lemma StillKeepsAccounted(s: State, t: State)
    requires Accounted(s) && Still(s, t)
    ensures Accounted(t) && Moves(s, t)
  {
    Frame(s, t);
    PostersStayNew(s, t);
    MovesConserve(s, t);
  }

  lemma FinishIsStill(s: State, h: nat, reply: Reply)
    requires h in s.handlers && h !in s.replies && !s.handlers[h].Answering? && !s.handlers[h].Delivering?
    requires !reply.Request? && !reply.Response?
    ensures Still(s, Finish(s, h, reply))
  {
  }

  lemma BumpAndFinishIsStill(s: State, h: nat, c: ClientId, reply: Reply)
    requires h in s.handlers && h !in s.replies && !s.handlers[h].Answering? && !s.handlers[h].Delivering?
    requires !reply.Request? && !reply.Response?
    ensures Still(s, Finish(Bump(s, c), h, reply))
  {
  }

  lemma RefuseRequestIsStill(s: State, h: nat)
    requires h in s.handlers && h !in s.replies && s.handlers[h].Enqueuing?
    ensures Still(s, DoRefuseRequest(s, h))
  {
    BumpAndFinishIsStill(s, h, s.handlers[h].client, Unavailable);
  }

  lemma NoResponseIsStill(s: State, h: nat)
    requires h !in s.replies && GetsResponse(s, h)
    ensures Still(s, DoNoResponse(s, h))
  {
    BumpAndFinishIsStill(s, h, s.handlers[h].client, NoContent);
    FinishIsStill(s, h, AcceptedReply);
  }

  /** What is still after a change of the clients alone is still. */
  lemma StillWithClients(s: State, t: State, u: State)
    requires t == s.(clients := t.clients) && SameEntryItems(s.clients, t.clients) && u.clients == t.clients && Still(t, u)
    ensures Still(s, u)
  {
  }

  /** The same after a change of the services alone. */
  lemma StillWithServices(s: State, t: State, u: State)
    requires t == s.(services := t.services) && SameServiceItems(s.services, t.services) && u.services == t.services && Still(t, u)
    ensures Still(s, u)
  {
  }

  lemma EnqueueIsStill(s: State, h: nat)
    requires h in s.handlers && s.handlers[h].Posting?
    ensures Still(s, DoEnqueue(s, h))
  {
  }

  lemma AnswerIsStill(s: State, h: nat)
    requires h in s.handlers && s.handlers[h].Answering?
    ensures Still(s, DoAnswer(s, h))
  {
  }

  lemma PollIsStill(cfg: Config, s: State, c: ClientId, timeout: Option<int>)
    requires s.next !in s.handlers && s.next !in s.replies
    ensures Still(s, DoPollResponses(cfg, s, c, timeout))
  {
    var t := Touch(s, c);
    TouchKeepsItems(s.clients, c, s.clock, {});
    match NormalizeTimeout(timeout, cfg.maxTimeout)
    case Err(_) =>
      RespondIsStill(t);
      StillWithClients(s, t, Respond(t, BadRequest));
    case Ok(n) =>
      var p := Polling(c, t.clients.registry[c], s.clock + n as real);
      BeginIsStill(t, p);
      StillWithClients(s, t, BeginBlocked(t, p));
  }

  lemma RespondIsStill(s: State)
    requires s.next !in s.handlers && s.next !in s.replies
    ensures Still(s, Respond(s, BadRequest))
  {
  }

  lemma BeginIsStill(s: State, p: Handler)
    requires s.next !in s.handlers && (p.Polling? || p.Pulling?)
    ensures Still(s, BeginBlocked(s, p))
  {
  }

  lemma EnsureIsStill(s: State, service: ServiceName)
    ensures Still(s, Ensure(s, service))
  {
  }

  lemma PullIsStill(cfg: Config, s: State, service: ServiceName, timeout: Option<int>)
    requires s.next !in s.handlers && s.next !in s.replies
    ensures Still(s, DoPullRequest(cfg, s, service, timeout))
  {
    match NormalizeTimeout(timeout, cfg.maxTimeout)
    case Err(_) => RespondIsStill(s);
    case Ok(n) =>
      var t, p := Ensure(s, service), Pulling(service, s.clock + n as real);
      EnsureIsStill(s, service);
      BeginIsStill(t, p);
      StillWithServices(s, t, BeginBlocked(t, p));
  }

  lemma EvictionIsStill(s: State, t: State, gone: set<ClientId>)
    requires t == s.(clients := s.clients.RemoveAll(gone), cursor := t.cursor)
    ensures Still(s, t)
  {
    TouchKeepsItems(s.clients, "", s.clock, gone);
  }

  lemma LogoffIsStill(s: State, c: ClientId)
    ensures Still(s, DoLogoff(s, c))
  {
    EvictionIsStill(s, DoLogoff(s, c), {c});
  }

  lemma ReapIsStill(cfg: Config, s: State, snapshot: seq<ClientId>)
    requires cfg.Valid()
    ensures Still(s, DoReap(cfg, s, snapshot))
  {
    EvictionIsStill(s, DoReap(cfg, s, snapshot), Evicted(cfg.reaper, s.cursor, MomentOf(s, snapshot)));
  }

  lemma NoRequestIsStill(s: State, h: nat)
    requires h in s.handlers && h !in s.replies && s.handlers[h].Pulling?
    ensures Still(s, DoNoRequest(s, h))
  {
    FinishIsStill(s, h, NoContent);
  }

  lemma NotReplied(cfg: Config, s: State, h: nat)
    requires Inv(cfg, s) && h in s.handlers
    ensures h !in s.replies
  {
  }

  lemma AdvanceIsStill(s: State, to: real)
    ensures Still(s, s.(clock := to))
  {
  }

  /** A request that starts is new, and is not accepted yet. */
  lemma PostRequestKeepsAccounted(cfg: Config, s: State, c: ClientId, service: ServiceName, request: PypeRequest, timeout: Option<int>, block: bool)
    requires Inv(cfg, s) && Accounted(s) && request.clientId == c && TokenOf(request) !in s.minted
    ensures var t := DoPostRequest(cfg, s, c, service, request, timeout, block); Accounted(t) && Moves(s, t)
  {
    var t := DoPostRequest(cfg, s, c, service, request, timeout, block);
    assert s.next !in s.handlers && s.next !in s.replies;
    TouchKeepsItems(s.clients, c, s.clock, {});
    PostRequestMovesNothing(cfg, s, c, service, request, timeout, block);
    PostRequestKeepsPostersNew(cfg, s, c, service, request, timeout, block);
    hide DoPostRequest, Inv, NormalizeTimeout;
    Frame(s, t);
    MovesConserve(s, t);
  }

  lemma PostRequestMovesNothing(cfg: Config, s: State, c: ClientId, service: ServiceName, request: PypeRequest, timeout: Option<int>, block: bool)
    requires s.next !in s.handlers && s.next !in s.replies
    ensures var t := DoPostRequest(cfg, s, c, service, request, timeout, block);
            && t.services == s.services && t.clients == s.clients.GetOrCreate(c, s.clock).Bump(c, s.clock)
            && SamePosts(s.handlers, t.handlers) && SameMail(s.replies, t.replies) && SameHoldings(s, t)
  {
    hide Clients.GetOrCreate, Clients.Bump, NormalizeTimeout;
  }

  lemma PostRequestKeepsPostersNew(cfg: Config, s: State, c: ClientId, service: ServiceName, request: PypeRequest, timeout: Option<int>, block: bool)
    requires s.next !in s.handlers && PostersNew(s) && TokenOf(request) !in s.minted
    ensures PostersNew(DoPostRequest(cfg, s, c, service, request, timeout, block))
  {
    hide Clients.GetOrCreate, Clients.Bump, NormalizeTimeout;
  }

  // ---------------------------------------------------------------- steps that move something

  lemma MoveKeepsAccounted(s: State, t: State, x: Token, q: Place)
    requires Accounted(s) && MovedTo(s, t, x, q) && NoDuplicates(t.services, t.clients) && PostersNew(t)
    ensures Accounted(t) && Moves(s, t)
  {
    MovesConserve(s, t);
  }

  /** The token was accepted before: it was somewhere. */
  lemma WasAccepted(s: State, t: State, x: Token, p: Place, q: Place)
    requires Conserved(s) && MovedTo(s, t, x, q) && At(s, x, p)
    ensures t.accepted == s.accepted
  {
    assert Somewhere(s, x);
  }

  lemma PutRequestKeepsAccounted(cfg: Config, s: State, h: nat)
    requires Inv(cfg, s) && Accounted(s) && h in s.handlers && s.handlers[h].Enqueuing? && s.handlers[h].service in s.services
    ensures var t := DoPutRequest(s, h); Accounted(t) && Moves(s, t)
  {
    PutRequestMoves(cfg, s, h);
    PutRequestKeepsPostersNew(s, h);
    MoveKeepsAccounted(s, DoPutRequest(s, h), TokenOf(s.handlers[h].request), OnService(s.handlers[h].service));
  }

  lemma PutRequestKeepsPostersNew(s: State, h: nat)
    requires PostersNew(s) && h in s.handlers && s.handlers[h].Enqueuing? && s.handlers[h].service in s.services
    ensures PostersNew(DoPutRequest(s, h))
  {
  }

  lemma TakeRequestKeepsAccounted(cfg: Config, s: State, h: nat)
    requires Inv(cfg, s) && Accounted(s) && RequestAvailable(s, h)
    ensures var t := DoTakeRequest(s, h); Accounted(t) && Moves(s, t)
  {
    var n, t := s.handlers[h].service, DoTakeRequest(s, h);
    var x := TokenOf(s.services[n].items[0]);
    TakeRequestMoves(cfg, s, h);
    assert NoNewPosters(s, t);
    PostersStayNew(s, t);
    MoveKeepsAccounted(s, t, x, ToService(h));
  }

  lemma PostResponseKeepsAccounted(cfg: Config, s: State, c: ClientId, x: PypeResponse, timeout: Option<int>)
    requires Inv(cfg, s) && Accounted(s) && Token(c, x.requestId) in s.hands
    ensures var t := DoPostResponse(cfg, s, c, x, timeout); Accounted(t) && Moves(s, t)
  {
    hide DoPostResponse, Inv, Conserved, NoDuplicates, PostersNew, MovedTo, NoNewPosters, Moves, NormalizeTimeout;
    var t := DoPostResponse(cfg, s, c, x, timeout);
    PostResponseMoves(cfg, s, c, x, timeout);
    PostResponseAddsNoPoster(cfg, s, c, x, timeout);
    PostersStayNew(s, t);
    MoveKeepsAccounted(s, t, Token(c, x.requestId), if NormalizeTimeout(timeout, cfg.maxTimeout).Ok? then BeingPosted(s.next) else Dropped);
  }

  lemma PostResponseAddsNoPoster(cfg: Config, s: State, c: ClientId, x: PypeResponse, timeout: Option<int>)
    requires Inv(cfg, s)
    ensures NoNewPosters(s, DoPostResponse(cfg, s, c, x, timeout))
  {
    hide DoPostResponse, Inv, NormalizeTimeout, Clients.GetOrCreate;
    NextIsNew(cfg, s);
    PostResponseShape(cfg, s, c, x, timeout);
    PostResponseMints(cfg, s, c, x, timeout);
  }

  lemma PostResponseMints(cfg: Config, s: State, c: ClientId, x: PypeResponse, timeout: Option<int>)
    ensures DoPostResponse(cfg, s, c, x, timeout).minted == s.minted
  {
  }

  lemma PutResponseKeepsAccounted(cfg: Config, s: State, h: nat)
    requires Inv(cfg, s) && Accounted(s) && h in s.handlers && s.handlers[h].Delivering? && s.handlers[h].entry < |s.clients.entries|
    ensures var t := DoPutResponse(s, h); Accounted(t) && Moves(s, t)
  {
    var p, t := s.handlers[h], DoPutResponse(s, h);
    PutResponseMoves(cfg, s, h);
    assert NoNewPosters(s, t);
    PostersStayNew(s, t);
    MoveKeepsAccounted(s, t, Token(p.client, p.response.requestId), InEntry(p.entry));
  }

  lemma RefuseResponseKeepsAccounted(cfg: Config, s: State, h: nat)
    requires Inv(cfg, s) && Accounted(s) && h in s.handlers && s.handlers[h].Delivering?
    ensures var t := DoRefuseResponse(s, h); Accounted(t) && Moves(s, t)
  {
    var p, t := s.handlers[h], DoRefuseResponse(s, h);
    RefuseResponseMoves(cfg, s, h);
    assert NoNewPosters(s, t);
    PostersStayNew(s, t);
    MoveKeepsAccounted(s, t, Token(p.client, p.response.requestId), Dropped);
  }

  lemma TakeResponseKeepsAccounted(cfg: Config, s: State, h: nat)
    requires Inv(cfg, s) && Accounted(s) && ResponseAvailable(s, h)
    ensures var t := DoTakeResponse(s, h); Accounted(t) && Moves(s, t)
  {
    var p, t := s.handlers[h], DoTakeResponse(s, h);
    TakeResponseMoves(cfg, s, h);
    HeadIsInEntry(cfg, s, h);
    assert NoNewPosters(s, t);
    PostersStayNew(s, t);
    MoveKeepsAccounted(s, t, Token(p.client, s.clients.entries[p.entry].queue.items[0].requestId), ToClient(h));
  }

  lemma WireStepKeepsAccounted(s: State, step: Step)
    requires Accounted(s)
    ensures step.CollectRequest? && step.h in s.replies && s.replies[step.h].Request? ==>
              var t := DoCollectRequest(s, step.h); Accounted(t) && Moves(s, t)
    ensures step.CollectResponse? && step.h in s.replies && s.replies[step.h].Response? ==>
              var t := DoCollectResponse(s, step.h, step.toCaller); Accounted(t) && Moves(s, t)
    ensures step.PopCached? && step.token in s.caches ==> var t := DoPopCached(s, step.token); Accounted(t) && Moves(s, t)
  {
    if step.CollectRequest? && step.h in s.replies && s.replies[step.h].Request? {
      CollectRequestKeepsAccounted(s, step.h);
    } else if step.CollectResponse? && step.h in s.replies && s.replies[step.h].Response? {
      CollectResponseKeepsAccounted(s, step.h, step.toCaller);
    } else if step.PopCached? && step.token in s.caches {
      PopCachedKeepsAccounted(s, step.token);
    }
  }

  lemma CollectRequestKeepsAccounted(s: State, h: nat)
    requires Accounted(s) && h in s.replies && s.replies[h].Request?
    ensures var t := DoCollectRequest(s, h); Accounted(t) && Moves(s, t)
  {
    var x, t := TokenOf(s.replies[h].request), DoCollectRequest(s, h);
    CollectRequestMoves(s, h);
    WasAccepted(s, t, x, ToService(h), InHands);
    PostersStayNew(s, t);
    MoveKeepsAccounted(s, t, x, InHands);
  }

  lemma CollectResponseKeepsAccounted(s: State, h: nat, toCaller: bool)
    requires Accounted(s) && h in s.replies && s.replies[h].Response?
    ensures var t := DoCollectResponse(s, h, toCaller); Accounted(t) && Moves(s, t)
  {
    var x, t := Token(s.replies[h].client, s.replies[h].response.requestId), DoCollectResponse(s, h, toCaller);
    var q := if toCaller then WithCaller else InCache;
    CollectResponseMoves(s, h, toCaller);
    WasAccepted(s, t, x, ToClient(h), q);
    PostersStayNew(s, t);
    MoveKeepsAccounted(s, t, x, q);
  }

  lemma PopCachedKeepsAccounted(s: State, x: Token)
    requires Accounted(s) && x in s.caches
    ensures var t := DoPopCached(s, x); Accounted(t) && Moves(s, t)
  {
    PopCachedMoves(s, x);
    WasAccepted(s, DoPopCached(s, x), x, InCache, WithCaller);
    PostersStayNew(s, DoPopCached(s, x));
    MoveKeepsAccounted(s, DoPopCached(s, x), x, WithCaller);
  }

  // ---------------------------------------------------------------- every step

  lemma StillStep(cfg: Config, s: State, step: Step)
    requires cfg.Valid() && Inv(cfg, s) && Enabled(cfg, s, step)
    requires step.Enqueue? || step.RefuseRequest? || step.PollResponses? || step.NoResponse? || step.Answer? || step.PullRequest?
             || step.NoRequest? || step.AuthService? || step.Logoff? || step.Reap? || step.Advance?
    ensures Still(s, Apply(cfg, s, step))
  {
    hide DoEnqueue, DoPollResponses, DoAnswer, DoPullRequest, DoRefuseRequest, DoNoResponse, DoNoRequest, DoLogoff, DoReap, Ensure;
    hide Inv, Still, MayGiveUp, MayAdvance;
    NextIsNew(cfg, s);
    match step
    case Enqueue(h) => EnqueueIsStill(s, h);
    case RefuseRequest(h) =>
      NotReplied(cfg, s, h);
      RefuseRequestIsStill(s, h);
    case PollResponses(c, timeout) => PollIsStill(cfg, s, c, timeout);
    case NoResponse(h) =>
      NotReplied(cfg, s, h);
      NoResponseIsStill(s, h);
    case Answer(h) => AnswerIsStill(s, h);
    case PullRequest(service, timeout) => PullIsStill(cfg, s, service, timeout);
    case NoRequest(h) =>
      NotReplied(cfg, s, h);
      NoRequestIsStill(s, h);
    case AuthService(service) => EnsureIsStill(s, service);
    case Logoff(c) => LogoffIsStill(s, c);
    case Reap(snapshot) => ReapIsStill(cfg, s, snapshot);
    case Advance(to) => AdvanceIsStill(s, to);
  }

  /** Every step of an honest run moves at most one request, and that one forward. */
  lemma StepKeepsAccounted(cfg: Config, s: State, step: Step)
    requires cfg.Valid() && Inv(cfg, s) && Enabled(cfg, s, step)
    requires Accounted(s) && Honest(s, step)
    ensures Accounted(Apply(cfg, s, step)) && Moves(s, Apply(cfg, s, step))
  {
    hide DoPostRequest, DoPutRequest, DoTakeRequest, DoPostResponse, DoPutResponse, DoRefuseResponse, DoTakeResponse;
    hide DoCollectRequest, DoCollectResponse, DoPopCached, DoEnqueue, DoRefuseRequest, DoPollResponses, DoNoResponse, DoAnswer, DoPullRequest, DoReap;
    hide Inv, Accounted, Moves, Still, MayGiveUp, MayAdvance;
    match step
    case PostRequest(c, service, request, timeout, block) => PostRequestKeepsAccounted(cfg, s, c, service, request, timeout, block);
    case PutRequest(h) =>
      HandlerIsOk(cfg, s, h);
      PutRequestKeepsAccounted(cfg, s, h);
    case TakeRequest(h) => TakeRequestKeepsAccounted(cfg, s, h);
    case PostResponse(c, x, timeout) => PostResponseKeepsAccounted(cfg, s, c, x, timeout);
    case PutResponse(h) =>
      HandlerIsOk(cfg, s, h);
      PutResponseKeepsAccounted(cfg, s, h);
    case RefuseResponse(h) => RefuseResponseKeepsAccounted(cfg, s, h);
    case TakeResponse(h) => TakeResponseKeepsAccounted(cfg, s, h);
    case CollectRequest(_) => WireStepKeepsAccounted(s, step);
    case CollectResponse(_, _) => WireStepKeepsAccounted(s, step);
    case PopCached(_) => WireStepKeepsAccounted(s, step);
    case _ =>
      StillStep(cfg, s, step);
      StillKeepsAccounted(s, Apply(cfg, s, step));
  }

  // ---------------------------------------------------------------- whole runs

  ghost predicate IsHonestRun(cfg: Config, steps: seq<Step>)
    requires cfg.Valid()
  {
    IsRun(cfg, steps) && (InitInv(cfg); HonestRun(cfg, Init(), steps))
  }

  lemma {:induction false} RunKeepsAccounted(cfg: Config, s: State, steps: seq<Step>)
    requires cfg.Valid() && Inv(cfg, s) && Legal(cfg, s, steps) && HonestRun(cfg, s, steps) && Accounted(s)
    ensures Accounted(Exec(cfg, s, steps))
    decreases |steps|
  {
    if steps != [] {
      StepKeepsInv(cfg, s, steps[0]);
      StepKeepsAccounted(cfg, s, steps[0]);
      RunKeepsAccounted(cfg, Apply(cfg, s, steps[0]), steps[1..]);
    }
  }

  lemma InitAccounted()
    ensures Accounted(Init())
  {
    assert forall t, p :: !At(Init(), t, p);
  }

  /** End-to-end conservation: in every state an honest run reaches, each accepted request is in
      exactly one place, and no other request is anywhere. */
  lemma EveryRequestInExactlyOnePlace(cfg: Config, steps: seq<Step>, x: Token)
    requires cfg.Valid() && IsHonestRun(cfg, steps)
    ensures var t := Reached(cfg, steps);
            if x in t.accepted
            then exists p :: At(t, x, p) && forall q :: At(t, x, q) ==> q == p
            else forall p :: !At(t, x, p)
  {
    InitInv(cfg);
    InitAccounted();
    RunKeepsAccounted(cfg, Init(), steps);
    var t := Reached(cfg, steps);
    if x in t.accepted {
      assert Somewhere(t, x);
      var p :| At(t, x, p);
      assert forall q :: At(t, x, q) ==> q == p;
    } else {
      forall p
        ensures !At(t, x, p)
      {
        if At(t, x, p) {
          assert Somewhere(t, x);
        }
      }
    }
  }

  /** A request never goes back: along an honest run its place only moves on, and once it is with
      the caller or dropped it stays there. So no response is returned twice. */
  lemma {:induction false} RequestsOnlyMoveOn(cfg: Config, s: State, steps: seq<Step>, x: Token, p: Place)
    requires cfg.Valid() && Inv(cfg, s) && Legal(cfg, s, steps) && HonestRun(cfg, s, steps) && Accounted(s)
    requires At(s, x, p)
    ensures exists q :: At(Exec(cfg, s, steps), x, q) && (q == p || Rank(p) < Rank(q))
    decreases |steps|
  {
    if steps != [] {
      var s1 := Apply(cfg, s, steps[0]);
      StepKeepsInv(cfg, s, steps[0]);
      StepKeepsAccounted(cfg, s, steps[0]);
      var p1 := PlaceAfterMove(s, s1, x, p);
      RequestsOnlyMoveOn(cfg, s1, steps[1..], x, p1);
      var q :| At(Exec(cfg, s1, steps[1..]), x, q) && (q == p1 || Rank(p1) < Rank(q));
      assert At(Exec(cfg, s, steps), x, q);
    } else {
      assert At(Exec(cfg, s, steps), x, p);
    }
  }

  lemma PlaceAfterMove(s: State, t: State, x: Token, p: Place) returns (q: Place)
    requires Moves(s, t) && At(s, x, p)
    ensures At(t, x, q) && (q == p || Rank(p) < Rank(q))
  {
    if Unmoved(s, t) {
      q := p;
    } else {
      var y, r :| MovedTo(s, t, y, r);
      q := if x == y then r else p;
    }
  }

  // ---------------------------------------------------------------- what honest services add to cross-client delivery

  ghost predicate PostedAccepted(s: State) {
    forall c: ClientId, x: PypeResponse :: (c, x) in s.posted ==> Token(c, x.requestId) in s.accepted
  }

  lemma {:induction false} RunKeepsPostedAccepted(cfg: Config, s: State, steps: seq<Step>)
    requires cfg.Valid() && Inv(cfg, s) && Legal(cfg, s, steps) && HonestRun(cfg, s, steps) && Accounted(s) && PostedAccepted(s)
    ensures PostedAccepted(Exec(cfg, s, steps))
    decreases |steps|
  {
    if steps != [] {
      var step, s1 := steps[0], Apply(cfg, s, steps[0]);
      StepKeepsInv(cfg, s, step);
      StepKeepsAccounted(cfg, s, step);
      StepClock(cfg, s, step);
      AcceptedGrows(s, s1);
      if step.PostResponse? {
        assert At(s, Token(step.client, step.response.requestId), InHands);
        assert Somewhere(s, Token(step.client, step.response.requestId));
      }
      RunKeepsPostedAccepted(cfg, s1, steps[1..]);
    }
  }

  lemma AcceptedGrows(s: State, t: State)
    requires Moves(s, t)
    ensures s.accepted <= t.accepted
  {
  }

  /** With services that answer by the headers they received, a response taken for a client answers
      a request that this very client had enqueued. */
  lemma DeliveredAnswersOwnRequest(cfg: Config, steps: seq<Step>, c: ClientId, x: PypeResponse)
    requires cfg.Valid() && IsHonestRun(cfg, steps)
    requires (c, x) in Reached(cfg, steps).delivered
    ensures Token(c, x.requestId) in Reached(cfg, steps).accepted
  {
    InitInv(cfg);
    InitAccounted();
    CrossClient.RunKeepsPosted(cfg, Init(), steps);
    RunKeepsPostedAccepted(cfg, Init(), steps);
  }
}
