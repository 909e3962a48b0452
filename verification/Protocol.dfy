/** The server and what surrounds it as a transition system. A step is a stretch of handler code
    between two awaits, a tick of the reaper, the passing of time, or the arrival of a reply.

    A put or get with timeout 0 does not suspend: the handler that made it is `hot`, and nothing
    else moves before it does. */
module Protocol {
  import opened Messages
  import opened Deadlines
  import opened Store
  import opened Sweeping

  datatype Config = Config(maxTimeout: nat, clientMax: nat, serviceMax: nat, reaper: ReaperConfig)
  {
    ghost predicate Valid() {
      maxTimeout >= 1 && clientMax >= 1 && serviceMax >= 1 && reaper.Valid() && reaper.threshold > 0.0
    }
  }

  /** One request of one client, from its acceptance to the caller's hands. */
  datatype Token = Token(client: ClientId, requestId: RequestId)

  function TokenOf(r: PypeRequest): Token {
    Token(r.clientId, r.requestId)
  }

  /** A handler at an await, with the local variables it holds across it.
      `since` is when a POST to a service bumped its client first, `waited` how long after that its
      request was accepted. */
  datatype Handler =
    | Posting(client: ClientId, entry: Ref, service: ServiceName, request: PypeRequest, total: nat, block: bool, since: real)
    | Enqueuing(client: ClientId, entry: Ref, service: ServiceName, request: PypeRequest, total: nat, block: bool, since: real, deadline: real, until: real)
    | Awaiting(client: ClientId, entry: Ref, total: nat, waited: real, deadline: real, until: real)
    | Polling(client: ClientId, entry: Ref, until: real)
    | Answering(client: ClientId, entry: Ref, response: PypeResponse, timeout: nat)
    | Delivering(client: ClientId, entry: Ref, response: PypeResponse, until: real)
    | Pulling(service: ServiceName, until: real)
  {
    /** Blocked on a queue, with a deadline. */
    predicate Blocked() {
      !Posting? && !Answering?
    }
  }

  datatype Reply =
    | BadRequest
    | Unavailable
    | AcceptedReply
    | NoContent
    | Response(client: ClientId, response: PypeResponse)
    | Request(request: PypeRequest)

  datatype State = State(
    clock: real,
    services: Services,
    clients: Clients,
    cursor: Cursor,
    handlers: map<nat, Handler>,
    hot: Option<nat>,
    replies: map<nat, Reply>,                     // on the wire
    next: nat,
    hands: set<Token>,                            // pulled by a service, not yet answered
    caches: map<Token, PypeResponse>,             // the client connections' caches
    returned: set<Token>,
    dropped: set<Token>,
    minted: set<Token>,
    accepted: set<Token>,
    posted: set<(ClientId, PypeResponse)>,        // every POST /clients/{id} so far
    delivered: seq<(ClientId, PypeResponse)>)     // every response taken for a client so far

  function Init(): State {
    State(0.0, map[], Clients([], map[]), IDLE, map[], None, map[], 0, {}, map[], {}, {}, {}, {}, {}, [])
  }

  datatype Step =
    | PostRequest(client: ClientId, service: ServiceName, request: PypeRequest, timeout: Option<int>, block: bool)
    | Enqueue(h: nat)
    | PutRequest(h: nat)
    | RefuseRequest(h: nat)
    | PollResponses(client: ClientId, timeout: Option<int>)
    | TakeResponse(h: nat)
    | NoResponse(h: nat)
    | PostResponse(client: ClientId, response: PypeResponse, timeout: Option<int>)
    | Answer(h: nat)
    | PutResponse(h: nat)
    | RefuseResponse(h: nat)
    | PullRequest(service: ServiceName, timeout: Option<int>)
    | TakeRequest(h: nat)
    | NoRequest(h: nat)
    | AuthService(service: ServiceName)
    | Logoff(client: ClientId)
    | Reap(snapshot: seq<ClientId>)
    | Advance(to: real)
    | CollectRequest(h: nat)
    | CollectResponse(h: nat, toCaller: bool)
    | PopCached(token: Token)

  // ---------------------------------------------------------------- the invariant every step keeps

  ghost predicate HoldsEntry(clients: Clients, client: ClientId, entry: Ref) {
    entry < |clients.entries| && clients.entries[entry].client == client
  }

  ghost predicate HandlerOk(cfg: Config, clock: real, clients: Clients, services: Services, p: Handler) {
    && (!p.Pulling? ==> HoldsEntry(clients, p.client, p.entry))
    && (p.Enqueuing? || p.Pulling? ==> p.service in services)
    && (p.Blocked() ==> clock <= p.until <= clock + cfg.maxTimeout as real)
    && (p.Posting? || p.Enqueuing? ==> p.request.clientId == p.client && p.total <= cfg.maxTimeout && p.since <= clock)
    && (p.Answering? ==> p.timeout <= cfg.maxTimeout)
    && (p.Enqueuing? ==> p.until == p.deadline)
    && (p.Enqueuing? || p.Awaiting? ==> p.until <= p.deadline <= clock + p.total as real && p.total <= cfg.maxTimeout)
  }

  ghost predicate StoreInv(cfg: Config, s: State) {
    && s.clients.Valid(cfg.clientMax)
    && SeenBy(s.clients, s.clock)
    && (forall n :: n in s.services ==> s.services[n].Valid(cfg.serviceMax))
  }

  ghost predicate HandlersInv(cfg: Config, s: State) {
    && (forall h :: h in s.handlers ==> h < s.next && h !in s.replies && HandlerOk(cfg, s.clock, s.clients, s.services, s.handlers[h]))
    && (forall h :: h in s.replies ==> h < s.next)
    && (s.hot.Some? ==> s.hot.value in s.handlers && s.handlers[s.hot.value].Blocked() && s.handlers[s.hot.value].until <= s.clock)
  }

  ghost predicate Inv(cfg: Config, s: State) {
    StoreInv(cfg, s) && HandlersInv(cfg, s)
  }

  // ---------------------------------------------------------------- what a handler does next

  function Begin(s: State, p: Handler): State {
    s.(handlers := s.handlers[s.next := p], next := s.next + 1)
  }

  /** A handler that starts with a queue operation; with timeout 0 it is hot at once. */
  function BeginBlocked(s: State, p: Handler): State
    requires p.Blocked()
  {
    Begin(s, p).(hot := if p.until == s.clock then Some(s.next) else None)
  }

  /** A handler that answers without having suspended. */
  function Respond(s: State, reply: Reply): State {
    s.(replies := s.replies[s.next := reply], next := s.next + 1)
  }

  function Finish(s: State, h: nat, reply: Reply): State {
    s.(handlers := s.handlers - {h}, hot := None, replies := s.replies[h := reply])
  }

  /** The handler goes on to a queue operation that may block until `p.until`. */
  function Block(s: State, h: nat, p: Handler): State
    requires p.Blocked()
  {
    s.(handlers := s.handlers[h := p], hot := if p.until == s.clock then Some(h) else None)
  }

  function Touch(s: State, c: ClientId): (t: State)
    ensures c in t.clients.registry
  {
    s.(clients := s.clients.GetOrCreate(c, s.clock).Bump(c, s.clock))
  }

  function Bump(s: State, c: ClientId): State {
    s.(clients := s.clients.Bump(c, s.clock))
  }

  function Ensure(s: State, service: ServiceName): State {
    s.(services := EnsureService(s.services, service))
  }

  ghost function MomentOf(s: State, snapshot: seq<ClientId>): Moment {
    Moment(s.clients.LastSeen(), snapshot, s.clock)
  }

  // ---------------------------------------------------------------- POST /services/{name}

  function DoPostRequest(cfg: Config, s: State, c: ClientId, service: ServiceName, request: PypeRequest, timeout: Option<int>, block: bool): State {
    var t := Touch(s, c).(minted := s.minted + {TokenOf(request)});
    match NormalizeTimeout(timeout, cfg.maxTimeout)
    case Err(_) => Respond(t, BadRequest)
    case Ok(total) => Begin(t, Posting(c, t.clients.registry[c], service, request, total, block, s.clock))
  }

  /** The body has been read: the deadline of both phases is set here. */
  function DoEnqueue(s: State, h: nat): State
    requires h in s.handlers && s.handlers[h].Posting?
  {
    var p := s.handlers[h];
    var deadline := s.clock + p.total as real;
    Block(Ensure(s, p.service), h,
          Enqueuing(p.client, p.entry, p.service, p.request, p.total, p.block, p.since, deadline,
                    s.clock + ServerRemaining(deadline, s.clock) as real))
  }

  function DoPutRequest(s: State, h: nat): State
    requires h in s.handlers && s.handlers[h].Enqueuing? && s.handlers[h].service in s.services
  {
    var p := s.handlers[h];
    var t := Bump(s, p.client).(services := s.services[p.service := s.services[p.service].Put(p.request)],
                                accepted := s.accepted + {TokenOf(p.request)});
    if p.block
    then Block(t, h, Awaiting(p.client, p.entry, p.total, s.clock - p.since, p.deadline, s.clock + ServerRemaining(p.deadline, s.clock) as real))
    else Finish(t, h, AcceptedReply)
  }

  function DoRefuseRequest(s: State, h: nat): State
    requires h in s.handlers && s.handlers[h].Enqueuing?
  {
    Finish(Bump(s, s.handlers[h].client), h, Unavailable)
  }

  // ---------------------------------------------------------------- GET /clients/{id}, and phase 2 of block=1

  function DoPollResponses(cfg: Config, s: State, c: ClientId, timeout: Option<int>): State {
    var t := Touch(s, c);
    match NormalizeTimeout(timeout, cfg.maxTimeout)
    case Err(_) => Respond(t, BadRequest)
    case Ok(n) =>
      BeginBlocked(t, Polling(c, t.clients.registry[c], s.clock + n as real))
  }

  predicate GetsResponse(s: State, h: nat) {
    h in s.handlers && (s.handlers[h].Polling? || s.handlers[h].Awaiting?)
  }

  predicate ResponseAvailable(s: State, h: nat) {
    && GetsResponse(s, h)
    && s.handlers[h].entry < |s.clients.entries|
    && s.clients.entries[s.handlers[h].entry].queue.items != []
  }

  function DoTakeResponse(s: State, h: nat): State
    requires ResponseAvailable(s, h)
  {
    var p := s.handlers[h];
    var x := s.clients.entries[p.entry].queue.items[0];
    var t := s.(clients := s.clients.Take(p.entry), delivered := s.delivered + [(p.client, x)]);
    Finish(if p.Polling? then Bump(t, p.client) else t, h, Response(p.client, x))
  }

  function DoNoResponse(s: State, h: nat): State
    requires GetsResponse(s, h)
  {
    var p := s.handlers[h];
    if p.Polling? then Finish(Bump(s, p.client), h, NoContent) else Finish(s, h, AcceptedReply)
  }

  // ---------------------------------------------------------------- POST /clients/{id}

  /** The entry is fetched before the body is read, and its client is not bumped. */
  function DoPostResponse(cfg: Config, s: State, c: ClientId, x: PypeResponse, timeout: Option<int>): State {
    var token := Token(c, x.requestId);
    var t := s.(clients := s.clients.GetOrCreate(c, s.clock), posted := s.posted + {(c, x)}, hands := s.hands - {token});
    match NormalizeTimeout(timeout, cfg.maxTimeout)
    case Err(_) => Respond(t, BadRequest).(dropped := s.dropped + {token})
    case Ok(n) => Begin(t, Answering(c, t.clients.registry[c], x, n))
  }

  function DoAnswer(s: State, h: nat): State
    requires h in s.handlers && s.handlers[h].Answering?
  {
    var p := s.handlers[h];
    Block(s, h, Delivering(p.client, p.entry, p.response, s.clock + p.timeout as real))
  }

  function DoPutResponse(s: State, h: nat): State
    requires h in s.handlers && s.handlers[h].Delivering? && s.handlers[h].entry < |s.clients.entries|
  {
    var p := s.handlers[h];
    Finish(s.(clients := s.clients.Put(p.entry, p.response)), h, AcceptedReply)
  }

  function DoRefuseResponse(s: State, h: nat): State
    requires h in s.handlers && s.handlers[h].Delivering?
  {
    var p := s.handlers[h];
    Finish(s, h, Unavailable).(dropped := s.dropped + {Token(p.client, p.response.requestId)})
  }

  // ---------------------------------------------------------------- GET /services/{name}

  function DoPullRequest(cfg: Config, s: State, service: ServiceName, timeout: Option<int>): State {
    match NormalizeTimeout(timeout, cfg.maxTimeout)
    case Err(_) => Respond(s, BadRequest)
    case Ok(n) =>
      BeginBlocked(Ensure(s, service), Pulling(service, s.clock + n as real))
  }

  predicate RequestAvailable(s: State, h: nat) {
    && h in s.handlers && s.handlers[h].Pulling?
    && s.handlers[h].service in s.services && s.services[s.handlers[h].service].items != []
  }

  function DoTakeRequest(s: State, h: nat): State
    requires RequestAvailable(s, h)
  {
    var service := s.handlers[h].service;
    var q := s.services[service];
    Finish(s.(services := s.services[service := q.Take()]), h, Request(q.items[0]))
  }

  function DoNoRequest(s: State, h: nat): State
    requires h in s.handlers
  {
    Finish(s, h, NoContent)
  }

  // ---------------------------------------------------------------- the rest of the server

  function DoLogoff(s: State, c: ClientId): State {
    s.(clients := s.clients.Remove(c))
  }

  ghost function DoReap(cfg: Config, s: State, snapshot: seq<ClientId>): State
    requires cfg.Valid()
  {
    s.(clients := s.clients.RemoveAll(Evicted(cfg.reaper, s.cursor, MomentOf(s, snapshot))),
       cursor := TickCursor(cfg.reaper, s.cursor, MomentOf(s, snapshot)))
  }

  // ---------------------------------------------------------------- the other ends of the wire

  function DoCollectRequest(s: State, h: nat): State
    requires h in s.replies && s.replies[h].Request?
  {
    s.(replies := s.replies - {h}, hands := s.hands + {TokenOf(s.replies[h].request)})
  }

  function DoCollectResponse(s: State, h: nat, toCaller: bool): State
    requires h in s.replies && s.replies[h].Response?
  {
    var token := Token(s.replies[h].client, s.replies[h].response.requestId);
    if toCaller then s.(replies := s.replies - {h}, returned := s.returned + {token})
    else s.(replies := s.replies - {h}, caches := s.caches[token := s.replies[h].response])
  }

  function DoPopCached(s: State, t: Token): State {
    s.(caches := s.caches - {t}, returned := s.returned + {t})
  }

  // ---------------------------------------------------------------- steps

  /** A blocked operation may time out once its time is up; a hot one fails only if it cannot succeed. */
  ghost predicate MayGiveUp(s: State, h: nat, stuck: bool)
    requires h in s.handlers && s.handlers[h].Blocked()
  {
    if s.hot == Some(h) then stuck else s.handlers[h].until <= s.clock
  }

  ghost predicate MayAdvance(s: State, to: real) {
    s.clock <= to && forall h :: h in s.handlers && s.handlers[h].Blocked() ==> to <= s.handlers[h].until
  }

  predicate OnServiceQueue(s: State, h: nat) {
    h in s.handlers && s.handlers[h].Enqueuing? && s.handlers[h].service in s.services
  }

  predicate AtEntryQueue(s: State, h: nat) {
    h in s.handlers && s.handlers[h].Delivering? && s.handlers[h].entry < |s.clients.entries|
  }

  ghost predicate Ready(cfg: Config, s: State, step: Step) {
    match step
    case PostRequest(c, _, request, _, _) => request.clientId == c
    case Enqueue(h) => h in s.handlers && s.handlers[h].Posting?
    case PutRequest(h) => OnServiceQueue(s, h) && |s.services[s.handlers[h].service].items| < cfg.serviceMax
    case RefuseRequest(h) =>
      && OnServiceQueue(s, h)
      && MayGiveUp(s, h, |s.services[s.handlers[h].service].items| >= cfg.serviceMax)
    case TakeResponse(h) => ResponseAvailable(s, h)
    case NoResponse(h) => GetsResponse(s, h) && MayGiveUp(s, h, !ResponseAvailable(s, h))
    case Answer(h) => h in s.handlers && s.handlers[h].Answering?
    case PutResponse(h) => AtEntryQueue(s, h) && |s.clients.entries[s.handlers[h].entry].queue.items| < cfg.clientMax
    case RefuseResponse(h) =>
      && AtEntryQueue(s, h)
      && MayGiveUp(s, h, |s.clients.entries[s.handlers[h].entry].queue.items| >= cfg.clientMax)
    case TakeRequest(h) => RequestAvailable(s, h)
    case NoRequest(h) => h in s.handlers && s.handlers[h].Pulling? && MayGiveUp(s, h, !RequestAvailable(s, h))
    case Reap(snapshot) => IsSnapshot(snapshot, s.clients.registry.Keys)
    case Advance(to) => MayAdvance(s, to)
    case CollectRequest(h) => h in s.replies && s.replies[h].Request?
    case CollectResponse(h, _) => h in s.replies && s.replies[h].Response?
    case PopCached(t) => t in s.caches
    case _ => true
  }

  /** The handler whose blocking operation the step resolves. */
  function Actor(step: Step): Option<nat> {
    match step
    case PutRequest(h) => Some(h)
    case RefuseRequest(h) => Some(h)
    case TakeResponse(h) => Some(h)
    case NoResponse(h) => Some(h)
    case PutResponse(h) => Some(h)
    case RefuseResponse(h) => Some(h)
    case TakeRequest(h) => Some(h)
    case NoRequest(h) => Some(h)
    case _ => None
  }

  ghost predicate Enabled(cfg: Config, s: State, step: Step) {
    (s.hot.None? || Actor(step) == s.hot) && Ready(cfg, s, step)
  }

  ghost function Apply(cfg: Config, s: State, step: Step): State
    requires cfg.Valid() && Enabled(cfg, s, step)
  {
    match step
    case PostRequest(c, service, request, timeout, block) => DoPostRequest(cfg, s, c, service, request, timeout, block)
    case Enqueue(h) => DoEnqueue(s, h)
    case PutRequest(h) => DoPutRequest(s, h)
    case RefuseRequest(h) => DoRefuseRequest(s, h)
    case PollResponses(c, timeout) => DoPollResponses(cfg, s, c, timeout)
    case TakeResponse(h) => DoTakeResponse(s, h)
    case NoResponse(h) => DoNoResponse(s, h)
    case PostResponse(c, x, timeout) => DoPostResponse(cfg, s, c, x, timeout)
    case Answer(h) => DoAnswer(s, h)
    case PutResponse(h) => DoPutResponse(s, h)
    case RefuseResponse(h) => DoRefuseResponse(s, h)
    case PullRequest(service, timeout) => DoPullRequest(cfg, s, service, timeout)
    case TakeRequest(h) => DoTakeRequest(s, h)
    case NoRequest(h) => DoNoRequest(s, h)
    case AuthService(service) => Ensure(s, service)
    case Logoff(c) => DoLogoff(s, c)
    case Reap(snapshot) => DoReap(cfg, s, snapshot)
    case Advance(to) => s.(clock := to)
    case CollectRequest(h) => DoCollectRequest(s, h)
    case CollectResponse(h, toCaller) => DoCollectResponse(s, h, toCaller)
    case PopCached(t) => DoPopCached(s, t)
  }

  // ---------------------------------------------------------------- the invariant is kept

  /** The store went from `s` to `t`, and nothing else that the invariant speaks of. */
  ghost predicate OnlyStore(cfg: Config, s: State, t: State) {
    && t.clock == s.clock && t.handlers == s.handlers && t.hot == s.hot && t.replies == s.replies && t.next == s.next
    && Grows(s.clients, t.clients) && s.services.Keys <= t.services.Keys
    && StoreInv(cfg, t)
  }

  lemma StoreStepKeepsInv(cfg: Config, s: State, t: State)
    requires Inv(cfg, s) && OnlyStore(cfg, s, t)
    ensures Inv(cfg, t)
  {
  }

  lemma BeginKeepsInv(cfg: Config, s: State, p: Handler)
    requires Inv(cfg, s) && HandlerOk(cfg, s.clock, s.clients, s.services, p)
    ensures Inv(cfg, Begin(s, p)) && s.next !in s.handlers
    ensures p.Blocked() ==> Inv(cfg, BeginBlocked(s, p))
  {
  }

  lemma NextIsNew(cfg: Config, s: State)
    requires Inv(cfg, s)
    ensures s.next !in s.handlers && s.next !in s.replies
  {
  }

  lemma RespondKeepsInv(cfg: Config, s: State, reply: Reply)
    requires Inv(cfg, s)
    ensures Inv(cfg, Respond(s, reply))
  {
  }

  lemma FinishKeepsInv(cfg: Config, s: State, h: nat, reply: Reply)
    requires Inv(cfg, s) && h in s.handlers
    ensures Inv(cfg, Finish(s, h, reply))
  {
  }

  lemma BlockKeepsInv(cfg: Config, s: State, h: nat, p: Handler)
    requires Inv(cfg, s) && h in s.handlers && p.Blocked() && HandlerOk(cfg, s.clock, s.clients, s.services, p)
    ensures Inv(cfg, Block(s, h, p))
  {
  }

  lemma TouchKeepsInv(cfg: Config, s: State, c: ClientId)
    requires Inv(cfg, s)
    ensures var t := Touch(s, c);
            Inv(cfg, t) && c in t.clients.registry && HoldsEntry(t.clients, c, t.clients.registry[c])
  {
    CreateEvolves(s.clients, c, cfg.clientMax, s.clock);
    BumpEvolves(s.clients.GetOrCreate(c, s.clock), c, cfg.clientMax, s.clock);
    StoreStepKeepsInv(cfg, s, Touch(s, c));
  }

  lemma BumpKeepsInv(cfg: Config, s: State, c: ClientId)
    requires Inv(cfg, s)
    ensures Inv(cfg, Bump(s, c))
  {
    BumpEvolves(s.clients, c, cfg.clientMax, s.clock);
    StoreStepKeepsInv(cfg, s, Bump(s, c));
  }

  lemma EnsureKeepsInv(cfg: Config, s: State, service: ServiceName)
    requires Inv(cfg, s)
    ensures Inv(cfg, Ensure(s, service)) && service in Ensure(s, service).services
  {
    StoreStepKeepsInv(cfg, s, Ensure(s, service));
  }

  /** The grant of phase 2, and of phase 1, ends by the deadline. */
  lemma GrantIsOk(cfg: Config, clock: real, deadline: real, total: nat)
    requires clock <= deadline <= clock + total as real && total <= cfg.maxTimeout
    ensures var until := clock + ServerRemaining(deadline, clock) as real;
            clock <= until <= deadline && until <= clock + cfg.maxTimeout as real
  {
    GrantedWaitEndsByDeadline(deadline, clock);
  }

  /** A whole budget is granted whole. */
  lemma WholeGrant(clock: real, total: nat)
    ensures clock + ServerRemaining(clock + total as real, clock) as real == clock + total as real
  {
    assert (clock + total as real) - clock == total as real;
  }

  lemma GrantWithinMax(clock: real, timeout: nat, max: nat)
    requires timeout <= max
    ensures clock <= clock + timeout as real <= clock + max as real
  {
  }

  lemma EnqueueKeepsInv(cfg: Config, s: State, h: nat)
    requires Inv(cfg, s) && h in s.handlers && s.handlers[h].Posting?
    ensures Inv(cfg, DoEnqueue(s, h))
  {
    var p := s.handlers[h];
    assert HandlerOk(cfg, s.clock, s.clients, s.services, p);
    EnsureKeepsInv(cfg, s, p.service);
    WholeGrant(s.clock, p.total);
    BlockKeepsInv(cfg, Ensure(s, p.service), h, DoEnqueue(s, h).handlers[h]);
  }

  lemma PutRequestKeepsInv(cfg: Config, s: State, h: nat)
    requires Inv(cfg, s) && h in s.handlers && s.handlers[h].Enqueuing? && s.handlers[h].service in s.services
    requires |s.services[s.handlers[h].service].items| < cfg.serviceMax
    ensures Inv(cfg, DoPutRequest(s, h))
  {
    var p := s.handlers[h];
    assert HandlerOk(cfg, s.clock, s.clients, s.services, p);
    var t := Bump(s, p.client).(services := s.services[p.service := s.services[p.service].Put(p.request)],
                                accepted := s.accepted + {TokenOf(p.request)});
    BumpEvolves(s.clients, p.client, cfg.clientMax, s.clock);
    PutKeepsQueue(s.services[p.service], p.request, cfg.serviceMax);
    StoreStepKeepsInv(cfg, s, t);
    if p.block {
      GrantIsOk(cfg, s.clock, p.deadline, p.total);
      assert HandlerOk(cfg, t.clock, t.clients, t.services, p);
      BlockKeepsInv(cfg, t, h, DoPutRequest(s, h).handlers[h]);
    } else {
      FinishKeepsInv(cfg, t, h, AcceptedReply);
    }
  }

  lemma RefuseRequestKeepsInv(cfg: Config, s: State, h: nat)
    requires Inv(cfg, s) && h in s.handlers && s.handlers[h].Enqueuing?
    ensures Inv(cfg, DoRefuseRequest(s, h))
  {
    BumpKeepsInv(cfg, s, s.handlers[h].client);
    FinishKeepsInv(cfg, Bump(s, s.handlers[h].client), h, Unavailable);
  }

  lemma TakeResponseKeepsInv(cfg: Config, s: State, h: nat)
    requires Inv(cfg, s) && ResponseAvailable(s, h)
    ensures Inv(cfg, DoTakeResponse(s, h))
  {
    var p := s.handlers[h];
    var x := s.clients.entries[p.entry].queue.items[0];
    var t := s.(clients := s.clients.Take(p.entry), delivered := s.delivered + [(p.client, x)]);
    TakeEvolves(s.clients, p.entry, cfg.clientMax, s.clock);
    StoreStepKeepsInv(cfg, s, t);
    BumpKeepsInv(cfg, t, p.client);
    FinishKeepsInv(cfg, if p.Polling? then Bump(t, p.client) else t, h, Response(p.client, x));
  }

  lemma NoResponseKeepsInv(cfg: Config, s: State, h: nat)
    requires Inv(cfg, s) && GetsResponse(s, h)
    ensures Inv(cfg, DoNoResponse(s, h))
  {
    var p := s.handlers[h];
    BumpKeepsInv(cfg, s, p.client);
    FinishKeepsInv(cfg, Bump(s, p.client), h, NoContent);
    FinishKeepsInv(cfg, s, h, AcceptedReply);
  }

  lemma AnswerKeepsInv(cfg: Config, s: State, h: nat)
    requires Inv(cfg, s) && h in s.handlers && s.handlers[h].Answering?
    ensures Inv(cfg, DoAnswer(s, h))
  {
    hide Inv, HandlerOk;
    HandlerIsOk(cfg, s, h);
    var p := s.handlers[h];
    DeliveringIsOk(cfg, s, p);
    BlockKeepsInv(cfg, s, h, Delivering(p.client, p.entry, p.response, s.clock + p.timeout as real));
  }

  lemma HandlerIsOk(cfg: Config, s: State, h: nat)
    requires Inv(cfg, s) && h in s.handlers
    ensures HandlerOk(cfg, s.clock, s.clients, s.services, s.handlers[h])
  {
  }

  lemma DeliveringIsOk(cfg: Config, s: State, p: Handler)
    requires p.Answering? && HandlerOk(cfg, s.clock, s.clients, s.services, p)
    ensures HandlerOk(cfg, s.clock, s.clients, s.services, Delivering(p.client, p.entry, p.response, s.clock + p.timeout as real))
  {
    GrantWithinMax(s.clock, p.timeout, cfg.maxTimeout);
  }

  lemma PutResponseKeepsInv(cfg: Config, s: State, h: nat)
    requires Inv(cfg, s) && h in s.handlers && s.handlers[h].Delivering? && s.handlers[h].entry < |s.clients.entries|
    requires |s.clients.entries[s.handlers[h].entry].queue.items| < cfg.clientMax
    ensures Inv(cfg, DoPutResponse(s, h))
  {
    var p := s.handlers[h];
    var t := s.(clients := s.clients.Put(p.entry, p.response));
    PutEvolves(s.clients, p.entry, p.response, cfg.clientMax, s.clock);
    StoreStepKeepsInv(cfg, s, t);
    FinishKeepsInv(cfg, t, h, AcceptedReply);
  }

  lemma TakeRequestKeepsInv(cfg: Config, s: State, h: nat)
    requires Inv(cfg, s) && RequestAvailable(s, h)
    ensures Inv(cfg, DoTakeRequest(s, h))
  {
  }

  lemma PostRequestKeepsInv(cfg: Config, s: State, c: ClientId, service: ServiceName, request: PypeRequest, timeout: Option<int>, block: bool)
    requires Inv(cfg, s) && request.clientId == c
    ensures Inv(cfg, DoPostRequest(cfg, s, c, service, request, timeout, block))
  {
    TouchKeepsInv(cfg, s, c);
    var t := Touch(s, c).(minted := s.minted + {TokenOf(request)});
    StoreStepKeepsInv(cfg, Touch(s, c), t);
    RespondKeepsInv(cfg, t, BadRequest);
    if NormalizeTimeout(timeout, cfg.maxTimeout).Ok? {
      var total := NormalizeTimeout(timeout, cfg.maxTimeout).value;
      BeginKeepsInv(cfg, t, Posting(c, t.clients.registry[c], service, request, total, block, s.clock));
    }
  }

  lemma PollResponsesKeepsInv(cfg: Config, s: State, c: ClientId, timeout: Option<int>)
    requires Inv(cfg, s)
    ensures Inv(cfg, DoPollResponses(cfg, s, c, timeout))
  {
    hide Inv, HandlerOk, HoldsEntry;
    TouchKeepsInv(cfg, s, c);
    var t := Touch(s, c);
    RespondKeepsInv(cfg, t, BadRequest);
    if NormalizeTimeout(timeout, cfg.maxTimeout).Ok? {
      var n := NormalizeTimeout(timeout, cfg.maxTimeout).value;
      PollingIsOk(cfg, t, c, n);
      BeginKeepsInv(cfg, t, Polling(c, t.clients.registry[c], s.clock + n as real));
    }
  }

  lemma PollingIsOk(cfg: Config, s: State, c: ClientId, n: nat)
    requires c in s.clients.registry && HoldsEntry(s.clients, c, s.clients.registry[c]) && n <= cfg.maxTimeout
    ensures HandlerOk(cfg, s.clock, s.clients, s.services, Polling(c, s.clients.registry[c], s.clock + n as real))
  {
    GrantWithinMax(s.clock, n, cfg.maxTimeout);
  }

  lemma PullingIsOk(cfg: Config, s: State, service: ServiceName, n: nat)
    requires service in s.services && n <= cfg.maxTimeout
    ensures HandlerOk(cfg, s.clock, s.clients, s.services, Pulling(service, s.clock + n as real))
  {
    GrantWithinMax(s.clock, n, cfg.maxTimeout);
  }

  lemma PostResponseKeepsInv(cfg: Config, s: State, c: ClientId, x: PypeResponse, timeout: Option<int>)
    requires Inv(cfg, s)
    ensures Inv(cfg, DoPostResponse(cfg, s, c, x, timeout))
  {
    var t := s.(clients := s.clients.GetOrCreate(c, s.clock), posted := s.posted + {(c, x)}, hands := s.hands - {Token(c, x.requestId)});
    CreateEvolves(s.clients, c, cfg.clientMax, s.clock);
    StoreStepKeepsInv(cfg, s, t);
    RespondKeepsInv(cfg, t, BadRequest);
    if NormalizeTimeout(timeout, cfg.maxTimeout).Ok? {
      BeginKeepsInv(cfg, t, Answering(c, t.clients.registry[c], x, NormalizeTimeout(timeout, cfg.maxTimeout).value));
    }
  }

  lemma PullRequestKeepsInv(cfg: Config, s: State, service: ServiceName, timeout: Option<int>)
    requires Inv(cfg, s)
    ensures Inv(cfg, DoPullRequest(cfg, s, service, timeout))
  {
    hide Inv, HandlerOk;
    EnsureKeepsInv(cfg, s, service);
    RespondKeepsInv(cfg, s, BadRequest);
    if NormalizeTimeout(timeout, cfg.maxTimeout).Ok? {
      var n := NormalizeTimeout(timeout, cfg.maxTimeout).value;
      PullingIsOk(cfg, Ensure(s, service), service, n);
      BeginKeepsInv(cfg, Ensure(s, service), Pulling(service, s.clock + n as real));
    }
  }

  lemma EvictionKeepsInv(cfg: Config, s: State, t: State, gone: set<ClientId>)
    requires Inv(cfg, s)
    requires t == s.(clients := s.clients.RemoveAll(gone), cursor := t.cursor)
    ensures Inv(cfg, t)
  {
    RemoveEvolves(s.clients, gone, cfg.clientMax, s.clock);
    StoreStepKeepsInv(cfg, s, t);
  }

  lemma CollectKeepsInv(cfg: Config, s: State, h: nat)
    requires Inv(cfg, s) && h in s.replies
    ensures s.replies[h].Request? ==> Inv(cfg, DoCollectRequest(s, h))
    ensures s.replies[h].Response? ==> Inv(cfg, DoCollectResponse(s, h, true)) && Inv(cfg, DoCollectResponse(s, h, false))
  {
  }

  lemma PopKeepsInv(cfg: Config, s: State, t: Token)
    requires Inv(cfg, s)
    ensures Inv(cfg, DoPopCached(s, t))
  {
  }

  lemma RefuseResponseKeepsInv(cfg: Config, s: State, h: nat)
    requires Inv(cfg, s) && h in s.handlers && s.handlers[h].Delivering?
    ensures Inv(cfg, DoRefuseResponse(s, h))
  {
    FinishKeepsInv(cfg, s, h, Unavailable);
  }

  /** Every step keeps the invariant: queue bounds and histories, references and clocks of all
      entries, and every blocked handler within its deadline. */
  lemma StepKeepsInv(cfg: Config, s: State, step: Step)
    requires cfg.Valid() && Inv(cfg, s) && Enabled(cfg, s, step)
    ensures Inv(cfg, Apply(cfg, s, step))
  {
    hide Inv, Evicted, TickCursor;
    match step
    case PostRequest(c, service, request, timeout, block) => PostRequestKeepsInv(cfg, s, c, service, request, timeout, block);
    case PollResponses(c, timeout) => PollResponsesKeepsInv(cfg, s, c, timeout);
    case PostResponse(c, x, timeout) => PostResponseKeepsInv(cfg, s, c, x, timeout);
    case PullRequest(service, timeout) => PullRequestKeepsInv(cfg, s, service, timeout);
    case Enqueue(h) => EnqueueKeepsInv(cfg, s, h);
    case PutRequest(h) =>
      HandlerIsOk(cfg, s, h);
      PutRequestKeepsInv(cfg, s, h);
    case RefuseRequest(h) => RefuseRequestKeepsInv(cfg, s, h);
    case TakeResponse(h) => TakeResponseKeepsInv(cfg, s, h);
    case NoResponse(h) => NoResponseKeepsInv(cfg, s, h);
    case Answer(h) => AnswerKeepsInv(cfg, s, h);
    case PutResponse(h) =>
      HandlerIsOk(cfg, s, h);
      PutResponseKeepsInv(cfg, s, h);
    case RefuseResponse(h) => RefuseResponseKeepsInv(cfg, s, h);
    case TakeRequest(h) => TakeRequestKeepsInv(cfg, s, h);
    case NoRequest(h) => FinishKeepsInv(cfg, s, h, NoContent);
    case AuthService(service) => EnsureKeepsInv(cfg, s, service);
    case Logoff(c) => EvictionKeepsInv(cfg, s, DoLogoff(s, c), {c});
    case Reap(snapshot) => EvictionKeepsInv(cfg, s, DoReap(cfg, s, snapshot), Evicted(cfg.reaper, s.cursor, MomentOf(s, snapshot)));
    case Advance(to) => AdvanceKeepsInv(cfg, s, to);
    case CollectRequest(h) => CollectKeepsInv(cfg, s, h);
    case CollectResponse(h, _) => CollectKeepsInv(cfg, s, h);
    case PopCached(t) => PopKeepsInv(cfg, s, t);
  }

  lemma AdvanceKeepsInv(cfg: Config, s: State, to: real)
    requires Inv(cfg, s) && MayAdvance(s, to)
    ensures Inv(cfg, s.(clock := to))
  {
  }

  // ---------------------------------------------------------------- runs

  /** `steps` can be taken one after the other from `s`. */
  ghost predicate Legal(cfg: Config, s: State, steps: seq<Step>)
    requires cfg.Valid() && Inv(cfg, s)
    decreases |steps|
  {
    steps == [] || (Enabled(cfg, s, steps[0]) && (StepKeepsInv(cfg, s, steps[0]); Legal(cfg, Apply(cfg, s, steps[0]), steps[1..])))
  }

  ghost function Exec(cfg: Config, s: State, steps: seq<Step>): (t: State)
    requires cfg.Valid() && Inv(cfg, s) && Legal(cfg, s, steps)
    ensures Inv(cfg, t)
    decreases |steps|
  {
    if steps == [] then s
    else StepKeepsInv(cfg, s, steps[0]); Exec(cfg, Apply(cfg, s, steps[0]), steps[1..])
  }

  /** A run can be prolonged by any step its last state enables. */
  lemma {:induction false} Prolong(cfg: Config, s: State, steps: seq<Step>, step: Step)
    requires cfg.Valid() && Inv(cfg, s) && Legal(cfg, s, steps) && Enabled(cfg, Exec(cfg, s, steps), step)
    ensures Legal(cfg, s, steps + [step])
    ensures Exec(cfg, s, steps + [step]) == Apply(cfg, Exec(cfg, s, steps), step)
    decreases |steps|
  {
    hide Inv, Ready, Enabled, Apply;
    var longer := steps + [step];
    if steps == [] {
      StepKeepsInv(cfg, s, step);
      assert longer == [step] && longer[1..] == [];
      assert Legal(cfg, Apply(cfg, s, step), []);
      assert Exec(cfg, Apply(cfg, s, step), []) == Apply(cfg, s, step);
    } else {
      StepKeepsInv(cfg, s, steps[0]);
      Prolong(cfg, Apply(cfg, s, steps[0]), steps[1..], step);
      assert longer[0] == steps[0] && longer[1..] == steps[1..] + [step];
    }
  }

  /** A run in two parts is the second from where the first ends. */
  lemma {:induction false} Split(cfg: Config, s: State, first: seq<Step>, second: seq<Step>)
    requires cfg.Valid() && Inv(cfg, s) && Legal(cfg, s, first + second)
    ensures Legal(cfg, s, first) && Legal(cfg, Exec(cfg, s, first), second)
    ensures Exec(cfg, s, first + second) == Exec(cfg, Exec(cfg, s, first), second)
    decreases |first|
  {
    hide Inv, Ready, Enabled, Apply;
    if first == [] {
      assert first + second == second;
    } else {
      StepKeepsInv(cfg, s, first[0]);
      assert (first + second)[0] == first[0] && (first + second)[1..] == first[1..] + second;
      Split(cfg, Apply(cfg, s, first[0]), first[1..], second);
    }
  }

  lemma InitInv(cfg: Config)
    ensures Inv(cfg, Init())
  {
  }

  /** A run of the whole system from its start. */
  ghost predicate IsRun(cfg: Config, steps: seq<Step>)
    requires cfg.Valid()
  {
    InitInv(cfg);
    Legal(cfg, Init(), steps)
  }

  ghost function Reached(cfg: Config, steps: seq<Step>): (t: State)
    requires cfg.Valid() && IsRun(cfg, steps)
    ensures Inv(cfg, t)
  {
    InitInv(cfg);
    Exec(cfg, Init(), steps)
  }

  lemma ProlongRun(cfg: Config, steps: seq<Step>, step: Step)
    requires cfg.Valid() && IsRun(cfg, steps) && Enabled(cfg, Reached(cfg, steps), step)
    ensures IsRun(cfg, steps + [step])
    ensures Reached(cfg, steps + [step]) == Apply(cfg, Reached(cfg, steps), step)
  {
    InitInv(cfg);
    Prolong(cfg, Init(), steps, step);
  }
}
