/** Every accepted request is in exactly one place, from the service queue to the caller's hands. */
module Conservation {
  import opened Messages
  import opened Deadlines
  import opened Store
  import opened Protocol
  import opened Frames

  /** Where an accepted request, or the response to it, can be. A response in the queue of a
      detached entry is still `InEntry`; LifeCycle says who can take it from there. */
  datatype Place =
    | OnService(service: ServiceName)
    | ToService(h: nat)
    | InHands
    | BeingPosted(h: nat)
    | InEntry(entry: Ref)
    | ToClient(h: nat)
    | InCache
    | WithCaller
    | Dropped

  /** How far along the way a place is. */
  function Rank(p: Place): nat {
    match p
    case OnService(_) => 0
    case ToService(_) => 1
    case InHands => 2
    case BeingPosted(_) => 3
    case InEntry(_) => 4
    case ToClient(_) => 5
    case InCache => 6
    case WithCaller => 7
    case Dropped => 7
  }

  ghost predicate HasRequest(items: seq<PypeRequest>, t: Token) {
    exists i :: 0 <= i < |items| && TokenOf(items[i]) == t
  }

  ghost predicate HasResponse(items: seq<PypeResponse>, rid: RequestId) {
    exists i :: 0 <= i < |items| && items[i].requestId == rid
  }

  ghost predicate AtService(services: Services, n: ServiceName, t: Token) {
    n in services && HasRequest(services[n].items, t)
  }

  ghost predicate AtEntry(clients: Clients, r: Ref, t: Token) {
    r < |clients.entries| && clients.entries[r].client == t.client && HasResponse(clients.entries[r].queue.items, t.requestId)
  }

  ghost predicate AtPost(handlers: map<nat, Handler>, h: nat, t: Token) {
    && h in handlers && (handlers[h].Answering? || handlers[h].Delivering?)
    && Token(handlers[h].client, handlers[h].response.requestId) == t
  }

  ghost predicate RequestMail(replies: map<nat, Reply>, h: nat, t: Token) {
    h in replies && replies[h].Request? && TokenOf(replies[h].request) == t
  }

  ghost predicate ResponseMail(replies: map<nat, Reply>, h: nat, t: Token) {
    h in replies && replies[h].Response? && Token(replies[h].client, replies[h].response.requestId) == t
  }

  ghost predicate At(s: State, t: Token, p: Place) {
    match p
    case OnService(n) => AtService(s.services, n, t)
    case ToService(h) => RequestMail(s.replies, h, t)
    case InHands => t in s.hands
    case BeingPosted(h) => AtPost(s.handlers, h, t)
    case InEntry(r) => AtEntry(s.clients, r, t)
    case ToClient(h) => ResponseMail(s.replies, h, t)
    case InCache => t in s.caches
    case WithCaller => t in s.returned
    case Dropped => t in s.dropped
  }

  ghost predicate Somewhere(s: State, t: Token) {
    exists p :: At(s, t, p)
  }

  /** Every accepted request is in exactly one place, and nothing else is anywhere. */
  ghost predicate Conserved(s: State) {
    && (forall t, p, q :: At(s, t, p) && At(s, t, q) ==> p == q)
    && (forall t :: t in s.accepted <==> Somewhere(s, t))
  }

  // ---------------------------------------------------------------- honesty

  /** Clients never reuse a request id, and services answer only requests they have pulled and not
      yet answered, with the ids they were given. */
  ghost predicate Honest(s: State, step: Step) {
    match step
    case PostRequest(_, _, request, _, _) => TokenOf(request) !in s.minted
    case PostResponse(c, x, _) => Token(c, x.requestId) in s.hands
    case _ => true
  }

  ghost predicate HonestRun(cfg: Config, s: State, steps: seq<Step>)
    requires cfg.Valid() && Inv(cfg, s) && Legal(cfg, s, steps)
    decreases |steps|
  {
    steps == [] || (Honest(s, steps[0]) && (StepKeepsInv(cfg, s, steps[0]); HonestRun(cfg, Apply(cfg, s, steps[0]), steps[1..])))
  }

  // ---------------------------------------------------------------- what is kept beside conservation

  ghost predicate DistinctRequests(items: seq<PypeRequest>) {
    forall i, j :: 0 <= i < j < |items| ==> TokenOf(items[i]) != TokenOf(items[j])
  }

  ghost predicate DistinctResponses(items: seq<PypeResponse>) {
    forall i, j :: 0 <= i < j < |items| ==> items[i].requestId != items[j].requestId
  }

  /** No queue holds two messages of one request. */
  ghost predicate NoDuplicates(services: Services, clients: Clients) {
    && (forall n :: n in services ==> DistinctRequests(services[n].items))
    && (forall r :: 0 <= r < |clients.entries| ==> DistinctResponses(clients.entries[r].queue.items))
  }

  ghost predicate IsPoster(p: Handler) {
    p.Posting? || p.Enqueuing?
  }

  /** Requests on their way to a queue are new, each in its own way. */
  ghost predicate PostersNew(s: State) {
    && s.accepted <= s.minted
    && (forall h :: h in s.handlers && IsPoster(s.handlers[h]) ==>
          TokenOf(s.handlers[h].request) in s.minted && TokenOf(s.handlers[h].request) !in s.accepted)
    && (forall h, k :: h in s.handlers && k in s.handlers && h != k && IsPoster(s.handlers[h]) && IsPoster(s.handlers[k]) ==>
          TokenOf(s.handlers[h].request) != TokenOf(s.handlers[k].request))
  }

  ghost predicate Accounted(s: State) {
    Conserved(s) && NoDuplicates(s.services, s.clients) && PostersNew(s)
  }

  // ---------------------------------------------------------------- moves

  ghost predicate Unmoved(s: State, t: State) {
    t.accepted == s.accepted && forall x, p :: At(t, x, p) <==> At(s, x, p)
  }

  /** `x` is now at `q` and nowhere else, further on than it was; everything else is where it was. */
  ghost predicate MovedTo(s: State, t: State, x: Token, q: Place) {
    && t.accepted == s.accepted + {x}
    && (forall y, p :: At(t, y, p) <==> if y == x then p == q else At(s, y, p))
    && (forall p :: At(s, x, p) ==> Rank(p) < Rank(q))
  }

  ghost predicate Moves(s: State, t: State) {
    Unmoved(s, t) || exists x, q :: MovedTo(s, t, x, q)
  }

  lemma MovesConserve(s: State, t: State)
    requires Conserved(s) && Moves(s, t)
    ensures Conserved(t)
  {
    if Unmoved(s, t) {
      forall x
        ensures Somewhere(s, x) <==> Somewhere(t, x)
      {
        if p :| At(s, x, p) {
          assert At(t, x, p);
        }
        if p :| At(t, x, p) {
          assert At(s, x, p);
        }
      }
    } else {
      var x, q :| MovedTo(s, t, x, q);
      assert At(t, x, q);
      forall y | y != x
        ensures Somewhere(s, y) <==> Somewhere(t, y)
      {
        if p :| At(s, y, p) {
          assert At(t, y, p);
        }
        if p :| At(t, y, p) {
          assert At(s, y, p);
        }
      }
    }
  }

  // ---------------------------------------------------------------- frames

  ghost predicate SameServiceItems(a: Services, b: Services) {
    && (forall n :: n in a ==> n in b && b[n].items == a[n].items)
    && (forall n :: n in b && n !in a ==> b[n].items == [])
  }

  ghost predicate SameEntryItems(a: Clients, b: Clients) {
    && |a.entries| <= |b.entries|
    && (forall r :: 0 <= r < |a.entries| ==> b.entries[r].client == a.entries[r].client && b.entries[r].queue.items == a.entries[r].queue.items)
    && (forall r :: |a.entries| <= r < |b.entries| ==> b.entries[r].queue.items == [])
  }

  ghost predicate SamePosts(a: map<nat, Handler>, b: map<nat, Handler>) {
    forall h, x :: AtPost(a, h, x) <==> AtPost(b, h, x)
  }

  /** Replies that carry neither a request nor a response may come; none may go. */
  ghost predicate SameMail(a: map<nat, Reply>, b: map<nat, Reply>) {
    && (forall h :: h in a && (a[h].Request? || a[h].Response?) ==> h in b && b[h] == a[h])
    && (forall h :: h in b && (b[h].Request? || b[h].Response?) ==> h in a && b[h] == a[h])
  }

  ghost predicate SameHoldings(s: State, t: State) {
    && t.hands == s.hands && t.caches.Keys == s.caches.Keys && t.returned == s.returned && t.dropped == s.dropped
    && t.accepted == s.accepted
  }

  lemma Frame(s: State, t: State)
    requires SameServiceItems(s.services, t.services) && SameEntryItems(s.clients, t.clients)
    requires SamePosts(s.handlers, t.handlers) && SameMail(s.replies, t.replies) && SameHoldings(s, t)
    ensures Unmoved(s, t)
    ensures NoDuplicates(s.services, s.clients) ==> NoDuplicates(t.services, t.clients)
  {
  }

  lemma TouchKeepsItems(clients: Clients, c: ClientId, now: real, gone: set<ClientId>)
    ensures SameEntryItems(clients, clients.GetOrCreate(c, now)) && SameEntryItems(clients, clients.Bump(c, now))
    ensures SameEntryItems(clients, clients.GetOrCreate(c, now).Bump(c, now)) && SameEntryItems(clients, clients.RemoveAll(gone))
  {
  }

  // ---------------------------------------------------------------- queues

  lemma PutRequestItem(items: seq<PypeRequest>, x: PypeRequest)
    ensures forall t :: HasRequest(items + [x], t) <==> HasRequest(items, t) || t == TokenOf(x)
    ensures DistinctRequests(items) && !HasRequest(items, TokenOf(x)) ==> DistinctRequests(items + [x])
  {
    forall t
      ensures HasRequest(items + [x], t) <==> HasRequest(items, t) || t == TokenOf(x)
    {
      var more := items + [x];
      assert more[|items|] == x;
      if i :| 0 <= i < |items| && TokenOf(items[i]) == t {
        assert more[i] == items[i];
      }
    }
  }

  lemma TakeRequestItem(items: seq<PypeRequest>)
    requires items != [] && DistinctRequests(items)
    ensures forall t :: HasRequest(items[1..], t) <==> HasRequest(items, t) && t != TokenOf(items[0])
    ensures DistinctRequests(items[1..]) && HasRequest(items, TokenOf(items[0]))
  {
  }

  lemma PutResponseItem(items: seq<PypeResponse>, x: PypeResponse)
    ensures forall rid :: HasResponse(items + [x], rid) <==> HasResponse(items, rid) || rid == x.requestId
    ensures DistinctResponses(items) && !HasResponse(items, x.requestId) ==> DistinctResponses(items + [x])
  {
    forall rid
      ensures HasResponse(items + [x], rid) <==> HasResponse(items, rid) || rid == x.requestId
    {
      var more := items + [x];
      assert more[|items|] == x;
      if i :| 0 <= i < |items| && items[i].requestId == rid {
        assert more[i] == items[i];
      }
    }
  }

  lemma TakeResponseItem(items: seq<PypeResponse>)
    requires items != [] && DistinctResponses(items)
    ensures forall rid :: HasResponse(items[1..], rid) <==> HasResponse(items, rid) && rid != items[0].requestId
    ensures DistinctResponses(items[1..]) && HasResponse(items, items[0].requestId)
  {
  }

  // ---------------------------------------------------------------- a move, component by component

  ghost predicate ServicesAt(a: Services, b: Services, x: Token, q: Place) {
    forall n, y :: AtService(b, n, y) <==> if y == x then q == OnService(n) else AtService(a, n, y)
  }

  ghost predicate EntriesAt(a: Clients, b: Clients, x: Token, q: Place) {
    forall r, y :: AtEntry(b, r, y) <==> if y == x then q == InEntry(r) else AtEntry(a, r, y)
  }

  ghost predicate PostsAt(a: map<nat, Handler>, b: map<nat, Handler>, x: Token, q: Place) {
    forall h, y :: AtPost(b, h, y) <==> if y == x then q == BeingPosted(h) else AtPost(a, h, y)
  }

  ghost predicate MailAt(a: map<nat, Reply>, b: map<nat, Reply>, x: Token, q: Place) {
    && (forall h, y :: RequestMail(b, h, y) <==> if y == x then q == ToService(h) else RequestMail(a, h, y))
    && (forall h, y :: ResponseMail(b, h, y) <==> if y == x then q == ToClient(h) else ResponseMail(a, h, y))
  }

  ghost predicate HoldingsAt(s: State, t: State, x: Token, q: Place) {
    && (forall y :: y in t.hands <==> if y == x then q == InHands else y in s.hands)
    && (forall y :: y in t.caches <==> if y == x then q == InCache else y in s.caches)
    && (forall y :: y in t.returned <==> if y == x then q == WithCaller else y in s.returned)
    && (forall y :: y in t.dropped <==> if y == x then q == Dropped else y in s.dropped)
  }

  lemma MoveByComponents(s: State, t: State, x: Token, q: Place)
    requires ServicesAt(s.services, t.services, x, q) && EntriesAt(s.clients, t.clients, x, q)
    requires PostsAt(s.handlers, t.handlers, x, q) && MailAt(s.replies, t.replies, x, q) && HoldingsAt(s, t, x, q)
    ensures forall y, p :: At(t, y, p) <==> if y == x then p == q else At(s, y, p)
  {
  }

  /** `x` is nowhere but, perhaps, at `p`. */
  ghost predicate OnlyAt(s: State, x: Token, p: Place) {
    && (forall n :: AtService(s.services, n, x) ==> p == OnService(n))
    && (forall r :: AtEntry(s.clients, r, x) ==> p == InEntry(r))
    && (forall h :: AtPost(s.handlers, h, x) ==> p == BeingPosted(h))
    && (forall h :: RequestMail(s.replies, h, x) ==> p == ToService(h))
    && (forall h :: ResponseMail(s.replies, h, x) ==> p == ToClient(h))
    && (x in s.hands ==> p == InHands) && (x in s.caches ==> p == InCache)
    && (x in s.returned ==> p == WithCaller) && (x in s.dropped ==> p == Dropped)
  }

  lemma WhereItIs(s: State, x: Token, p: Place)
    requires Conserved(s) && (At(s, x, p) || x !in s.accepted)
    ensures OnlyAt(s, x, p)
    ensures x in s.accepted <==> At(s, x, p)
  {
    if x in s.accepted {
      assert forall q :: At(s, x, q) ==> q == p;
    } else {
      assert forall q :: !At(s, x, q);
    }
    forall n
      ensures AtService(s.services, n, x) == At(s, x, OnService(n))
    {
    }
    forall r
      ensures AtEntry(s.clients, r, x) == At(s, x, InEntry(r))
    {
    }
    forall h
      ensures AtPost(s.handlers, h, x) == At(s, x, BeingPosted(h))
      ensures RequestMail(s.replies, h, x) == At(s, x, ToService(h))
      ensures ResponseMail(s.replies, h, x) == At(s, x, ToClient(h))
    {
    }
    assert At(s, x, InHands) == (x in s.hands) && At(s, x, InCache) == (x in s.caches);
    assert At(s, x, WithCaller) == (x in s.returned) && At(s, x, Dropped) == (x in s.dropped);
  }

  lemma NowhereIsNowhere(s: State, x: Token, p: Place)
    requires OnlyAt(s, x, p) && !At(s, x, p)
    ensures (forall n :: !AtService(s.services, n, x)) && (forall r :: !AtEntry(s.clients, r, x)) && (forall h :: !AtPost(s.handlers, h, x))
    ensures forall h :: !RequestMail(s.replies, h, x) && !ResponseMail(s.replies, h, x)
    ensures x !in s.hands && x !in s.caches && x !in s.returned && x !in s.dropped
  {
  }

  lemma ServicesStay(a: Services, b: Services, x: Token, q: Place)
    requires SameServiceItems(a, b) && (forall n :: !AtService(a, n, x)) && !q.OnService?
    ensures ServicesAt(a, b, x, q)
  {
    forall n, y
      ensures AtService(b, n, y) <==> if y == x then q == OnService(n) else AtService(a, n, y)
    {
      assert AtService(b, n, y) <==> AtService(a, n, y);
    }
  }

  lemma EntriesStay(a: Clients, b: Clients, x: Token, q: Place)
    requires SameEntryItems(a, b) && (forall r :: !AtEntry(a, r, x)) && !q.InEntry?
    ensures EntriesAt(a, b, x, q)
  {
    forall r, y
      ensures AtEntry(b, r, y) <==> if y == x then q == InEntry(r) else AtEntry(a, r, y)
    {
      assert AtEntry(b, r, y) <==> AtEntry(a, r, y);
    }
  }

  lemma PostsStay(a: map<nat, Handler>, b: map<nat, Handler>, x: Token, q: Place)
    requires SamePosts(a, b) && (forall h :: !AtPost(a, h, x)) && !q.BeingPosted?
    ensures PostsAt(a, b, x, q)
  {
  }

  lemma MailStays(a: map<nat, Reply>, b: map<nat, Reply>, x: Token, q: Place)
    requires SameMail(a, b) && (forall h :: !RequestMail(a, h, x) && !ResponseMail(a, h, x)) && !q.ToService? && !q.ToClient?
    ensures MailAt(a, b, x, q)
  {
    forall h, y
      ensures RequestMail(b, h, y) <==> if y == x then q == ToService(h) else RequestMail(a, h, y)
      ensures ResponseMail(b, h, y) <==> if y == x then q == ToClient(h) else ResponseMail(a, h, y)
    {
      assert RequestMail(b, h, y) <==> RequestMail(a, h, y);
      assert ResponseMail(b, h, y) <==> ResponseMail(a, h, y);
    }
  }

  lemma ServicePut(a: Services, n: ServiceName, request: PypeRequest)
    requires n in a && forall m :: !AtService(a, m, TokenOf(request))
    ensures ServicesAt(a, a[n := a[n].Put(request)], TokenOf(request), OnService(n))
    ensures DistinctRequests(a[n].items) ==> DistinctRequests(a[n].Put(request).items)
  {
    assert !AtService(a, n, TokenOf(request));
    PutRequestItem(a[n].items, request);
    var b := a[n := a[n].Put(request)];
    forall m, y
      ensures AtService(b, m, y) <==> if y == TokenOf(request) then m == n else AtService(a, m, y)
    {
      assert !AtService(a, m, TokenOf(request));
    }
  }

  lemma ServiceTake(a: Services, n: ServiceName, q: Place)
    requires n in a && a[n].items != [] && DistinctRequests(a[n].items) && !q.OnService?
    requires forall m :: AtService(a, m, TokenOf(a[n].items[0])) ==> m == n
    ensures ServicesAt(a, a[n := a[n].Take()], TokenOf(a[n].items[0]), q) && DistinctRequests(a[n].Take().items)
  {
    var x, b := TokenOf(a[n].items[0]), a[n := a[n].Take()];
    TakeRequestItem(a[n].items);
    forall m, y
      ensures AtService(b, m, y) <==> y != x && AtService(a, m, y)
    {
      assert AtService(a, m, x) ==> m == n;
    }
  }

  lemma EntryPut(a: Clients, r: Ref, response: PypeResponse)
    requires r < |a.entries| && forall k :: !AtEntry(a, k, Token(a.entries[r].client, response.requestId))
    ensures EntriesAt(a, a.Put(r, response), Token(a.entries[r].client, response.requestId), InEntry(r))
    ensures DistinctResponses(a.entries[r].queue.items) ==> DistinctResponses(a.Put(r, response).entries[r].queue.items)
  {
    var x, b := Token(a.entries[r].client, response.requestId), a.Put(r, response);
    assert !AtEntry(a, r, x);
    PutResponseItem(a.entries[r].queue.items, response);
    forall k, y
      ensures AtEntry(b, k, y) <==> if y == x then k == r else AtEntry(a, k, y)
    {
      assert !AtEntry(a, k, x);
    }
  }

  lemma EntryTake(a: Clients, r: Ref, q: Place)
    requires r < |a.entries| && a.entries[r].queue.items != [] && DistinctResponses(a.entries[r].queue.items) && !q.InEntry?
    requires forall k :: AtEntry(a, k, Token(a.entries[r].client, a.entries[r].queue.items[0].requestId)) ==> k == r
    ensures EntriesAt(a, a.Take(r), Token(a.entries[r].client, a.entries[r].queue.items[0].requestId), q)
    ensures DistinctResponses(a.Take(r).entries[r].queue.items)
  {
    var x, b := Token(a.entries[r].client, a.entries[r].queue.items[0].requestId), a.Take(r);
    TakeResponseItem(a.entries[r].queue.items);
    forall k, y
      ensures AtEntry(b, k, y) <==> y != x && AtEntry(a, k, y)
    {
      assert AtEntry(a, k, x) ==> k == r;
    }
  }

  lemma MailNew(a: map<nat, Reply>, h: nat, reply: Reply, x: Token, q: Place)
    requires h !in a && forall k :: !RequestMail(a, k, x) && !ResponseMail(a, k, x)
    requires reply.Request? ==> TokenOf(reply.request) == x && q == ToService(h)
    requires reply.Response? ==> Token(reply.client, reply.response.requestId) == x && q == ToClient(h)
    requires reply.Request? || reply.Response?
    ensures MailAt(a, a[h := reply], x, q)
  {
    var b := a[h := reply];
    forall k, y
      ensures RequestMail(b, k, y) <==> if y == x then q == ToService(k) else RequestMail(a, k, y)
      ensures ResponseMail(b, k, y) <==> if y == x then q == ToClient(k) else ResponseMail(a, k, y)
    {
      assert !RequestMail(a, k, x) && !ResponseMail(a, k, x);
    }
  }

  lemma PostNew(a: map<nat, Handler>, h: nat, p: Handler, x: Token)
    requires h !in a && p.Answering? && Token(p.client, p.response.requestId) == x && forall k :: !AtPost(a, k, x)
    ensures PostsAt(a, a[h := p], x, BeingPosted(h))
  {
    var b := a[h := p];
    forall k, y
      ensures AtPost(b, k, y) <==> if y == x then k == h else AtPost(a, k, y)
    {
      assert !AtPost(a, k, x);
    }
  }

  lemma PostGone(a: map<nat, Handler>, h: nat, x: Token, q: Place)
    requires AtPost(a, h, x) && !q.BeingPosted? && forall k :: AtPost(a, k, x) ==> k == h
    ensures PostsAt(a, a - {h}, x, q)
  {
    var b := a - {h};
    forall k, y
      ensures AtPost(b, k, y) <==> y != x && AtPost(a, k, y)
    {
      assert AtPost(a, k, x) ==> k == h;
    }
  }

  lemma HoldingsStay(s: State, t: State, x: Token, q: Place)
    requires SameSets(s, t) && x !in s.hands && x !in s.caches && x !in s.returned && x !in s.dropped
    requires !q.InHands? && !q.InCache? && !q.WithCaller? && !q.Dropped?
    ensures HoldingsAt(s, t, x, q)
  {
  }

  lemma NoMail(a: map<nat, Reply>, h: nat, reply: Reply)
    requires h !in a && !reply.Request? && !reply.Response?
    ensures SameMail(a, a[h := reply])
  {
  }

  /** What the lemmas of the single moves end with. */
  lemma MoveForward(s: State, t: State, x: Token, from: Place, q: Place)
    requires t.accepted == s.accepted + {x} && OnlyAt(s, x, from) && (x in s.accepted ==> Rank(from) < Rank(q))
    requires Conserved(s) && (x in s.accepted <==> At(s, x, from))
    requires ServicesAt(s.services, t.services, x, q) && EntriesAt(s.clients, t.clients, x, q)
    requires PostsAt(s.handlers, t.handlers, x, q) && MailAt(s.replies, t.replies, x, q) && HoldingsAt(s, t, x, q)
    ensures MovedTo(s, t, x, q)
  {
    MoveByComponents(s, t, x, q);
  }

  // ---------------------------------------------------------------- the moves, one by one

  lemma PutRequestKeepsPosts(s: State, h: nat)
    requires h in s.handlers && s.handlers[h].Enqueuing? && s.handlers[h].service in s.services
    ensures SamePosts(s.handlers, DoPutRequest(s, h).handlers)
  {
    hide DoPutRequest;
    PutRequestShape(s, h);
  }

  /** A new request reaches its service queue. */
  lemma PutRequestMoves(cfg: Config, s: State, h: nat)
    requires Inv(cfg, s) && Accounted(s)
    requires h in s.handlers && s.handlers[h].Enqueuing? && s.handlers[h].service in s.services
    ensures var p, t := s.handlers[h], DoPutRequest(s, h);
            MovedTo(s, t, TokenOf(p.request), OnService(p.service)) && NoDuplicates(t.services, t.clients)
  {
    hide DoPutRequest, Conserved, AtService, AtEntry, AtPost, RequestMail, ResponseMail, Clients.Bump, StoreInv, HandlerOk;
    var p, t := s.handlers[h], DoPutRequest(s, h);
    var x, q := TokenOf(p.request), OnService(p.service);
    assert x !in s.accepted && h !in s.replies;
    WhereItIs(s, x, q);
    NowhereIsNowhere(s, x, q);
    PutRequestShape(s, h);
    PutRequestKeepsPosts(s, h);
    ServicePut(s.services, p.service, p.request);
    TouchKeepsItems(s.clients, p.client, s.clock, {});
    NoMail(s.replies, h, AcceptedReply);
    HoldingsStay(s, t, x, q);
    EntriesStay(s.clients, t.clients, x, q);
    PostsStay(s.handlers, t.handlers, x, q);
    MailStays(s.replies, t.replies, x, q);
    MoveForward(s, t, x, q, q);
  }

  /** A service takes it. */
  lemma TakeRequestMoves(cfg: Config, s: State, h: nat)
    requires Inv(cfg, s) && Accounted(s) && RequestAvailable(s, h)
    ensures var x := TokenOf(s.services[s.handlers[h].service].items[0]);
            var t := DoTakeRequest(s, h);
            MovedTo(s, t, x, ToService(h)) && NoDuplicates(t.services, t.clients)
  {
    hide DoTakeRequest, Inv, PostersNew, Conserved, AtService, AtEntry, AtPost, RequestMail, ResponseMail, At, HoldingsAt;
    var n, t := s.handlers[h].service, DoTakeRequest(s, h);
    var items := s.services[n].items;
    var x, q := TokenOf(items[0]), ToService(h);
    HeadIsOnService(cfg, s, h);
    TakeRequestShape(s, h, x);
    ServiceTake(s.services, n, q);
    EntriesStay(s.clients, t.clients, x, q);
    PostsStay(s.handlers, t.handlers, x, q);
    MailNew(s.replies, h, Request(items[0]), x, q);
    MoveForward(s, t, x, OnService(n), q);
  }

  lemma HeadIsOnService(cfg: Config, s: State, h: nat)
    requires Inv(cfg, s) && Accounted(s) && RequestAvailable(s, h)
    ensures var n := s.handlers[h].service;
            var x := TokenOf(s.services[n].items[0]);
            h !in s.replies && OnlyAt(s, x, OnService(n)) && At(s, x, OnService(n)) && x in s.accepted
  {
    var n := s.handlers[h].service;
    var x := TokenOf(s.services[n].items[0]);
    TakeRequestItem(s.services[n].items);
    assert At(s, x, OnService(n));
    assert Somewhere(s, x);
    WhereItIs(s, x, OnService(n));
  }

  lemma TakeRequestShape(s: State, h: nat, x: Token)
    requires RequestAvailable(s, h) && x in s.accepted && OnlyAt(s, x, OnService(s.handlers[h].service))
    ensures var t, n := DoTakeRequest(s, h), s.handlers[h].service;
            && t.services == s.services[n := s.services[n].Take()] && t.clients == s.clients
            && SamePosts(s.handlers, t.handlers) && t.replies == s.replies[h := Request(s.services[n].items[0])]
            && HoldingsAt(s, t, x, ToService(h)) && t.accepted == s.accepted + {x}
  {
  }

  lemma CollectRequestMoves(s: State, h: nat)
    requires Accounted(s) && h in s.replies && s.replies[h].Request?
    ensures MovedTo(s, DoCollectRequest(s, h), TokenOf(s.replies[h].request), InHands)
  {
    var x, t := TokenOf(s.replies[h].request), DoCollectRequest(s, h);
    assert At(s, x, ToService(h));
    assert Somewhere(s, x);
    WhereItIs(s, x, ToService(h));
    ServicesStay(s.services, t.services, x, InHands);
    EntriesStay(s.clients, t.clients, x, InHands);
    PostsStay(s.handlers, t.handlers, x, InHands);
    MoveForward(s, t, x, ToService(h), InHands);
  }

  lemma NoDuplicatesKept(a: Services, b: Services, c: Clients, d: Clients)
    requires NoDuplicates(a, c) && SameServiceItems(a, b) && SameEntryItems(c, d)
    ensures NoDuplicates(b, d)
  {
  }

  lemma InHandsIsOnlyThere(s: State, x: Token)
    requires Conserved(s) && x in s.hands
    ensures At(s, x, InHands) && OnlyAt(s, x, InHands) && x in s.accepted
  {
    assert At(s, x, InHands);
    assert Somewhere(s, x);
    WhereItIs(s, x, InHands);
  }

  /** The service answers: the response is on its way to a client queue, or refused at once. */
  lemma PostResponseMoves(cfg: Config, s: State, c: ClientId, x: PypeResponse, timeout: Option<int>)
    requires Inv(cfg, s) && Accounted(s) && Token(c, x.requestId) in s.hands
    ensures var t := DoPostResponse(cfg, s, c, x, timeout);
            && MovedTo(s, t, Token(c, x.requestId), if NormalizeTimeout(timeout, cfg.maxTimeout).Ok? then BeingPosted(s.next) else Dropped)
            && NoDuplicates(t.services, t.clients)
  {
    PostResponseShape(cfg, s, c, x, timeout);
    TouchKeepsItems(s.clients, c, s.clock, {});
    PostResponseMovesToken(cfg, s, c, x, timeout);
    hide DoPostResponse, MovedTo, NormalizeTimeout;
    NoDuplicatesKept(s.services, s.services, s.clients, s.clients.GetOrCreate(c, s.clock));
  }

  lemma PostResponseMovesToken(cfg: Config, s: State, c: ClientId, x: PypeResponse, timeout: Option<int>)
    requires Inv(cfg, s) && Accounted(s) && Token(c, x.requestId) in s.hands
    ensures var t := DoPostResponse(cfg, s, c, x, timeout);
            MovedTo(s, t, Token(c, x.requestId), if NormalizeTimeout(timeout, cfg.maxTimeout).Ok? then BeingPosted(s.next) else Dropped)
  {
    hide DoPostResponse, NormalizeTimeout, Inv, PostersNew, Conserved, NoDuplicates, MovedTo, At, HoldingsAt, Clients.GetOrCreate, Clients.Bump;
    hide AtService, AtEntry, AtPost, RequestMail, ResponseMail;
    var token, t := Token(c, x.requestId), DoPostResponse(cfg, s, c, x, timeout);
    var ok := NormalizeTimeout(timeout, cfg.maxTimeout).Ok?;
    var q := if ok then BeingPosted(s.next) else Dropped;
    InHandsIsOnlyThere(s, token);
    NextIsNew(cfg, s);
    PostResponseShape(cfg, s, c, x, timeout);
    PostResponseHoldings(cfg, s, c, x, timeout);
    TouchKeepsItems(s.clients, c, s.clock, {});
    NoMail(s.replies, s.next, BadRequest);
    ServicesStay(s.services, t.services, token, q);
    EntriesStay(s.clients, t.clients, token, q);
    MailStays(s.replies, t.replies, token, q);
    if ok {
      PostNew(s.handlers, s.next, t.handlers[s.next], token);
    } else {
      PostsStay(s.handlers, t.handlers, token, q);
    }
    MoveForward(s, t, token, InHands, q);
  }

  lemma PostResponseHoldings(cfg: Config, s: State, c: ClientId, x: PypeResponse, timeout: Option<int>)
    requires OnlyAt(s, Token(c, x.requestId), InHands)
    ensures HoldingsAt(s, DoPostResponse(cfg, s, c, x, timeout), Token(c, x.requestId),
                       if NormalizeTimeout(timeout, cfg.maxTimeout).Ok? then BeingPosted(s.next) else Dropped)
  {
  }

  lemma PutResponseMoves(cfg: Config, s: State, h: nat)
    requires Inv(cfg, s) && Accounted(s) && h in s.handlers && s.handlers[h].Delivering? && s.handlers[h].entry < |s.clients.entries|
    ensures var p, t := s.handlers[h], DoPutResponse(s, h);
            MovedTo(s, t, Token(p.client, p.response.requestId), InEntry(p.entry)) && NoDuplicates(t.services, t.clients)
  {
    var p, t := s.handlers[h], DoPutResponse(s, h);
    var x, q := Token(p.client, p.response.requestId), InEntry(p.entry);
    PostIsOnlyThere(cfg, s, h);
    PutResponseShape(s, h, x);
    assert Conserved(s) && NoDuplicates(s.services, s.clients);
    EntryPut(s.clients, p.entry, p.response);
    hide DoPutResponse, Inv, PostersNew, Conserved, AtService, AtEntry, AtPost, RequestMail, ResponseMail, Clients.Put;
    ServicesStay(s.services, t.services, x, q);
    PostGone(s.handlers, h, x, q);
    MailStays(s.replies, t.replies, x, q);
    MoveForward(s, t, x, BeingPosted(h), q);
  }

  /** What a handler carries to an entry is nowhere else. */
  lemma PostIsOnlyThere(cfg: Config, s: State, h: nat)
    requires Inv(cfg, s) && Accounted(s) && h in s.handlers && (s.handlers[h].Answering? || s.handlers[h].Delivering?)
    ensures var x := Token(s.handlers[h].client, s.handlers[h].response.requestId);
            && h !in s.replies && s.clients.entries[s.handlers[h].entry].client == s.handlers[h].client
            && At(s, x, BeingPosted(h)) && OnlyAt(s, x, BeingPosted(h)) && x in s.accepted
  {
    var x := Token(s.handlers[h].client, s.handlers[h].response.requestId);
    assert HandlerOk(cfg, s.clock, s.clients, s.services, s.handlers[h]);
    assert At(s, x, BeingPosted(h));
    assert Somewhere(s, x);
    WhereItIs(s, x, BeingPosted(h));
  }

  lemma PutResponseShape(s: State, h: nat, x: Token)
    requires h in s.handlers && s.handlers[h].Delivering? && s.handlers[h].entry < |s.clients.entries| && h !in s.replies
    requires x in s.accepted && OnlyAt(s, x, BeingPosted(h))
    ensures var p, t := s.handlers[h], DoPutResponse(s, h);
            && t.clients == s.clients.Put(p.entry, p.response) && t.services == s.services && SameMail(s.replies, t.replies)
            && t.handlers == s.handlers - {h} && HoldingsAt(s, t, x, InEntry(p.entry)) && t.accepted == s.accepted + {x}
  {
  }

  lemma RefuseResponseShape(s: State, h: nat, x: Token)
    requires h in s.handlers && s.handlers[h].Delivering? && h !in s.replies
    requires x == Token(s.handlers[h].client, s.handlers[h].response.requestId)
    requires x in s.accepted && OnlyAt(s, x, BeingPosted(h))
    ensures var t := DoRefuseResponse(s, h);
            && t.clients == s.clients && t.services == s.services && SameMail(s.replies, t.replies)
            && t.handlers == s.handlers - {h} && HoldingsAt(s, t, x, Dropped) && t.accepted == s.accepted + {x}
  {
  }

  lemma RefuseResponseMoves(cfg: Config, s: State, h: nat)
    requires Inv(cfg, s) && Accounted(s) && h in s.handlers && s.handlers[h].Delivering?
    ensures MovedTo(s, DoRefuseResponse(s, h), Token(s.handlers[h].client, s.handlers[h].response.requestId), Dropped)
  {
    var p, t := s.handlers[h], DoRefuseResponse(s, h);
    var x := Token(p.client, p.response.requestId);
    PostIsOnlyThere(cfg, s, h);
    RefuseResponseShape(s, h, x);
    assert Conserved(s);
    hide Inv, PostersNew, Conserved, DoRefuseResponse, AtService, AtEntry, AtPost, RequestMail, ResponseMail;
    ServicesStay(s.services, t.services, x, Dropped);
    EntriesStay(s.clients, t.clients, x, Dropped);
    MailStays(s.replies, t.replies, x, Dropped);
    PostGone(s.handlers, h, x, Dropped);
    MoveForward(s, t, x, BeingPosted(h), Dropped);
  }

  lemma TakeResponseShape(s: State, h: nat)
    requires ResponseAvailable(s, h)
    ensures var p, t := s.handlers[h], DoTakeResponse(s, h);
            var taken := s.clients.Take(p.entry);
            && t.services == s.services && SameSets(s, t) && t.accepted == s.accepted
            && (t.clients == taken || t.clients == taken.Bump(p.client, s.clock))
            && t.handlers == s.handlers - {h} && SamePosts(s.handlers, t.handlers)
            && t.replies == s.replies[h := Response(p.client, s.clients.entries[p.entry].queue.items[0])]
  {
  }

  /** A poll, or the second phase of a POST, takes the response. */
  lemma TakeResponseMoves(cfg: Config, s: State, h: nat)
    requires Inv(cfg, s) && Accounted(s) && ResponseAvailable(s, h)
    ensures var p, t := s.handlers[h], DoTakeResponse(s, h);
            && MovedTo(s, t, Token(p.client, s.clients.entries[p.entry].queue.items[0].requestId), ToClient(h))
            && NoDuplicates(t.services, t.clients)
  {
    var p, t := s.handlers[h], DoTakeResponse(s, h);
    TakeResponseMovesToken(cfg, s, h);
    TakeResponseShape(s, h);
    hide DoTakeResponse, MovedTo, Inv, Conserved, PostersNew;
    var taken := s.clients.Take(p.entry);
    TakeResponseItem(s.clients.entries[p.entry].queue.items);
    assert NoDuplicates(s.services, taken);
    TouchKeepsItems(taken, p.client, s.clock, {});
    NoDuplicatesKept(s.services, s.services, taken, t.clients);
  }

  lemma HeadIsInEntry(cfg: Config, s: State, h: nat)
    requires Inv(cfg, s) && Accounted(s) && ResponseAvailable(s, h)
    ensures var p := s.handlers[h];
            var items := s.clients.entries[p.entry].queue.items;
            var x := Token(p.client, items[0].requestId);
            && s.clients.entries[p.entry].client == p.client && h !in s.replies && DistinctResponses(items)
            && OnlyAt(s, x, InEntry(p.entry)) && At(s, x, InEntry(p.entry)) && x in s.accepted
  {
    var p := s.handlers[h];
    var items := s.clients.entries[p.entry].queue.items;
    var x := Token(p.client, items[0].requestId);
    assert HandlerOk(cfg, s.clock, s.clients, s.services, p);
    assert At(s, x, InEntry(p.entry));
    assert Somewhere(s, x);
    WhereItIs(s, x, InEntry(p.entry));
  }

  lemma TakeResponseMovesToken(cfg: Config, s: State, h: nat)
    requires Inv(cfg, s) && Accounted(s) && ResponseAvailable(s, h)
    ensures var p, t := s.handlers[h], DoTakeResponse(s, h);
            MovedTo(s, t, Token(p.client, s.clients.entries[p.entry].queue.items[0].requestId), ToClient(h))
  {
    hide Inv, PostersNew, Conserved, NoDuplicates, AtService, AtEntry, AtPost, RequestMail, ResponseMail, At, MovedTo;
    hide DoTakeResponse, Clients.Take, Clients.Bump, HoldingsAt;
    var p, t := s.handlers[h], DoTakeResponse(s, h);
    var items := s.clients.entries[p.entry].queue.items;
    var x, q := Token(p.client, items[0].requestId), ToClient(h);
    HeadIsInEntry(cfg, s, h);
    TakeResponseShape(s, h);
    var taken := s.clients.Take(p.entry);
    TouchKeepsItems(taken, p.client, s.clock, {});
    HoldingsStay(s, t, x, q);
    EntryTake(s.clients, p.entry, q);
    EntriesStayAfter(s.clients, taken, t.clients, x, q);
    ServicesStay(s.services, t.services, x, q);
    PostsStay(s.handlers, t.handlers, x, q);
    MailNew(s.replies, h, Response(p.client, items[0]), x, q);
    MoveForward(s, t, x, InEntry(p.entry), q);
  }

  lemma EntriesStayAfter(a: Clients, b: Clients, c: Clients, x: Token, q: Place)
    requires EntriesAt(a, b, x, q) && SameEntryItems(b, c)
    ensures EntriesAt(a, c, x, q)
  {
    forall r, y
      ensures AtEntry(c, r, y) <==> AtEntry(b, r, y)
    {
    }
  }

  lemma ResponseIsOnlyThere(s: State, h: nat)
    requires Conserved(s) && h in s.replies && s.replies[h].Response?
    ensures var x := Token(s.replies[h].client, s.replies[h].response.requestId);
            At(s, x, ToClient(h)) && OnlyAt(s, x, ToClient(h)) && x in s.accepted
  {
    var x := Token(s.replies[h].client, s.replies[h].response.requestId);
    assert At(s, x, ToClient(h));
    assert Somewhere(s, x);
    WhereItIs(s, x, ToClient(h));
  }

  lemma CollectResponseShape(s: State, h: nat, toCaller: bool)
    requires h in s.replies && s.replies[h].Response?
    requires OnlyAt(s, Token(s.replies[h].client, s.replies[h].response.requestId), ToClient(h))
    requires Token(s.replies[h].client, s.replies[h].response.requestId) in s.accepted
    ensures var x, t := Token(s.replies[h].client, s.replies[h].response.requestId), DoCollectResponse(s, h, toCaller);
            var q := if toCaller then WithCaller else InCache;
            && t.services == s.services && t.clients == s.clients && t.handlers == s.handlers
            && MailAt(s.replies, t.replies, x, q) && HoldingsAt(s, t, x, q) && t.accepted == s.accepted + {x}
  {
  }

  lemma CollectResponseMoves(s: State, h: nat, toCaller: bool)
    requires Accounted(s) && h in s.replies && s.replies[h].Response?
    ensures MovedTo(s, DoCollectResponse(s, h, toCaller), Token(s.replies[h].client, s.replies[h].response.requestId),
                    if toCaller then WithCaller else InCache)
  {
    hide PostersNew, Conserved, NoDuplicates, AtService, AtEntry, AtPost, RequestMail, ResponseMail, MovedTo, DoCollectResponse;
    var x, t := Token(s.replies[h].client, s.replies[h].response.requestId), DoCollectResponse(s, h, toCaller);
    var q := if toCaller then WithCaller else InCache;
    ResponseIsOnlyThere(s, h);
    CollectResponseShape(s, h, toCaller);
    ServicesStay(s.services, t.services, x, q);
    EntriesStay(s.clients, t.clients, x, q);
    PostsStay(s.handlers, t.handlers, x, q);
    MoveForward(s, t, x, ToClient(h), q);
  }

  lemma PopCachedMoves(s: State, x: Token)
    requires Accounted(s) && x in s.caches
    ensures MovedTo(s, DoPopCached(s, x), x, WithCaller)
  {
    var t := DoPopCached(s, x);
    assert At(s, x, InCache);
    assert Somewhere(s, x);
    WhereItIs(s, x, InCache);
    ServicesStay(s.services, t.services, x, WithCaller);
    EntriesStay(s.clients, t.clients, x, WithCaller);
    PostsStay(s.handlers, t.handlers, x, WithCaller);
    MailStays(s.replies, t.replies, x, WithCaller);
    MoveForward(s, t, x, InCache, WithCaller);
  }
}
