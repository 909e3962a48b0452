/** The server's in-memory store as a value. An entry is known by its reference, the position at
    which it was created, so that an entry removed from the registry and another created later
    under the same id stay apart. */
module Store {
  import opened Messages

  /** A queue with its history: everything put so far and everything taken so far. */
  datatype Queue<T> = Queue(items: seq<T>, put: seq<T>, taken: seq<T>)
  {
    ghost predicate Valid(maxSize: nat) {
      && |items| <= maxSize
      && put == taken + items
    }

    function Put(x: T): Queue<T> {
      Queue(items + [x], put + [x], taken)
    }

    function Take(): Queue<T>
      requires items != []
    {
      Queue(items[1..], put, taken + [items[0]])
    }
  }

  function NewQueue<T>(): Queue<T> {
    Queue([], [], [])
  }

  type Ref = nat

  datatype Entry = Entry(client: ClientId, lastSeen: real, queue: Queue<PypeResponse>)

  /** Every entry ever created, in order, and which one each client id is registered with. */
  datatype Clients = Clients(entries: seq<Entry>, registry: map<ClientId, Ref>)
  {
    ghost predicate Valid(maxSize: nat) {
      && (forall c :: c in registry ==> registry[c] < |entries| && entries[registry[c]].client == c)
      && (forall r :: 0 <= r < |entries| ==> entries[r].queue.Valid(maxSize))
    }

    function GetOrCreate(c: ClientId, now: real): Clients {
      if c in registry then this
      else Clients(entries + [Entry(c, now, NewQueue())], registry[c := |entries|])
    }

    /** By id: what is bumped is the entry registered now, if any. */
    function Bump(c: ClientId, now: real): Clients {
      if c in registry && registry[c] < |entries| then
        Clients(entries[registry[c] := entries[registry[c]].(lastSeen := now)], registry)
      else this
    }

    function Remove(c: ClientId): Clients {
      Clients(entries, registry - {c})
    }

    function RemoveAll(cs: set<ClientId>): Clients {
      Clients(entries, registry - cs)
    }

    function Put(r: Ref, x: PypeResponse): Clients
      requires r < |entries|
    {
      Clients(entries[r := entries[r].(queue := entries[r].queue.Put(x))], registry)
    }

    function Take(r: Ref): Clients
      requires r < |entries| && entries[r].queue.items != []
    {
      Clients(entries[r := entries[r].(queue := entries[r].queue.Take())], registry)
    }

    function LastSeen(): map<ClientId, real> {
      map c | c in registry && registry[c] < |entries| :: entries[registry[c]].lastSeen
    }
  }

  /** Service queues, by name. They are never removed. */
  type Services = map<ServiceName, Queue<PypeRequest>>

  function EnsureService(services: Services, name: ServiceName): Services {
    if name in services then services else services[name := NewQueue()]
  }

  /** Created, and no longer the entry its client id is registered with. */
  ghost predicate Detached(cs: Clients, r: Ref) {
    r < |cs.entries| && !Registered(cs, r)
  }

  ghost predicate Registered(cs: Clients, r: Ref) {
    r < |cs.entries| && cs.entries[r].client in cs.registry && cs.registry[cs.entries[r].client] == r
  }

  ghost predicate Continues<T(!new)>(a: Queue<T>, b: Queue<T>) {
    a.put <= b.put && a.taken <= b.taken
  }

  /** No entry is lost, none changes its client, none is registered again once detached, and no
      queue forgets what went through it. */
  ghost predicate Grows(a: Clients, b: Clients) {
    && |a.entries| <= |b.entries|
    && (forall r :: 0 <= r < |a.entries| ==> b.entries[r].client == a.entries[r].client && Continues(a.entries[r].queue, b.entries[r].queue))
    && (forall r :: Detached(a, r) ==> Detached(b, r))
    && (forall r :: |a.entries| <= r < |b.entries| ==> Registered(b, r))
  }

  ghost predicate SeenBy(cs: Clients, now: real) {
    forall r :: 0 <= r < |cs.entries| ==> cs.entries[r].lastSeen <= now
  }

  /** What every operation on the store keeps. */
  ghost predicate Evolves(a: Clients, b: Clients, maxSize: nat, now: real) {
    && Grows(a, b)
    && (a.Valid(maxSize) ==> b.Valid(maxSize))
    && (SeenBy(a, now) ==> SeenBy(b, now))
  }

  lemma CreateEvolves(cs: Clients, c: ClientId, maxSize: nat, now: real)
    requires cs.Valid(maxSize)
    ensures Evolves(cs, cs.GetOrCreate(c, now), maxSize, now)
    ensures c in cs.GetOrCreate(c, now).registry
  {
  }

  lemma BumpEvolves(cs: Clients, c: ClientId, maxSize: nat, now: real)
    requires cs.Valid(maxSize)
    ensures Evolves(cs, cs.Bump(c, now), maxSize, now)
  {
  }

  lemma RemoveEvolves(cs: Clients, gone: set<ClientId>, maxSize: nat, now: real)
    requires cs.Valid(maxSize)
    ensures Evolves(cs, cs.RemoveAll(gone), maxSize, now)
  {
  }

  lemma PutEvolves(cs: Clients, r: Ref, x: PypeResponse, maxSize: nat, now: real)
    requires cs.Valid(maxSize) && r < |cs.entries| && |cs.entries[r].queue.items| < maxSize
    ensures Evolves(cs, cs.Put(r, x), maxSize, now)
  {
    PutKeepsQueue(cs.entries[r].queue, x, maxSize);
  }

  lemma TakeEvolves(cs: Clients, r: Ref, maxSize: nat, now: real)
    requires cs.Valid(maxSize) && r < |cs.entries| && cs.entries[r].queue.items != []
    ensures Evolves(cs, cs.Take(r), maxSize, now)
  {
    TakeKeepsQueue(cs.entries[r].queue, maxSize);
  }

  lemma LastSeenKeys(cs: Clients, maxSize: nat)
    requires cs.Valid(maxSize)
    ensures cs.LastSeen().Keys == cs.registry.Keys && |cs.LastSeen()| == |cs.registry|
  {
    assert cs.LastSeen().Keys == cs.registry.Keys;
    assert |cs.LastSeen()| == |cs.LastSeen().Keys| && |cs.registry| == |cs.registry.Keys|;
  }

  lemma PutKeepsQueue<T>(q: Queue<T>, x: T, maxSize: nat)
    requires q.Valid(maxSize) && |q.items| < maxSize
    ensures q.Put(x).Valid(maxSize)
  {
    assert q.taken + (q.items + [x]) == q.taken + q.items + [x];
  }

  lemma TakeKeepsQueue<T>(q: Queue<T>, maxSize: nat)
    requires q.Valid(maxSize) && q.items != []
    ensures q.Take().Valid(maxSize)
  {
    assert q.taken + [q.items[0]] + q.items[1..] == q.taken + q.items;
  }
}
