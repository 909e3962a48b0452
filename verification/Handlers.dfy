/** The request handlers: one method for each stretch of their code between two awaits, over the
    registries themselves. Each is proved to take the step of Protocol that models it: when the
    registries mirror a protocol state before the stretch, they mirror the next state after it,
    and the handler then waits or replies as that state says. The arena of entries only grows, so
    an entry a handler holds keeps its reference while the handler waits. */
module Handlers {
  import opened Messages
  import opened Deadlines
  import opened Store
  import opened Sweeping
  import opened Registries
  import opened Protocol
  import opened Frames
  import opened Reaper

  /** How a stretch that ends in a wait on a client queue can end. */
  datatype OnClient = Forbidden | Refused | WaitOn(entry: ClientEntry, timeout: nat)

  /** How a stretch that ends in a wait on a service queue can end. */
  datatype OnService = WrongRole | OutOfRange | Pull(queue: AsyncQueue<PypeRequest>, timeout: nat)

  /** The two ends of a wait for a response. */
  lemma ResponseShapes(s: State, h: nat)
    requires GetsResponse(s, h)
    ensures var t, p := DoNoResponse(s, h), s.handlers[h];
            && t.clients == (if p.Polling? then s.clients.Bump(p.client, s.clock) else s.clients) && t.services == s.services
            && h in t.replies && t.replies[h] == if p.Polling? then NoContent else AcceptedReply
    ensures ResponseAvailable(s, h) ==>
              var t, p := DoTakeResponse(s, h), s.handlers[h];
              var taken := s.clients.Take(p.entry);
              && t.clients == (if p.Polling? then taken.Bump(p.client, s.clock) else taken) && t.services == s.services
              && h in t.replies && t.replies[h] == Response(p.client, s.clients.entries[p.entry].queue.items[0])
  {
  }

  class Routers {
    const registry: ClientRegistry
    const services: ServiceRegistry
    const cfg: Config

    constructor (registry: ClientRegistry, services: ServiceRegistry, cfg: Config)
      ensures this.registry == registry && this.services == services && this.cfg == cfg
    {
      this.registry, this.services, this.cfg := registry, services, cfg;
    }

    ghost predicate Valid()
      reads registry, registry.Repr(), services, services.Repr()
    {
      && registry.Valid() && registry.queueMaxSize == cfg.clientMax
      && services.Valid() && services.queueMaxSize == cfg.serviceMax
      && registry.Repr() !! services.Repr()
    }

    /** The registries hold what the protocol state says. */
    ghost predicate Mirrors(s: State)
      reads registry, registry.Repr(), services, services.Repr()
    {
      Valid() && registry.View() == s.clients && services.View() == s.services
    }

    /** No service queue has been replaced: whoever holds the queue of a service still holds it. */
    twostate predicate QueuesKept()
      reads services
    {
      forall n :: n in old(services.queues) ==> n in services.queues && services.queues[n] == old(services.queues[n])
    }

    /** Refused exactly when the timeout is out of range; otherwise the wait is the timeout asked for,
        and the longest there is when none was asked for. */
    ghost predicate GrantsOnClient(r: OnClient, timeout: Option<int>) {
      if timeout.Some? && !(0 <= timeout.value <= cfg.maxTimeout) then r == Refused
      else r.WaitOn? && r.timeout == if timeout.Some? then timeout.value else cfg.maxTimeout
    }

    ghost predicate GrantsOnService(r: OnService, timeout: Option<int>) {
      if timeout.Some? && !(0 <= timeout.value <= cfg.maxTimeout) then r == OutOfRange
      else r.Pull? && r.timeout == if timeout.Some? then timeout.value else cfg.maxTimeout
    }

    lemma AsNormalized(r: OnClient, timeout: Option<int>)
      requires match NormalizeTimeout(timeout, cfg.maxTimeout)
               case Err(_) => r == Refused
               case Ok(n) => r.WaitOn? && r.timeout == n
      ensures GrantsOnClient(r, timeout)
    {
    }

    ghost function Entries(): set<ClientEntry>
      reads registry
    {
      set i | 0 <= i < |registry.arena| :: registry.arena[i]
    }

    lemma SameStore(s: State, t: State)
      requires Mirrors(s) && t.clients == s.clients && t.services == s.services
      ensures Mirrors(t)
    {
    }

    // ---------------------------------------------------------------- the pieces handlers share

    /** The entry for a client, created when it has none. */
    method Find(ghost s: State, c: ClientId, now: real) returns (entry: ClientEntry)
      requires Mirrors(s) && s.clock == now
      modifies registry
      ensures Mirrors(s.(clients := s.clients.GetOrCreate(c, now)))
      ensures c in s.clients.GetOrCreate(c, now).registry && registry.At(entry, s.clients.GetOrCreate(c, now).registry[c])
      ensures fresh(Entries() - old(Entries())) && old(registry.arena) <= registry.arena
    {
      hide ClientRegistry.Valid, ClientRegistry.View, ClientRegistry.Distinct, ServiceRegistry.Valid, ServiceRegistry.View;
      hide Clients.GetOrCreate;
      entry := registry.GetOrCreate(c, now);
      assert registry.Repr() !! services.Repr();
    }

    method Bump(ghost s: State, c: ClientId, now: real)
      requires Mirrors(s) && s.clock == now
      modifies Entries()`lastSeen
      ensures Mirrors(s.(clients := s.clients.Bump(c, now)))
    {
      hide ClientRegistry.Valid, ClientRegistry.View, ClientRegistry.Distinct, ServiceRegistry.Valid, ServiceRegistry.View;
      registry.BumpLastSeen(c, now);
    }

    /** A get on the queue of an entry that need not be registered any more. */
    method TakeFrom(ghost s: State, entry: ClientEntry, ghost r: Ref) returns (x: PypeResponse)
      requires Mirrors(s) && registry.At(entry, r) && s.clients.entries[r].queue.items != []
      modifies entry.queue
      ensures x == s.clients.entries[r].queue.items[0]
      ensures Mirrors(s.(clients := s.clients.Take(r)))
    {
      hide ServiceRegistry.Valid, ServiceRegistry.View, ClientRegistry.Valid, ClientRegistry.View, Queue.Valid;
      registry.EntryAt(r);
      var item := entry.queue.GetNowait();
      registry.OneQueueMoved(r);
      x := item.value;
    }

    /** A put on the queue of an entry that need not be registered any more. */
    method PutTo(ghost s: State, entry: ClientEntry, ghost r: Ref, x: PypeResponse)
      requires Mirrors(s) && registry.At(entry, r) && |s.clients.entries[r].queue.items| < cfg.clientMax
      modifies entry.queue
      ensures Mirrors(s.(clients := s.clients.Put(r, x)))
    {
      hide ServiceRegistry.Valid, ServiceRegistry.View, ClientRegistry.Valid, ClientRegistry.View, Queue.Valid;
      registry.EntryAt(r);
      var ok := entry.queue.PutNowait(x);
      registry.OneQueueMoved(r);
    }

    /** The queue of a service, created when it has none. */
    method FindService(ghost s: State, service: ServiceName) returns (queue: AsyncQueue<PypeRequest>)
      requires Mirrors(s)
      modifies services
      ensures Mirrors(Ensure(s, service)) && QueuesKept()
      ensures service in services.queues && queue == services.queues[service]
    {
      hide ClientRegistry.Valid, ClientRegistry.View, ClientRegistry.Distinct, ServiceRegistry.Valid, ServiceRegistry.View;
      queue := services.GetOrCreate(service);
      assert registry.Repr() !! services.Repr();
    }

    /** A put on the queue of a service. */
    method PutRequest(ghost s: State, service: ServiceName, queue: AsyncQueue<PypeRequest>, x: PypeRequest)
      requires Mirrors(s) && service in services.queues && queue == services.queues[service]
      requires |s.services[service].items| < cfg.serviceMax
      modifies queue
      ensures Mirrors(s.(services := s.services[service := s.services[service].Put(x)]))
    {
      hide ClientRegistry.Valid, ClientRegistry.View, ClientRegistry.Distinct;
      assert queue.View() == s.services[service];
      var ok := queue.PutNowait(x);
      services.OneQueueMoved(service);
    }

    /** A get on the queue of a service. */
    method TakeRequest(ghost s: State, service: ServiceName, queue: AsyncQueue<PypeRequest>) returns (x: PypeRequest)
      requires Mirrors(s) && service in services.queues && queue == services.queues[service]
      requires s.services[service].items != []
      modifies queue
      ensures x == s.services[service].items[0]
      ensures Mirrors(s.(services := s.services[service := s.services[service].Take()]))
    {
      hide ClientRegistry.Valid, ClientRegistry.View, ClientRegistry.Distinct;
      assert queue.View() == s.services[service];
      var item := queue.GetNowait();
      services.OneQueueMoved(service);
      x := item.value;
    }

    // ---------------------------------------------------------------- GET /clients/{client_id}

    method StartPoll(ghost s: State, claimed: ClientId, c: ClientId, timeout: Option<int>, now: real) returns (r: OnClient)
      requires Mirrors(s) && s.clock == now
      modifies registry, Entries()`lastSeen
      ensures claimed != c ==> r == Forbidden && Mirrors(s)
      ensures claimed == c ==>
                var t := DoPollResponses(cfg, s, c, timeout);
                && Mirrors(t)
                && (r.Refused? ==> t.replies == s.replies[s.next := BadRequest])
                && (!r.Refused? ==>
                      && r.WaitOn? && registry.At(r.entry, t.clients.registry[c])
                      && t.handlers == s.handlers[s.next := Polling(c, t.clients.registry[c], now + r.timeout as real)])
      ensures claimed == c ==> GrantsOnClient(r, timeout)
      ensures old(registry.arena) <= registry.arena
    {
      hide *;
      if claimed != c {
        return Forbidden;
      }
      PollShape(cfg, s, c, timeout);
      ghost var t := DoPollResponses(cfg, s, c, timeout);
      ghost var found := s.(clients := s.clients.GetOrCreate(c, now));
      var entry := Find(s, c, now);
      Bump(found, c, now);
      SameStore(found.(clients := found.clients.Bump(c, now)), t);
      var normalized := NormalizeTimeout(timeout, cfg.maxTimeout);
      r := match normalized
           case Err(_) => Refused
           case Ok(n) => WaitOn(entry, n);
      AsNormalized(r, timeout);
    }

    /** The wait of a poll is over, with an item or without. */
    method FinishPoll(ghost s: State, ghost h: nat, c: ClientId, entry: ClientEntry, timedOut: bool, now: real) returns (reply: Reply)
      requires Mirrors(s) && s.clock == now
      requires h in s.handlers && s.handlers[h].Polling? && s.handlers[h].client == c && registry.At(entry, s.handlers[h].entry)
      requires !timedOut ==> ResponseAvailable(s, h)
      modifies entry.queue, Entries()`lastSeen
      ensures var t := if timedOut then DoNoResponse(s, h) else DoTakeResponse(s, h);
              Mirrors(t) && h in t.replies && reply == t.replies[h]
      ensures reply == if timedOut then NoContent else Response(c, s.clients.entries[s.handlers[h].entry].queue.items[0])
    {
      ResponseShapes(s, h);
      ghost var r := s.handlers[h].entry;
      assert !timedOut ==> s.clients.entries[r].queue.items != [];
      ghost var t := if timedOut then DoNoResponse(s, h) else DoTakeResponse(s, h);
      hide *;
      if timedOut {
        Bump(s, c, now);
        SameStore(s.(clients := s.clients.Bump(c, now)), t);
        return NoContent;
      }
      var x := TakeFrom(s, entry, r);
      ghost var taken := s.(clients := s.clients.Take(r));
      Bump(taken, c, now);
      SameStore(taken.(clients := taken.clients.Bump(c, now)), t);
      reply := Response(c, x);
    }

    // ---------------------------------------------------------------- POST /clients/{client_id}

    method StartPostResponse(ghost s: State, c: ClientId, ghost x: PypeResponse, timeout: Option<int>, now: real) returns (r: OnClient)
      requires Mirrors(s) && s.clock == now
      modifies registry
      ensures var t := DoPostResponse(cfg, s, c, x, timeout);
              && Mirrors(t)
              && (r.Refused? ==> t.replies == s.replies[s.next := BadRequest])
              && (!r.Refused? ==>
                    && r.WaitOn? && registry.At(r.entry, t.clients.registry[c])
                    && t.handlers == s.handlers[s.next := Answering(c, t.clients.registry[c], x, r.timeout)])
      ensures GrantsOnClient(r, timeout)
      ensures old(registry.arena) <= registry.arena
    {
      hide *;
      PostResponseShape(cfg, s, c, x, timeout);
      ghost var t := DoPostResponse(cfg, s, c, x, timeout);
      var entry := Find(s, c, now);
      SameStore(s.(clients := s.clients.GetOrCreate(c, now)), t);
      var normalized := NormalizeTimeout(timeout, cfg.maxTimeout);
      r := match normalized
           case Err(_) => Refused
           case Ok(n) => WaitOn(entry, n);
      AsNormalized(r, timeout);
    }

    method FinishPostResponse(ghost s: State, ghost h: nat, entry: ClientEntry, x: PypeResponse, timedOut: bool) returns (reply: Reply)
      requires Mirrors(s)
      requires h in s.handlers && s.handlers[h].Delivering? && s.handlers[h].response == x && registry.At(entry, s.handlers[h].entry)
      requires s.handlers[h].entry < |s.clients.entries|
      requires !timedOut ==> |s.clients.entries[s.handlers[h].entry].queue.items| < cfg.clientMax
      modifies entry.queue
      ensures var t := if timedOut then DoRefuseResponse(s, h) else DoPutResponse(s, h);
              Mirrors(t) && h in t.replies && reply == t.replies[h]
      ensures reply == if timedOut then Unavailable else AcceptedReply
    {
      ghost var t := if timedOut then DoRefuseResponse(s, h) else DoPutResponse(s, h);
      ghost var r := s.handlers[h].entry;
      ghost var put := if timedOut then s else s.(clients := s.clients.Put(r, x));
      assert t.clients == put.clients && t.services == put.services;
      assert h in t.replies && t.replies[h] == if timedOut then Unavailable else AcceptedReply;
      hide *;
      if timedOut {
        SameStore(s, t);
        return Unavailable;
      }
      PutTo(s, entry, r, x);
      SameStore(put, t);
      reply := AcceptedReply;
    }

    // ---------------------------------------------------------------- POST /services/{service_name}

    method StartPostRequest(ghost s: State, c: ClientId, ghost service: ServiceName, ghost request: PypeRequest,
                            timeout: Option<int>, ghost block: bool, now: real)
      returns (r: OnClient)
      requires Mirrors(s) && s.clock == now
      modifies registry, Entries()`lastSeen
      ensures var t := DoPostRequest(cfg, s, c, service, request, timeout, block);
              && Mirrors(t)
              && (r.Refused? ==> t.replies == s.replies[s.next := BadRequest])
              && (!r.Refused? ==>
                    && r.WaitOn? && registry.At(r.entry, t.clients.registry[c])
                    && t.handlers == s.handlers[s.next := Posting(c, t.clients.registry[c], service, request, r.timeout, block, now)])
      ensures GrantsOnClient(r, timeout)
      ensures old(registry.arena) <= registry.arena
    {
      hide *;
      PostRequestShape(cfg, s, c, service, request, timeout, block);
      ghost var t := DoPostRequest(cfg, s, c, service, request, timeout, block);
      ghost var found := s.(clients := s.clients.GetOrCreate(c, now));
      var entry := Find(s, c, now);
      Bump(found, c, now);
      SameStore(found.(clients := found.clients.Bump(c, now)), t);
      var normalized := NormalizeTimeout(timeout, cfg.maxTimeout);
      r := match normalized
           case Err(_) => Refused
           case Ok(n) => WaitOn(entry, n);
      AsNormalized(r, timeout);
    }

    /** The body has been read: one deadline is set for both phases, and phase 1 is granted what is left of it. */
    method Enqueue(ghost s: State, ghost h: nat, service: ServiceName, total: nat, now: real)
      returns (queue: AsyncQueue<PypeRequest>, deadline: real, timeout: nat)
      requires Mirrors(s) && s.clock == now
      requires h in s.handlers && s.handlers[h].Posting? && s.handlers[h].service == service && s.handlers[h].total == total
      modifies services
      ensures var t := DoEnqueue(s, h);
              && Mirrors(t) && service in services.queues && queue == services.queues[service]
              && t.handlers[h].Enqueuing? && t.handlers[h].deadline == deadline && t.handlers[h].until == now + timeout as real
      ensures deadline == now + total as real && timeout == total && QueuesKept()
    {
      WholeGrant(now, total);
      deadline := now + total as real;
      timeout := ServerRemaining(deadline, now);
      ghost var t := DoEnqueue(s, h);
      assert t.clients == s.clients && t.services == Ensure(s, service).services;
      assert t.handlers[h].Enqueuing? && t.handlers[h].deadline == deadline && t.handlers[h].until == now + timeout as real;
      hide *;
      queue := FindService(s, service);
      SameStore(Ensure(s, service), t);
    }

    /** Phase 1 is over: with room or without, the client is bumped; then the handler replies, or
        goes on to wait for a response for what is left of the deadline. */
    method FinishEnqueue(ghost s: State, ghost h: nat, c: ClientId, service: ServiceName, queue: AsyncQueue<PypeRequest>, request: PypeRequest,
                         deadline: real, block: bool, timedOut: bool, now: real)
      returns (reply: Option<Reply>, timeout: nat)
      requires Mirrors(s) && s.clock == now
      requires h in s.handlers && s.handlers[h].Enqueuing? && s.handlers[h].client == c && s.handlers[h].service == service
      requires s.handlers[h].request == request && s.handlers[h].deadline == deadline && s.handlers[h].block == block
      requires service in s.services && service in services.queues && queue == services.queues[service]
      requires !timedOut ==> |s.services[service].items| < cfg.serviceMax
      modifies queue, Entries()`lastSeen
      ensures var t := if timedOut then DoRefuseRequest(s, h) else DoPutRequest(s, h);
              && Mirrors(t)
              && (reply.Some? ==> h in t.replies && reply.value == t.replies[h])
              && (reply.None? ==> h in t.handlers && t.handlers[h].Awaiting? && t.handlers[h].until == now + timeout as real)
      ensures reply == if timedOut then Some(Unavailable) else if block then None else Some(AcceptedReply)
    {
      PutRequestShape(s, h);
      ghost var t := if timedOut then DoRefuseRequest(s, h) else DoPutRequest(s, h);
      timeout := ServerRemaining(deadline, now);
      if timedOut {
        assert t.clients == s.clients.Bump(c, now) && t.services == s.services && h in t.replies && t.replies[h] == Unavailable;
        hide *;
        Bump(s, c, now);
        SameStore(s.(clients := s.clients.Bump(c, now)), t);
        return Some(Unavailable), timeout;
      }
      hide *;
      PutRequest(s, service, queue, request);
      ghost var put := s.(services := s.services[service := s.services[service].Put(request)]);
      Bump(put, c, now);
      SameStore(put.(clients := put.clients.Bump(c, now)), t);
      reply := if block then None else Some(AcceptedReply);
    }

    /** Phase 2 is over. The client is not bumped. */
    method FinishAwait(ghost s: State, ghost h: nat, c: ClientId, entry: ClientEntry, timedOut: bool) returns (reply: Reply)
      requires Mirrors(s)
      requires h in s.handlers && s.handlers[h].Awaiting? && s.handlers[h].client == c && registry.At(entry, s.handlers[h].entry)
      requires !timedOut ==> ResponseAvailable(s, h)
      modifies entry.queue
      ensures var t := if timedOut then DoNoResponse(s, h) else DoTakeResponse(s, h);
              Mirrors(t) && h in t.replies && reply == t.replies[h]
      ensures reply == if timedOut then AcceptedReply else Response(c, s.clients.entries[s.handlers[h].entry].queue.items[0])
    {
      ResponseShapes(s, h);
      ghost var r := s.handlers[h].entry;
      assert !timedOut ==> s.clients.entries[r].queue.items != [];
      ghost var t := if timedOut then DoNoResponse(s, h) else DoTakeResponse(s, h);
      hide *;
      if timedOut {
        SameStore(s, t);
        return AcceptedReply;
      }
      var x := TakeFrom(s, entry, r);
      SameStore(s.(clients := s.clients.Take(r)), t);
      reply := Response(c, x);
    }

    // ---------------------------------------------------------------- GET /services/{service_name}

    method StartPull(ghost s: State, claimed: ServiceName, service: ServiceName, timeout: Option<int>, now: real) returns (r: OnService)
      requires Mirrors(s) && s.clock == now
      modifies services
      ensures claimed != service ==> r == WrongRole && Mirrors(s)
      ensures claimed == service ==>
                var t := DoPullRequest(cfg, s, service, timeout);
                && Mirrors(t)
                && (r.OutOfRange? ==> t.replies == s.replies[s.next := BadRequest])
                && (!r.OutOfRange? ==>
                      && r.Pull? && service in services.queues && r.queue == services.queues[service]
                      && t.handlers == s.handlers[s.next := Pulling(service, now + r.timeout as real)])
      ensures claimed == service ==> GrantsOnService(r, timeout)
      ensures QueuesKept()
    {
      if claimed != service {
        return WrongRole;
      }
      ghost var t := DoPullRequest(cfg, s, service, timeout);
      var normalized := NormalizeTimeout(timeout, cfg.maxTimeout);
      match normalized
      case Err(_) =>
        assert t.clients == s.clients && t.services == s.services && t.replies == s.replies[s.next := BadRequest];
        hide *;
        SameStore(s, t);
        r := OutOfRange;
      case Ok(n) =>
        assert t.clients == s.clients && t.services == Ensure(s, service).services;
        assert t.handlers == s.handlers[s.next := Pulling(service, now + n as real)];
        hide *;
        var queue := FindService(s, service);
        SameStore(Ensure(s, service), t);
        r := Pull(queue, n);
    }

    method FinishPull(ghost s: State, ghost h: nat, service: ServiceName, queue: AsyncQueue<PypeRequest>, timedOut: bool) returns (reply: Reply)
      requires Mirrors(s)
      requires h in s.handlers && s.handlers[h].Pulling? && s.handlers[h].service == service
      requires service in services.queues && queue == services.queues[service]
      requires !timedOut ==> RequestAvailable(s, h)
      modifies queue
      ensures var t := if timedOut then DoNoRequest(s, h) else DoTakeRequest(s, h);
              Mirrors(t) && h in t.replies && reply == t.replies[h]
      ensures reply == if timedOut then NoContent else Request(s.services[service].items[0])
    {
      ghost var t := if timedOut then DoNoRequest(s, h) else DoTakeRequest(s, h);
      if timedOut {
        assert t.clients == s.clients && t.services == s.services && h in t.replies && t.replies[h] == NoContent;
        hide *;
        SameStore(s, t);
        return NoContent;
      }
      assert t.clients == s.clients && t.services == s.services[service := s.services[service].Take()];
      assert s.services[service].items != [] && h in t.replies && t.replies[h] == Request(s.services[service].items[0]);
      hide *;
      var x := TakeRequest(s, service, queue);
      SameStore(s.(services := s.services[service := s.services[service].Take()]), t);
      reply := Request(x);
    }

    // ---------------------------------------------------------------- DELETE /auth/client

    method Logoff(ghost s: State, c: ClientId)
      requires Mirrors(s)
      modifies registry
      ensures Mirrors(DoLogoff(s, c)) && registry.arena == old(registry.arena)
    {
      hide ClientRegistry.Valid, ClientRegistry.View, ClientRegistry.Distinct, ServiceRegistry.Valid, ServiceRegistry.View;
      registry.Remove(c);
    }

    // ---------------------------------------------------------------- the reaper

    /** A tick of the reaper of this registry is the step Reap. */
    method ReaperTick(ghost s: State, reaper: ClientQueueReaper, now: real) returns (evicted: nat)
      requires cfg.Valid() && Mirrors(s) && s.clock == now
      requires reaper.registry == registry && reaper.cfg == cfg.reaper && reaper.Position() == s.cursor
      requires reaper !in registry.Repr() && reaper !in services.Repr()
      modifies reaper, registry
      ensures var t := DoReap(cfg, s, old(registry.SnapshotKeys()));
              && Mirrors(t) && reaper.Position() == t.cursor
              && |t.clients.registry| == |s.clients.registry| - evicted
      ensures registry.arena == old(registry.arena)
    {
      hide ClientRegistry.Valid, ClientRegistry.View, ClientRegistry.Distinct, ServiceRegistry.Valid, ServiceRegistry.View;
      hide Evicted, TickCursor, Clients.RemoveAll, Clients.LastSeen;
      evicted := reaper.Tick(now);
    }
  }
}
