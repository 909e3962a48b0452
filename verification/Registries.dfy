/** The registries and the queues they hold, as objects changed in place. */
module Registries {
  import opened Messages
  import opened Store
  import opened Sweeping

  /** asyncio.Queue: what the server does with it between two suspensions. */
  class AsyncQueue<T> {
    const maxSize: nat
    var items: seq<T>
    ghost var put: seq<T>
    ghost var taken: seq<T>

    constructor (maxSize: nat)
      ensures this.maxSize == maxSize && View() == NewQueue()
    {
      this.maxSize, items, put, taken := maxSize, [], [], [];
    }

    ghost function View(): Queue<T>
      reads this
    {
      Queue(items, put, taken)
    }

    predicate Full()
      reads this
    {
      |items| >= maxSize
    }

    method PutNowait(x: T) returns (ok: bool)
      modifies this
      ensures ok == !old(Full())
      ensures View() == if ok then old(View()).Put(x) else old(View())
      ensures old(View()).Valid(maxSize) ==> View().Valid(maxSize)
    {
      ok := !Full();
      if ok {
        items, put := items + [x], put + [x];
      }
    }

    method GetNowait() returns (r: Option<T>)
      modifies this
      ensures r.None? <==> old(items) == []
      ensures r.Some? ==> r.value == old(items)[0] && View() == old(View()).Take()
      ensures r.None? ==> View() == old(View())
      ensures old(View()).Valid(maxSize) ==> View().Valid(maxSize)
    {
      if items == [] {
        return None;
      }
      r := Some(items[0]);
      items, taken := items[1..], taken + [items[0]];
    }
  }

  class ClientEntry {
    const clientId: ClientId
    const queue: AsyncQueue<PypeResponse>
    var lastSeen: real

    constructor (clientId: ClientId, maxSize: nat, now: real)
      ensures this.clientId == clientId && lastSeen == now
      ensures fresh(queue) && queue.maxSize == maxSize && queue.View() == NewQueue()
    {
      this.clientId, lastSeen := clientId, now;
      queue := new AsyncQueue(maxSize);
    }

    ghost function View(): Entry
      reads this, queue
    {
      Entry(clientId, lastSeen, queue.View())
    }
  }

  class ServiceRegistry {
    const queueMaxSize: nat
    var queues: map<ServiceName, AsyncQueue<PypeRequest>>

    constructor (queueMaxSize: nat)
      ensures this.queueMaxSize == queueMaxSize && Valid() && View() == map[]
    {
      this.queueMaxSize, queues := queueMaxSize, map[];
    }

    /** The objects behind the service queues. */
    ghost function Repr(): set<object>
      reads this
    {
      {this} + (set n | n in queues :: queues[n])
    }

    ghost predicate Valid()
      reads this, Repr()
    {
      && (forall n, m :: n in queues && m in queues && n != m ==> queues[n] != queues[m])
      && (forall n :: n in queues ==> queues[n].maxSize == queueMaxSize && queues[n].View().Valid(queueMaxSize))
    }

    ghost function View(): Services
      reads this, Repr()
    {
      map n | n in queues :: queues[n].View()
    }

    method GetOrCreate(name: ServiceName) returns (queue: AsyncQueue<PypeRequest>)
      requires Valid()
      modifies this
      ensures Valid() && name in queues && queue == queues[name]
      ensures View() == EnsureService(old(View()), name)
      ensures forall n :: n in old(queues) ==> n in queues && queues[n] == old(queues[n])
      ensures fresh(Repr() - old(Repr()))
    {
      if name in queues {
        return queues[name];
      }
      queue := new AsyncQueue(queueMaxSize);
      assert forall n :: n in queues ==> queues[n].View() == old(queues[n].View());
      queues := queues[name := queue];
      assert View() == old(View())[name := NewQueue()];
    }

    /** A put or a get on the queue of one service leaves the others alone. */
    twostate lemma OneQueueMoved(name: ServiceName)
      requires old(Valid()) && queues == old(queues) && name in queues
      requires forall n :: n in queues && n != name ==> unchanged(queues[n])
      requires queues[name].View().Valid(queueMaxSize)
      ensures Valid() && View() == old(View())[name := queues[name].View()]
    {
    }

    /** What the load endpoint reports: for each service, what was put minus what was taken. */
    method SnapshotLoads() returns (loads: map<ServiceName, nat>)
      requires Valid()
      ensures loads.Keys == View().Keys
      ensures forall n :: n in loads ==> loads[n] == |View()[n].put| - |View()[n].taken|
    {
      loads := map n | n in queues :: |queues[n].items|;
      forall n | n in loads
        ensures loads[n] == |View()[n].put| - |View()[n].taken|
      {
        assert queues[n].View().Valid(queueMaxSize);
      }
    }
  }

  /** dict.pop on the insertion order. */
  function Without(order: seq<ClientId>, c: ClientId): seq<ClientId> {
    if order == [] then []
    else if order[0] == c then order[1..]
    else [order[0]] + Without(order[1..], c)
  }

  lemma {:induction false} SnapshotOfOneLess(order: seq<ClientId>, present: set<ClientId>, c: ClientId)
    requires IsSnapshot(order, present)
    ensures IsSnapshot(Without(order, c), present - {c})
    decreases |order|
  {
    if order != [] {
      assert forall k :: k in order <==> k == order[0] || k in order[1..];
      if order[0] != c {
        SnapshotOfOneLess(order[1..], present - {order[0]}, c);
        var rest := Without(order[1..], c);
        assert order[0] !in rest;
        assert forall k :: k in [order[0]] + rest <==> k == order[0] || k in rest;
      }
    }
  }

  lemma SnapshotOfOneMore(order: seq<ClientId>, present: set<ClientId>, c: ClientId)
    requires IsSnapshot(order, present) && c !in present
    ensures IsSnapshot(order + [c], present + {c})
  {
    assert c !in order;
  }

  class ClientRegistry {
    const queueMaxSize: nat
    var entries: map<ClientId, ClientEntry>
    var order: seq<ClientId>            // the dict's insertion order
    ghost var arena: seq<ClientEntry>   // every entry ever created
    ghost var refs: map<ClientId, Ref>  // where in the arena the registered ones are

    constructor (queueMaxSize: nat)
      ensures this.queueMaxSize == queueMaxSize && Valid() && View() == Clients([], map[])
      ensures arena == []
    {
      this.queueMaxSize, entries, order, arena, refs := queueMaxSize, map[], [], [], map[];
    }

    /** The objects behind the store. */
    ghost function Repr(): set<object>
      reads this
    {
      {this} + (set i | 0 <= i < |arena| :: arena[i]) + (set i | 0 <= i < |arena| :: arena[i].queue)
    }

    ghost predicate Distinct()
      reads this
    {
      && (forall i, j :: 0 <= i < j < |arena| ==> arena[i] != arena[j] && arena[i].queue != arena[j].queue)
    }

    ghost predicate Sized()
      reads this
    {
      forall i :: 0 <= i < |arena| ==> arena[i].queue.maxSize == queueMaxSize
    }

    /** The dict, its order and the references speak of the same entries. */
    ghost predicate Indexed()
      reads this
    {
      && refs.Keys == entries.Keys
      && (forall c :: c in refs ==> refs[c] < |arena| && arena[refs[c]] == entries[c])
      && IsSnapshot(order, refs.Keys)
    }

    ghost predicate Valid()
      reads this, Repr()
    {
      Distinct() && Sized() && Indexed() && View().Valid(queueMaxSize)
    }

    ghost function View(): Clients
      reads this, Repr()
    {
      Clients(seq(|arena|, i requires 0 <= i < |arena| reads this, Repr() => arena[i].View()), refs)
    }

    /** A registered entry's reference. */
    ghost predicate At(entry: ClientEntry, r: Ref)
      reads this
    {
      r < |arena| && arena[r] == entry
    }

    lemma EntryAt(r: Ref)
      requires Valid() && r < |arena|
      ensures Distinct()
      ensures |View().entries| == |arena| && View().entries[r] == arena[r].View()
      ensures arena[r].queue.maxSize == queueMaxSize && arena[r].queue.View().Valid(queueMaxSize)
    {
      assert View().entries[r] == arena[r].View();
    }

    method GetOrCreate(c: ClientId, now: real) returns (entry: ClientEntry)
      requires Valid()
      modifies this
      ensures Valid() && c in View().registry && At(entry, View().registry[c])
      ensures View() == old(View()).GetOrCreate(c, now)
      ensures old(arena) <= arena && fresh(Repr() - old(Repr()))
    {
      if c in entries {
        return entries[c];
      }
      entry := new ClientEntry(c, queueMaxSize, now);
      assert View().entries == old(View()).entries;
      Register(c, entry);
    }

    /** The dict insert of get_or_create. */
    method Register(c: ClientId, entry: ClientEntry)
      requires Valid() && c !in entries
      requires entry.clientId == c && entry.queue.maxSize == queueMaxSize && entry.queue.View() == NewQueue()
      requires forall i :: 0 <= i < |arena| ==> arena[i] != entry && arena[i].queue != entry.queue
      modifies this
      ensures Valid() && entries == old(entries)[c := entry] && arena == old(arena) + [entry] && refs == old(refs)[c := |old(arena)|]
      ensures View() == Clients(old(View()).entries + [entry.View()], old(View()).registry[c := |old(arena)|])
    {
      hide ClientRegistry.View, Clients.Valid, Distinct, Sized, Indexed;
      entries := entries[c := entry];
      order := order + [c];
      refs := refs[c := |arena|];
      arena := arena + [entry];
      OneMoreEntry(c);
    }

    /** What Register leaves, with a new last entry for `c`, is valid. */
    twostate lemma OneMoreEntry(c: ClientId)
      requires old(Valid()) && c !in old(entries)
      requires |arena| == |old(arena)| + 1 && arena[..|old(arena)|] == old(arena)
      requires arena[|old(arena)|].clientId == c && arena[|old(arena)|].queue.maxSize == queueMaxSize && arena[|old(arena)|].queue.View() == NewQueue()
      requires forall i :: 0 <= i < |old(arena)| ==> arena[i] != arena[|old(arena)|] && arena[i].queue != arena[|old(arena)|].queue
      requires entries == old(entries)[c := arena[|old(arena)|]] && order == old(order) + [c] && refs == old(refs)[c := |old(arena)|]
      requires forall i :: 0 <= i < |old(arena)| ==> unchanged(old(arena)[i])
      requires forall i :: 0 <= i < |old(arena)| ==> unchanged(old(arena)[i].queue)
      ensures Valid() && View() == Clients(old(View()).entries + [arena[|old(arena)|].View()], old(View()).registry[c := |old(arena)|])
    {
      hide ClientRegistry.View, Clients.Valid, IsSnapshot, Queue.Valid;
      ViewOfOneMore(c);
      CreateEvolves(old(View()), c, queueMaxSize, arena[|old(arena)|].lastSeen);
      SnapshotOfOneMore(old(order), old(refs).Keys, c);
      assert refs.Keys == old(refs).Keys + {c} == entries.Keys;
      assert forall i :: 0 <= i < |old(arena)| ==> arena[i] == old(arena)[i];
    }

    twostate lemma ViewOfOneMore(c: ClientId)
      requires |arena| == |old(arena)| + 1 && arena[..|old(arena)|] == old(arena) && refs == old(refs)[c := |old(arena)|]
      requires forall i :: 0 <= i < |old(arena)| ==> unchanged(old(arena)[i])
      requires forall i :: 0 <= i < |old(arena)| ==> unchanged(old(arena)[i].queue)
      ensures old(View()).registry == old(refs) && |old(View()).entries| == |old(arena)|
      ensures View() == Clients(old(View()).entries + [arena[|old(arena)|].View()], old(View()).registry[c := |old(arena)|])
    {
      assert forall i :: 0 <= i < |old(arena)| ==> arena[i] == old(arena)[i];
      assert View().entries == old(View()).entries + [arena[|old(arena)|].View()];
    }

    function Get(c: ClientId): (entry: Option<ClientEntry>)
      requires Valid()
      reads this, Repr()
      ensures entry.Some? <==> c in View().registry
      ensures entry.Some? ==> At(entry.value, View().registry[c])
    {
      if c in entries then Some(entries[c]) else None
    }

    method Remove(c: ClientId)
      requires Valid()
      modifies this
      ensures Valid() && View() == old(View()).Remove(c)
      ensures arena == old(arena) && Repr() == old(Repr())
    {
      hide ClientRegistry.View, Clients.Valid, Distinct, Sized, Indexed, Without;
      order := Without(order, c);
      entries := entries - {c};
      refs := refs - {c};
      OneLessEntry(c);
    }

    /** What Remove leaves is valid. */
    twostate lemma OneLessEntry(c: ClientId)
      requires old(Valid())
      requires entries == old(entries) - {c} && order == Without(old(order), c)
      requires refs == old(refs) - {c} && arena == old(arena)
      requires forall i :: 0 <= i < |arena| ==> unchanged(arena[i])
      requires forall i :: 0 <= i < |arena| ==> unchanged(arena[i].queue)
      ensures Valid() && View() == old(View()).Remove(c)
    {
      hide ClientRegistry.View, Clients.Valid, IsSnapshot, Queue.Valid, Without;
      ViewOfOneLess(c);
      RemoveEvolves(old(View()), {c}, queueMaxSize, 0.0);
      SnapshotOfOneLess(old(order), old(refs).Keys, c);
      assert refs.Keys == old(refs).Keys - {c} == entries.Keys;
    }

    twostate lemma ViewOfOneLess(c: ClientId)
      requires refs == old(refs) - {c} && arena == old(arena)
      requires forall i :: 0 <= i < |arena| ==> unchanged(arena[i])
      requires forall i :: 0 <= i < |arena| ==> unchanged(arena[i].queue)
      ensures View() == old(View()).Remove(c)
    {
      assert View().entries == old(View()).entries;
    }

    method BumpLastSeen(c: ClientId, now: real)
      requires Valid()
      modifies set i | 0 <= i < |arena| :: arena[i]`lastSeen
      ensures Valid() && View() == old(View()).Bump(c, now)
    {
      if c in entries {
        ghost var r := refs[c];
        assert entries[c] == arena[r];
        entries[c].lastSeen := now;
        assert View().entries == old(View()).entries[r := old(View()).entries[r].(lastSeen := now)];
      }
    }

    /** A put or a get on the queue of one entry, registered or not, leaves the others alone. */
    twostate lemma OneQueueMoved(r: Ref)
      requires old(Valid()) && unchanged(this) && r < |arena|
      requires forall i :: 0 <= i < |arena| ==> unchanged(arena[i])
      requires forall i :: 0 <= i < |arena| && i != r ==> unchanged(arena[i].queue)
      requires arena[r].queue.View().Valid(queueMaxSize)
      ensures Valid()
      ensures View() == Clients(old(View()).entries[r := old(View()).entries[r].(queue := arena[r].queue.View())], old(View()).registry)
    {
      assert View().entries == old(View()).entries[r := old(View()).entries[r].(queue := arena[r].queue.View())];
    }

    function SnapshotKeys(): (keys: seq<ClientId>)
      requires Valid()
      reads this, Repr()
      ensures IsSnapshot(keys, View().registry.Keys)
    {
      order
    }

    function Len(): (n: nat)
      requires Valid()
      reads this, Repr()
      ensures n == |View().registry|
    {
      assert |entries| == |entries.Keys| && |refs| == |refs.Keys|;
      |entries|
    }
  }
}
