/** The reaper: a cursor that one tick moves over a snapshot of the registry. */
module Reaper {
  import opened Messages
  import opened Store
  import opened Sweeping
  import opened Registries

  class ClientQueueReaper {
    const registry: ClientRegistry
    const cfg: ReaperConfig
    var cursor: seq<ClientId>
    var cursorIdx: nat

    constructor (registry: ClientRegistry, cfg: ReaperConfig)
      ensures this.registry == registry && this.cfg == cfg && Position() == IDLE
    {
      this.registry, this.cfg := registry, cfg;
      cursor, cursorIdx := [], 0;
    }

    function Position(): Cursor
      reads this
    {
      Cursor(cursor, cursorIdx)
    }

    /** The registry as a tick at `now` finds it. */
    ghost function MomentAt(now: real): Moment
      reads this, registry, registry.Repr()
      requires registry.Valid()
    {
      Moment(registry.View().LastSeen(), registry.SnapshotKeys(), now)
    }

    /** The least batch that is no smaller than the minimum and with which as many ticks as fit into
        the target would cover the registry as it is now. */
    function EffectiveBatchSize(): (n: nat)
      requires cfg.Valid() && registry.Valid()
      reads this, registry, registry.Repr()
      ensures LeastBatch(n, cfg.minBatch, TicksPerSweep(cfg), |registry.View().registry|)
      ensures forall t: nat :: FitsTarget(cfg, t) ==> LeastBatch(n, cfg.minBatch, t, |registry.View().registry|)
    {
      BatchIsLeastInTarget(cfg, registry.Len());
      BatchIsLeast(cfg.minBatch, TicksPerSweep(cfg), registry.Len());
      Batch(cfg.minBatch, TicksPerSweep(cfg), registry.Len())
    }

    /** One turn of the tick's loop. */
    method Examine(clientId: ClientId, now: real) returns (stale: bool)
      requires registry.Valid()
      modifies registry
      ensures registry.Valid() && registry.arena == old(registry.arena) && registry.Repr() == old(registry.Repr())
      ensures var lastSeen := old(registry.View()).LastSeen();
              stale <==> clientId in lastSeen && now - lastSeen[clientId] > cfg.threshold
      ensures registry.View() == if stale then old(registry.View()).Remove(clientId) else old(registry.View())
    {
      stale := false;
      var entry := registry.Get(clientId);
      if entry.Some? {
        assert entry.value.View() == registry.View().entries[registry.View().registry[clientId]];
        if now - entry.value.lastSeen > cfg.threshold {
          registry.Remove(clientId);
          stale := true;
        }
      }
    }

    /** The tick's loop over the keys up to `end`. */
    method EvictStale(end: nat, now: real) returns (evicted: nat)
      requires registry.Valid() && this !in registry.Repr() && cursorIdx <= end <= |cursor|
      modifies registry
      ensures registry.Valid() && registry.arena == old(registry.arena) && registry.Repr() == old(registry.Repr())
      ensures var gone := Stale(cfg, old(registry.View()).LastSeen(), cursor[cursorIdx..end], now);
              registry.View() == old(registry.View()).RemoveAll(gone) && evicted == |gone|
    {
      hide Stale, Clients.RemoveAll, Clients.Remove, Clients.LastSeen, ClientRegistry.Valid, ClientRegistry.View, ClientRegistry.Repr;
      ghost var before := registry.View();
      ghost var lastSeen := before.LastSeen();
      ghost var gone: set<ClientId> := {};
      RemoveNothing(before);
      StaleOfNone(cfg, before, cursor, cursorIdx, now);
      evicted := 0;
      for i := cursorIdx to end
        invariant registry.Valid() && registry.arena == old(registry.arena) && registry.Repr() == old(registry.Repr())
        invariant gone == Stale(cfg, lastSeen, cursor[cursorIdx..i], now)
        invariant registry.View() == before.RemoveAll(gone)
        invariant evicted == |gone|
      {
        var stale := Examine(cursor[i], now);
        StaleOfOneMore(cfg, before, cursor, cursorIdx, i, now);
        if stale {
          evicted := evicted + 1;
          gone := gone + {cursor[i]};
        }
      }
    }

    /** A finished snapshot is replaced by a new one. */
    method Refresh()
      requires registry.Valid() && this !in registry.Repr()
      modifies this
      ensures Position() == Refreshed(old(Position()), registry.SnapshotKeys())
    {
      if cursorIdx >= |cursor| {
        cursor := registry.SnapshotKeys();
        cursorIdx := 0;
      }
    }

    /** One tick: the cursor moves as Sweeping.TickCursor says, exactly the entries of
        Sweeping.Evicted leave the registry, and the count returned is the drop in its size. */
    method Tick(now: real) returns (evicted: nat)
      requires cfg.Valid() && registry.Valid() && this !in registry.Repr()
      modifies this, registry
      ensures registry.Valid() && registry.arena == old(registry.arena) && registry.Repr() == old(registry.Repr())
      ensures Position() == TickCursor(cfg, old(Position()), old(MomentAt(now)))
      ensures var gone := Evicted(cfg, old(Position()), old(MomentAt(now)));
              && registry.View() == old(registry.View()).RemoveAll(gone)
              && evicted == |gone|
              && |registry.View().registry| == |old(registry.View()).registry| - evicted
    {
      hide ClientRegistry.Valid, ClientRegistry.View, Clients.LastSeen, Clients.RemoveAll, Stale, LeastBatch, Batch, TicksPerSweep;
      ghost var before, at := registry.View(), MomentAt(now);
      SizeOfLastSeen(registry);
      RemoveNothing(before);
      Refresh();
      ghost var start := Position();
      if cursor == [] {
        StaleOfNone(cfg, before, cursor, 0, now);
        return 0;
      }
      var end := Min(cursorIdx + EffectiveBatchSize(), |cursor|);
      evicted := EvictStale(end, now);
      ghost var after := registry.View();
      StaleAreRegistered(cfg, before, start.keys[start.idx..end], now);
      RemovedCount(before, Stale(cfg, at.lastSeen, start.keys[start.idx..end], now));
      cursorIdx := end;
      assert registry.Valid() && registry.View() == after;
    }
  }

  lemma SizeOfLastSeen(registry: ClientRegistry)
    requires registry.Valid()
    ensures |registry.View().LastSeen()| == |registry.View().registry|
  {
    LastSeenKeys(registry.View(), registry.queueMaxSize);
  }

  lemma StaleAreRegistered(cfg: ReaperConfig, cs: Clients, keys: seq<ClientId>, now: real)
    ensures Stale(cfg, cs.LastSeen(), keys, now) <= cs.registry.Keys
  {
  }

  lemma RemoveNothing(cs: Clients)
    ensures cs.RemoveAll({}) == cs
  {
    assert cs.registry - {} == cs.registry;
  }

  lemma StaleOfNone(cfg: ReaperConfig, cs: Clients, keys: seq<ClientId>, from: nat, now: real)
    requires from <= |keys|
    ensures Stale(cfg, cs.LastSeen(), keys[from..from], now) == {}
  {
  }

  /** What one more key adds to the evictions, in terms of what the earlier ones have left. */
  lemma StaleOfOneMore(cfg: ReaperConfig, cs: Clients, keys: seq<ClientId>, from: nat, i: nat, now: real)
    requires from <= i < |keys|
    ensures var gone := Stale(cfg, cs.LastSeen(), keys[from..i], now);
            var left := cs.RemoveAll(gone).LastSeen();
            if keys[i] in left && now - left[keys[i]] > cfg.threshold
            then && keys[i] !in gone
                 && Stale(cfg, cs.LastSeen(), keys[from..i + 1], now) == gone + {keys[i]}
                 && cs.RemoveAll(gone).Remove(keys[i]) == cs.RemoveAll(gone + {keys[i]})
            else Stale(cfg, cs.LastSeen(), keys[from..i + 1], now) == gone
  {
  }

  lemma RemovedCount(cs: Clients, gone: set<ClientId>)
    requires gone <= cs.registry.Keys
    ensures |cs.RemoveAll(gone).registry| == |cs.registry| - |gone|
  {
  }
}
