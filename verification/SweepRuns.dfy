/** The sweep over runs of the whole system: the ticks of a run, and what they do to an entry that
    is never seen again. */
module SweepRuns {
  import opened Messages
  import opened Store
  import opened Sweeping
  import opened SweepTheorems
  import opened Frames
  import opened Protocol
  import LifeCycle
  import Orphans

  /** What the ticks of a run find, in order. */
  ghost function Ticks(cfg: Config, s: State, steps: seq<Step>): seq<Moment>
    requires cfg.Valid() && Inv(cfg, s) && Legal(cfg, s, steps)
    decreases |steps|
  {
    if steps == [] then []
    else
      StepKeepsInv(cfg, s, steps[0]);
      (if steps[0].Reap? then [MomentOf(s, steps[0].snapshot)] else []) + Ticks(cfg, Apply(cfg, s, steps[0]), steps[1..])
  }

  lemma MomentIsValid(cfg: Config, s: State, snapshot: seq<ClientId>)
    requires Inv(cfg, s) && IsSnapshot(snapshot, s.clients.registry.Keys)
    ensures MomentOf(s, snapshot).Valid()
  {
    LastSeenKeys(s.clients, cfg.clientMax);
  }

  lemma SnapshotIsValid(cfg: Config, s: State, step: Step)
    requires cfg.Valid() && Inv(cfg, s) && Enabled(cfg, s, step) && step.Reap?
    ensures MomentOf(s, step.snapshot).Valid()
  {
    hide Inv, IsSnapshot, MomentOf;
    MomentIsValid(cfg, s, step.snapshot);
  }

  /** The ticks of a run are a run of ticks, and they move the reaper's cursor as the sweep says. */
  lemma {:induction false} TicksAreARun(cfg: Config, s: State, steps: seq<Step>)
    requires cfg.Valid() && Inv(cfg, s) && Legal(cfg, s, steps)
    ensures var run := Ticks(cfg, s, steps);
            && ValidRun(run)
            && CursorBefore(cfg.reaper, s.cursor, run, |run|) == Exec(cfg, s, steps).cursor
    decreases |steps|
  {
    hide Inv, Enabled, Apply, MomentOf, TickCursor, Moment.Valid;
    if steps != [] {
      var step, s1 := steps[0], Apply(cfg, s, steps[0]);
      StepKeepsInv(cfg, s, step);
      StepClock(cfg, s, step);
      TicksAreARun(cfg, s1, steps[1..]);
      var rest := Ticks(cfg, s1, steps[1..]);
      if step.Reap? {
        SnapshotIsValid(cfg, s, step);
        FirstTick(cfg.reaper, s.cursor, MomentOf(s, step.snapshot), rest, |rest|);
      } else {
        assert [] + rest == rest;
      }
    }
  }

  /** The cursor after a first tick and `j` more. */
  lemma FirstTick(cfg: ReaperConfig, start: Cursor, m: Moment, rest: seq<Moment>, j: nat)
    requires cfg.Valid() && j <= |rest|
    ensures CursorBefore(cfg, start, [m] + rest, j + 1) == CursorBefore(cfg, TickCursor(cfg, start, m), rest, j)
  {
    hide TickCursor;
    var run := [m] + rest;
    assert run[1..] == rest;
    CursorShift(cfg, start, run, 1, j);
    assert CursorBefore(cfg, start, run, 0) == start;
  }

  /** No step of the run bumps entry `r`. */
  ghost predicate NeverSeenAgain(cfg: Config, s: State, steps: seq<Step>, r: Ref)
    requires cfg.Valid() && Inv(cfg, s) && Legal(cfg, s, steps) && r < |s.clients.entries|
    decreases |steps|
  {
    steps == [] ||
    (StepKeepsInv(cfg, s, steps[0]);
     var t := Apply(cfg, s, steps[0]);
     && r < |t.clients.entries| && t.clients.entries[r].lastSeen == s.clients.entries[r].lastSeen
     && NeverSeenAgain(cfg, t, steps[1..], r))
  }

  /** The tick finds the entry, stale, and leaves it. */
  ghost predicate Spares(cfg: ReaperConfig, cur: Cursor, m: Moment, key: ClientId)
    requires cfg.Valid()
  {
    key in m.lastSeen && m.now - m.lastSeen[key] > cfg.threshold && key !in Evicted(cfg, cur, m)
  }

  ghost predicate AllSpare(cfg: ReaperConfig, start: Cursor, run: seq<Moment>, key: ClientId)
    requires cfg.Valid()
  {
    forall k :: 0 <= k < |run| ==> Spares(cfg, CursorBefore(cfg, start, run, k), run[k], key)
  }

  lemma ReapSpares(cfg: Config, s: State, snapshot: seq<ClientId>, r: Ref)
    requires cfg.Valid() && Registered(s.clients, r) && Registered(DoReap(cfg, s, snapshot).clients, r)
    requires s.clock - s.clients.entries[r].lastSeen > cfg.reaper.threshold
    ensures Spares(cfg.reaper, s.cursor, MomentOf(s, snapshot), s.clients.entries[r].client)
  {
    hide Evicted, TickCursor;
  }

  /** An entry that is over the threshold, never seen again and still registered at the end of a
      run was spared by every tick of the run. */
  lemma {:induction false} RegisteredMeansSpared(cfg: Config, s: State, steps: seq<Step>, r: Ref)
    requires cfg.Valid() && Inv(cfg, s) && Legal(cfg, s, steps) && r < |s.clients.entries|
    requires NeverSeenAgain(cfg, s, steps, r)
    requires s.clock - s.clients.entries[r].lastSeen > cfg.reaper.threshold
    requires Registered(Exec(cfg, s, steps).clients, r)
    ensures Registered(s.clients, r)
    ensures AllSpare(cfg.reaper, s.cursor, Ticks(cfg, s, steps), s.clients.entries[r].client)
    decreases |steps|
  {
    hide Inv, Enabled, Apply, MomentOf, TickCursor, Moment.Valid, DoReap, Spares, Registered, AllSpare;
    LifeCycle.StillRegistered(cfg, s, steps, r);
    if steps == [] {
      SparedByNone(cfg.reaper, s.cursor, s.clients.entries[r].client);
    } else {
      var step, s1 := steps[0], Apply(cfg, s, steps[0]);
      var key := s.clients.entries[r].client;
      StepKeepsInv(cfg, s, step);
      Orphans.ClockMovesOn(cfg, s, step);
      StepClock(cfg, s, step);
      LifeCycle.ClientStays(cfg, s, step, r);
      RegisteredMeansSpared(cfg, s1, steps[1..], r);
      if step.Reap? {
        ReapIsDoReap(cfg, s, step);
        ReapSpares(cfg, s, step.snapshot, r);
        SparedByOneMore(cfg.reaper, s.cursor, MomentOf(s, step.snapshot), Ticks(cfg, s1, steps[1..]), key);
      } else {
        assert [] + Ticks(cfg, s1, steps[1..]) == Ticks(cfg, s1, steps[1..]);
      }
    }
  }

  lemma SparedByNone(cfg: ReaperConfig, start: Cursor, key: ClientId)
    requires cfg.Valid()
    ensures AllSpare(cfg, start, [], key)
  {
  }

  lemma SparedByOneMore(cfg: ReaperConfig, start: Cursor, m: Moment, rest: seq<Moment>, key: ClientId)
    requires cfg.Valid() && Spares(cfg, start, m, key) && AllSpare(cfg, TickCursor(cfg, start, m), rest, key)
    ensures AllSpare(cfg, start, [m] + rest, key)
  {
    hide Spares, TickCursor;
    var run := [m] + rest;
    forall k | 0 <= k < |run|
      ensures Spares(cfg, CursorBefore(cfg, start, run, k), run[k], key)
    {
      if k > 0 {
        FirstTick(cfg, start, m, rest, k - 1);
        assert run[k] == rest[k - 1];
      }
    }
  }

  lemma ReapIsDoReap(cfg: Config, s: State, step: Step)
    requires cfg.Valid() && Inv(cfg, s) && Enabled(cfg, s, step) && step.Reap?
    ensures Apply(cfg, s, step) == DoReap(cfg, s, step.snapshot)
  {
  }

  /** Eventual eviction, in every run and by reference: an entry that has passed the threshold and
      is never seen again is detached by the end of the sweep after the current one, whatever is
      created, bumped and removed meanwhile. */
  lemma StaleEntryIsDetached(cfg: Config, s: State, steps: seq<Step>, r: Ref, a: nat, b: nat)
    requires cfg.Valid() && Inv(cfg, s) && Legal(cfg, s, steps) && r < |s.clients.entries|
    requires NeverSeenAgain(cfg, s, steps, r)
    requires s.clock - s.clients.entries[r].lastSeen > cfg.reaper.threshold
    requires a < b <= |Ticks(cfg, s, steps)|
    requires Exhausted(CursorBefore(cfg.reaper, s.cursor, Ticks(cfg, s, steps), a))
    requires Exhausted(CursorBefore(cfg.reaper, s.cursor, Ticks(cfg, s, steps), b))
    ensures Detached(Exec(cfg, s, steps).clients, r)
  {
    hide Inv, Enabled, Apply, Legal, CursorBefore, Ticks, NeverSeenAgain, Evicted;
    LifeCycle.EntriesOnlyAge(cfg, s, steps, r);
    LifeCycle.StillThere(cfg, s, steps, r);
    if Registered(Exec(cfg, s, steps).clients, r) {
      RegisteredMeansSpared(cfg, s, steps, r);
      TicksAreARun(cfg, s, steps);
      var k := EventualEviction(cfg.reaper, s.cursor, Ticks(cfg, s, steps), s.clients.entries[r].client, a, b);
      assert false;
    }
  }

  /** The same by the number of ticks: once the current sweep is over, as many as the minimum batch
      needs for the keys registered then. */
  lemma StaleEntryIsDetachedAfter(cfg: Config, s: State, steps: seq<Step>, r: Ref, a: nat)
    requires cfg.Valid() && Inv(cfg, s) && Legal(cfg, s, steps) && r < |s.clients.entries|
    requires NeverSeenAgain(cfg, s, steps, r)
    requires s.clock - s.clients.entries[r].lastSeen > cfg.reaper.threshold
    requires a < |Ticks(cfg, s, steps)|
    requires Exhausted(CursorBefore(cfg.reaper, s.cursor, Ticks(cfg, s, steps), a))
    requires |Ticks(cfg, s, steps)| - a >= Max(1, CeilDiv(|Ticks(cfg, s, steps)[a].snapshot|, cfg.reaper.minBatch))
    ensures Detached(Exec(cfg, s, steps).clients, r)
  {
    hide Inv, Enabled, Apply, Legal, CursorBefore, Ticks, NeverSeenAgain, CeilDiv;
    var b := NextSweepEnds(cfg.reaper, s.cursor, Ticks(cfg, s, steps), a);
    StaleEntryIsDetached(cfg, s, steps, r, a, b);
  }

  lemma {:induction false} PeriodicSpan(cfg: ReaperConfig, run: seq<Moment>, i: nat, j: nat)
    requires Periodic(cfg, run) && i <= j < |run|
    ensures run[j].now - run[i].now == (j - i) as real * cfg.period
    decreases j
  {
    if i < j {
      PeriodicSpan(cfg, run, i, j - 1);
      assert run[(j - 1) + 1].now == run[j - 1].now + cfg.period;
      assert (j - i) as real == (j - 1 - i) as real + 1.0;
    }
  }

  lemma ManyPeriods(n: int, m: int, period: real)
    requires period > 0.0 && n as real * period >= m as real * period
    ensures n >= m
  {
  }

  /** The same by time, with one tick each period: once the current sweep is over, within one period
      less than the ticks that the minimum batch needs. */
  lemma StaleEntryIsDetachedInTime(cfg: Config, s: State, steps: seq<Step>, r: Ref, a: nat)
    requires cfg.Valid() && Inv(cfg, s) && Legal(cfg, s, steps) && r < |s.clients.entries|
    requires NeverSeenAgain(cfg, s, steps, r)
    requires s.clock - s.clients.entries[r].lastSeen > cfg.reaper.threshold
    requires Periodic(cfg.reaper, Ticks(cfg, s, steps)) && a < |Ticks(cfg, s, steps)|
    requires Exhausted(CursorBefore(cfg.reaper, s.cursor, Ticks(cfg, s, steps), a))
    requires var ticks := Ticks(cfg, s, steps);
             ticks[|ticks| - 1].now - ticks[a].now >= (Max(1, CeilDiv(|ticks[a].snapshot|, cfg.reaper.minBatch)) - 1) as real * cfg.reaper.period
    ensures Detached(Exec(cfg, s, steps).clients, r)
  {
    hide Inv, Enabled, Apply, Legal, CursorBefore, Ticks, NeverSeenAgain, CeilDiv, Periodic;
    var ticks := Ticks(cfg, s, steps);
    var needed := Max(1, CeilDiv(|ticks[a].snapshot|, cfg.reaper.minBatch));
    PeriodicSpan(cfg.reaper, ticks, a, |ticks| - 1);
    ManyPeriods(|ticks| - 1 - a, needed - 1, cfg.reaper.period);
    StaleEntryIsDetachedAfter(cfg, s, steps, r, a);
  }
}
