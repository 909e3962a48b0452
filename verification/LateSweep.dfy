/** The late sweep as a run of the whole system: many clients poll once and are never seen again,
    and the reaper, with one tick each period, needs more than its target for them. */
module LateSweep {
  import opened Messages
  import opened Deadlines
  import opened Store
  import opened Sweeping
  import opened SweepTheorems
  import opened SweepBounds
  import opened SweepRuns
  import opened Decimals
  import opened Protocol
  import opened Frames

  // ---------------------------------------------------------------- a quiet run of ticks is a run of the system

  /** Nothing but the reaper touches the registry, wherever its sweep stands at the start. */
  ghost predicate QuietFrom(cfg: ReaperConfig, start: Cursor, run: seq<Moment>)
    requires cfg.Valid()
  {
    forall k :: 0 <= k < |run| - 1 ==>
                  run[k + 1].lastSeen == run[k].lastSeen - Evicted(cfg, CursorBefore(cfg, start, run, k), run[k])
  }

  ghost predicate TimeGoesOn(run: seq<Moment>) {
    forall k :: 0 <= k < |run| - 1 ==> run[k].now <= run[k + 1].now
  }

  lemma QuietRest(cfg: ReaperConfig, start: Cursor, run: seq<Moment>)
    requires cfg.Valid() && run != [] && QuietFrom(cfg, start, run) && TimeGoesOn(run) && ValidRun(run)
    ensures QuietFrom(cfg, TickCursor(cfg, start, run[0]), run[1..]) && TimeGoesOn(run[1..]) && ValidRun(run[1..])
    ensures |run| > 1 ==> run[1].lastSeen == run[0].lastSeen - Evicted(cfg, start, run[0]) && run[0].now <= run[1].now
  {
    hide TickCursor, Evicted, Moment.Valid;
    var rest := run[1..];
    var next := TickCursor(cfg, start, run[0]);
    assert run == [run[0]] + rest;
    forall k | 0 <= k < |rest| - 1
      ensures rest[k + 1].lastSeen == rest[k].lastSeen - Evicted(cfg, CursorBefore(cfg, next, rest, k), rest[k])
      ensures rest[k].now <= rest[k + 1].now
    {
      FirstTick(cfg, start, run[0], rest, k);
      assert run[(k + 1) + 1] == rest[k + 1] && run[k + 1] == rest[k];
      assert run[(k + 1) + 1].lastSeen == run[k + 1].lastSeen - Evicted(cfg, CursorBefore(cfg, start, run, k + 1), run[k + 1]);
    }
    if |run| > 1 {
      assert run[0 + 1].lastSeen == run[0].lastSeen - Evicted(cfg, CursorBefore(cfg, start, run, 0), run[0]);
    }
  }

  /** The state is as the tick finds it, and no handler is at work. */
  ghost predicate Finds(s: State, m: Moment) {
    s.hot == None && s.handlers == map[] && s.clients.LastSeen() == m.lastSeen && s.clock == m.now
  }

  lemma TickOfMoment(cfg: Config, s: State, m: Moment)
    requires cfg.Valid() && Inv(cfg, s) && Finds(s, m) && m.Valid()
    ensures var step := Reap(m.snapshot);
            && Enabled(cfg, s, step) && MomentOf(s, m.snapshot) == m
            && var t := Apply(cfg, s, step);
               && t.cursor == TickCursor(cfg.reaper, s.cursor, m) && t.clock == s.clock && t.handlers == map[] && t.hot == None
               && t.clients == s.clients.RemoveAll(Evicted(cfg.reaper, s.cursor, m))
  {
    hide Evicted, TickCursor, HandlersInv;
    LastSeenKeys(s.clients, cfg.clientMax);
  }

  lemma LastSeenOfRest(clients: Clients, gone: set<ClientId>)
    ensures clients.RemoveAll(gone).LastSeen() == clients.LastSeen() - gone
  {
  }

  /** The steps of `run`: a tick for each moment, and time passing in between. */
  ghost function StepsOf(run: seq<Moment>): seq<Step>
    decreases |run|
  {
    if run == [] then []
    else if |run| == 1 then [Reap(run[0].snapshot)]
    else [Reap(run[0].snapshot)] + [Advance(run[1].now)] + StepsOf(run[1..])
  }

  lemma {:induction false} QuietRunIsARun(cfg: Config, s: State, run: seq<Moment>)
    requires cfg.Valid() && Inv(cfg, s) && run != [] && Finds(s, run[0])
    requires ValidRun(run) && TimeGoesOn(run) && QuietFrom(cfg.reaper, s.cursor, run)
    ensures Legal(cfg, s, StepsOf(run)) && Ticks(cfg, s, StepsOf(run)) == run
    ensures Exec(cfg, s, StepsOf(run)).clients.LastSeen() == LeftBy(cfg.reaper, s.cursor, run)
    decreases |run|
  {
    hide Inv, Enabled, Apply, MomentOf, Evicted, TickCursor, Moment.Valid, QuietFrom, TimeGoesOn, LeftBy;
    var steps := StepsOf(run);
    var tick := Reap(run[0].snapshot);
    TickOfMoment(cfg, s, run[0]);
    StepKeepsInv(cfg, s, tick);
    QuietRest(cfg.reaper, s.cursor, run);
    var s1 := Apply(cfg, s, tick);
    LastSeenOfRest(s.clients, Evicted(cfg.reaper, s.cursor, run[0]));
    LeftByRest(cfg.reaper, s.cursor, run);
    if |run| == 1 {
      NoTicks(cfg, s1);
      TicksOfFirst(cfg, s, tick, []);
      assert [tick] + [] == steps && [run[0]] + [] == run;
    } else {
      var wait := Advance(run[1].now);
      WaitForTick(cfg, s1, run[1].now);
      StepKeepsInv(cfg, s1, wait);
      assert run[1..][0] == run[1];
      QuietRunIsARun(cfg, Apply(cfg, s1, wait), run[1..]);
      TicksOfFirst(cfg, s1, wait, StepsOf(run[1..]));
      TicksOfFirst(cfg, s, tick, [wait] + StepsOf(run[1..]));
      assert [tick] + ([wait] + StepsOf(run[1..])) == steps;
      assert [run[0]] + ([] + run[1..]) == run;
    }
  }

  lemma LeftByRest(cfg: ReaperConfig, start: Cursor, run: seq<Moment>)
    requires cfg.Valid() && run != []
    ensures |run| == 1 ==> LeftBy(cfg, start, run) == run[0].lastSeen - Evicted(cfg, start, run[0])
    ensures |run| > 1 ==> LeftBy(cfg, start, run) == LeftBy(cfg, TickCursor(cfg, start, run[0]), run[1..])
  {
    hide TickCursor, Evicted;
    if |run| == 1 {
      assert CursorBefore(cfg, start, run, 0) == start;
    } else {
      assert run == [run[0]] + run[1..];
      FirstTick(cfg, start, run[0], run[1..], |run| - 2);
    }
  }

  lemma NoTicks(cfg: Config, s: State)
    requires cfg.Valid() && Inv(cfg, s)
    ensures Legal(cfg, s, []) && Ticks(cfg, s, []) == [] && Exec(cfg, s, []) == s
  {
  }

  lemma TicksOfFirst(cfg: Config, s: State, step: Step, rest: seq<Step>)
    requires cfg.Valid() && Inv(cfg, s) && Enabled(cfg, s, step) && Inv(cfg, Apply(cfg, s, step)) && Legal(cfg, Apply(cfg, s, step), rest)
    ensures Legal(cfg, s, [step] + rest) && Exec(cfg, s, [step] + rest) == Exec(cfg, Apply(cfg, s, step), rest)
    ensures Ticks(cfg, s, [step] + rest) == (if step.Reap? then [MomentOf(s, step.snapshot)] else []) + Ticks(cfg, Apply(cfg, s, step), rest)
  {
    hide Inv, Enabled, Apply, MomentOf;
    assert ([step] + rest)[1..] == rest;
  }

  lemma WaitForTick(cfg: Config, s: State, to: real)
    requires cfg.Valid() && s.handlers == map[] && s.hot == None && s.clock <= to
    ensures Enabled(cfg, s, Advance(to)) && Apply(cfg, s, Advance(to)) == s.(clock := to)
  {
  }

  // ---------------------------------------------------------------- a crowd that comes once

  /** The store after clients 0 to n - 1 were seen once each, at time zero. */
  function CrowdOf(n: nat): Clients {
    if n == 0 then Clients([], map[]) else CrowdOf(n - 1).GetOrCreate(Decimal(n - 1), 0.0)
  }

  /** Client `i` is registered with entry `i`. */
  ghost predicate IsCrowd(clients: Clients, n: nat) {
    && |clients.entries| == n
    && (forall i: nat :: i < n ==> Decimal(i) in clients.registry && clients.registry[Decimal(i)] == i)
    && (forall c :: c in clients.registry ==> clients.registry[c] < n && c == Decimal(clients.registry[c]))
    && (forall i: nat :: i < n ==> clients.entries[i] == Entry(Decimal(i), 0.0, NewQueue()))
  }

  lemma NewInCrowd(clients: Clients, n: nat)
    requires IsCrowd(clients, n)
    ensures Decimal(n) !in clients.registry
  {
    if Decimal(n) in clients.registry {
      DecimalIsInjective(n, clients.registry[Decimal(n)]);
      assert false;
    }
  }

  lemma CrowdGrows(clients: Clients, n: nat)
    requires IsCrowd(clients, n)
    ensures IsCrowd(clients.GetOrCreate(Decimal(n), 0.0), n + 1)
  {
    hide Decimal;
    NewInCrowd(clients, n);
  }

  lemma {:induction false} CrowdIsCrowd(n: nat)
    ensures IsCrowd(CrowdOf(n), n)
  {
    hide Decimal, IsCrowd;
    if n > 0 {
      CrowdIsCrowd(n - 1);
      CrowdGrows(CrowdOf(n - 1), n - 1);
    } else {
      EmptyCrowd();
    }
  }

  lemma EmptyCrowd()
    ensures IsCrowd(Clients([], map[]), 0)
  {
  }

  lemma CrowdLastSeen(n: nat)
    ensures CrowdOf(n).LastSeen() == SeenAtZero(StaleKeys(n))
  {
    hide CrowdOf, Decimal;
    CrowdIsCrowd(n);
    var a, b := CrowdOf(n).LastSeen(), SeenAtZero(StaleKeys(n));
    forall c
      ensures c in a <==> c in b
      ensures c in a ==> a[c] == b[c]
    {
      if c in b {
        var i :| 0 <= i < n && StaleKeys(n)[i] == c;
        assert Decimal(i) in CrowdOf(n).registry;
      }
      if c in a {
        var i := CrowdOf(n).registry[c];
        assert StaleKeys(n)[i] == c;
      }
    }
  }

  /** Clients 0 to n - 1 have come and gone, and nothing else has happened. */
  ghost predicate CrowdWasHere(s: State, n: nat) {
    && s.clients == CrowdOf(n) && s.handlers == map[] && s.hot == None && s.cursor == IDLE && s.clock == 0.0
  }

  lemma OneMoreComes(cfg: Config, s: State, n: nat)
    requires cfg.Valid() && CrowdWasHere(s, n)
    ensures Enabled(cfg, s, PollResponses(Decimal(n), Some(-1)))
    ensures CrowdWasHere(Apply(cfg, s, PollResponses(Decimal(n), Some(-1))), n + 1)
  {
    hide CrowdOf, Decimal;
    CrowdIsCrowd(n);
    NewInCrowd(CrowdOf(n), n);
    assert CrowdOf(n + 1) == CrowdOf(n).GetOrCreate(Decimal(n), 0.0) by { OneMoreInCrowd(n); }
  }

  lemma OneMoreInCrowd(n: nat)
    ensures CrowdOf(n + 1) == CrowdOf(n).GetOrCreate(Decimal(n), 0.0)
  {
  }

  lemma {:induction false} CrowdComes(cfg: Config, n: nat) returns (steps: seq<Step>)
    requires cfg.Valid()
    ensures IsRun(cfg, steps) && CrowdWasHere(Reached(cfg, steps), n)
    ensures forall step :: step in steps ==> step.PollResponses?
  {
    if n == 0 {
      steps := [];
      InitInv(cfg);
    } else {
      hide IsRun, Reached, Enabled, Apply, Inv;
      var before := CrowdComes(cfg, n - 1);
      var poll := PollResponses(Decimal(n - 1), Some(-1));
      OneMoreComes(cfg, Reached(cfg, before), n - 1);
      ProlongRun(cfg, before, poll);
      steps := before + [poll];
    }
  }

  // ---------------------------------------------------------------- the late sweep

  /** From `s` on there are only ticks, one each period, and time: `ticks` of them, the first of which
      finds n keys, all over the threshold. The sweep is then not over, and a client that was over the
      threshold all the time is still registered. */
  ghost predicate SweptLate(cfg: Config, s: State, steps: seq<Step>, n: nat, ticks: nat)
    requires cfg.Valid() && Inv(cfg, s) && Legal(cfg, s, steps)
  {
    && s.cursor == IDLE && (forall step :: step in steps ==> step.Reap? || step.Advance?)
    && var run := Ticks(cfg, s, steps);
       && |run| == ticks && run != [] && |run[0].snapshot| == n && n > 0
       && AllStale(cfg.reaper, run) && Periodic(cfg.reaper, run)
       && !FinishesWithin(cfg.reaper, run, |run|)
       && run[0].snapshot[n - 1] in Exec(cfg, s, steps).clients.registry
  }

  /** For every registry size over the minimum batches of a whole target, and with a target of at
      least two ticks: a run of the system in which n clients poll once and are never seen again,
      the reaper ticks once each period, and when the target is over its first sweep is not. */
  lemma LateSweepRun(cfg: Config, n: nat) returns (before: seq<Step>, steps: seq<Step>)
    requires cfg.Valid() && TicksPerSweep(cfg.reaper) >= 2 && n >= TicksPerSweep(cfg.reaper) * cfg.reaper.minBatch + 2
    ensures IsRun(cfg, before) && Legal(cfg, Reached(cfg, before), steps)
    ensures SweptLate(cfg, Reached(cfg, before), steps, n, TicksPerSweep(cfg.reaper))
  {
    hide TicksPerSweep;
    ShrinkingSweepIsLate(cfg.reaper.minBatch, TicksPerSweep(cfg.reaper), n);
    before, steps := StaleRunOfSystem(cfg, n, TicksPerSweep(cfg.reaper));
  }

  /** The same for as many ticks as leave a key. */
  lemma StaleRunOfSystem(cfg: Config, n: nat, ticks: nat) returns (before: seq<Step>, steps: seq<Step>)
    requires cfg.Valid() && ticks >= 1 && LeftAfter(cfg.reaper, n, ticks) >= 1
    ensures IsRun(cfg, before) && Legal(cfg, Reached(cfg, before), steps)
    ensures SweptLate(cfg, Reached(cfg, before), steps, n, ticks)
  {
    hide IsRun, Reached, Inv, Legal, Exec, Enabled, Apply, Ticks, TicksPerSweep, FinishesWithin, StaleMoment, LeftAfter, StaleTime, StepsOf, CrowdOf;
    hide Unexamined, CursorBefore, Evicted, LeftBy;
    var run := AllStaleRunOf(cfg.reaper, n, ticks);
    var come := CrowdComes(cfg, n);
    var s := Reached(cfg, come);
    StaleTimeIsLate(cfg.reaper, 0);
    WaitForTick(cfg, s, run[0].now);
    ProlongRun(cfg, come, Advance(run[0].now));
    before := come + [Advance(run[0].now)];
    CrowdLastSeen(n);
    PeriodicGoesOn(cfg.reaper, run);
    QuietRunIsARun(cfg, Reached(cfg, before), run);
    StepsTickAndWait(run);
    steps := StepsOf(run);
    FinishesIffNothingLeft(cfg.reaper, run, |run|);
    UnfinishedSweepLeavesAKey(cfg.reaper, run);
  }

  lemma PeriodicGoesOn(cfg: ReaperConfig, run: seq<Moment>)
    requires cfg.Valid() && Periodic(cfg, run)
    ensures TimeGoesOn(run)
  {
  }

  lemma {:induction false} StepsTickAndWait(run: seq<Moment>)
    ensures forall step :: step in StepsOf(run) ==> step.Reap? || step.Advance?
    decreases |run|
  {
    if |run| > 1 {
      StepsTickAndWait(run[1..]);
    }
  }
}
