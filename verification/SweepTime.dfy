/** The sweep against the clock: with one tick each period, how long a sweep takes from its first
    tick to its last, and whether that is within the target. */
module SweepTime {
  import opened Messages
  import opened Store
  import opened Sweeping
  import opened SweepBounds
  import opened SweepTheorems
  import opened SweepRuns
  import opened LateSweep
  import opened Protocol

  // ---------------------------------------------------------------- how long a sweep takes

  /** The sweep that starts with the first tick of `run` is over at a tick at most `d` later. */
  ghost predicate FinishesInTime(cfg: ReaperConfig, run: seq<Moment>, d: real)
    requires cfg.Valid() && run != []
  {
    exists k: nat :: 1 <= k <= |run| && SweptAt(cfg, run, k) && run[k - 1].now - run[0].now <= d
  }

  /** The next tick would come more than `d` after the first. */
  ghost predicate LastsFor(cfg: ReaperConfig, run: seq<Moment>, d: real)
    requires run != []
  {
    run[|run| - 1].now + cfg.period > run[0].now + d
  }

  lemma PeriodsAdd(cfg: ReaperConfig, j: int, k: int)
    ensures Periods(cfg, j + k) == Periods(cfg, j) + Periods(cfg, k)
  {
    assert (j + k) as real == j as real + k as real;
  }

  lemma Elapsed(cfg: ReaperConfig, run: seq<Moment>, k: nat)
    requires Periodic(cfg, run) && k < |run|
    ensures run[k].now - run[0].now == Periods(cfg, k)
  {
    hide Periodic;
    PeriodicSpan(cfg, run, 0, k);
  }

  lemma LastsForPeriods(cfg: ReaperConfig, run: seq<Moment>, d: real, periods: nat)
    requires cfg.Valid() && run != [] && Periodic(cfg, run) && LastsFor(cfg, run, d) && Periods(cfg, periods) <= d
    ensures periods < |run|
  {
    hide Periods, Periodic;
    Elapsed(cfg, run, |run| - 1);
    OneMorePeriod(cfg, |run| - 1);
    PeriodsOrdered(cfg, |run|, periods);
  }

  /** With one tick each period, the ticks of the first `d` are one more than the whole periods in `d`. */
  lemma InTimeIffWithin(cfg: ReaperConfig, run: seq<Moment>, d: real, periods: nat)
    requires cfg.Valid() && run != [] && Periodic(cfg, run) && LastsFor(cfg, run, d) && WholePeriods(cfg, d, periods)
    ensures periods < |run| && (FinishesInTime(cfg, run, d) <==> FinishesWithin(cfg, run, periods + 1))
  {
    hide SweptAt, Periodic, Periods;
    LastsForPeriods(cfg, run, d, periods);
    forall k: nat | 1 <= k <= |run| && SweptAt(cfg, run, k)
      ensures run[k - 1].now - run[0].now <= d <==> k <= periods + 1
    {
      Elapsed(cfg, run, k - 1);
      PeriodsOrdered(cfg, k - 1, periods);
      PeriodsOrdered(cfg, periods + 1, k - 1);
    }
  }

  // ---------------------------------------------------------------- the target

  /** Every sweep of n keys with one tick each period, whatever happens between the ticks, takes no
      longer from its first tick to its last than the target. */
  ghost predicate TargetAlwaysMetInTime(cfg: ReaperConfig, n: nat)
    requires cfg.Valid()
  {
    forall run: seq<Moment> ::
      run != [] && ValidRun(run) && |run[0].snapshot| == n && Periodic(cfg, run) && LastsFor(cfg, run, cfg.targetSweep)
      ==> FinishesInTime(cfg, run, cfg.targetSweep)
  }

  /** n keys, and everybody logs off after the first tick. */
  function DesertedRun(cfg: ReaperConfig, n: nat, ticks: nat): (run: seq<Moment>)
    ensures |run| == ticks
  {
    seq(ticks, k requires 0 <= k < ticks =>
      Moment(if k == 0 then SeenAtZero(StaleKeys(n)) else map[], if k == 0 then StaleKeys(n) else [], Periods(cfg, k)))
  }

  lemma DesertedRunIsValid(cfg: ReaperConfig, n: nat, ticks: nat)
    requires cfg.Valid() && ticks >= 1
    ensures var run := DesertedRun(cfg, n, ticks);
            ValidRun(run) && |run[0].snapshot| == n && |run[0].lastSeen| == n && Periodic(cfg, run)
  {
    hide StaleKeys, SeenAtZero, Periods;
    var run := DesertedRun(cfg, n, ticks);
    FullIsSnapshot(n, 0.0);
    FullIsSnapshot(n, Periods(cfg, 0));
    forall k | 0 <= k < |run| - 1
      ensures run[k + 1].now == run[k].now + cfg.period
    {
      OneMorePeriod(cfg, k);
    }
  }

  lemma FullIsSnapshot(n: nat, now: real)
    ensures var m := Moment(SeenAtZero(StaleKeys(n)), StaleKeys(n), now); m.Valid() && |m.lastSeen| == n
  {
    var m := Moment(SeenAtZero(StaleKeys(n)), StaleKeys(n), now);
    LastKeysDistinct(n, n);
    assert StaleKeys(n)[0..] == StaleKeys(n);
    SnapshotSize(m);
  }

  lemma {:induction false} BatchesOfMin(m: nat, n: nat, batches: seq<nat>)
    requires forall k :: 0 <= k < |batches| ==> batches[k] == m
    ensures Left(n, batches) == Max(0, n - |batches| * m)
    decreases |batches|
  {
    if batches != [] {
      BatchesOfMin(m, Max(0, n - batches[0]), batches[1..]);
      Spread(|batches| - 1, 1, m);
    }
  }

  /** What a deserted sweep leaves: the first tick takes its share, the others the minimum batch. */
  lemma DesertedLeft(cfg: ReaperConfig, n: nat, ticks: nat)
    requires cfg.Valid() && ticks >= 1
    ensures var run := DesertedRun(cfg, n, ticks);
            run[0].snapshot == StaleKeys(n)
            && Unexamined(cfg, run, ticks) == Max(0, n - Batch(cfg.minBatch, TicksPerSweep(cfg), n) - (ticks - 1) * cfg.minBatch)
  {
    hide TicksPerSweep;
    var run, t := DesertedRun(cfg, n, ticks), TicksPerSweep(cfg);
    DesertedRunIsValid(cfg, n, ticks);
    var b := Batches(cfg, run, ticks);
    assert b[0] == Batch(cfg.minBatch, t, n);
    forall k | 0 <= k < ticks - 1
      ensures b[1..][k] == cfg.minBatch
    {
      assert b[1..][k] == Batch(cfg.minBatch, t, 0);
    }
    BatchesOfMin(cfg.minBatch, Max(0, n - b[0]), b[1..]);
  }

  /** Any other sweep of as many keys and ticks leaves no more. */
  lemma DesertedIsWorst(cfg: ReaperConfig, run: seq<Moment>, ticks: nat)
    requires cfg.Valid() && ValidRun(run) && 1 <= ticks <= |run|
    ensures var n := |run[0].snapshot|;
            Unexamined(cfg, run, ticks) <= Max(0, n - Batch(cfg.minBatch, TicksPerSweep(cfg), n) - (ticks - 1) * cfg.minBatch)
  {
    hide TicksPerSweep;
    var n, b := |run[0].snapshot|, Batches(cfg, run, ticks);
    assert run[0].Valid();
    SnapshotSize(run[0]);
    LeastBatchBound(cfg.minBatch, Max(0, n - b[0]), b[1..]);
  }

  /** When `ticks` ticks always finish a sweep of n keys. */
  lemma AlwaysWithinIff(cfg: ReaperConfig, run: seq<Moment>, ticks: nat)
    requires cfg.Valid() && ValidRun(run) && 1 <= ticks <= |run|
    ensures var n := |run[0].snapshot|;
            var enough := n <= Batch(cfg.minBatch, TicksPerSweep(cfg), n) + (ticks - 1) * cfg.minBatch;
            && (enough ==> FinishesWithin(cfg, run, ticks))
            && (!enough && run == DesertedRun(cfg, n, |run|) ==> !FinishesWithin(cfg, run, ticks))
  {
    hide TicksPerSweep, FinishesWithin, Unexamined, Batch, DesertedRun, Moment.Valid;
    var n := |run[0].snapshot|;
    FinishesIffNothingLeft(cfg, run, ticks);
    DesertedIsWorst(cfg, run, ticks);
    if run == DesertedRun(cfg, n, |run|) {
      DesertedPrefix(cfg, n, |run|, ticks);
      DesertedLeft(cfg, n, ticks);
    }
  }

  lemma DesertedPrefix(cfg: ReaperConfig, n: nat, all: nat, ticks: nat)
    requires cfg.Valid() && 1 <= ticks <= all
    ensures Unexamined(cfg, DesertedRun(cfg, n, all), ticks) == Unexamined(cfg, DesertedRun(cfg, n, ticks), ticks)
  {
    hide TicksPerSweep;
    assert Batches(cfg, DesertedRun(cfg, n, all), ticks) == Batches(cfg, DesertedRun(cfg, n, ticks), ticks);
  }

  /** The documented guarantee against the clock: a sweep of n keys never takes longer than the target,
      from its first tick to its last, exactly when the target is shorter than a period, or the first
      tick's share and one minimum batch for each whole period of the target cover the n keys. */
  lemma TargetMetInTimeIff(cfg: ReaperConfig, n: nat)
    requires cfg.Valid()
    ensures var periods := (cfg.targetSweep / cfg.period).Floor;
            TargetAlwaysMetInTime(cfg, n) <==> periods < 1 || n <= CeilDiv(n, periods) + periods * cfg.minBatch
  {
    hide TicksPerSweep, FinishesWithin, FinishesInTime, DesertedRun, Periodic, LastsFor, Moment.Valid, Periods;
    var periods := (cfg.targetSweep / cfg.period).Floor;
    PeriodsInTime(cfg, cfg.targetSweep);
    TicksAreWholePeriods(cfg);
    FirstShare(cfg, n, periods);
    forall run: seq<Moment> |
      run != [] && ValidRun(run) && |run[0].snapshot| == n && Periodic(cfg, run) && LastsFor(cfg, run, cfg.targetSweep)
      ensures var enough := n <= Batch(cfg.minBatch, TicksPerSweep(cfg), n) + periods * cfg.minBatch;
              && (enough ==> FinishesInTime(cfg, run, cfg.targetSweep))
              && (!enough && run == DesertedRun(cfg, n, |run|) ==> !FinishesInTime(cfg, run, cfg.targetSweep))
    {
      InTimeIffWithin(cfg, run, cfg.targetSweep, periods);
      AlwaysWithinIff(cfg, run, periods + 1);
    }
    var worst := DesertedRun(cfg, n, periods + 1);
    DesertedRunIsValid(cfg, n, periods + 1);
    DesertedLasts(cfg, n, periods);
  }

  lemma DesertedLasts(cfg: ReaperConfig, n: nat, periods: nat)
    requires cfg.Valid() && cfg.targetSweep < Periods(cfg, periods + 1)
    ensures LastsFor(cfg, DesertedRun(cfg, n, periods + 1), cfg.targetSweep)
  {
    OneMorePeriod(cfg, periods);
  }

  lemma TicksAreWholePeriods(cfg: ReaperConfig)
    requires cfg.Valid()
    ensures TicksPerSweep(cfg) == Max(1, (cfg.targetSweep / cfg.period).Floor)
  {
  }

  lemma FirstShare(cfg: ReaperConfig, n: nat, periods: nat)
    requires cfg.Valid() && TicksPerSweep(cfg) == Max(1, periods)
    ensures n <= Batch(cfg.minBatch, TicksPerSweep(cfg), n) + periods * cfg.minBatch
            <==> periods < 1 || n <= CeilDiv(n, periods) + periods * cfg.minBatch
  {
    CeilDivIsCeiling(n, Max(1, periods));
    if periods >= 1 && CeilDiv(n, periods) < cfg.minBatch {
      Scale(CeilDiv(n, periods), cfg.minBatch, periods);
      assert periods * cfg.minBatch == cfg.minBatch * periods;
    }
  }

  /** While no tick finds a registry smaller than the snapshot, a sweep with one tick each period is
      over within the target, and with a period to spare. */
  lemma SteadySweepInTime(cfg: ReaperConfig, run: seq<Moment>)
    requires cfg.Valid() && run != [] && Periodic(cfg, run) && LastsFor(cfg, run, cfg.targetSweep)
    requires forall k :: 0 <= k < |run| ==> |run[k].lastSeen| >= |run[0].snapshot|
    ensures FinishesInTime(cfg, run, Later(0.0, cfg.targetSweep - cfg.period))
  {
    hide TicksPerSweep, FinishesWithin, FinishesInTime, Moment.Valid, Periodic, Periods, LastsFor;
    var t := TicksPerSweep(cfg);
    EnoughTicks(cfg, run);
    var first := run[..t];
    SteadySweepMeetsTarget(cfg, first);
    WithinIsInTime(cfg, run, t);
    PlannedTime(cfg);
    InTimeIsMonotone(cfg, run, Periods(cfg, t - 1), Later(0.0, cfg.targetSweep - cfg.period));
  }

  function Later(a: real, b: real): real {
    if a >= b then a else b
  }

  /** From the first to the last of the ticks that a sweep is planned for. */
  lemma PlannedTime(cfg: ReaperConfig)
    requires cfg.Valid()
    ensures Periods(cfg, TicksPerSweep(cfg) - 1) <= Later(0.0, cfg.targetSweep - cfg.period)
  {
    var t := TicksPerSweep(cfg);
    TicksPerSweepIffFits(cfg, t);
    OneMorePeriod(cfg, t - 1);
  }

  lemma InTimeIsMonotone(cfg: ReaperConfig, run: seq<Moment>, d: real, e: real)
    requires cfg.Valid() && run != [] && d <= e && FinishesInTime(cfg, run, d)
    ensures FinishesInTime(cfg, run, e)
  {
    hide SweptAt;
    var k: nat :| 1 <= k <= |run| && SweptAt(cfg, run, k) && run[k - 1].now - run[0].now <= d;
    assert SweptAt(cfg, run, k);
  }

  /** A run that lasts for the target has the ticks of a sweep. */
  lemma EnoughTicks(cfg: ReaperConfig, run: seq<Moment>)
    requires cfg.Valid() && run != [] && Periodic(cfg, run) && LastsFor(cfg, run, cfg.targetSweep)
    ensures TicksPerSweep(cfg) <= |run|
  {
    hide TicksPerSweep, Periodic, Periods, LastsFor;
    var t := TicksPerSweep(cfg);
    TicksPerSweepIffFits(cfg, t);
    if t > 1 {
      LastsForPeriods(cfg, run, cfg.targetSweep, t);
    }
  }

  /** A sweep that the first `ticks` ticks finish takes one period less than they do. */
  lemma WithinIsInTime(cfg: ReaperConfig, run: seq<Moment>, ticks: nat)
    requires cfg.Valid() && Periodic(cfg, run) && 1 <= ticks <= |run| && FinishesWithin(cfg, run[..ticks], ticks)
    ensures FinishesInTime(cfg, run, Periods(cfg, ticks - 1))
  {
    hide Periodic, Periods, CursorBefore;
    var k: nat :| k <= ticks && k >= 1 && SweptAt(cfg, run[..ticks], k);
    PrefixCursor(cfg, run, ticks, k);
    Elapsed(cfg, run, k - 1);
    PeriodsOrdered(cfg, k - 1, ticks - 1);
    assert SweptAt(cfg, run, k);
  }

  lemma {:induction false} PrefixCursor(cfg: ReaperConfig, run: seq<Moment>, ticks: nat, k: nat)
    requires cfg.Valid() && k <= ticks <= |run|
    ensures CursorBefore(cfg, IDLE, run[..ticks], k) == CursorBefore(cfg, IDLE, run, k)
    decreases k
  {
    hide TickCursor;
    if k > 0 {
      PrefixCursor(cfg, run, ticks, k - 1);
    }
  }

  /** If only the reaper removes entries, a sweep of any size is over within one target after the
      periods of decay that bring it down to what the minimum batch does in one target. */
  lemma SweepEndsAfterDecayInTime(cfg: ReaperConfig, run: seq<Moment>, k: nat)
    requires cfg.Valid() && ValidRun(run) && OnlyReaperRemoves(cfg, run) && Periodic(cfg, run)
    requires |run| == k + TicksPerSweep(cfg)
    requires var t := TicksPerSweep(cfg);
             |run[0].snapshot| * Pow(t - 1, k) <= t * cfg.minBatch * Pow(t, k)
    ensures FinishesInTime(cfg, run, Periods(cfg, k) + cfg.targetSweep)
  {
    hide TicksPerSweep, FinishesWithin, FinishesInTime, OnlyReaperRemoves, Periodic, Moment.Valid, Periods, Pow;
    var t := TicksPerSweep(cfg);
    SweepEndsAfterDecay(cfg, run, k);
    assert run[..|run|] == run;
    WithinIsInTime(cfg, run, |run|);
    PlannedTime(cfg);
    PeriodsAdd(cfg, k, t - 1);
    assert k + (t - 1) == |run| - 1;
    InTimeIsMonotone(cfg, run, Periods(cfg, |run| - 1), Periods(cfg, k) + cfg.targetSweep);
  }

  // ---------------------------------------------------------------- late by any time

  /** With at least two ticks in the target, a tick leaves half of what it finds or all but the
      minimum batch. */
  lemma TickLeaves(m: nat, t: nat, n: nat, need: nat)
    requires t >= 2 && n >= 2 * (need + m)
    ensures n - Batch(m, t, n) >= need
  {
    var half := (n + 1) / 2;
    Scale(2, t, half);
    assert half * t == t * half && half * 2 == 2 * half;
    CeilDivAtMost(n, t, half);
  }

  /** So many keys that `ticks` ticks leave one. */
  function TooMany(m: nat, ticks: nat): nat {
    if ticks == 0 then 1 else 2 * (TooMany(m, ticks - 1) + m)
  }

  lemma {:induction false} TooManyIsEnough(m: nat, t: nat, n: nat, ticks: nat)
    requires t >= 2 && n >= TooMany(m, ticks)
    ensures Left(n, ShrinkingBatches(m, t, n, ticks)) >= 1
    decreases ticks
  {
    if ticks > 0 {
      TickLeaves(m, t, n, TooMany(m, ticks - 1));
      ShrinkingTail(m, t, n, ticks);
      TooManyIsEnough(m, t, n - Batch(m, t, n), ticks - 1);
    }
  }

  /** No time is enough for every registry: with a target of at least two periods, for every `d` and
      every number of clients from some number on, there is a run of the system in which the clients
      poll once and are never seen again, the reaper ticks once each period for more than `d`, and its
      first sweep takes longer than `d`; a client that is over the threshold all the time is still
      registered then. */
  lemma SweepLateByAnyTime(cfg: Config, d: real, n: nat) returns (before: seq<Step>, steps: seq<Step>)
    requires cfg.Valid() && cfg.reaper.targetSweep >= 2.0 * cfg.reaper.period && d >= 0.0
    requires n >= TooMany(cfg.reaper.minBatch, (d / cfg.reaper.period).Floor + 1)
    ensures IsRun(cfg, before) && Legal(cfg, Reached(cfg, before), steps)
    ensures SweptLate(cfg, Reached(cfg, before), steps, n, (d / cfg.reaper.period).Floor + 1)
    ensures var run := Ticks(cfg, Reached(cfg, before), steps);
            run != [] && LastsFor(cfg.reaper, run, d) && !FinishesInTime(cfg.reaper, run, d)
  {
    hide IsRun, Reached, Inv, Legal, Exec, Enabled, Apply, Ticks, TicksPerSweep, FinishesWithin, FinishesInTime, AllStale, Periodic, Periods, LeftAfter;
    var r := cfg.reaper;
    var periods := (d / r.period).Floor;
    PeriodsInTime(r, d);
    TwoTicks(r);
    LeftAfterTooMany(r, n, periods + 1);
    before, steps := StaleRunOfSystem(cfg, n, periods + 1);
    var run := Ticks(cfg, Reached(cfg, before), steps);
    Elapsed(r, run, periods);
    OneMorePeriod(r, periods);
    InTimeIffWithin(r, run, d, periods);
  }

  lemma TwoTicks(cfg: ReaperConfig)
    requires cfg.Valid() && cfg.targetSweep >= 2.0 * cfg.period
    ensures TicksPerSweep(cfg) >= 2
  {
    TicksPerSweepIffFits(cfg, 1);
  }

  lemma LeftAfterTooMany(cfg: ReaperConfig, n: nat, ticks: nat)
    requires cfg.Valid() && TicksPerSweep(cfg) >= 2 && n >= TooMany(cfg.minBatch, ticks)
    ensures LeftAfter(cfg, n, ticks) >= 1
  {
    hide TicksPerSweep;
    TooManyIsEnough(cfg.minBatch, TicksPerSweep(cfg), n, ticks);
  }
}
