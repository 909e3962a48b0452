/** What the reaper's sweep guarantees over every run of ticks, whatever happens to the registry in
    between. */
module SweepTheorems {
  import opened Messages
  import opened Sweeping
  import opened SweepBounds
  import opened Decimals

  function BatchAt(cfg: ReaperConfig, m: Moment): nat
    requires cfg.Valid()
  {
    Batch(cfg.minBatch, TicksPerSweep(cfg), |m.lastSeen|)
  }

  function Batches(cfg: ReaperConfig, run: seq<Moment>, k: nat): (b: seq<nat>)
    requires cfg.Valid() && k <= |run|
    ensures |b| == k
  {
    seq(k, i requires 0 <= i < k => BatchAt(cfg, run[i]))
  }

  /** Keys of the first snapshot not yet examined after `k` ticks. */
  function Unexamined(cfg: ReaperConfig, run: seq<Moment>, k: nat): (n: nat)
    requires cfg.Valid() && k <= |run| && run != []
    ensures n <= |run[0].snapshot|
  {
    Left(|run[0].snapshot|, Batches(cfg, run, k))
  }

  lemma UnexaminedStep(cfg: ReaperConfig, run: seq<Moment>, k: nat)
    requires cfg.Valid() && k < |run|
    ensures Unexamined(cfg, run, k + 1) == Max(0, Unexamined(cfg, run, k) - BatchAt(cfg, run[k]))
  {
    var b := Batches(cfg, run, k + 1);
    LeftOfSplit(|run[0].snapshot|, b, k);
    assert b[..k] == Batches(cfg, run, k) && b[k..] == [BatchAt(cfg, run[k])];
  }

  lemma {:induction false} UnexaminedShrinks(cfg: ReaperConfig, run: seq<Moment>, j: nat, k: nat)
    requires cfg.Valid() && j <= k <= |run| && run != []
    ensures Unexamined(cfg, run, k) <= Unexamined(cfg, run, j)
    decreases k
  {
    if j < k {
      UnexaminedShrinks(cfg, run, j, k - 1);
      UnexaminedStep(cfg, run, k - 1);
    }
  }

  /** Until the sweep is over, the cursor stands right before the unexamined keys of its snapshot. */
  lemma {:induction false} CursorCountsUnexamined(cfg: ReaperConfig, run: seq<Moment>, k: nat)
    requires cfg.Valid() && 1 <= k <= |run|
    requires k == 1 || Unexamined(cfg, run, k - 1) > 0
    ensures CursorBefore(cfg, IDLE, run, k) == Cursor(run[0].snapshot, |run[0].snapshot| - Unexamined(cfg, run, k))
    decreases k
  {
    UnexaminedStep(cfg, run, k - 1);
    if k == 1 {
      assert Batches(cfg, run, 0) == [];
      assert CursorBefore(cfg, IDLE, run, 0) == IDLE;
    } else {
      UnexaminedShrinks(cfg, run, k - 2, k - 1);
      CursorCountsUnexamined(cfg, run, k - 1);
    }
  }

  /** A sweep is over within `ticks` ticks exactly when nothing is left unexamined then. */
  lemma FinishesIffNothingLeft(cfg: ReaperConfig, run: seq<Moment>, ticks: nat)
    requires cfg.Valid() && 1 <= ticks <= |run|
    ensures FinishesWithin(cfg, run, ticks) <==> Unexamined(cfg, run, ticks) == 0
  {
    if Unexamined(cfg, run, ticks) == 0 {
      var k := FirstDone(cfg, run, ticks);
      CursorCountsUnexamined(cfg, run, k);
      assert SweptAt(cfg, run, k);
    } else {
      forall k: nat | 1 <= k <= ticks
        ensures !SweptAt(cfg, run, k)
      {
        UnexaminedShrinks(cfg, run, k, ticks);
        UnexaminedShrinks(cfg, run, k - 1, ticks);
        CursorCountsUnexamined(cfg, run, k);
      }
    }
  }

  lemma {:induction false} FirstDone(cfg: ReaperConfig, run: seq<Moment>, ticks: nat) returns (k: nat)
    requires cfg.Valid() && 1 <= ticks <= |run|
    requires Unexamined(cfg, run, ticks) == 0
    ensures 1 <= k <= ticks && Unexamined(cfg, run, k) == 0 && (k == 1 || Unexamined(cfg, run, k - 1) > 0)
    decreases ticks
  {
    if ticks == 1 || Unexamined(cfg, run, ticks - 1) > 0 {
      k := ticks;
    } else {
      k := FirstDone(cfg, run, ticks - 1);
    }
  }

  /** Before the sweep is over, a tick examines exactly the keys between two cursor positions. */
  lemma ExaminedRange(cfg: ReaperConfig, run: seq<Moment>, j: nat)
    requires cfg.Valid() && j < |run| && (j == 0 || Unexamined(cfg, run, j) > 0)
    ensures var n := |run[0].snapshot|;
            && Unexamined(cfg, run, j + 1) <= Unexamined(cfg, run, j)
            && Examined(cfg, CursorBefore(cfg, IDLE, run, j), run[j])
               == run[0].snapshot[n - Unexamined(cfg, run, j)..n - Unexamined(cfg, run, j + 1)]
  {
    UnexaminedStep(cfg, run, j);
    if j == 0 {
      assert Batches(cfg, run, 0) == [];
    } else {
      UnexaminedShrinks(cfg, run, j - 1, j);
      CursorCountsUnexamined(cfg, run, j);
    }
    CursorCountsUnexamined(cfg, run, j + 1);
  }

  // ---------------------------------------------------------------- deadlines

  /** In any case a sweep of n keys ends within ceil(n / minBatch) ticks. */
  lemma SweepAlwaysEnds(cfg: ReaperConfig, run: seq<Moment>)
    requires cfg.Valid() && run != []
    requires |run| >= CeilDiv(|run[0].snapshot|, cfg.minBatch)
    ensures FinishesWithin(cfg, run, Max(1, CeilDiv(|run[0].snapshot|, cfg.minBatch)))
  {
    var n := |run[0].snapshot|;
    var k := Max(1, CeilDiv(n, cfg.minBatch));
    CeilDivIsCeiling(n, cfg.minBatch);
    Scale(CeilDiv(n, cfg.minBatch), k, cfg.minBatch);
    LeastBatchBound(cfg.minBatch, n, Batches(cfg, run, k));
    FinishesIffNothingLeft(cfg, run, k);
  }

  /** While no tick finds a registry smaller than the snapshot, the sweep meets its target. */
  lemma SteadySweepMeetsTarget(cfg: ReaperConfig, run: seq<Moment>)
    requires cfg.Valid() && |run| == TicksPerSweep(cfg)
    requires forall k :: 0 <= k < |run| ==> |run[k].lastSeen| >= |run[0].snapshot|
    ensures FinishesWithin(cfg, run, |run|)
  {
    var n, t := |run[0].snapshot|, |run|;
    var share, b := CeilDiv(n, t), Batches(cfg, run, t);
    forall k | 0 <= k < t
      ensures b[k] >= share
    {
      CeilDivMonotone(n, |run[k].lastSeen|, t);
    }
    CeilDivIsCeiling(n, t);
    assert Unexamined(cfg, run, t) == Left(n, b);
    hide *;
    EnoughShares(n, t, share, b);
    FinishesIffNothingLeft(cfg, run, t);
  }

  lemma EnoughShares(n: nat, t: nat, share: nat, batches: seq<nat>)
    requires |batches| == t && n <= share * t && forall k :: 0 <= k < t ==> batches[k] >= share
    ensures Left(n, batches) == 0
  {
    LeastBatchBound(share, n, batches);
  }

  lemma {:induction false} DistinctSize(keys: seq<ClientId>, present: set<ClientId>)
    requires forall i, j :: 0 <= i < j < |keys| ==> keys[i] != keys[j]
    requires forall i :: 0 <= i < |keys| ==> keys[i] in present
    ensures |keys| <= |present|
    ensures (forall k :: k in present ==> k in keys) ==> |keys| == |present|
    decreases |keys|
  {
    if keys != [] {
      DistinctSize(keys[1..], present - {keys[0]});
      if forall k :: k in present ==> k in keys {
        forall k | k in present - {keys[0]}
          ensures k in keys[1..]
        {
          assert k in keys;
        }
      }
    } else if forall k :: k in present ==> k in keys {
      assert present == {};
    }
  }

  lemma SnapshotSize(m: Moment)
    requires m.Valid()
    ensures |m.snapshot| == |m.lastSeen|
  {
    DistinctSize(m.snapshot, m.lastSeen.Keys);
  }

  /** Every run of one target's worth of ticks over a registry of n keys finishes its sweep. */
  ghost predicate TargetAlwaysMet(cfg: ReaperConfig, n: nat)
    requires cfg.Valid()
  {
    forall run: seq<Moment> :: |run| == TicksPerSweep(cfg) && ValidRun(run) && |run[0].snapshot| == n ==>
                    FinishesWithin(cfg, run, |run|)
  }

  /** The documented guarantee, that a sweep completes within the target regardless of registry
      size, holds exactly for a one-tick target and for registries of at most one key more than
      ticks * minBatch. */
  lemma TargetAlwaysMetIff(cfg: ReaperConfig, n: nat)
    requires cfg.Valid()
    ensures var t := TicksPerSweep(cfg);
            TargetAlwaysMet(cfg, n) <==> t == 1 || n <= t * cfg.minBatch + 1
  {
    var t := TicksPerSweep(cfg);
    if t == 1 || n <= t * cfg.minBatch + 1 {
      forall run: seq<Moment> | |run| == t && ValidRun(run) && |run[0].snapshot| == n
        ensures FinishesWithin(cfg, run, |run|)
      {
        SnapshotSize(run[0]);
        FirstTickBound(cfg.minBatch, t, n, Batches(cfg, run, t));
        FinishesIffNothingLeft(cfg, run, t);
      }
    } else {
      var run := AllStaleRun(cfg, n);
    }
  }

  /** Nothing but the reaper touches the registry. */
  ghost predicate Quiet(cfg: ReaperConfig, run: seq<Moment>)
    requires cfg.Valid()
  {
    forall k :: 0 <= k < |run| - 1 ==>
                  run[k + 1].lastSeen == run[k].lastSeen - Evicted(cfg, CursorBefore(cfg, IDLE, run, k), run[k])
  }

  ghost predicate AllStale(cfg: ReaperConfig, run: seq<Moment>) {
    forall k, c :: 0 <= k < |run| && c in run[k].lastSeen ==> run[k].now - run[k].lastSeen[c] > cfg.threshold
  }

  function StaleKeys(n: nat): (keys: seq<ClientId>)
    ensures |keys| == n && forall i :: 0 <= i < n ==> keys[i] == Decimal(i)
  {
    seq(n, i requires 0 <= i < n => Decimal(i))
  }

  function SeenAtZero(keys: seq<ClientId>): map<ClientId, real> {
    map k | k in keys :: 0.0
  }

  /** The registry at tick `k`, one period after the tick before: the last `left` of n keys, all
      seen at time zero. */
  function StaleMoment(cfg: ReaperConfig, n: nat, left: nat, k: nat): (m: Moment)
    requires left <= n
    ensures m.snapshot == StaleKeys(n)[n - left..]
  {
    var keys := StaleKeys(n)[n - left..];
    Moment(SeenAtZero(keys), keys, StaleTime(cfg, k))
  }

  function StaleTime(cfg: ReaperConfig, k: nat): real {
    cfg.threshold + 1.0 + k as real * cfg.period
  }

  lemma StaleTimeIsLate(cfg: ReaperConfig, k: nat)
    requires cfg.Valid()
    ensures StaleTime(cfg, k) > cfg.threshold && StaleTime(cfg, k + 1) == StaleTime(cfg, k) + cfg.period
  {
  }

  lemma StaleMomentValid(cfg: ReaperConfig, n: nat, left: nat, k: nat)
    requires left <= n
    ensures StaleMoment(cfg, n, left, k).Valid() && |StaleMoment(cfg, n, left, k).lastSeen| == left
  {
    var m := StaleMoment(cfg, n, left, k);
    LastKeysDistinct(n, left);
    SnapshotSize(m);
  }

  lemma LastKeysDistinct(n: nat, left: nat)
    requires left <= n
    ensures var keys := StaleKeys(n)[n - left..];
            forall i, j :: 0 <= i < j < |keys| ==> keys[i] != keys[j]
  {
    var keys := StaleKeys(n)[n - left..];
    forall i, j | 0 <= i < j < |keys|
      ensures keys[i] != keys[j]
    {
      if keys[i] == keys[j] {
        DecimalIsInjective(n - left + i, n - left + j);
      }
    }
  }

  function LeftAfter(cfg: ReaperConfig, n: nat, k: nat): (left: nat)
    requires cfg.Valid()
    ensures left <= n
  {
    Left(n, ShrinkingBatches(cfg.minBatch, TicksPerSweep(cfg), n, k))
  }

  lemma {:induction false} ShrinkingSnoc(m: nat, t: nat, n: nat, k: nat)
    requires t >= 1
    ensures var left := Left(n, ShrinkingBatches(m, t, n, k));
            && ShrinkingBatches(m, t, n, k + 1) == ShrinkingBatches(m, t, n, k) + [Batch(m, t, left)]
            && Left(n, ShrinkingBatches(m, t, n, k + 1)) == Max(0, left - Batch(m, t, left))
    decreases k
  {
    var n1 := Max(0, n - Batch(m, t, n));
    ShrinkingTail(m, t, n, k + 1);
    if k > 0 {
      ShrinkingTail(m, t, n, k);
      ShrinkingSnoc(m, t, n1, k - 1);
    } else {
      assert ShrinkingBatches(m, t, n, 1) == [Batch(m, t, n)];
    }
  }

  ghost predicate IsStaleRun(cfg: ReaperConfig, n: nat, run: seq<Moment>)
    requires cfg.Valid()
  {
    && run != []
    && forall k :: 0 <= k < |run| ==> run[k] == StaleMoment(cfg, n, LeftAfter(cfg, n, k), k)
  }

  /** One tick each period. */
  ghost predicate Periodic(cfg: ReaperConfig, run: seq<Moment>) {
    forall k :: 0 <= k < |run| - 1 ==> run[k + 1].now == run[k].now + cfg.period
  }

  /** A sweep of n stale keys that nothing else disturbs, with one tick each period, and that misses
      the target. */
  lemma AllStaleRun(cfg: ReaperConfig, n: nat) returns (run: seq<Moment>)
    requires cfg.Valid() && TicksPerSweep(cfg) >= 2 && n >= TicksPerSweep(cfg) * cfg.minBatch + 2
    ensures |run| == TicksPerSweep(cfg) && ValidRun(run) && |run[0].snapshot| == n
    ensures run[0].lastSeen == SeenAtZero(StaleKeys(n)) && run[0].now == StaleTime(cfg, 0)
    ensures Quiet(cfg, run) && AllStale(cfg, run) && Periodic(cfg, run)
    ensures !FinishesWithin(cfg, run, |run|)
  {
    ShrinkingSweepIsLate(cfg.minBatch, TicksPerSweep(cfg), n);
    run := AllStaleRunOf(cfg, n, TicksPerSweep(cfg));
  }

  /** The same for as many ticks as leave a key. */
  lemma AllStaleRunOf(cfg: ReaperConfig, n: nat, ticks: nat) returns (run: seq<Moment>)
    requires cfg.Valid() && ticks >= 1 && LeftAfter(cfg, n, ticks) >= 1
    ensures |run| == ticks && ValidRun(run) && |run[0].snapshot| == n
    ensures run[0].lastSeen == SeenAtZero(StaleKeys(n)) && run[0].now == StaleTime(cfg, 0)
    ensures Quiet(cfg, run) && AllStale(cfg, run) && Periodic(cfg, run)
    ensures !FinishesWithin(cfg, run, |run|)
  {
    run := seq(ticks, k requires 0 <= k < ticks => StaleMoment(cfg, n, LeftAfter(cfg, n, k), k));
    hide *;
    StaleRunMisses(cfg, n, run);
    StaleRunStarts(cfg, n, run);
  }

  lemma StaleRunStarts(cfg: ReaperConfig, n: nat, run: seq<Moment>)
    requires cfg.Valid() && IsStaleRun(cfg, n, run)
    ensures run[0].lastSeen == SeenAtZero(StaleKeys(n)) && run[0].now == StaleTime(cfg, 0)
  {
    hide TicksPerSweep, StaleMoment, StaleTime, SeenAtZero;
    StaleRunSizes(cfg, n, run);
    StaleMomentTime(cfg, n, LeftAfter(cfg, n, 0), 0);
    assert StaleKeys(n)[0..] == StaleKeys(n);
  }

  lemma StaleRunMisses(cfg: ReaperConfig, n: nat, run: seq<Moment>)
    requires cfg.Valid() && IsStaleRun(cfg, n, run) && LeftAfter(cfg, n, |run|) >= 1
    ensures ValidRun(run) && |run[0].snapshot| == n
    ensures Quiet(cfg, run) && AllStale(cfg, run) && Periodic(cfg, run)
    ensures !FinishesWithin(cfg, run, |run|)
  {
    hide TicksPerSweep, Unexamined, FinishesWithin, AllStale, Periodic, Moment.Valid, LeftAfter, StaleMoment, Evicted, CursorBefore, StaleKeys;
    StaleRunSizes(cfg, n, run);
    StaleRunIsLate(cfg, n, run);
    StaleRunTimes(cfg, n, run);
    forall k | 0 <= k < |run| - 1
      ensures run[k + 1].lastSeen == run[k].lastSeen - Evicted(cfg, CursorBefore(cfg, IDLE, run, k), run[k])
    {
      StaleRunIsQuiet(cfg, n, run, k);
    }
  }

  lemma StaleRunTimes(cfg: ReaperConfig, n: nat, run: seq<Moment>)
    requires cfg.Valid() && IsStaleRun(cfg, n, run)
    ensures AllStale(cfg, run) && Periodic(cfg, run)
  {
    hide TicksPerSweep, LeftAfter, StaleMoment, StaleTime, StaleKeys, SeenAtZero;
    forall k | 0 <= k < |run|
      ensures run[k].now == StaleTime(cfg, k) && StaleTime(cfg, k) > cfg.threshold
      ensures StaleTime(cfg, k + 1) == StaleTime(cfg, k) + cfg.period
      ensures forall c :: c in run[k].lastSeen ==> run[k].lastSeen[c] == 0.0
    {
      StaleMomentTime(cfg, n, LeftAfter(cfg, n, k), k);
      StaleTimeIsLate(cfg, k);
    }
  }

  lemma StaleMomentTime(cfg: ReaperConfig, n: nat, left: nat, k: nat)
    requires left <= n
    ensures var m := StaleMoment(cfg, n, left, k);
            && m.now == StaleTime(cfg, k) && m.lastSeen == SeenAtZero(StaleKeys(n)[n - left..])
            && forall c :: c in m.lastSeen ==> m.lastSeen[c] == 0.0
  {
  }

  lemma StaleRunSizes(cfg: ReaperConfig, n: nat, run: seq<Moment>)
    requires cfg.Valid() && IsStaleRun(cfg, n, run)
    ensures forall k :: 0 <= k < |run| ==> run[k].Valid() && |run[k].lastSeen| == LeftAfter(cfg, n, k)
    ensures LeftAfter(cfg, n, 0) == n && run[0].snapshot == StaleKeys(n)
  {
    assert LeftAfter(cfg, n, 0) == n;
    assert StaleKeys(n)[0..] == StaleKeys(n);
    forall k | 0 <= k < |run|
      ensures run[k].Valid() && |run[k].lastSeen| == LeftAfter(cfg, n, k)
    {
      StaleMomentValid(cfg, n, LeftAfter(cfg, n, k), k);
    }
  }

  lemma StaleRunCounts(cfg: ReaperConfig, n: nat, run: seq<Moment>, k: nat)
    requires cfg.Valid() && k <= |run| && run != [] && |run[0].snapshot| == n
    requires forall i :: 0 <= i < |run| ==> |run[i].lastSeen| == LeftAfter(cfg, n, i)
    ensures Unexamined(cfg, run, k) == LeftAfter(cfg, n, k)
  {
    StaleRunBatches(cfg, n, run, k);
  }

  lemma StaleRunIsLate(cfg: ReaperConfig, n: nat, run: seq<Moment>)
    requires cfg.Valid() && run != [] && |run[0].snapshot| == n && LeftAfter(cfg, n, |run|) >= 1
    requires forall i :: 0 <= i < |run| ==> |run[i].lastSeen| == LeftAfter(cfg, n, i)
    ensures Unexamined(cfg, run, |run|) >= 1 && !FinishesWithin(cfg, run, |run|)
  {
    hide TicksPerSweep, Unexamined, FinishesWithin;
    StaleRunCounts(cfg, n, run, |run|);
    FinishesIffNothingLeft(cfg, run, |run|);
  }

  lemma {:induction false} StaleRunBatches(cfg: ReaperConfig, n: nat, run: seq<Moment>, k: nat)
    requires cfg.Valid() && k <= |run|
    requires forall i :: 0 <= i < |run| ==> |run[i].lastSeen| == LeftAfter(cfg, n, i)
    ensures Batches(cfg, run, k) == ShrinkingBatches(cfg.minBatch, TicksPerSweep(cfg), n, k)
    decreases k
  {
    hide TicksPerSweep, Batch;
    if k > 0 {
      StaleRunBatches(cfg, n, run, k - 1);
      ShrinkingSnoc(cfg.minBatch, TicksPerSweep(cfg), n, k - 1);
      assert Batches(cfg, run, k) == Batches(cfg, run, k - 1) + [BatchAt(cfg, run[k - 1])];
    }
  }

  lemma StaleRunIsQuiet(cfg: ReaperConfig, n: nat, run: seq<Moment>, k: nat)
    requires cfg.Valid() && IsStaleRun(cfg, n, run) && k + 1 < |run|
    requires Unexamined(cfg, run, |run|) >= 1
    ensures run[k + 1].lastSeen == run[k].lastSeen - Evicted(cfg, CursorBefore(cfg, IDLE, run, k), run[k])
  {
    hide TicksPerSweep, Unexamined, CursorBefore, StaleMoment, StaleTime, StaleKeys, Stale, Moment.Valid, LeftAfter, Evicted;
    StaleRunSizes(cfg, n, run);
    StaleRunCounts(cfg, n, run, k);
    StaleRunCounts(cfg, n, run, k + 1);
    UnexaminedShrinks(cfg, run, k, |run|);
    StaleTickEvicts(cfg, n, run, k);
    StaleMomentStep(cfg, n, LeftAfter(cfg, n, k), LeftAfter(cfg, n, k + 1), k);
  }

  lemma StaleTickEvicts(cfg: ReaperConfig, n: nat, run: seq<Moment>, k: nat)
    requires cfg.Valid() && k < |run| && run[0].snapshot == StaleKeys(n) && Unexamined(cfg, run, k) > 0
    ensures Unexamined(cfg, run, k + 1) <= Unexamined(cfg, run, k)
    ensures Evicted(cfg, CursorBefore(cfg, IDLE, run, k), run[k])
            == Stale(cfg, run[k].lastSeen, StaleKeys(n)[n - Unexamined(cfg, run, k)..n - Unexamined(cfg, run, k + 1)], run[k].now)
  {
    hide Unexamined, CursorBefore, StaleKeys, Stale, Examined;
    ExaminedRange(cfg, run, k);
  }

  lemma StaleMomentStep(cfg: ReaperConfig, n: nat, left: nat, left1: nat, k: nat)
    requires cfg.Valid() && left1 <= left <= n
    ensures var m := StaleMoment(cfg, n, left, k);
            StaleMoment(cfg, n, left1, k + 1).lastSeen == m.lastSeen - Stale(cfg, m.lastSeen, StaleKeys(n)[n - left..n - left1], m.now)
  {
    hide StaleMoment, StaleKeys, StaleTime, Stale, SeenAtZero;
    var keys := StaleKeys(n)[n - left..];
    LastKeysDistinct(n, left);
    StaleMomentTime(cfg, n, left, k);
    StaleMomentTime(cfg, n, left1, k + 1);
    StaleTimeIsLate(cfg, k);
    assert StaleKeys(n)[n - left..n - left1] == keys[..left - left1];
    assert StaleKeys(n)[n - left1..] == keys[left - left1..];
    EvictPrefix(cfg, keys, left - left1, StaleTime(cfg, k));
  }

  lemma EvictPrefix(cfg: ReaperConfig, keys: seq<ClientId>, k: nat, now: real)
    requires k <= |keys| && forall i, j :: 0 <= i < j < |keys| ==> keys[i] != keys[j]
    requires now > cfg.threshold
    ensures SeenAtZero(keys) - Stale(cfg, SeenAtZero(keys), keys[..k], now) == SeenAtZero(keys[k..])
  {
    assert keys == keys[..k] + keys[k..];
  }

  // ---------------------------------------------------------------- decay

  /** Anyone may create or bump entries; only the reaper removes them. */
  ghost predicate OnlyReaperRemoves(cfg: ReaperConfig, run: seq<Moment>)
    requires cfg.Valid()
  {
    forall k, c :: 0 <= k < |run| - 1 && c in run[k].lastSeen && c !in Evicted(cfg, CursorBefore(cfg, IDLE, run, k), run[k]) ==>
                     c in run[k + 1].lastSeen
  }

  /** The unexamined keys of the first snapshot are still registered. */
  lemma {:induction false} UnexaminedAreRegistered(cfg: ReaperConfig, run: seq<Moment>, k: nat, i: nat)
    requires cfg.Valid() && ValidRun(run) && OnlyReaperRemoves(cfg, run)
    requires k < |run| && |run[0].snapshot| - Unexamined(cfg, run, k) <= i < |run[0].snapshot|
    ensures run[0].snapshot[i] in run[k].lastSeen
    decreases k
  {
    hide Unexamined, Examined, CursorBefore;
    var keys := run[0].snapshot;
    if k == 0 {
      assert keys[i] in keys;
    } else {
      UnexaminedShrinks(cfg, run, k - 1, k);
      UnexaminedAreRegistered(cfg, run, k - 1, i);
      ExaminedRange(cfg, run, k - 1);
      assert run[0].Valid();
      var examined := keys[|keys| - Unexamined(cfg, run, k - 1)..|keys| - Unexamined(cfg, run, k)];
      assert keys[i] !in examined;
    }
  }

  /** The registry after the last tick of a run. */
  ghost function LeftBy(cfg: ReaperConfig, start: Cursor, run: seq<Moment>): map<ClientId, real>
    requires cfg.Valid() && run != []
  {
    var k := |run| - 1;
    run[k].lastSeen - Evicted(cfg, CursorBefore(cfg, start, run, k), run[k])
  }

  /** As long as the first sweep is not over, the last key of its snapshot is registered. */
  lemma UnfinishedSweepLeavesAKey(cfg: ReaperConfig, run: seq<Moment>)
    requires cfg.Valid() && ValidRun(run) && OnlyReaperRemoves(cfg, run) && run != []
    requires Unexamined(cfg, run, |run|) > 0
    ensures var keys := run[0].snapshot; keys[|keys| - 1] in LeftBy(cfg, IDLE, run)
  {
    hide Unexamined, Examined, CursorBefore;
    var keys, k := run[0].snapshot, |run| - 1;
    UnexaminedShrinks(cfg, run, k, |run|);
    UnexaminedAreRegistered(cfg, run, k, |keys| - 1);
    ExaminedRange(cfg, run, k);
    assert run[0].Valid();
    var examined := keys[|keys| - Unexamined(cfg, run, k)..|keys| - Unexamined(cfg, run, |run|)];
    assert keys[|keys| - 1] !in examined;
  }

  lemma UnexaminedFitRegistry(cfg: ReaperConfig, run: seq<Moment>, k: nat)
    requires cfg.Valid() && ValidRun(run) && OnlyReaperRemoves(cfg, run)
    requires k < |run|
    ensures Unexamined(cfg, run, k) <= |run[k].lastSeen|
  {
    var keys := run[0].snapshot[|run[0].snapshot| - Unexamined(cfg, run, k)..];
    forall i | 0 <= i < |keys|
      ensures keys[i] in run[k].lastSeen.Keys
    {
      UnexaminedAreRegistered(cfg, run, k, |run[0].snapshot| - Unexamined(cfg, run, k) + i);
    }
    DistinctSize(keys, run[k].lastSeen.Keys);
  }

  lemma {:induction false} SharesFrom(cfg: ReaperConfig, run: seq<Moment>, k: nat, end: nat)
    requires cfg.Valid() && ValidRun(run) && OnlyReaperRemoves(cfg, run)
    requires k <= end <= |run| && run != []
    ensures TakesShare(TicksPerSweep(cfg), Unexamined(cfg, run, k), Batches(cfg, run, end)[k..])
    decreases end - k
  {
    if k < end {
      var t, rest := TicksPerSweep(cfg), Batches(cfg, run, end)[k..];
      UnexaminedFitRegistry(cfg, run, k);
      CeilDivIsCeiling(|run[k].lastSeen|, t);
      Scale(CeilDiv(|run[k].lastSeen|, t), rest[0], t);
      UnexaminedStep(cfg, run, k);
      assert rest[1..] == Batches(cfg, run, end)[k + 1..];
      SharesFrom(cfg, run, k + 1, end);
    }
  }

  /** Sweep decay: if only the reaper removes entries, then after k ticks at most n * ((t-1)/t)^k
      keys of the snapshot are unexamined. */
  lemma SweepDecay(cfg: ReaperConfig, run: seq<Moment>, k: nat)
    requires cfg.Valid() && ValidRun(run) && OnlyReaperRemoves(cfg, run)
    requires k <= |run| && run != []
    ensures var t := TicksPerSweep(cfg);
            Unexamined(cfg, run, k) * Pow(t, k) <= |run[0].snapshot| * Pow(t - 1, k)
  {
    SharesFrom(cfg, run, 0, k);
    assert Batches(cfg, run, k)[0..] == Batches(cfg, run, k);
    assert Batches(cfg, run, 0) == [];
    Decay(TicksPerSweep(cfg), |run[0].snapshot|, Batches(cfg, run, k));
  }

  /** So a sweep of any size ends within k + t ticks, where k ticks of decay bring it down to
      t minimum batches. */
  lemma SweepEndsAfterDecay(cfg: ReaperConfig, run: seq<Moment>, k: nat)
    requires cfg.Valid() && ValidRun(run) && OnlyReaperRemoves(cfg, run)
    requires |run| == k + TicksPerSweep(cfg)
    requires var t := TicksPerSweep(cfg);
             |run[0].snapshot| * Pow(t - 1, k) <= t * cfg.minBatch * Pow(t, k)
    ensures FinishesWithin(cfg, run, |run|)
  {
    SharesFrom(cfg, run, 0, |run|);
    assert Batches(cfg, run, |run|)[0..] == Batches(cfg, run, |run|);
    assert Batches(cfg, run, 0) == [];
    DecayThenMinBatch(cfg.minBatch, TicksPerSweep(cfg), |run[0].snapshot|, Batches(cfg, run, |run|), k);
    FinishesIffNothingLeft(cfg, run, |run|);
  }

  // ---------------------------------------------------------------- exactness

  /** The tick that examines the i-th key of the snapshot. */
  lemma {:induction false} ExaminingTick(cfg: ReaperConfig, run: seq<Moment>, i: nat, k: nat) returns (j: nat)
    requires cfg.Valid() && 1 <= k <= |run|
    requires i < |run[0].snapshot| && |run[0].snapshot| - Unexamined(cfg, run, k) > i
    ensures j < k && |run[0].snapshot| - Unexamined(cfg, run, j) <= i < |run[0].snapshot| - Unexamined(cfg, run, j + 1)
    decreases k
  {
    if |run[0].snapshot| - Unexamined(cfg, run, k - 1) <= i {
      j := k - 1;
    } else {
      assert Batches(cfg, run, 0) == [];
      j := ExaminingTick(cfg, run, i, k - 1);
    }
  }

  /** The sweep is still going on before tick `j`. */
  ghost predicate Ongoing(cfg: ReaperConfig, run: seq<Moment>, j: nat)
    requires cfg.Valid() && j < |run|
  {
    j == 0 || Unexamined(cfg, run, j) > 0
  }

  lemma ExaminedOnlyThere(cfg: ReaperConfig, run: seq<Moment>, i: nat, j: nat, k: nat)
    requires cfg.Valid() && ValidRun(run) && j < |run| && k < |run| && j != k
    requires i < |run[0].snapshot| && Ongoing(cfg, run, k)
    requires |run[0].snapshot| - Unexamined(cfg, run, j) <= i < |run[0].snapshot| - Unexamined(cfg, run, j + 1)
    ensures run[0].snapshot[i] !in Examined(cfg, CursorBefore(cfg, IDLE, run, k), run[k])
  {
    hide Unexamined, Examined, CursorBefore;
    ExaminedRange(cfg, run, k);
    if k < j {
      UnexaminedShrinks(cfg, run, k + 1, j);
    } else {
      UnexaminedShrinks(cfg, run, j + 1, k);
    }
  }

  /** Sweep exactness: each key of the snapshot is examined by exactly one tick of the sweep, and is
      evicted there exactly when an entry is then present under that key, even one created since
      the snapshot, and its own last_seen is over the threshold. No other tick of the sweep evicts it. */
  lemma EachKeyExaminedOnce(cfg: ReaperConfig, run: seq<Moment>, i: nat) returns (j: nat)
    requires cfg.Valid() && ValidRun(run) && run != []
    requires i < |run[0].snapshot| && FinishesWithin(cfg, run, |run|)
    ensures j < |run| && Ongoing(cfg, run, j)
    ensures var key := run[0].snapshot[i];
            && key in Examined(cfg, CursorBefore(cfg, IDLE, run, j), run[j])
            && (key in Evicted(cfg, CursorBefore(cfg, IDLE, run, j), run[j]) <==>
                key in run[j].lastSeen && run[j].now - run[j].lastSeen[key] > cfg.threshold)
            && forall k :: 0 <= k < |run| && k != j && Ongoing(cfg, run, k) ==>
                  key !in Examined(cfg, CursorBefore(cfg, IDLE, run, k), run[k])
  {
    FinishesIffNothingLeft(cfg, run, |run|);
    j := ExaminingTick(cfg, run, i, |run|);
    ExaminedAt(cfg, run, i, j);
    forall k | 0 <= k < |run| && k != j && Ongoing(cfg, run, k)
      ensures run[0].snapshot[i] !in Examined(cfg, CursorBefore(cfg, IDLE, run, k), run[k])
    {
      ExaminedOnlyThere(cfg, run, i, j, k);
    }
  }

  lemma ExaminedAt(cfg: ReaperConfig, run: seq<Moment>, i: nat, j: nat)
    requires cfg.Valid() && j < |run| && i < |run[0].snapshot|
    requires |run[0].snapshot| - Unexamined(cfg, run, j) <= i < |run[0].snapshot| - Unexamined(cfg, run, j + 1)
    ensures Ongoing(cfg, run, j) && run[0].snapshot[i] in Examined(cfg, CursorBefore(cfg, IDLE, run, j), run[j])
  {
    var keys, n := run[0].snapshot, |run[0].snapshot|;
    ExaminedRange(cfg, run, j);
    assert keys[n - Unexamined(cfg, run, j)..n - Unexamined(cfg, run, j + 1)][i - (n - Unexamined(cfg, run, j))] == keys[i];
  }

  // ---------------------------------------------------------------- eventual eviction

  lemma {:induction false} CursorShift(cfg: ReaperConfig, start: Cursor, run: seq<Moment>, a: nat, j: nat)
    requires cfg.Valid() && a + j <= |run|
    ensures CursorBefore(cfg, start, run, a + j) == CursorBefore(cfg, CursorBefore(cfg, start, run, a), run[a..], j)
    decreases j
  {
    if j > 0 {
      CursorShift(cfg, start, run, a, j - 1);
    }
  }

  function Exhausted(cur: Cursor): bool {
    cur.idx >= |cur.keys|
  }

  lemma {:induction false} ExhaustedIsIdle(cfg: ReaperConfig, cur: Cursor, run: seq<Moment>, j: nat)
    requires cfg.Valid() && Exhausted(cur) && 1 <= j <= |run|
    ensures CursorBefore(cfg, cur, run, j) == CursorBefore(cfg, IDLE, run, j)
    decreases j
  {
    if j > 1 {
      ExhaustedIsIdle(cfg, cur, run, j - 1);
    } else {
      assert CursorBefore(cfg, cur, run, 0) == cur && CursorBefore(cfg, IDLE, run, 0) == IDLE;
      assert Refreshed(cur, run[0].snapshot) == Refreshed(IDLE, run[0].snapshot);
    }
  }

  /** The current sweep ends within ceil(left / minBatch) ticks, wherever it stands. */
  lemma {:induction false} NextRefresh(cfg: ReaperConfig, start: Cursor, run: seq<Moment>) returns (a: nat)
    requires cfg.Valid()
    requires CeilDiv(Max(0, |start.keys| - start.idx), cfg.minBatch) <= |run|
    ensures a <= CeilDiv(Max(0, |start.keys| - start.idx), cfg.minBatch)
    ensures Exhausted(CursorBefore(cfg, start, run, a))
    decreases |run|
  {
    if Exhausted(start) {
      a := 0;
    } else {
      var left, m := |start.keys| - start.idx, cfg.minBatch;
      CeilDivIsCeiling(left, m);
      CeilDivAtLeast(left, m, 0);
      var next := TickCursor(cfg, start, run[0]);
      var left1 := Max(0, |next.keys| - next.idx);
      Spread(CeilDiv(left, m) - 1, 1, m);
      CeilDivAtMost(left1, m, CeilDiv(left, m) - 1);
      a := NextRefresh(cfg, next, run[1..]);
      a := a + 1;
      CursorShift(cfg, start, run, 1, a - 1);
      assert CursorBefore(cfg, start, run, 0) == start;
    }
  }

  /** And the sweep that starts at tick `a` ends within ceil(n / minBatch) ticks, for the n keys that
      are registered then, whatever is created after that. */
  lemma NextSweepEnds(cfg: ReaperConfig, start: Cursor, run: seq<Moment>, a: nat) returns (b: nat)
    requires cfg.Valid() && a < |run| && Exhausted(CursorBefore(cfg, start, run, a))
    requires |run| - a >= Max(1, CeilDiv(|run[a].snapshot|, cfg.minBatch))
    ensures a < b <= a + Max(1, CeilDiv(|run[a].snapshot|, cfg.minBatch))
    ensures Exhausted(CursorBefore(cfg, start, run, b))
  {
    hide CeilDiv, CursorBefore;
    var next := run[a..];
    SweepAlwaysEnds(cfg, next);
    var k: nat :| k <= Max(1, CeilDiv(|next[0].snapshot|, cfg.minBatch)) && k >= 1 && SweptAt(cfg, next, k);
    b := a + k;
    CursorShift(cfg, start, run, a, k);
    ExhaustedIsIdle(cfg, CursorBefore(cfg, start, run, a), next, k);
  }

  /** Eventual eviction: wherever the current sweep stands, a key that is over the threshold
      whenever it is registered is found absent or is evicted by some tick of the sweep after it,
      whatever is created, bumped or removed between the ticks. */
  lemma EventualEviction(cfg: ReaperConfig, start: Cursor, run: seq<Moment>, key: ClientId, a: nat, b: nat) returns (k: nat)
    requires cfg.Valid() && ValidRun(run) && a < b <= |run|
    requires Exhausted(CursorBefore(cfg, start, run, a)) && Exhausted(CursorBefore(cfg, start, run, b))
    requires forall i :: a <= i < b && key in run[i].lastSeen ==> run[i].now - run[i].lastSeen[key] > cfg.threshold
    ensures a <= k < b && (key !in run[k].lastSeen || key in Evicted(cfg, CursorBefore(cfg, start, run, k), run[k]))
  {
    hide CursorBefore, Evicted, Moment.Valid;
    var cur, next := CursorBefore(cfg, start, run, a), run[a..b];
    CursorOfPart(cfg, start, run, a, b, b - a);
    ExhaustedIsIdle(cfg, cur, next, b - a);
    var j := SweepEvicts(cfg, next, key);
    k := a + j;
    CursorOfPart(cfg, start, run, a, b, j);
    SameFromExhausted(cfg, cur, next, j);
  }

  /** The cursor within a part of a run. */
  lemma {:induction false} CursorOfPart(cfg: ReaperConfig, start: Cursor, run: seq<Moment>, a: nat, b: nat, j: nat)
    requires cfg.Valid() && a + j <= b <= |run|
    ensures CursorBefore(cfg, start, run, a + j) == CursorBefore(cfg, CursorBefore(cfg, start, run, a), run[a..b], j)
    decreases j
  {
    if j > 0 {
      CursorOfPart(cfg, start, run, a, b, j - 1);
    }
  }

  /** A tick cannot tell an exhausted cursor from the initial one. */
  lemma SameFromExhausted(cfg: ReaperConfig, cur: Cursor, run: seq<Moment>, j: nat)
    requires cfg.Valid() && Exhausted(cur) && j < |run|
    ensures Evicted(cfg, CursorBefore(cfg, cur, run, j), run[j]) == Evicted(cfg, CursorBefore(cfg, IDLE, run, j), run[j])
  {
    if j > 0 {
      ExhaustedIsIdle(cfg, cur, run, j);
    } else {
      assert CursorBefore(cfg, cur, run, 0) == cur && CursorBefore(cfg, IDLE, run, 0) == IDLE;
      assert Refreshed(cur, run[0].snapshot) == Refreshed(IDLE, run[0].snapshot);
    }
  }

  /** The cursor is exhausted only when its snapshot has been examined to the end. */
  lemma ExhaustedMeansSwept(cfg: ReaperConfig, run: seq<Moment>)
    requires cfg.Valid() && run != [] && Exhausted(CursorBefore(cfg, IDLE, run, |run|))
    ensures FinishesWithin(cfg, run, |run|)
  {
    hide Unexamined, FinishesWithin, CursorBefore, TickCursor, TicksPerSweep;
    UnexaminedShrinks(cfg, run, |run| - 1, |run|);
    if Unexamined(cfg, run, |run|) > 0 {
      CursorCountsUnexamined(cfg, run, |run|);
    }
    FinishesIffNothingLeft(cfg, run, |run|);
  }

  /** A whole sweep finds absent or evicts every key that is over the threshold whenever it is
      registered. */
  lemma SweepEvicts(cfg: ReaperConfig, run: seq<Moment>, key: ClientId) returns (j: nat)
    requires cfg.Valid() && ValidRun(run) && run != []
    requires Exhausted(CursorBefore(cfg, IDLE, run, |run|))
    requires forall i :: 0 <= i < |run| && key in run[i].lastSeen ==> run[i].now - run[i].lastSeen[key] > cfg.threshold
    ensures j < |run| && (key !in run[j].lastSeen || key in Evicted(cfg, CursorBefore(cfg, IDLE, run, j), run[j]))
  {
    hide CursorBefore, Evicted, Examined, FinishesWithin, Unexamined;
    if key !in run[0].lastSeen {
      return 0;
    }
    assert key in run[0].snapshot;
    var i :| 0 <= i < |run[0].snapshot| && run[0].snapshot[i] == key;
    ExhaustedMeansSwept(cfg, run);
    j := EachKeyExaminedOnce(cfg, run, i);
  }
}
