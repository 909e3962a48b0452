/** The reaper's sweep as functions: one tick, and runs of ticks over a registry that anything may
    change in between. */
module Sweeping {
  import opened Messages

  datatype ReaperConfig = ReaperConfig(period: real, minBatch: nat, threshold: real, targetSweep: real)
  {
    ghost predicate Valid() {
      period > 0.0 && minBatch >= 1 && targetSweep > 0.0
    }
  }

  function Max(a: int, b: int): int {
    if a >= b then a else b
  }

  function Min(a: int, b: int): int {
    if a <= b then a else b
  }

  /** math.ceil(n / d): how many batches of d cover n. */
  function CeilDiv(n: nat, d: nat): nat
    requires d >= 1
  {
    if n == 0 then 0 else 1 + CeilDiv(Max(0, n - d), d)
  }

  lemma {:induction false} CeilDivIsCeiling(n: nat, d: nat)
    requires d >= 1
    ensures (CeilDiv(n, d) - 1) * d < n <= CeilDiv(n, d) * d
  {
    if n > d {
      CeilDivIsCeiling(n - d, d);
    } else if n > 0 {
      assert CeilDiv(n, d) == 1;
    }
  }

  function TicksPerSweep(cfg: ReaperConfig): (t: nat)
    requires cfg.Valid()
    ensures t >= 1
  {
    Max(1, (cfg.targetSweep / cfg.period).Floor)
  }

  /** The time of `k` periods. */
  function Periods(cfg: ReaperConfig, k: int): real {
    k as real * cfg.period
  }

  lemma OneMorePeriod(cfg: ReaperConfig, k: int)
    ensures Periods(cfg, k + 1) == Periods(cfg, k) + cfg.period
  {
    assert (k + 1) as real == k as real + 1.0;
  }

  lemma ScaleReal(a: real, b: real, c: real)
    requires c > 0.0
    ensures a <= b <==> a * c <= b * c
  {
  }

  lemma PeriodsOrdered(cfg: ReaperConfig, j: int, k: int)
    requires cfg.Valid()
    ensures j <= k <==> Periods(cfg, j) <= Periods(cfg, k)
  {
    ScaleReal(j as real, k as real, cfg.period);
  }

  /** As many ticks as whole periods fit into the target, and never none. */
  ghost predicate FitsTarget(cfg: ReaperConfig, t: nat) {
    t >= 1 && (t > 1 ==> Periods(cfg, t) <= cfg.targetSweep) && cfg.targetSweep < Periods(cfg, t + 1)
  }

  /** As many whole periods as there are in `d`. */
  ghost predicate WholePeriods(cfg: ReaperConfig, d: real, periods: nat) {
    Periods(cfg, periods) <= d < Periods(cfg, periods + 1)
  }

  lemma FloorOfQuotient(x: real, d: real, t: int)
    requires d > 0.0 && t == (x / d).Floor
    ensures t as real * d <= x < (t as real + 1.0) * d
  {
    FloorOfProduct(x / d, d, x);
  }

  lemma FloorOfProduct(q: real, d: real, x: real)
    requires d > 0.0 && x == q * d
    ensures q.Floor as real * d <= x < (q.Floor as real + 1.0) * d
  {
    ScaleReal(q.Floor as real, q, d);
    ScaleReal(q.Floor as real + 1.0, q, d);
  }

  lemma PeriodsInTime(cfg: ReaperConfig, d: real)
    requires cfg.Valid() && d >= 0.0
    ensures (d / cfg.period).Floor >= 0 && WholePeriods(cfg, d, (d / cfg.period).Floor)
  {
    var t := (d / cfg.period).Floor;
    FloorOfQuotient(d, cfg.period, t);
    OneMorePeriod(cfg, t);
    assert (t as real + 1.0) * cfg.period == t as real * cfg.period + cfg.period;
    PeriodsOrdered(cfg, t + 1, 0);
  }

  /** The number of ticks that a sweep is planned for is the only one that fits. */
  lemma TicksPerSweepIffFits(cfg: ReaperConfig, t: nat)
    requires cfg.Valid()
    ensures t == TicksPerSweep(cfg) <==> FitsTarget(cfg, t)
  {
    hide Periods;
    var w := (cfg.targetSweep / cfg.period).Floor;
    PeriodsInTime(cfg, cfg.targetSweep);
    assert TicksPerSweep(cfg) == if w >= 1 then w else 1;
    PeriodsOrdered(cfg, t, w);
    PeriodsOrdered(cfg, t + 1, w);
    PeriodsOrdered(cfg, w + 1, t);
    PeriodsOrdered(cfg, w + 1, t + 1);
  }

  /** _effective_batch_size for a registry of `size` entries. */
  function Batch(minBatch: nat, ticks: nat, size: nat): nat
    requires ticks >= 1
  {
    Max(minBatch, CeilDiv(size, ticks))
  }

  /** No smaller than the minimum, covers `size` in `ticks` ticks, and is the least such number. */
  ghost predicate LeastBatch(n: nat, minBatch: nat, ticks: nat, size: nat) {
    n >= minBatch && size <= n * ticks && (n > minBatch ==> (n - 1) * ticks < size)
  }

  lemma BatchIsLeast(minBatch: nat, ticks: nat, size: nat)
    requires ticks >= 1
    ensures LeastBatch(Batch(minBatch, ticks, size), minBatch, ticks, size)
  {
    CeilDivIsCeiling(size, ticks);
    if CeilDiv(size, ticks) < minBatch {
      assert CeilDiv(size, ticks) * ticks <= minBatch * ticks;
    }
  }

  /** The batch of a tick is the least that covers the registry in as many ticks as fit into the target. */
  lemma BatchIsLeastInTarget(cfg: ReaperConfig, size: nat)
    requires cfg.Valid()
    ensures forall t: nat :: FitsTarget(cfg, t) ==> LeastBatch(Batch(cfg.minBatch, TicksPerSweep(cfg), size), cfg.minBatch, t, size)
  {
    BatchIsLeast(cfg.minBatch, TicksPerSweep(cfg), size);
    forall t: nat | FitsTarget(cfg, t)
      ensures t == TicksPerSweep(cfg)
    {
      TicksPerSweepIffFits(cfg, t);
    }
  }

  /** A list of the keys of a dict. */
  ghost predicate IsSnapshot(keys: seq<ClientId>, present: set<ClientId>) {
    && (forall i, j :: 0 <= i < j < |keys| ==> keys[i] != keys[j])
    && (forall k :: k in keys <==> k in present)
  }

  /** The reaper's own state: the snapshot being swept and the index of the next key. */
  datatype Cursor = Cursor(keys: seq<ClientId>, idx: nat)

  /** The registry as a tick finds it. */
  datatype Moment = Moment(lastSeen: map<ClientId, real>, snapshot: seq<ClientId>, now: real)
  {
    ghost predicate Valid() {
      IsSnapshot(snapshot, lastSeen.Keys)
    }
  }

  function Refreshed(cur: Cursor, snapshot: seq<ClientId>): (r: Cursor)
    ensures r.idx <= |r.keys|
  {
    if cur.idx >= |cur.keys| then Cursor(snapshot, 0) else cur
  }

  function TickEnd(cfg: ReaperConfig, cur: Cursor, size: nat): (end: nat)
    requires cfg.Valid() && cur.idx <= |cur.keys|
    ensures cur.idx <= end <= |cur.keys|
  {
    Min(cur.idx + Batch(cfg.minBatch, TicksPerSweep(cfg), size), |cur.keys|)
  }

  /** Those of `keys` whose entry is present and over the threshold. */
  function Stale(cfg: ReaperConfig, lastSeen: map<ClientId, real>, keys: seq<ClientId>, now: real): set<ClientId> {
    set k | k in keys && k in lastSeen && now - lastSeen[k] > cfg.threshold
  }

  function TickCursor(cfg: ReaperConfig, cur: Cursor, m: Moment): Cursor
    requires cfg.Valid()
  {
    var c := Refreshed(cur, m.snapshot);
    c.(idx := TickEnd(cfg, c, |m.lastSeen|))
  }

  /** The keys a tick looks at. */
  function Examined(cfg: ReaperConfig, cur: Cursor, m: Moment): seq<ClientId>
    requires cfg.Valid()
  {
    var c := Refreshed(cur, m.snapshot);
    c.keys[c.idx..TickEnd(cfg, c, |m.lastSeen|)]
  }

  /** The keys a tick evicts. */
  function Evicted(cfg: ReaperConfig, cur: Cursor, m: Moment): set<ClientId>
    requires cfg.Valid()
  {
    Stale(cfg, m.lastSeen, Examined(cfg, cur, m), m.now)
  }

  /** The cursor before tick `k` of a run. */
  function CursorBefore(cfg: ReaperConfig, start: Cursor, run: seq<Moment>, k: nat): Cursor
    requires cfg.Valid() && k <= |run|
    decreases k
  {
    if k == 0 then start else TickCursor(cfg, CursorBefore(cfg, start, run, k - 1), run[k - 1])
  }

  ghost predicate ValidRun(run: seq<Moment>) {
    forall k :: 0 <= k < |run| ==> run[k].Valid()
  }

  const IDLE: Cursor := Cursor([], 0)

  /** The sweep that starts with the first tick of `run` has examined its whole snapshot by the end
      of one of the first `ticks` ticks. */
  ghost predicate FinishesWithin(cfg: ReaperConfig, run: seq<Moment>, ticks: nat)
    requires cfg.Valid() && ticks <= |run| && run != []
  {
    exists k: nat :: k <= ticks && k >= 1 && SweptAt(cfg, run, k)
  }

  /** After tick `k` the first snapshot has been examined to its end. */
  ghost predicate SweptAt(cfg: ReaperConfig, run: seq<Moment>, k: nat)
    requires cfg.Valid() && k <= |run| && run != []
  {
    CursorBefore(cfg, IDLE, run, k) == Cursor(run[0].snapshot, |run[0].snapshot|)
  }
}
