/** How many keys a sweep has left, as arithmetic on the batches its ticks take. */
module SweepBounds {
  import opened Sweeping

  /** Keys left of `n` after ticks with the given batch sizes. */
  function Left(n: nat, batches: seq<nat>): (left: nat)
    ensures left <= n
    decreases |batches|
  {
    if batches == [] then n else Left(Max(0, n - batches[0]), batches[1..])
  }

  /** Every batch is at least a t-th part of what was left before it. */
  ghost predicate TakesShare(t: nat, n: nat, batches: seq<nat>)
    decreases |batches|
  {
    batches == [] || (n <= batches[0] * t && TakesShare(t, Max(0, n - batches[0]), batches[1..]))
  }

  function Pow(b: nat, e: nat): nat {
    if e == 0 then 1 else b * Pow(b, e - 1)
  }

  // ---------------------------------------------------------------- products

  lemma Scale(a: nat, b: nat, c: nat)
    requires a <= b
    ensures a * c <= b * c
  {
  }

  lemma ScaleStrictly(a: nat, b: nat, c: nat)
    requires a < b && c >= 1
    ensures a * c < b * c
  {
  }

  lemma Spread(a: int, b: int, c: int)
    ensures (a + b) * c == a * c + b * c && c * (a + b) == c * a + c * b
  {
  }

  lemma {:induction false} PowPositive(b: nat, e: nat)
    requires b >= 1
    ensures Pow(b, e) >= 1
  {
    if e > 0 {
      PowPositive(b, e - 1);
      Scale(1, Pow(b, e - 1), b);
    }
  }

  lemma CeilDivAtMost(n: nat, d: nat, q: nat)
    requires d >= 1 && n <= q * d
    ensures CeilDiv(n, d) <= q
  {
    CeilDivIsCeiling(n, d);
    if CeilDiv(n, d) > q {
      Scale(q, CeilDiv(n, d) - 1, d);
    }
  }

  lemma CeilDivAtLeast(n: nat, d: nat, q: nat)
    requires d >= 1 && q * d < n
    ensures CeilDiv(n, d) >= q + 1
  {
    CeilDivIsCeiling(n, d);
    if CeilDiv(n, d) <= q {
      Scale(CeilDiv(n, d), q, d);
    }
  }

  lemma CeilDivMonotone(a: nat, b: nat, d: nat)
    requires d >= 1 && a <= b
    ensures CeilDiv(a, d) <= CeilDiv(b, d)
  {
    CeilDivIsCeiling(b, d);
    CeilDivAtMost(a, d, CeilDiv(b, d));
  }

  // ---------------------------------------------------------------- upper bounds

  /** If every tick takes at least `m` keys, k ticks take at least k * m. */
  lemma {:induction false} LeastBatchBound(m: nat, n: nat, batches: seq<nat>)
    requires forall k :: 0 <= k < |batches| ==> batches[k] >= m
    ensures Left(n, batches) <= Max(0, n - |batches| * m)
    decreases |batches|
  {
    if batches != [] {
      LeastBatchBound(m, Max(0, n - batches[0]), batches[1..]);
      Spread(|batches| - 1, 1, m);
    }
  }

  /** Sweep decay: the unexamined part shrinks geometrically. */
  lemma {:induction false} Decay(t: nat, n: nat, batches: seq<nat>)
    requires t >= 1 && TakesShare(t, n, batches)
    ensures Left(n, batches) * Pow(t, |batches|) <= n * Pow(t - 1, |batches|)
    decreases |batches|
  {
    if batches != [] {
      var n1, left := Max(0, n - batches[0]), Left(n, batches);
      var p, q := Pow(t, |batches| - 1), Pow(t - 1, |batches| - 1);
      Decay(t, n1, batches[1..]);
      OneShare(t, n, batches[0]);
      DecayStep(t, n, n1, left, p, q);
    }
  }

  lemma OneShare(t: nat, n: nat, batch: nat)
    requires t >= 1 && n <= batch * t
    ensures Max(0, n - batch) * t <= n * (t - 1)
  {
    Spread(n - batch, batch, t);
    Spread(t - 1, 1, n);
  }

  lemma DecayStep(t: nat, n: nat, n1: nat, left: nat, p: nat, q: nat)
    requires t >= 1 && left * p <= n1 * q && n1 * t <= n * (t - 1)
    ensures left * (t * p) <= n * ((t - 1) * q)
  {
  }

  lemma {:induction false} LeftOfSplit(n: nat, batches: seq<nat>, k: nat)
    requires k <= |batches|
    ensures Left(n, batches) == Left(Left(n, batches[..k]), batches[k..])
    decreases |batches|
  {
    if k > 0 {
      LeftOfSplit(Max(0, n - batches[0]), batches[1..], k - 1);
      assert batches[..k][1..] == batches[1..][..k - 1] && batches[1..][k - 1..] == batches[k..];
    } else {
      assert batches[..0] == [] && batches[0..] == batches;
    }
  }

  lemma {:induction false} ShareOfPrefix(t: nat, n: nat, batches: seq<nat>, k: nat)
    requires k <= |batches| && TakesShare(t, n, batches)
    ensures TakesShare(t, n, batches[..k])
    decreases |batches|
  {
    if k > 0 {
      ShareOfPrefix(t, Max(0, n - batches[0]), batches[1..], k - 1);
      assert batches[..k][1..] == batches[1..][..k - 1];
    }
  }

  /** The whole bound: once the decay has brought the sweep down to what the minimum batch does in
      one target, one more target finishes it. */
  lemma DecayThenMinBatch(m: nat, t: nat, n: nat, batches: seq<nat>, k: nat)
    requires t >= 1 && |batches| == k + t
    requires TakesShare(t, n, batches) && forall i :: 0 <= i < |batches| ==> batches[i] >= m
    requires n * Pow(t - 1, k) <= t * m * Pow(t, k)
    ensures Left(n, batches) == 0
  {
    var rest := Left(n, batches[..k]);
    LeftOfSplit(n, batches, k);
    ShareOfPrefix(t, n, batches, k);
    Decay(t, n, batches[..k]);
    PowPositive(t, k);
    if rest > t * m {
      ScaleStrictly(t * m, rest, Pow(t, k));
    }
    LeastBatchBound(m, rest, batches[k..]);
  }

  /** The first tick of a sweep finds the snapshot itself; the others may find anything. Up to one
      key more than the minimum batch handles, that is enough. */
  lemma FirstTickBound(m: nat, t: nat, n: nat, batches: seq<nat>)
    requires t >= 1 && |batches| == t
    requires batches[0] == Batch(m, t, n) && forall k :: 0 < k < t ==> batches[k] >= m
    requires t == 1 || n <= t * m + 1
    ensures Left(n, batches) == 0
  {
    LeastBatchBound(m, Max(0, n - batches[0]), batches[1..]);
    Spread(t - 1, 1, m);
    CeilDivIsCeiling(n, t);
    if t > 1 && n == t * m + 1 {
      assert t * m == m * t;
      CeilDivAtLeast(n, t, m);
    }
  }

  // ---------------------------------------------------------------- the all-stale sweep

  /** The batches of a sweep in which every key is stale and nothing but the sweep changes the
      registry, so that each tick finds exactly what is left. */
  function ShrinkingBatches(m: nat, t: nat, n: nat, ticks: nat): (batches: seq<nat>)
    requires t >= 1
    ensures |batches| == ticks
    decreases ticks
  {
    if ticks == 0 then [] else [Batch(m, t, n)] + ShrinkingBatches(m, t, Max(0, n - Batch(m, t, n)), ticks - 1)
  }

  lemma ShrinkingTail(m: nat, t: nat, n: nat, ticks: nat)
    requires t >= 1 && ticks > 0
    ensures ShrinkingBatches(m, t, n, ticks)[1..] == ShrinkingBatches(m, t, Max(0, n - Batch(m, t, n)), ticks - 1)
  {
  }

  lemma CeilDivGrowsSlowly(a: nat, b: nat, t: nat)
    requires t >= 1 && a <= b
    ensures CeilDiv(b, t) <= CeilDiv(a, t) + (b - a)
  {
  }

  /** A larger registry is never ahead of a smaller one. */
  lemma {:induction false} ShrinkingMonotone(m: nat, t: nat, a: nat, b: nat, ticks: nat)
    requires t >= 1 && a <= b
    ensures Left(a, ShrinkingBatches(m, t, a, ticks)) <= Left(b, ShrinkingBatches(m, t, b, ticks))
    decreases ticks
  {
    if ticks > 0 {
      CeilDivGrowsSlowly(a, b, t);
      ShrinkingTail(m, t, a, ticks);
      ShrinkingTail(m, t, b, ticks);
      ShrinkingMonotone(m, t, Max(0, a - Batch(m, t, a)), Max(0, b - Batch(m, t, b)), ticks - 1);
    }
  }

  /** Below t * m entries every tick does the minimum batch and no more. */
  lemma {:induction false} ShrinkingByMinBatch(m: nat, t: nat, n: nat, ticks: nat)
    requires t >= 1 && ticks * m <= n <= m * t
    ensures Left(n, ShrinkingBatches(m, t, n, ticks)) == n - ticks * m
    decreases ticks
  {
    if ticks > 0 {
      CeilDivAtMost(n, t, m);
      Spread(ticks - 1, 1, m);
      Scale(1, ticks, m);
      ShrinkingTail(m, t, n, ticks);
      ShrinkingByMinBatch(m, t, n - m, ticks - 1);
    }
  }

  /** Two keys more than the minimum batch handles in t ticks, and an all-stale sweep is late. */
  lemma ShrinkingSweepIsLate(m: nat, t: nat, n: nat)
    requires m >= 1 && t >= 2 && n >= t * m + 2
    ensures Left(n, ShrinkingBatches(m, t, n, t)) >= 1
  {
    var n0 := t * m + 2;
    ShrinkingMonotone(m, t, n0, n, t);
    assert m * t == t * m;
    Spread(m, 1, t);
    CeilDivAtLeast(n0, t, m);
    CeilDivAtMost(n0, t, m + 1);
    Spread(t - 1, 1, m);
    ShrinkingTail(m, t, n0, t);
    ShrinkingByMinBatch(m, t, n0 - (m + 1), t - 1);
  }
}
