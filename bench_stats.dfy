/** What the two scheduler benchmarks
    (argobots_framework/examples/workstealing_scheduler/compare_schedulers_real.c and
    benchmark_test_4.c) compute after a run: how many tasks each execution
    stream ran, and the spread between the busiest and the idlest stream. */
module BenchStats {
  import opened Common

  /** A statistics pass either completes or meets a task whose recorded
      stream does not index the per-stream table (an out-of-bounds write
      in the source). */
  datatype Outcome<S> = Computed(stats: S) | OutOfRange(task: nat)

  // ---------------------------------------------------------------------
  // Task slots: both create_tasks store the task for stream s and position
  // i at index s * m + i

  /** The slots of stream s, s * m up to (s + 1) * m, lie below n * m. */
  lemma SlotInRange(s: nat, n: nat, m: nat)
    requires s < n
    ensures s * m + m == (s + 1) * m <= n * m
  {
    NextSlot(s, m);
    SlotsMonotone(s + 1, n, m);
  }

  lemma NextSlot(s: int, m: nat)
    ensures s * m + m == (s + 1) * m
  {
  }

  lemma {:induction false} SlotsMonotone(x: int, y: int, m: nat)
    requires x <= y
    ensures x * m <= y * m
    decreases y - x
  {
    if x < y {
      SlotsMonotone(x + 1, y, m);
      NextSlot(x, m);
    }
  }

  /** The slots of an earlier stream all come before those of a later one. */
  lemma SlotsOrdered(c: int, d: int, m: nat)
    requires 0 <= c && 0 <= d
    ensures c < d ==> c * m + m <= d * m
  {
    if c < d {
      NextSlot(c, m);
      SlotsMonotone(c + 1, d, m);
    }
  }

  /** The stream a slot belongs to is determined by the slot. */
  lemma SlotOwner(c: int, d: int, m: nat, id: nat)
    requires 0 <= c && 0 <= d
    requires c * m <= id < c * m + m && d * m <= id < d * m + m
    ensures c == d
  {
    SlotsOrdered(c, d, m);
    SlotsOrdered(d, c, m);
  }

  /** Each recorded stream c owns the slots c * m .. c * m + m - 1. */
  predicate SlotLayout(cs: seq<int>, m: nat) {
    forall id :: 0 <= id < |cs| ==> 0 <= cs[id] && cs[id] * m <= id < cs[id] * m + m
  }

  /** How many of the first k slots belong to stream t. */
  function SlotsOf(k: nat, t: nat, m: nat): nat {
    if k <= t * m then 0 else if k >= t * m + m then m else k - t * m
  }

  // ---------------------------------------------------------------------
  // Counting tasks per stream

  /** How many of the recorded streams are s. */
  function CountOn(es: seq<int>, s: int): (c: nat)
    ensures c <= |es|
    decreases |es|
  {
    if es == [] then 0
    else CountOn(es[..|es| - 1], s) + (if es[|es| - 1] == s then 1 else 0)
  }

  /** One more placement counts once, for its own stream only. */
  lemma CountOnExtend(es: seq<int>, i: nat)
    requires i < |es|
    ensures forall s :: CountOn(es[..i + 1], s) == CountOn(es[..i], s) + (if es[i] == s then 1 else 0)
  {
    assert es[..i + 1][..i] == es[..i];
  }

  predicate InRange(es: seq<int>, n: nat) {
    forall i :: 0 <= i < |es| ==> 0 <= es[i] < n
  }

  /** Whether a task's recorded stream e cannot be counted in a table of n
      streams: without a guard any e outside 0..n-1 is out of bounds; with
      the `>= 0` guard of benchmark_test_4.c unrun tasks (-1) are skipped
      and only e >= n is. */
  predicate Outside(e: int, n: nat, guarded: bool) {
    if guarded then e >= n else !(0 <= e < n)
  }

  /** The first task from position k on whose stream cannot be counted. */
  function FirstOutside(es: seq<int>, n: nat, guarded: bool, k: nat): (r: Option<nat>)
    requires k <= |es|
    ensures r.Some? ==> k <= r.value < |es| && Outside(es[r.value], n, guarded)
    decreases |es| - k
  {
    if k == |es| then None
    else if Outside(es[k], n, guarded) then Some(k)
    else FirstOutside(es, n, guarded, k + 1)
  }

  lemma {:induction false} FirstOutsideIsFirst(es: seq<int>, n: nat, guarded: bool, k: nat)
    requires k <= |es|
    ensures FirstOutside(es, n, guarded, k).None? <==> forall i :: k <= i < |es| ==> !Outside(es[i], n, guarded)
    ensures FirstOutside(es, n, guarded, k).Some? ==>
              forall i :: k <= i < FirstOutside(es, n, guarded, k).value ==> !Outside(es[i], n, guarded)
    decreases |es| - k
  {
    if k < |es| && !Outside(es[k], n, guarded) {
      FirstOutsideIsFirst(es, n, guarded, k + 1);
    }
  }

  /** The per-stream table: entry s counts the tasks recorded on stream s. */
  function Histogram(es: seq<int>, n: nat): (h: seq<int>)
    ensures |h| == n
  {
    seq(n, s requires 0 <= s < n => CountOn(es, s))
  }

  /** The counts of streams 0..k-1 added up. */
  function CountsBelow(es: seq<int>, k: nat): int
    decreases k
  {
    if k == 0 then 0 else CountsBelow(es, k - 1) + CountOn(es, k - 1)
  }

  lemma {:induction false} CountsBelowStep(es: seq<int>, e: int, k: nat)
    ensures CountsBelow(es + [e], k) == CountsBelow(es, k) + (if 0 <= e < k then 1 else 0)
    decreases k
  {
    if k > 0 {
      CountsBelowStep(es, e, k - 1);
      assert (es + [e])[..|es + [e]| - 1] == es;
    }
  }

  /** When every task ran on one of the n streams, the per-stream counts
      add up to the number of tasks. */
  lemma {:induction false} CountsAddUp(es: seq<int>, n: nat)
    requires InRange(es, n)
    ensures CountsBelow(es, n) == |es|
    decreases |es|
  {
    if es != [] {
      var front, last := es[..|es| - 1], es[|es| - 1];
      assert InRange(front, n) by {
        forall i | 0 <= i < |front|
          ensures 0 <= front[i] < n
        {
          assert front[i] == es[i];
        }
      }
      CountsAddUp(front, n);
      assert es == front + [last];
      assert 0 <= last < n;
      CountsBelowStep(front, last, n);
    } else {
      NoTasksNoCounts(n);
    }
  }

  lemma NoTasksNoCounts(k: nat)
    ensures CountsBelow([], k) == 0
  {
  }

  /** In the slot layout stream t is recorded exactly on its own slots. */
  lemma {:induction false} CountLayout(cs: seq<int>, t: nat, m: nat)
    requires SlotLayout(cs, m)
    ensures CountOn(cs, t) == SlotsOf(|cs|, t, m)
    decreases |cs|
  {
    if cs != [] {
      var k := |cs| - 1;
      var front := cs[..k];
      SlotLayoutPrefix(cs, k, m);
      CountLayout(front, t, m);
      var c := cs[k];
      assert CountOn(cs, t) == CountOn(front, t) + (if c == t then 1 else 0);
      SlotsOfStep(k, c, t, m);
    }
  }

  lemma SlotLayoutPrefix(cs: seq<int>, k: nat, m: nat)
    requires SlotLayout(cs, m) && k <= |cs|
    ensures SlotLayout(cs[..k], m)
  {
    forall id | 0 <= id < k
      ensures 0 <= cs[..k][id] && cs[..k][id] * m <= id < cs[..k][id] * m + m
    {
      assert cs[..k][id] == cs[id];
    }
  }

  /** Slot k belongs to stream c: counting it adds one to stream c only. */
  lemma SlotsOfStep(k: nat, c: int, t: nat, m: nat)
    requires 0 <= c && c * m <= k < c * m + m
    ensures SlotsOf(k + 1, t, m) == SlotsOf(k, t, m) + (if c == t then 1 else 0)
  {
    if c != t {
      SlotsOrdered(c, t, m);
      SlotsOrdered(t, c, m);
    }
  }

  /** When all n * m slots are filled, every stream below n has m tasks. */
  lemma FullLayout(cs: seq<int>, n: nat, m: nat, t: nat)
    requires SlotLayout(cs, m) && |cs| == n * m && t < n
    ensures CountOn(cs, t) == m
  {
    CountLayout(cs, t, m);
    SlotInRange(t, n, m);
  }

  // ---------------------------------------------------------------------
  // Imbalance: max starts at 0, min at INT_MAX, over the per-stream table

  function MaxUpTo(h: seq<int>, k: nat): int
    requires k <= |h|
    decreases k
  {
    if k == 0 then 0 else Max(MaxUpTo(h, k - 1), h[k - 1])
  }

  function MinUpTo(h: seq<int>, k: nat): int
    requires k <= |h|
    decreases k
  {
    if k == 0 then IntMax else Min(MinUpTo(h, k - 1), h[k - 1])
  }

  /** max - min over the whole table. */
  function Imbalance(h: seq<int>): int {
    MaxUpTo(h, |h|) - MinUpTo(h, |h|)
  }

  lemma {:induction false} MaxUpToIsMaximum(h: seq<int>, k: nat)
    requires k <= |h| && forall i :: 0 <= i < |h| ==> 0 <= h[i]
    ensures forall i :: 0 <= i < k ==> h[i] <= MaxUpTo(h, k)
    ensures k > 0 ==> exists i :: 0 <= i < k && MaxUpTo(h, k) == h[i]
    decreases k
  {
    if k > 0 {
      MaxUpToIsMaximum(h, k - 1);
      if k - 1 > 0 && MaxUpTo(h, k) != h[k - 1] {
        var i :| 0 <= i < k - 1 && MaxUpTo(h, k - 1) == h[i];
        assert MaxUpTo(h, k) == h[i];
      }
    }
  }

  lemma {:induction false} MinUpToIsMinimum(h: seq<int>, k: nat)
    requires k <= |h| && forall i :: 0 <= i < |h| ==> h[i] <= IntMax
    ensures forall i :: 0 <= i < k ==> MinUpTo(h, k) <= h[i]
    ensures k > 0 ==> exists i :: 0 <= i < k && MinUpTo(h, k) == h[i]
    decreases k
  {
    if k > 0 {
      MinUpToIsMinimum(h, k - 1);
      if k - 1 > 0 && MinUpTo(h, k) != h[k - 1] {
        var i :| 0 <= i < k - 1 && MinUpTo(h, k - 1) == h[i];
        assert MinUpTo(h, k) == h[i];
      }
    }
  }

  /** For a non-empty table of counts the imbalance is the largest count
      minus the smallest, so it is never negative. */
  lemma ImbalanceIsSpread(h: seq<int>)
    requires |h| > 0 && forall i :: 0 <= i < |h| ==> 0 <= h[i] <= IntMax
    ensures Imbalance(h) >= 0
    ensures exists i, j :: 0 <= i < |h| && 0 <= j < |h| && Imbalance(h) == h[i] - h[j]
                           && forall k :: 0 <= k < |h| ==> h[j] <= h[k] <= h[i]
  {
    var hi, lo := MaxUpTo(h, |h|), MinUpTo(h, |h|);
    MaxUpToIsMaximum(h, |h|);
    MinUpToIsMinimum(h, |h|);
    var i :| 0 <= i < |h| && hi == h[i];
    var j :| 0 <= j < |h| && lo == h[j];
    assert forall k :: 0 <= k < |h| ==> h[j] <= h[k] <= h[i];
    assert Imbalance(h) == h[i] - h[j];
  }

  /** Equal counts have no imbalance. */
  lemma EqualCountsNoImbalance(h: seq<int>, v: int)
    requires |h| > 0 && 0 <= v <= IntMax && forall i :: 0 <= i < |h| ==> h[i] == v
    ensures Imbalance(h) == 0
  {
    ImbalanceIsSpread(h);
  }

  /** With no streams the loop never runs and the imbalance is 0 - INT_MAX. */
  lemma EmptyTableImbalance()
    ensures Imbalance([]) == -IntMax
  {
  }

  /** The min/max loop of both benchmarks (compare_schedulers_real.c
      lines 193-197, benchmark_test_4.c lines 288-292). */
  method Spread(h: array<int>) returns (maxTasks: int, minTasks: int)
    ensures maxTasks == MaxUpTo(h[..], h.Length) && minTasks == MinUpTo(h[..], h.Length)
  {
    maxTasks, minTasks := 0, IntMax;
    for i := 0 to h.Length
      invariant maxTasks == MaxUpTo(h[..], i) && minTasks == MinUpTo(h[..], i)
    {
      if h[i] < minTasks {
        minTasks := h[i];
      }
      if h[i] > maxTasks {
        maxTasks := h[i];
      }
    }
  }
}
