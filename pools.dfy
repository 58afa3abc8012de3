/** What the two work-stealing schedulers share
    (argobots_framework/examples/workstealing_scheduler): FIFO pools of
    threads, the rotated pool list each scheduler is created with, and the
    event counter that decides when a scheduler looks at its stop flag. */
module Pools {
  import opened Common

  /** A user-level thread, by identity. */
  type Thread = nat

  /** The event frequency both schedulers are configured with. */
  const EventFreq: nat := 10

  /** The execution streams' pools, indexed by global rank. Each pool is a
      FIFO queue: popping takes the oldest thread. */
  class PoolSet {
    var queues: seq<seq<Thread>>

    constructor(queues: seq<seq<Thread>>)
      ensures this.queues == queues
    {
      this.queues := queues;
    }

    /** ABT_pool_pop_thread: the oldest thread of pool p, or none when the
        pool is empty; only pool p changes. */
    method Pop(p: nat) returns (t: Option<Thread>)
      requires p < |queues|
      modifies this
      ensures old(queues)[p] == [] ==> t.None? && queues == old(queues)
      ensures old(queues)[p] != [] ==>
                t == Some(old(queues)[p][0]) && queues == old(queues)[p := old(queues)[p][1..]]
    {
      if queues[p] == [] {
        t := None;
      } else {
        t := Some(queues[p][0]);
        queues := queues[p := queues[p][1..]];
      }
    }
  }

  /** Every thread in the pools, counted with multiplicity. */
  function AllThreads(queues: seq<seq<Thread>>): multiset<Thread>
    decreases |queues|
  {
    if queues == [] then multiset{}
    else AllThreads(queues[..|queues| - 1]) + multiset(queues[|queues| - 1])
  }

  /** Replacing one pool's contents changes the threads in the pools by
      exactly what that pool lost and gained. */
  lemma {:induction false} AllThreadsUpdate(queues: seq<seq<Thread>>, p: nat, q: seq<Thread>)
    requires p < |queues|
    ensures AllThreads(queues[p := q]) + multiset(queues[p]) == AllThreads(queues) + multiset(q)
    decreases |queues|
  {
    var n := |queues| - 1;
    var updated := queues[p := q];
    assert AllThreads(updated) == AllThreads(updated[..n]) + multiset(updated[n]);
    assert AllThreads(queues) == AllThreads(queues[..n]) + multiset(queues[n]);
    if p < n {
      assert updated[..n] == queues[..n][p := q];
      AllThreadsUpdate(queues[..n], p, q);
      assert queues[..n][p] == queues[p];
      var lhs := AllThreads(updated) + multiset(queues[p]);
      var rhs := AllThreads(queues) + multiset(q);
      var front := AllThreads(queues[..n][p := q]);
      assert updated[n] == queues[n];
      assert AllThreads(updated) == front + multiset(queues[n]);
      var s1 := front + multiset(queues[p]);
      var s2 := AllThreads(queues[..n]) + multiset(q);
      assert s1 == s2;
      forall y
        ensures lhs[y] == rhs[y]
      {
        assert AllThreads(updated)[y] == front[y] + multiset(queues[n])[y];
        assert s1[y] == s2[y];
        assert AllThreads(queues)[y] == AllThreads(queues[..n])[y] + multiset(queues[n])[y];
      }
      assert lhs == rhs;
    } else {
      assert updated[..n] == queues[..n];
    }
  }

  /** Popping the oldest thread of a pool takes exactly that thread out of
      the pools. */
  lemma PopKeepsOtherThreads(queues: seq<seq<Thread>>, p: nat)
    requires p < |queues| && queues[p] != []
    ensures AllThreads(queues[p := queues[p][1..]]) + multiset{queues[p][0]} == AllThreads(queues)
  {
    AllThreadsUpdate(queues, p, queues[p][1..]);
    assert queues[p] == [queues[p][0]] + queues[p][1..];
    assert multiset(queues[p]) == multiset{queues[p][0]} + multiset(queues[p][1..]);
    var rest := queues[p][1..];
    var popped := AllThreads(queues[p := rest]);
    var lhs := popped + multiset{queues[p][0]};
    var rhs := AllThreads(queues);
    var s1 := popped + multiset(queues[p]);
    var s2 := rhs + multiset(rest);
    assert s1 == s2;
    forall y
      ensures lhs[y] == rhs[y]
    {
      assert s1[y] == s2[y];
      assert multiset(queues[p])[y] == multiset{queues[p][0]}[y] + multiset(rest)[y];
    }
    assert lhs == rhs;
  }

  // ---------------------------------------------------------------------
  // Pool rotation (ABT_create_ws_scheds, ABT_create_ws_scheds_cost_aware)

  /** The pool list of scheduler i: its k-th pool is global pool (i + k) mod num. */
  function Rotation(num: nat, i: nat): (order: seq<nat>)
    ensures |order| == num
  {
    seq(num, k requires 0 <= k < num => (i + k) % num)
  }

  /** Builds every scheduler's pool list the way the source does: one
      scratch array refilled for each scheduler and copied at creation. */
  method CreateSchedPools(num: nat) returns (lists: seq<seq<nat>>)
    ensures |lists| == num
    ensures forall i :: 0 <= i < num ==> lists[i] == Rotation(num, i)
  {
    var schedPools := new nat[num];
    lists := [];
    for i := 0 to num
      invariant |lists| == i
      invariant forall j :: 0 <= j < i ==> lists[j] == Rotation(num, j)
    {
      for k := 0 to num
        invariant forall m :: 0 <= m < k ==> schedPools[m] == (i + m) % num
      {
        schedPools[k] := (i + k) % num;
      }
      assert schedPools[..] == Rotation(num, i);
      lists := lists + [schedPools[..]];
    }
  }

  /** A scheduler's first pool is its own. */
  lemma RotationStartsAtOwnPool(num: nat, i: nat)
    requires i < num
    ensures Rotation(num, i)[0] == i
  {
  }

  /** Each scheduler's pool list is a permutation of all num pools: every
      pool appears, and none twice. */
  lemma RotationIsPermutation(num: nat, i: nat)
    requires i < num
    ensures forall k :: 0 <= k < num ==> Rotation(num, i)[k] < num
    ensures forall p :: 0 <= p < num ==> p in Rotation(num, i)
    ensures forall k, m :: 0 <= k < m < num ==> Rotation(num, i)[k] != Rotation(num, i)[m]
  {
    var r := Rotation(num, i);
    forall k | 0 <= k < num
      ensures r[k] == if i + k < num then i + k else i + k - num
    {
      ModSmall(i + k, num);
    }
    forall p | 0 <= p < num
      ensures p in r
    {
      var k := if p >= i then p - i else p + num - i;
      assert r[k] == p;
    }
  }

  /** A residue of a number below 2n is the number itself or n less. */
  lemma ModSmall(x: nat, n: nat)
    requires 0 < n && x < 2 * n
    ensures x % n == if x < n then x else x - n
  {
    if x < n {
      ModUnique(x, n, 0, x);
    } else {
      ModUnique(x, n, 1, x - n);
    }
  }

  /** The remainder is determined by any decomposition a == q * n + r with 0 <= r < n. */
  lemma ModUnique(a: int, n: int, q: int, r: int)
    requires n > 0 && 0 <= r < n && a == q * n + r
    ensures a % n == r
  {
    var q' := a / n;
    var r' := a % n;
    assert a == q' * n + r';
    assert (q - q') * n == r' - r;
    if q > q' {
      MulAtLeast(q - q', n);
    } else if q < q' {
      MulAtLeast(q' - q, n);
    }
  }

  lemma MulAtLeast(d: int, n: int)
    requires d >= 1 && n > 0
    ensures d * n >= n
  {
  }

  /** Counting up by one wraps the residue from n - 1 back to 0. */
  lemma ModStep(a: nat, n: nat)
    requires n > 0
    ensures (a + 1) % n == if a % n + 1 == n then 0 else a % n + 1
  {
    var q := a / n;
    var r := a % n;
    assert a == q * n + r;
    if r + 1 == n {
      ModUnique(a + 1, n, q + 1, 0);
    } else {
      ModUnique(a + 1, n, q, r + 1);
    }
  }

  // ---------------------------------------------------------------------
  // The event counter

  /** One increment of work_count: it goes back to 0 and the stop flag is
      consulted exactly when the incremented count reaches eventFreq. */
  function Tick(workCount: nat, eventFreq: nat): (r: (nat, bool))
    ensures r.1 <==> workCount + 1 >= eventFreq
    ensures r.1 ==> r.0 == 0
    ensures !r.1 ==> r.0 == workCount + 1 && r.0 < eventFreq
  {
    if workCount + 1 >= eventFreq then (0, true) else (workCount + 1, false)
  }

  /** work_count after n iterations of the scheduling loop. */
  function CountAfter(n: nat, eventFreq: nat): nat
    decreases n
  {
    if n == 0 then 0 else Tick(CountAfter(n - 1, eventFreq), eventFreq).0
  }

  /** Started at 0, the counter stays below eventFreq, equals n mod
      eventFreq after n iterations, and the n-th iteration consults the
      stop flag exactly when n is a multiple of eventFreq. */
  lemma {:induction false} CountAfterCycles(n: nat, eventFreq: nat)
    requires eventFreq >= 1
    ensures CountAfter(n, eventFreq) == n % eventFreq
    ensures n >= 1 ==> (Tick(CountAfter(n - 1, eventFreq), eventFreq).1 <==> n % eventFreq == 0)
    decreases n
  {
    if n >= 1 {
      CountAfterCycles(n - 1, eventFreq);
      ModStep(n - 1, eventFreq);
    }
  }

  /** With the configured frequency the stop flag is looked at on
      iterations 10, 20, 30, ... and on no other. */
  lemma StopCheckedEveryTenth(n: nat)
    requires n >= 1
    ensures Tick(CountAfter(n - 1, EventFreq), EventFreq).1 <==> n % 10 == 0
  {
    CountAfterCycles(n, EventFreq);
  }

  // ---------------------------------------------------------------------
  // What one scheduling iteration did

  /** Idle: no thread was scheduled. Ran: the thread taken from global pool `pool`. */
  datatype Ran = Idle | Ran(thread: Thread, pool: nat)

  /** A scheduler's pool list names pools that exist, its own one first. */
  predicate ValidOrder(order: seq<nat>, numPools: nat) {
    |order| > 0 && forall k :: 0 <= k < |order| ==> order[k] < numPools
  }
}
