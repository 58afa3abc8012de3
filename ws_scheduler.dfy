/** The plain work-stealing scheduler
    (argobots_framework/examples/workstealing_scheduler/abt_workstealing_scheduler.c):
    one iteration of sched_run takes a thread from the scheduler's own pool
    or, when that is empty, from the first of its other pools that has one,
    in the order of its rotated pool list. */
module WorkStealing {
  import opened Common
  import opened Pools

  /** The first position at or after k in the pool list whose pool has a thread. */
  function FirstWork(queues: seq<seq<Thread>>, order: seq<nat>, k: nat): (j: Option<nat>)
    requires ValidOrder(order, |queues|) && k <= |order|
    ensures j.Some? ==> k <= j.value < |order| && queues[order[j.value]] != []
    decreases |order| - k
  {
    if k == |order| then None
    else if queues[order[k]] != [] then Some(k)
    else FirstWork(queues, order, k + 1)
  }

  lemma {:induction false} FirstWorkIsFirst(queues: seq<seq<Thread>>, order: seq<nat>, k: nat)
    requires ValidOrder(order, |queues|) && k <= |order|
    ensures FirstWork(queues, order, k).Some? ==>
              forall m :: k <= m < FirstWork(queues, order, k).value ==> queues[order[m]] == []
    ensures FirstWork(queues, order, k).None? ==> forall m :: k <= m < |order| ==> queues[order[m]] == []
    decreases |order| - k
  {
    if k < |order| && queues[order[k]] == [] {
      FirstWorkIsFirst(queues, order, k + 1);
    }
  }

  /** One scheduling iteration: the pools afterwards and what was run. */
  function Step(queues: seq<seq<Thread>>, order: seq<nat>): (seq<seq<Thread>>, Ran)
    requires ValidOrder(order, |queues|)
  {
    match FirstWork(queues, order, 0)
    case None => (queues, Idle)
    case Some(j) =>
      var p := order[j];
      (queues[p := queues[p][1..]], Ran(queues[p][0], p))
  }

  /** sched_run, lines 35-60, one pass of the loop: pop the own pool; if it
      was empty, try targets 1, 2, ... and stop at the first thread found;
      then count the iteration and, every eventFreq iterations, report
      whether the runtime asked the scheduler to stop. */
  method RunIteration(pools: PoolSet, order: seq<nat>, workCount: nat, eventFreq: nat, stopRequested: bool)
    returns (ran: Ran, count: nat, stop: bool)
    requires ValidOrder(order, |pools.queues|)
    modifies pools
    ensures (pools.queues, ran) == Step(old(pools.queues), order)
    ensures count == Tick(workCount, eventFreq).0
    ensures stop <==> Tick(workCount, eventFreq).1 && stopRequested
  {
    ghost var before := pools.queues;
    var thread := pools.Pop(order[0]);
    if thread.None? {
      ran := Idle;
      var target := 1;
      while target < |order|
        invariant 1 <= target <= |order|
        invariant pools.queues == before
        invariant FirstWork(before, order, 0) == FirstWork(before, order, target)
        decreases |order| - target
      {
        thread := pools.Pop(order[target]);
        if thread.Some? {
          ran := Ran(thread.value, order[target]);
          break;
        }
        target := target + 1;
      }
    } else {
      ran := Ran(thread.value, order[0]);
    }
    count := workCount + 1;
    stop := false;
    if count >= eventFreq {
      count := 0;
      stop := stopRequested;
    }
  }

  /** A scheduler whose own pool has work runs the oldest thread of its own
      pool and touches no other pool. */
  lemma OwnPoolFirst(queues: seq<seq<Thread>>, order: seq<nat>)
    requires ValidOrder(order, |queues|) && queues[order[0]] != []
    ensures Step(queues, order) == (queues[order[0] := queues[order[0]][1..]], Ran(queues[order[0]][0], order[0]))
  {
  }

  /** A thread run by the scheduler is the oldest thread of some pool j of
      its list, every pool before j in the list (its own pool first) was
      empty, and only that pool lost its oldest thread. */
  lemma StealsFromFirstNonEmpty(queues: seq<seq<Thread>>, order: seq<nat>)
    requires ValidOrder(order, |queues|)
    ensures Step(queues, order).1.Ran? ==>
              var t, p := Step(queues, order).1.thread, Step(queues, order).1.pool;
              exists j :: 0 <= j < |order| && order[j] == p && queues[p] != [] && t == queues[p][0]
                          && (forall m :: 0 <= m < j ==> queues[order[m]] == [])
                          && Step(queues, order).0 == queues[p := queues[p][1..]]
  {
    FirstWorkIsFirst(queues, order, 0);
  }

  /** The scheduler stays idle exactly when every pool of its list is
      empty, and then no pool changes. */
  lemma IdleIffAllEmpty(queues: seq<seq<Thread>>, order: seq<nat>)
    requires ValidOrder(order, |queues|)
    ensures Step(queues, order).1.Idle? <==> forall k :: 0 <= k < |order| ==> queues[order[k]] == []
    ensures Step(queues, order).1.Idle? ==> Step(queues, order).0 == queues
  {
    FirstWorkIsFirst(queues, order, 0);
  }

  /** No thread is lost or duplicated: the threads left in the pools plus
      the one run are the threads that were there. */
  lemma StepConservesThreads(queues: seq<seq<Thread>>, order: seq<nat>)
    requires ValidOrder(order, |queues|)
    ensures var (after, ran) := Step(queues, order);
            AllThreads(after) + (if ran.Ran? then multiset{ran.thread} else multiset{}) == AllThreads(queues)
  {
    FirstWorkIsFirst(queues, order, 0);
    match FirstWork(queues, order, 0)
    case None =>
    case Some(j) =>
      PopKeepsOtherThreads(queues, order[j]);
  }

  /** The rotated pool list of scheduler i is a valid pool list, and its
      own pool, tried first, is global pool i. */
  lemma RotatedStepTriesOwnPoolFirst(queues: seq<seq<Thread>>, i: nat)
    requires i < |queues|
    ensures ValidOrder(Rotation(|queues|, i), |queues|)
    ensures queues[i] != [] ==> Step(queues, Rotation(|queues|, i)).1 == Ran(queues[i][0], i)
  {
    RotationIsPermutation(|queues|, i);
    RotationStartsAtOwnPool(|queues|, i);
  }
}
