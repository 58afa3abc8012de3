/** The cost-aware work-stealing scheduler
    (argobots_framework/examples/workstealing_scheduler/abt_workstealing_scheduler_cost_aware.c):
    a global table holds each execution stream's accumulated task time, and
    a scheduler whose own pool is empty steals from the stream with the
    largest load. */
module CostAware {
  import opened Common
  import opened Pools

  /** g_loads: one accumulated load per execution stream. */
  class LoadTable {
    var loads: array<real>

    /** calloc(num, ...) at scheduler creation (line 130): num entries, all zero. */
    constructor(num: nat)
      ensures fresh(loads) && loads.Length == num
      ensures forall i :: 0 <= i < num ==> loads[i] == 0.0
    {
      loads := new real[num](_ => 0.0);
    }
  }

  /** ws_sched_data_t: a scheduler's configuration and its own running total. */
  class SchedData {
    var eventFreq: nat
    var rank: nat
    var localTotalTime: real

    /** sched_init (lines 49-61): the configured frequency, the rank of the
        stream it runs on, and a zero total. */
    constructor(eventFreq: nat, rank: nat)
      ensures this.eventFreq == eventFreq && this.rank == rank && localTotalTime == 0.0
    {
      this.eventFreq := eventFreq;
      this.rank := rank;
      localTotalTime := 0.0;
    }
  }

  /** ws_update_task_time (lines 38-45): add the elapsed time to the
      scheduler's total and publish the new total as its stream's load;
      no other load changes. */
  method UpdateTaskTime(elapsed: real, data: SchedData, table: LoadTable)
    requires data.rank < table.loads.Length
    modifies data, table.loads
    ensures data.eventFreq == old(data.eventFreq) && data.rank == old(data.rank)
    ensures data.localTotalTime == old(data.localTotalTime) + elapsed
    ensures table.loads[..] == old(table.loads[..])[data.rank := data.localTotalTime]
  {
    data.localTotalTime := data.localTotalTime + elapsed;
    table.loads[data.rank] := data.localTotalTime;
  }

  // ---------------------------------------------------------------------
  // Victim choice (ws_find_heaviest_pool, lines 21-36)

  /** The scan of entries 0..n-1 as (victim, max_load): entries strictly
      heavier than the best so far win, the caller's own entry is skipped. */
  function HeaviestUpTo(loads: seq<real>, self: int, n: nat): (r: (int, real))
    requires n <= |loads|
    ensures -1 <= r.0 < n
    decreases n
  {
    if n == 0 then (-1, 0.0)
    else
      var (v, m) := HeaviestUpTo(loads, self, n - 1);
      if n - 1 == self then (v, m)
      else if loads[n - 1] > m then (n - 1, loads[n - 1])
      else (v, m)
  }

  /** The stream a scheduler would steal from, or -1. */
  function Heaviest(loads: seq<real>, self: int, num: nat): (victim: int)
    requires num <= |loads|
    ensures -1 <= victim < num
  {
    HeaviestUpTo(loads, self, num).0
  }

  /** ws_find_heaviest_pool: the argmax loop over the load table. */
  method FindHeaviestPool(table: LoadTable, self: int, num: nat) returns (victim: int)
    requires num <= table.loads.Length
    ensures victim == Heaviest(table.loads[..], self, num)
  {
    victim := -1;
    var maxLoad := 0.0;
    for i := 0 to num
      invariant (victim, maxLoad) == HeaviestUpTo(table.loads[..], self, i)
    {
      if i == self {
        continue;
      }
      if table.loads[i] > maxLoad {
        maxLoad := table.loads[i];
        victim := i;
      }
    }
  }

  lemma {:induction false} HeaviestUpToIsMaximum(loads: seq<real>, self: int, n: nat)
    requires n <= |loads|
    ensures var (v, m) := HeaviestUpTo(loads, self, n);
            (v == -1 && m == 0.0 && forall i :: 0 <= i < n && i != self ==> loads[i] <= 0.0)
            || (0 <= v && v != self && m == loads[v] && m > 0.0
                && (forall i :: 0 <= i < n && i != self ==> loads[i] <= m)
                && (forall i :: 0 <= i < v && i != self ==> loads[i] < m))
    decreases n
  {
    if n > 0 {
      HeaviestUpToIsMaximum(loads, self, n - 1);
    }
  }

  /** The victim is never the caller; it is -1 exactly when no other entry
      has a positive load; otherwise it carries the largest load of the
      others, and the first such entry wins a tie. */
  lemma HeaviestIsVictim(loads: seq<real>, self: int, num: nat)
    requires num <= |loads|
    ensures self >= 0 ==> Heaviest(loads, self, num) != self
    ensures Heaviest(loads, self, num) == -1 <==> forall i :: 0 <= i < num && i != self ==> loads[i] <= 0.0
    ensures var v := Heaviest(loads, self, num);
            v >= 0 ==> v != self && loads[v] > 0.0
                       && (forall i :: 0 <= i < num && i != self ==> loads[i] <= loads[v])
                       && (forall i :: 0 <= i < v && i != self ==> loads[i] < loads[v])
  {
    HeaviestUpToIsMaximum(loads, self, num);
  }

  /** A freshly created table never yields a victim. */
  lemma FreshTableHasNoVictim(loads: seq<real>, self: int, num: nat)
    requires num <= |loads| && forall i :: 0 <= i < |loads| ==> loads[i] == 0.0
    ensures Heaviest(loads, self, num) == -1
  {
    HeaviestIsVictim(loads, self, num);
  }

  // ---------------------------------------------------------------------
  // One iteration of sched_run (lines 76-97)

  /** The pools after popping the oldest thread of pool p, and that thread. */
  function PopFrom(queues: seq<seq<Thread>>, p: nat): (seq<seq<Thread>>, Ran)
    requires p < |queues| && queues[p] != []
  {
    (queues[p := queues[p][1..]], Ran(queues[p][0], p))
  }

  /** The iteration as written: the victim is a global rank but indexes the
      scheduler's rotated pool list, so the pool popped is order[victim]. */
  function StepAsWritten(queues: seq<seq<Thread>>, order: seq<nat>, loads: seq<real>, rank: int): (seq<seq<Thread>>, Ran)
    requires ValidOrder(order, |queues|) && |order| <= |loads|
  {
    if queues[order[0]] != [] then PopFrom(queues, order[0])
    else
      var victim := Heaviest(loads, rank, |order|);
      if victim >= 0 && queues[order[victim]] != [] then PopFrom(queues, order[victim])
      else (queues, Idle)
  }

  /** The iteration as intended: the victim's own pool is popped. */
  function Step(queues: seq<seq<Thread>>, order: seq<nat>, loads: seq<real>, rank: int): (seq<seq<Thread>>, Ran)
    requires ValidOrder(order, |queues|) && |order| == |queues| && |order| <= |loads|
  {
    if queues[order[0]] != [] then PopFrom(queues, order[0])
    else
      var victim := Heaviest(loads, rank, |order|);
      if victim >= 0 && queues[victim] != [] then PopFrom(queues, victim)
      else (queues, Idle)
  }

  /** sched_run, one pass of the loop with the victim's own pool popped. */
  method RunIteration(pools: PoolSet, order: seq<nat>, table: LoadTable, data: SchedData,
                      workCount: nat, stopRequested: bool)
    returns (ran: Ran, count: nat, stop: bool)
    requires ValidOrder(order, |pools.queues|) && |order| == |pools.queues| && |order| <= table.loads.Length
    modifies pools
    ensures (pools.queues, ran) == Step(old(pools.queues), order, table.loads[..], data.rank)
    ensures count == Tick(workCount, data.eventFreq).0
    ensures stop <==> Tick(workCount, data.eventFreq).1 && stopRequested
  {
    var thread := pools.Pop(order[0]);
    if thread.None? {
      ran := Idle;
      var victim := FindHeaviestPool(table, data.rank, |order|);
      if victim >= 0 {
        thread := pools.Pop(victim);
        if thread.Some? {
          ran := Ran(thread.value, victim);
        }
      }
    } else {
      ran := Ran(thread.value, order[0]);
    }
    count := workCount + 1;
    stop := false;
    if count >= data.eventFreq {
      count := 0;
      stop := stopRequested;
    }
  }

  /** A scheduler whose own pool has work runs its oldest thread and does
      not consult the load table. */
  lemma OwnPoolFirst(queues: seq<seq<Thread>>, order: seq<nat>, loads: seq<real>, rank: int)
    requires ValidOrder(order, |queues|) && |order| == |queues| && |order| <= |loads|
    requires queues[order[0]] != []
    ensures Step(queues, order, loads, rank) == PopFrom(queues, order[0])
    ensures forall other: seq<real> :: |other| == |loads| ==>
              Step(queues, order, other, rank) == Step(queues, order, loads, rank)
  {
  }

  /** A steal happens only when the own pool is empty, and it takes the
      oldest thread of the heaviest other stream, which has a positive load. */
  lemma StealsFromHeaviest(queues: seq<seq<Thread>>, order: seq<nat>, loads: seq<real>, rank: int)
    requires ValidOrder(order, |queues|) && |order| == |queues| && |order| <= |loads|
    requires queues[order[0]] == []
    ensures var (after, ran) := Step(queues, order, loads, rank);
            ran.Ran? ==>
              var p := ran.pool;
              p != rank && loads[p] > 0.0 && ran.thread == queues[p][0] && after == queues[p := queues[p][1..]]
              && forall i :: 0 <= i < |order| && i != rank ==> loads[i] <= loads[p]
  {
    HeaviestIsVictim(loads, rank, |order|);
  }

  /** With every load still zero, as after creation, a scheduler never
      steals: it runs its own pool's thread or stays idle, and an idle
      iteration changes no pool. */
  lemma ZeroLoadsNeverSteal(queues: seq<seq<Thread>>, order: seq<nat>, loads: seq<real>, rank: int)
    requires ValidOrder(order, |queues|) && |order| == |queues| && |order| <= |loads|
    requires forall i :: 0 <= i < |loads| ==> loads[i] == 0.0
    ensures var (after, ran) := Step(queues, order, loads, rank);
            (ran.Ran? ==> ran.pool == order[0]) && (ran.Idle? ==> after == queues)
  {
    FreshTableHasNoVictim(loads, rank, |order|);
  }

  /** No thread is lost or duplicated by an iteration. */
  lemma StepConservesThreads(queues: seq<seq<Thread>>, order: seq<nat>, loads: seq<real>, rank: int)
    requires ValidOrder(order, |queues|) && |order| == |queues| && |order| <= |loads|
    ensures var (after, ran) := Step(queues, order, loads, rank);
            AllThreads(after) + (if ran.Ran? then multiset{ran.thread} else multiset{}) == AllThreads(queues)
  {
    var (after, ran) := Step(queues, order, loads, rank);
    if ran.Ran? {
      PopKeepsOtherThreads(queues, ran.pool);
    }
  }

  /** As written, scheduler i with rotated pool list pops global pool
      (i + victim) mod num instead of the victim's pool. */
  lemma AsWrittenPopsRotatedPool(queues: seq<seq<Thread>>, i: nat, loads: seq<real>, rank: int)
    requires i < |queues| <= |loads| && queues[i] == []
    ensures ValidOrder(Rotation(|queues|, i), |queues|)
    ensures var victim := Heaviest(loads, rank, |queues|);
            var (after, ran) := StepAsWritten(queues, Rotation(|queues|, i), loads, rank);
            ran.Ran? ==> victim >= 0 && ran.pool == (i + victim) % |queues|
  {
    RotationIsPermutation(|queues|, i);
  }

  /** Two streams; scheduler 1 (on stream 1) has an empty pool, stream 0
      has load 5 and one thread. As written it pops its own empty pool
      (rotated index 0) and stays idle; as intended it runs stream 0's
      thread. */
  lemma AsWrittenStealsFromWrongPool()
    ensures Rotation(2, 1) == [1, 0]
    ensures StepAsWritten([[7], []], [1, 0], [5.0, 0.0], 1) == ([[7], []], Idle)
    ensures Step([[7], []], [1, 0], [5.0, 0.0], 1) == ([[], []], Ran(7, 0))
  {
    assert Heaviest([5.0, 0.0], 1, 2) == 0;
    var queues: seq<seq<Thread>> := [[7], []];
    assert queues[0][1..] == [];
    assert queues[0 := queues[0][1..]] == [[], []];
  }
}
