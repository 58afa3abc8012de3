/** The CSV-producing scheduler benchmark
    (argobots_framework/examples/workstealing_scheduler/benchmark_test_4.c):
    its task list, the worker function every stream runs over that list,
    and the statistics of a run. Each stream's worker only runs the tasks
    created for that stream and records that stream, so no task is ever
    marked as stolen and the per-stream counts are all equal. */
module BenchmarkTest {
  import opened Common
  import opened BenchStats

  /** benchmark_task_t. complexity and execTimeMs are None where the source
      leaves them uninitialised (a complexity mode outside 0..4). */
  datatype Task = Task(id: int, complexity: Option<int>, execTimeMs: Option<int>,
                       createdOn: int, executedOn: int, stolen: bool)

  /** Complexity and inclusive execution-time range by mode and stream
      (lines 83-118); None for a mode the switch does not handle. */
  function Band(mode: int, stream: nat): (b: Option<(int, int, int)>)
    ensures b.Some? ==> b.value.1 <= b.value.2
  {
    if mode == 0 then Some((1, 10, 29))
    else if mode == 1 then Some((2, 50, 99))
    else if mode == 2 then Some((3, 100, 199))
    else if mode == 3 then
      (if stream % 3 == 0 then Some((1, 10, 29))
       else if stream % 3 == 1 then Some((2, 50, 99))
       else Some((3, 100, 199)))
    else if mode == 4 then
      (if stream == 0 then Some((3, 150, 249)) else Some((1, 5, 19)))
    else None
  }

  /** The complexity and time drawn when rand() returns r. */
  function Shape(mode: int, stream: nat, r: nat): (shape: Option<(int, int)>)
    ensures shape.Some? <==> Band(mode, stream).Some?
    ensures shape.Some? ==>
              shape.value.0 == Band(mode, stream).value.0
              && Band(mode, stream).value.1 <= shape.value.1 <= Band(mode, stream).value.2
  {
    if mode == 0 then Some((1, 10 + r % 20))
    else if mode == 1 then Some((2, 50 + r % 50))
    else if mode == 2 then Some((3, 100 + r % 100))
    else if mode == 3 then
      (if stream % 3 == 0 then Some((1, 10 + r % 20))
       else if stream % 3 == 1 then Some((2, 50 + r % 50))
       else Some((3, 100 + r % 100)))
    else if mode == 4 then
      (if stream == 0 then Some((3, 150 + r % 100)) else Some((1, 5 + r % 15)))
    else None
  }

  /** Every time in a band is drawn for some value of rand(). */
  lemma ShapeCoversBand(mode: int, stream: nat, t: int)
    requires Band(mode, stream).Some?
    requires Band(mode, stream).value.1 <= t <= Band(mode, stream).value.2
    ensures Shape(mode, stream, t - Band(mode, stream).value.1) == Some((Band(mode, stream).value.0, t))
  {
  }

  /** What create_tasks stores at index id. */
  predicate Created(t: Task, id: nat, n: nat, m: nat, mode: int, rnd: seq<nat>)
    requires id < |rnd|
  {
    t.id == id && t.executedOn == -1 && !t.stolen
    && 0 <= t.createdOn < n
    && t.createdOn * m <= id < t.createdOn * m + m
    && var shape := Shape(mode, t.createdOn, rnd[id]);
       t.complexity == (if shape.Some? then Some(shape.value.0) else None)
       && t.execTimeMs == (if shape.Some? then Some(shape.value.1) else None)
  }

  /** create_tasks (lines 67-126), with rnd[idx] the value rand() returns
      for task idx. */
  method CreateTasks(n: nat, m: nat, mode: int, rnd: seq<nat>) returns (tasks: array<Task>)
    requires |rnd| >= n * m
    ensures fresh(tasks)
    ensures tasks.Length == n * m
    ensures forall id :: 0 <= id < tasks.Length ==> Created(tasks[id], id, n, m, mode, rnd)
  {
    tasks := new Task[n * m](_ => Task(0, None, None, 0, -1, false));
    for stream := 0 to n
      invariant forall id :: 0 <= id < stream * m ==> Created(tasks[id], id, n, m, mode, rnd)
    {
      SlotInRange(stream, n, m);
      CreateStreamTasks(tasks, stream, n, m, mode, rnd);
    }
  }

  /** The inner loop of create_tasks: the m tasks of one stream, at
      indices stream * m up to (stream + 1) * m. */
  method CreateStreamTasks(tasks: array<Task>, stream: nat, n: nat, m: nat, mode: int, rnd: seq<nat>)
    requires stream < n && stream * m + m <= tasks.Length <= |rnd|
    requires forall id :: 0 <= id < stream * m ==> Created(tasks[id], id, n, m, mode, rnd)
    modifies tasks
    ensures forall id :: 0 <= id < stream * m + m ==> Created(tasks[id], id, n, m, mode, rnd)
    ensures forall id :: stream * m + m <= id < tasks.Length ==> tasks[id] == old(tasks[id])
  {
    var base := stream * m;
    for i := 0 to m
      invariant forall id :: 0 <= id < base + i ==> Created(tasks[id], id, n, m, mode, rnd)
      invariant forall id :: base + m <= id < tasks.Length ==> tasks[id] == old(tasks[id])
    {
      var idx := base + i;
      var shape := Shape(mode, stream, rnd[idx]);
      var complexity := if shape.Some? then Some(shape.value.0) else None;
      var time := if shape.Some? then Some(shape.value.1) else None;
      tasks[idx] := Task(idx, complexity, time, stream, -1, false);
      assert Created(tasks[idx], idx, n, m, mode, rnd);
    }
  }

  // ---------------------------------------------------------------------
  // The worker (benchmark_task_function, lines 147-165)

  /** The effect of stream s's worker on one task. */
  function RunOn(t: Task, s: int): Task {
    if t.createdOn == s then t.(executedOn := s) else t
  }

  /** Stream s's worker goes over every task, runs those created for s and
      records s as where they ran; the stolen check compares the stream it
      has just recorded with the creating stream. */
  method TaskFunction(tasks: array<Task>, streamId: int, stealCounter: int) returns (counter: int)
    modifies tasks
    ensures forall i :: 0 <= i < tasks.Length ==> tasks[i] == RunOn(old(tasks[i]), streamId)
    ensures counter == stealCounter
  {
    counter := stealCounter;
    for i := 0 to tasks.Length
      invariant forall j :: 0 <= j < i ==> tasks[j] == RunOn(old(tasks[j]), streamId)
      invariant forall j :: i <= j < tasks.Length ==> tasks[j] == old(tasks[j])
      invariant counter == stealCounter
    {
      if tasks[i].createdOn == streamId {
        tasks[i] := tasks[i].(executedOn := streamId);
        var moved := tasks[i].executedOn != tasks[i].createdOn;
        tasks[i] := tasks[i].(stolen := tasks[i].stolen || moved);
        counter := counter + (if moved then 1 else 0);
      }
    }
  }

  /** The task list after the workers of the given streams have run, in that order. */
  function RunStreams(ts: seq<Task>, streams: seq<int>): (after: seq<Task>)
    ensures |after| == |ts|
    decreases |streams|
  {
    if streams == [] then ts
    else
      var before := RunStreams(ts, streams[..|streams| - 1]);
      seq(|before|, i requires 0 <= i < |before| => RunOn(before[i], streams[|streams| - 1]))
  }

  /** Whatever the order the workers run in, a task ends up recorded on
      its own stream if that stream's worker ran, and is untouched
      otherwise; nothing else about it changes. */
  lemma {:induction false} RunStreamsEffect(ts: seq<Task>, streams: seq<int>)
    ensures forall i :: 0 <= i < |ts| ==>
              RunStreams(ts, streams)[i]
              == if ts[i].createdOn in streams then ts[i].(executedOn := ts[i].createdOn) else ts[i]
    decreases |streams|
  {
    if streams != [] {
      var front := streams[..|streams| - 1];
      RunStreamsEffect(ts, front);
      assert streams == front + [streams[|streams| - 1]];
      forall i | 0 <= i < |ts|
        ensures ts[i].createdOn in streams <==> ts[i].createdOn in front || ts[i].createdOn == streams[|streams| - 1]
      {
      }
    }
  }

  // ---------------------------------------------------------------------
  // Statistics (lines 265-295)

  datatype Stats = Stats(tasksCompleted: int, steals: nat, perStream: seq<int>, imbalance: int)

  function Placements(ts: seq<Task>): (es: seq<int>)
    ensures |es| == |ts|
    ensures forall i :: 0 <= i < |ts| ==> es[i] == ts[i].executedOn
  {
    seq(|ts|, i requires 0 <= i < |ts| => ts[i].executedOn)
  }

  function CreatedOns(ts: seq<Task>): (cs: seq<int>)
    ensures |cs| == |ts|
    ensures forall i :: 0 <= i < |ts| ==> cs[i] == ts[i].createdOn
  {
    seq(|ts|, i requires 0 <= i < |ts| => ts[i].createdOn)
  }

  /** The number of tasks marked stolen. */
  function StolenCount(ts: seq<Task>): (c: nat)
    ensures c <= |ts|
    decreases |ts|
  {
    if ts == [] then 0
    else StolenCount(ts[..|ts| - 1]) + (if ts[|ts| - 1].stolen then 1 else 0)
  }

  lemma {:induction false} NoneStolen(ts: seq<Task>)
    requires forall i :: 0 <= i < |ts| ==> !ts[i].stolen
    ensures StolenCount(ts) == 0
    decreases |ts|
  {
    if ts != [] {
      NoneStolen(ts[..|ts| - 1]);
    }
  }

  /** What the statistics loops compute: tasks run on stream -1 are
      skipped, a stream number of n or more is an out-of-bounds write. */
  function StatsOf(ts: seq<Task>, n: nat, m: nat): Outcome<Stats> {
    var es := Placements(ts);
    match FirstOutside(es, n, true, 0)
    case Some(i) => OutOfRange(i)
    case None =>
      var h := Histogram(es, n);
      Computed(Stats(n * m, StolenCount(ts), h, Imbalance(h)))
  }

  method Statistics(tasks: array<Task>, n: nat, m: nat) returns (r: Outcome<Stats>)
    ensures r == StatsOf(tasks[..], n, m)
  {
    var tasksCompleted := n * m;
    var steals := CountStolen(tasks);
    var perStream := new int[n](_ => 0);
    ghost var es := Placements(tasks[..]);
    for i := 0 to tasks.Length
      invariant forall s :: 0 <= s < n ==> perStream[s] == CountOn(es[..i], s)
      invariant FirstOutside(es, n, true, 0) == FirstOutside(es, n, true, i)
    {
      CountOnExtend(es, i);
      var e := tasks[i].executedOn;
      if e >= 0 {
        if e >= n {
          return OutOfRange(i);
        }
        perStream[e] := perStream[e] + 1;
      }
    }
    assert es[..tasks.Length] == es;
    assert perStream[..] == Histogram(es, n);
    var maxTasks, minTasks := Spread(perStream);
    r := Computed(Stats(tasksCompleted, steals, perStream[..], maxTasks - minTasks));
  }

  /** The steal-counting loop of the statistics (lines 270-276). */
  method CountStolen(tasks: array<Task>) returns (steals: nat)
    ensures steals == StolenCount(tasks[..])
  {
    steals := 0;
    ghost var ts := tasks[..];
    for i := 0 to tasks.Length
      invariant steals == StolenCount(ts[..i])
    {
      assert ts[..i + 1][..i] == ts[..i];
      if tasks[i].stolen {
        steals := steals + 1;
      }
    }
    assert ts[..tasks.Length] == ts;
  }

  /** After every stream's worker has run over a freshly created task list
      (in any order), the statistics are computed, no task is stolen, every
      stream ran exactly its own m tasks, and the imbalance is 0. */
  lemma FullRunIsBalanced(ts: seq<Task>, n: nat, m: nat, mode: int, rnd: seq<nat>, streams: seq<int>)
    requires |ts| == n * m && |rnd| >= n * m && n > 0 && m <= IntMax
    requires forall id :: 0 <= id < |ts| ==> Created(ts[id], id, n, m, mode, rnd)
    requires forall s :: 0 <= s < n ==> s in streams
    ensures StatsOf(RunStreams(ts, streams), n, m).Computed?
    ensures var st := StatsOf(RunStreams(ts, streams), n, m).stats;
            st.steals == 0 && st.imbalance == 0
            && forall s :: 0 <= s < n ==> st.perStream[s] == m
  {
    var after := RunStreams(ts, streams);
    RunStreamsEffect(ts, streams);
    var es := Placements(after);
    assert forall i :: 0 <= i < |ts| ==> after[i] == ts[i].(executedOn := ts[i].createdOn);
    assert es == CreatedOns(ts);
    assert SlotLayout(es, m);
    FirstOutsideIsFirst(es, n, true, 0);
    NoneStolen(after);
    var h := Histogram(es, n);
    forall s | 0 <= s < n
      ensures h[s] == m
    {
      FullLayout(es, n, m, s);
    }
    EqualCountsNoImbalance(h, m);
  }
}
