/** The scheduler comparison benchmark
    (argobots_framework/examples/workstealing_scheduler/compare_schedulers_real.c):
    the task list it creates and the statistics it derives from where each
    task ran. Running the tasks is the runtime's business; what a run leaves
    behind is the stream recorded in each task. */
module CompareSchedulers {
  import opened Common
  import opened BenchStats

  datatype Config = Config(numXstreams: nat, tasksPerStream: nat, complexityMode: int)

  /** task_t; executedOn is -1 until a stream has run the task. */
  datatype Task = Task(id: int, complexity: int, execTimeMs: int, createdOn: int, executedOn: int)

  /** The complexity and the inclusive range of execution times of a
      task created on stream s (lines 102-122). */
  function Band(mode: int, s: nat): (b: (int, int, int))
    ensures b.1 <= b.2
  {
    if mode == 0 then (1, 10, 19)
    else if mode == 1 then (2, 40, 59)
    else if mode == 2 then (3, 80, 119)
    else if mode == 3 then
      var c := s % 3 + 1;
      (c, 20 * c, 20 * c + 19)
    else (1, 10, 10)
  }

  /** The complexity and execution time drawn for a task on stream s when
      rand() returns r. */
  function Shape(mode: int, s: nat, r: nat): (shape: (int, int))
    ensures shape.0 == Band(mode, s).0
    ensures Band(mode, s).1 <= shape.1 <= Band(mode, s).2
  {
    if mode == 0 then (1, 10 + r % 10)
    else if mode == 1 then (2, 40 + r % 20)
    else if mode == 2 then (3, 80 + r % 40)
    else if mode == 3 then
      var c := s % 3 + 1;
      (c, 20 * c + r % 20)
    else (1, 10)
  }

  /** Every time in the band is drawn for some value of rand(). */
  lemma ShapeCoversBand(mode: int, s: nat, t: int)
    requires Band(mode, s).1 <= t <= Band(mode, s).2
    ensures Shape(mode, s, t - Band(mode, s).1).1 == t
  {
  }

  /** What create_tasks stores at index id; rnd[id] is the rand() value
      that task draws, since tasks are created in index order and each
      draws once. */
  predicate Created(t: Task, id: nat, cfg: Config, rnd: seq<nat>)
    requires id < |rnd|
  {
    var m := cfg.tasksPerStream;
    t.id == id && t.executedOn == -1
    && 0 <= t.createdOn < cfg.numXstreams
    && t.createdOn * m <= id < t.createdOn * m + m
    && (t.complexity, t.execTimeMs) == Shape(cfg.complexityMode, t.createdOn, rnd[id])
  }

  /** create_tasks (lines 87-127): num_xstreams * tasks_per_stream tasks,
      the one for stream s and position i stored at index s * m + i with
      that id. */
  method CreateTasks(cfg: Config, rnd: seq<nat>) returns (tasks: array<Task>)
    requires |rnd| >= cfg.numXstreams * cfg.tasksPerStream
    ensures fresh(tasks)
    ensures tasks.Length == cfg.numXstreams * cfg.tasksPerStream
    ensures forall id :: 0 <= id < tasks.Length ==> Created(tasks[id], id, cfg, rnd)
  {
    var n, m := cfg.numXstreams, cfg.tasksPerStream;
    tasks := new Task[n * m](_ => Task(0, 0, 0, 0, -1));
    for s := 0 to n
      invariant forall id :: 0 <= id < s * m ==> Created(tasks[id], id, cfg, rnd)
    {
      SlotInRange(s, n, m);
      CreateStreamTasks(tasks, s, cfg, rnd);
    }
  }

  /** The inner loop of create_tasks: the tasks of stream s, at indices
      s * m up to (s + 1) * m. */
  method CreateStreamTasks(tasks: array<Task>, s: nat, cfg: Config, rnd: seq<nat>)
    requires s < cfg.numXstreams
    requires s * cfg.tasksPerStream + cfg.tasksPerStream <= tasks.Length <= |rnd|
    requires forall id :: 0 <= id < s * cfg.tasksPerStream ==> Created(tasks[id], id, cfg, rnd)
    modifies tasks
    ensures forall id :: 0 <= id < s * cfg.tasksPerStream + cfg.tasksPerStream ==> Created(tasks[id], id, cfg, rnd)
    ensures forall id :: s * cfg.tasksPerStream + cfg.tasksPerStream <= id < tasks.Length ==> tasks[id] == old(tasks[id])
  {
    var m := cfg.tasksPerStream;
    var base := s * m;
    for i := 0 to m
      invariant forall id :: 0 <= id < base + i ==> Created(tasks[id], id, cfg, rnd)
      invariant forall id :: base + m <= id < tasks.Length ==> tasks[id] == old(tasks[id])
    {
      var id := base + i;
      var (complexity, time) := Shape(cfg.complexityMode, s, rnd[id]);
      tasks[id] := Task(id, complexity, time, s, -1);
      assert Created(tasks[id], id, cfg, rnd);
    }
  }

  /** create_tasks reseeds rand() with 42, so both runs of a test see the
      same rand() values, and the same values give the same task list. */
  lemma SameSeedSameTasks(t1: Task, t2: Task, id: nat, cfg: Config, rnd: seq<nat>)
    requires id < |rnd| && Created(t1, id, cfg, rnd) && Created(t2, id, cfg, rnd)
    ensures t1 == t2
  {
    SlotOwner(t1.createdOn, t2.createdOn, cfg.tasksPerStream, id);
  }

  /** task_body (lines 70-81): the task records the rank of the stream
      that ran it. */
  method RecordExecution(tasks: array<Task>, i: nat, rank: int)
    requires i < tasks.Length
    modifies tasks
    ensures tasks[..] == old(tasks[..])[i := old(tasks[i]).(executedOn := rank)]
  {
    tasks[i] := tasks[i].(executedOn := rank);
  }

  // ---------------------------------------------------------------------
  // Statistics (lines 184-200)

  datatype Stats = Stats(steals: nat, perStream: seq<int>, imbalance: int)

  /** The recorded stream of each task, in task order. */
  function Placements(ts: seq<Task>): (es: seq<int>)
    ensures |es| == |ts|
    decreases |ts|
  {
    if ts == [] then [] else Placements(ts[..|ts| - 1]) + [ts[|ts| - 1].executedOn]
  }

  lemma {:induction false} PlacementsAt(ts: seq<Task>, i: nat)
    requires i < |ts|
    ensures Placements(ts)[i] == ts[i].executedOn
    decreases |ts|
  {
    if i < |ts| - 1 {
      PlacementsAt(ts[..|ts| - 1], i);
    }
  }

  /** The number of tasks that ran on a stream other than the one they were created on. */
  function Steals(ts: seq<Task>): (c: nat)
    ensures c <= |ts|
    decreases |ts|
  {
    if ts == [] then 0
    else Steals(ts[..|ts| - 1]) + (if ts[|ts| - 1].executedOn != ts[|ts| - 1].createdOn then 1 else 0)
  }

  /** What the statistics loops compute from the tasks after a run. */
  function StatsOf(ts: seq<Task>, n: nat): Outcome<Stats> {
    var es := Placements(ts);
    match FirstOutside(es, n, false, 0)
    case Some(i) => OutOfRange(i)
    case None =>
      var h := Histogram(es, n);
      Computed(Stats(Steals(ts), h, Imbalance(h)))
  }

  /** The statistics part of run_benchmark: count steals, fill per_stream
      without checking the index, then the min/max loop. */
  method Statistics(tasks: array<Task>, numXstreams: nat) returns (r: Outcome<Stats>)
    ensures r == StatsOf(tasks[..], numXstreams)
  {
    var perStream := new int[numXstreams](_ => 0);
    var steals := 0;
    ghost var ts := tasks[..];
    ghost var es := Placements(ts);
    for i := 0 to tasks.Length
      invariant steals == Steals(ts[..i])
      invariant forall s :: 0 <= s < numXstreams ==> perStream[s] == CountOn(es[..i], s)
      invariant FirstOutside(es, numXstreams, false, 0) == FirstOutside(es, numXstreams, false, i)
    {
      assert ts[..i + 1][..i] == ts[..i];
      CountOnExtend(es, i);
      PlacementsAt(ts, i);
      if tasks[i].executedOn != tasks[i].createdOn {
        steals := steals + 1;
      }
      var e := tasks[i].executedOn;
      if !(0 <= e < numXstreams) {
        return OutOfRange(i);
      }
      perStream[e] := perStream[e] + 1;
    }
    assert ts[..tasks.Length] == ts;
    assert es[..tasks.Length] == es;
    assert perStream[..] == Histogram(es, numXstreams);
    var maxTasks, minTasks := Spread(perStream);
    r := Computed(Stats(steals, perStream[..], maxTasks - minTasks));
  }

  /** The statistics are computed exactly when every task recorded one of
      the n streams; then per_stream holds each stream's task count, the
      counts add up to the number of tasks, and with at least one stream
      the imbalance is never negative. Otherwise the
      first task with another stream (a task never run has -1) is where
      the source writes outside per_stream. */
  lemma StatsOfSpec(ts: seq<Task>, n: nat)
    requires |ts| <= IntMax
    ensures StatsOf(ts, n).Computed? <==> InRange(Placements(ts), n)
    ensures StatsOf(ts, n).Computed? ==>
              var st := StatsOf(ts, n).stats;
              |st.perStream| == n
              && (forall s :: 0 <= s < n ==> st.perStream[s] == CountOn(Placements(ts), s))
              && CountsBelow(Placements(ts), n) == |ts|
              && (n > 0 ==> st.imbalance >= 0)
    ensures StatsOf(ts, n).OutOfRange? ==>
              var i := StatsOf(ts, n).task;
              i < |ts| && !(0 <= ts[i].executedOn < n)
              && forall j :: 0 <= j < i ==> 0 <= ts[j].executedOn < n
  {
    var es := Placements(ts);
    FirstOutsideIsFirst(es, n, false, 0);
    forall j | 0 <= j < |ts|
      ensures es[j] == ts[j].executedOn
    {
      PlacementsAt(ts, j);
    }
    if InRange(es, n) {
      CountsAddUp(es, n);
      var h := Histogram(es, n);
      if n > 0 {
        ImbalanceIsSpread(h);
      }
    }
  }

  /** A task that ran on another stream than its own is exactly a steal. */
  lemma {:induction false} StealsCountsMovedTasks(ts: seq<Task>)
    ensures Steals(ts) == 0 <==> forall i :: 0 <= i < |ts| ==> ts[i].executedOn == ts[i].createdOn
    decreases |ts|
  {
    if ts != [] {
      var front := ts[..|ts| - 1];
      StealsCountsMovedTasks(front);
      assert forall i :: 0 <= i < |front| ==> front[i] == ts[i];
    }
  }
}
