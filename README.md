# Argobots reduction and work-stealing benchmarks, modelled in Dafny

This project models the logic of the ArgobotsReduction repository and proves
properties about it. The repository has three parts.

- **Benchmark log aggregator** (`scripts/parse_raw_results_argobots.py`).
  - It scans a directory of run logs and pulls labelled fields out of each
    `.txt` file with six regular expressions.
  - It drops runs without the `VERIFICATION SUCCESSFUL` marker, printing a
    diagnostic for each.
  - It groups the elapsed times by (class, xstreams, threads).
  - It prints each group's mean, rounded to two places, in ascending key
    order.
  - Modelled in modules `LogPatterns` (the regular expressions as a small
    pattern language with leftmost search) and `LogAggregator` (the loop,
    the table, the sort and the report).
- **Chart data** (`graphs/graphs_builder.py`): the baseline lookup, the
  Speedup column, the partition of each summary table by Xstreams, the
  series and file names of every figure, and the simple-versus-tree time
  ratio. Module `ChartData`.
- **Argobots examples** (`argobots_framework/examples/`):
  - the integer tests of the reduction example, and its command-line
    handling (`Reduction`);
  - what the two work-stealing schedulers share: FIFO pools, the rotated
    pool list of each scheduler, and the event counter (`Pools`);
  - one scheduling iteration of the plain scheduler (`WorkStealing`);
  - one scheduling iteration of the cost-aware scheduler, with its load
    table and victim choice (`CostAware`);
  - the task lists and statistics of the two benchmarks
    (`CompareSchedulers`, `BenchmarkTest`), and what they share
    (`BenchStats`).

## How the model is built

Imperative code is modelled as imperative Dafny. Each such method is proved
against a specification function, and the properties are proved about that
function.

- **Reduction tests:** the tests fill an `array<int>` with `for` loops, and
  each is proved to report no failure.
- **Pool list:** the scratch pool array is refilled in nested loops.
- **Pools:** `PoolSet` is a class whose `Pop` updates its queues in place.
- **Scheduling iteration:** it pops the scheduler's own pool and then
  steals in a loop.
- **Victim choice:** the argmax loop runs over the `LoadTable` class's
  array.
- **Load updates:** `UpdateTaskTime` updates both the scheduler's data and
  the load table.
- **Task lists and statistics:** both benchmarks create their tasks in
  nested loops. Their statistics are built by loops over arrays.
- **Log aggregator:** the loop builds the `time_dict` map.
- **Chart script:** the loops run over cases and over Xstreams values. The
  data frame gains its Speedup column in place.

Pure computations are modelled as functions:

- the regular-expression search;
- the key ordering;
- mean and rounding;
- the speedup quotients;
- the folds that stand for the reductions.

Values that come from outside are parameters:

- the directory listing and file contents;
- the CSV tables;
- the values `rand()` returns;
- the load table's contents;
- whether the runtime asks a scheduler to stop.

**Two proved consequences.**

- `BenchmarkTest.FullRunIsBalanced`: in `benchmark_test_4.c`, a stream's
  worker only runs the tasks created on that stream and records that
  stream. So the stolen flag is never set, and the benchmark always reports
  0 steals and 0 imbalance.
- `CostAware.ZeroLoadsNeverSteal`: nothing in the repository calls
  `ws_update_task_time`, so every load stays 0. The cost-aware scheduler
  therefore never steals.

**Python and pandas behaviour the model keeps.**

- **Cross ratio.** pandas divides two Series by aligning their index
  labels, and a label found on one side only gives NaN. `ChartData.CrossRatio`
  models the label alignment. `ChartData.AlignedCrossRatio` proves that the
  result is the row-by-row ratio when both tables list the same Xstreams
  values in the same rows.
- **Division by zero.** In pandas this gives an infinity or NaN rather than
  an error. This is the `ChartData.Quotient` datatype.
- **Keys with None.** In Python 3, `<` between None and a string or an int
  raises TypeError. The model reports this as the `Unorderable` crash.

## Model

| member | source | states |
|---|---|---|
| LogPatterns.SearchIsLeftmost | scripts/parse_raw_results_argobots.py:25-30 | re.search finds a match exactly when the pattern matches at some position, and then reports the match at the leftmost such position |
| LogPatterns.LabelledGroupInClass | scripts/parse_raw_results_argobots.py:9-14 | a label / white space / captured-run pattern has a group exactly when it is found, and the group is a non-empty run of the captured class |
| LogPatterns.LiteralSearch | scripts/parse_raw_results_argobots.py:12 | the verification pattern is found exactly when the marker text occurs in the content |
| LogPatterns.SearchAt | scripts/parse_raw_results_argobots.py:25-30 | when position i matches and no position from k up to i does, the search from k reports the match at i (with k = 0, re.search) |
| LogPatterns.LabelledNumber | scripts/parse_raw_results_argobots.py:9-10 | when the label, white space and the decimal spelling of n (then a non-digit) follow a prefix in which the pattern matches nowhere, group 1 is exactly that spelling, at any offset |
| LogPatterns.CaptureLast | scripts/parse_raw_results_argobots.py:9-14 | a capture at the end of a pattern takes the maximal run of its class, and fails on an empty run |
| LogPatterns.RunLengthMaximal | scripts/parse_raw_results_argobots.py:9-14 | a run (\s+, \d+, \w+, [\d.]+) is greedy: every character in it is of the class and the next one is not |
| LogAggregator.CountField | scripts/parse_raw_results_argobots.py:32-33 | xstreams/threads are present exactly when their pattern is found; a missing label gives None, not an error |
| LogAggregator.CountFieldReadsNumber | scripts/parse_raw_results_argobots.py:32-33 | int(m.group(1)) gives back n when the label, at any offset of the file and with no earlier match of its pattern, is followed by white space and n written in decimal |
| LogAggregator.AggregateLogs | scripts/parse_raw_results_argobots.py:18-44 | the loop over the directory listing computes exactly ScanAll: the table, key insertion order, diagnostics and the exception that stopped it |
| LogAggregator.VisitEntry | scripts/parse_raw_results_argobots.py:19-44 | one pass of the loop body over an entry, on a state that has not raised, gives exactly Step: skip, diagnostic, exception or append |
| LogAggregator.CrashIsFinal | scripts/parse_raw_results_argobots.py:44 | once float() has raised, no later directory entry changes the outcome |
| LogAggregator.NonLogFileSkipped | scripts/parse_raw_results_argobots.py:18-20 | an entry whose name does not end in ".txt" leaves the state unchanged |
| LogAggregator.UnverifiedFileReported | scripts/parse_raw_results_argobots.py:39-41 | a log file without "VERIFICATION SUCCESSFUL" adds nothing to the table and exactly one "Verification failed on <name>" diagnostic |
| LogAggregator.VerifiedFileAppends | scripts/parse_raw_results_argobots.py:43-44 | a verified file whose time reads as v appends exactly v to its own key's list; every other key and the diagnostics are unchanged |
| LogAggregator.MissingTimeCrashes | scripts/parse_raw_results_argobots.py:37-44 | a verified file with no "Time in seconds =" match stops the run with the TypeError of float(None) |
| LogAggregator.InitTimeIgnored | scripts/parse_raw_results_argobots.py:34 | two files that differ only in the initialization time have the same effect |
| LogAggregator.ScanAllCrash | scripts/parse_raw_results_argobots.py:44 | the loop ends with an exception exactly when some verified log file has no readable time |
| LogAggregator.ScanAllGroups | scripts/parse_raw_results_argobots.py:16-44 | without an exception, time_dict has each key once, only non-empty lists, and key k's list is the times of k's files in listing order |
| LogAggregator.AppendGroups | scripts/parse_raw_results_argobots.py:44 | appending to a defaultdict(list) keeps each key once with a non-empty list, gives the key its old list plus the value (a new key goes last) and leaves every other key alone |
| LogAggregator.TimesForPermutation | scripts/parse_raw_results_argobots.py:18 | listing the same files in another order gives every key the same multiset of times |
| LogAggregator.CompareTextProperties | scripts/parse_raw_results_argobots.py:46 | string comparison is Same exactly on equal strings and antisymmetric |
| LogAggregator.CompareTextTransitive | scripts/parse_raw_results_argobots.py:46 | string comparison is transitive |
| LogAggregator.CompareKeysProperties | scripts/parse_raw_results_argobots.py:46 | tuple comparison is Same exactly on equal keys, and swapping the operands swaps the outcome |
| LogAggregator.KeyLessTransitive | scripts/parse_raw_results_argobots.py:46 | key order is transitive |
| LogAggregator.SortKeysPermutation | scripts/parse_raw_results_argobots.py:46 | sorting neither adds nor drops a key |
| LogAggregator.SortKeysAscending | scripts/parse_raw_results_argobots.py:46 | distinct, pairwise comparable keys come out in strictly ascending order |
| LogAggregator.AscendingSameSet | scripts/parse_raw_results_argobots.py:46 | there is only one ascending arrangement of a set of keys |
| LogAggregator.SumPermutation | scripts/parse_raw_results_argobots.py:48 | the sum of a key's times does not depend on their order |
| LogAggregator.MeanBounds | scripts/parse_raw_results_argobots.py:48 | the mean lies between any lower and upper bound of the values |
| LogAggregator.MeanPermutation | scripts/parse_raw_results_argobots.py:48 | two arrangements of the same values have the same mean |
| LogAggregator.RoundHalfEvenNearest | scripts/parse_raw_results_argobots.py:49 | round() gives an integer within one half of its argument, and the even one on a tie |
| LogAggregator.RoundTwoPlaces | scripts/parse_raw_results_argobots.py:49 | round(x, 2) is the nearest whole number of hundredths |
| LogAggregator.RoundTwoPlacesClose | scripts/parse_raw_results_argobots.py:49 | round(x, 2) differs from x by at most 0.005 |
| LogAggregator.RoundTwoPlacesKeeps | scripts/parse_raw_results_argobots.py:49 | a whole number of hundredths is kept by round(x, 2) |
| LogAggregator.RoundTwoPlacesIdempotent | scripts/parse_raw_results_argobots.py:49 | rounding to two places twice is rounding once |
| LogAggregator.RoundTwoPlacesHalfEven | scripts/parse_raw_results_argobots.py:49 | 0.125 rounds to 0.12 and 0.135 to 0.14 |
| LogAggregator.ParseRawResults | scripts/parse_raw_results_argobots.py:16-50 | the whole script (the loop, then the report loop over sorted keys) produces exactly RunScript's diagnostics and report |
| LogAggregator.PrintReport | scripts/parse_raw_results_argobots.py:46-50 | the report loop over a finished table produces exactly Summarize: the sort error, or one line per sorted key |
| LogAggregator.DiagnosticsAreUnverified | scripts/parse_raw_results_argobots.py:39-41 | without an exception, exactly one diagnostic is printed per unverified log file, in listing order |
| LogAggregator.RunScriptStopsOnFloat | scripts/parse_raw_results_argobots.py:44 | the script stops on a float() error exactly when some verified log file has no readable time |
| LogAggregator.RunScriptStopsOnSort | scripts/parse_raw_results_argobots.py:46 | short of that, it stops in sorted() exactly when two keys of the table cannot be compared |
| LogAggregator.SummarizeStopsOnSort | scripts/parse_raw_results_argobots.py:46 | over a finished table, sorted() raises exactly when two of its keys cannot be compared |
| LogAggregator.RunScriptPrints | scripts/parse_raw_results_argobots.py:46-50 | a printed report has one line per key present, in strictly ascending key order, each with the two-place rounded mean of that key's times |
| LogAggregator.SummarizePrints | scripts/parse_raw_results_argobots.py:46-50 | over a finished table, a printed report lists each key once in strictly ascending order with the rounded mean of its own list |
| LogAggregator.ReportIndependentOfListingOrder | scripts/parse_raw_results_argobots.py:18-50 | the order os.listdir returns the files in changes neither whether a report is printed nor the report |
| ChartData.DivideInverse | graphs/graphs_builder.py:10 | a quotient is finite exactly when the divisor is non-zero, and then times the divisor gives the dividend |
| ChartData.BaselineIsFirst | graphs/graphs_builder.py:9 | the baseline exists exactly when some row has Xstreams 1 and Threads 1, and it is the Time(nanos) of the first such row |
| ChartData.BaselineSpeedupIsOne | graphs/graphs_builder.py:9-10 | the baseline row's own speedup is exactly 1, or NaN when its time is 0 |
| ChartData.SpeedupTimesTime | graphs/graphs_builder.py:10 | each row's speedup times its Time(nanos) is the baseline time |
| ChartData.Frame.constructor | graphs/graphs_builder.py:6 | a freshly read frame holds the table's rows and no Speedup column |
| ChartData.Frame.AddSpeedup | graphs/graphs_builder.py:9-10 | the rows are unchanged; with a baseline row the Speedup column is baseline / Time(nanos) per row, and without one the script raises and the frame is unchanged |
| ChartData.UniqueSpec | graphs/graphs_builder.py:13 | unique() lists every Xstreams value exactly once, in order of first appearance |
| ChartData.IndicesSpec | graphs/graphs_builder.py:14 | a subset holds exactly the rows with that Xstreams value, each once, in table order |
| ChartData.PartitionCovers | graphs/graphs_builder.py:13-14 | subsets over distinct values that include every Xstreams value together hold every row exactly once |
| ChartData.UniquePartition | graphs/graphs_builder.py:13-14 | the subsets the script draws partition the table |
| ChartData.FileNameInjective | graphs/graphs_builder.py:23-45 | two figures saved into the same directory share a file name only if they are the same kind of figure for the same Xstreams value |
| ChartData.PlotCase | graphs/graphs_builder.py:5-47 | one case yields the three charts of every Xstreams value, or nothing when the table has no baseline row |
| ChartData.SaveCharts | graphs/graphs_builder.py:13-47 | the loop over the Xstreams values produces exactly their three charts each, in order |
| ChartData.ChartsOverLayout | graphs/graphs_builder.py:13-47 | each Xstreams value gets three charts at its three paths under the case directory: the subset's threads against Time(s), against Time(nanos)/1e9 and against Speedup, each over exactly the row indices of that subset |
| ChartData.NanosChartMatchesSeconds | graphs/graphs_builder.py:29 | when Time(nanos) is Time(s) in nanoseconds, the Time(nanos)/1e9 chart draws the same points as the seconds chart |
| ChartData.UnionLabelsSpec | graphs/graphs_builder.py:56 | the ratio carries the increasing union of the two subsets' labels |
| ChartData.AlignedCrossRatio | graphs/graphs_builder.py:53-56 | when both tables list the same Xstreams values row for row, the ratio is simple/tree Time(nanos) on exactly the tree subset's rows |
| ChartData.PlotCrossRatio | graphs/graphs_builder.py:53-65 | one cross chart per Xstreams value of the tree table, in order of first appearance |
| ChartData.CrossChartPaths | graphs/graphs_builder.py:64 | the j-th cross chart is saved at the tree_vs_simple path of the j-th value |
| ChartData.CrossChartsForValues | graphs/graphs_builder.py:53-65 | a cross chart is saved at the path for x exactly when x is one of the values looped over, and distinct values give distinct paths |
| ChartData.CrossChartsCoverTree | graphs/graphs_builder.py:53-65 | among the saved cross charts there is one at the path for x exactly when the tree table has a row with Xstreams x, and no two share a path |
| ChartData.BuildGraphs | graphs/graphs_builder.py:4-82 | the whole script: the four cases in order, then the two tree/simple comparisons; it stops at the first case without a baseline row |
| ChartData.PlotCases | graphs/graphs_builder.py:5-47 | the loop over the case names equals CasesCharts: each case's charts in turn, stopping at the first table without a baseline row |
| ChartData.CasesStopped | graphs/graphs_builder.py:5-9 | after a case has raised, later cases draw nothing |
| ChartData.CasesComplete | graphs/graphs_builder.py:5-9 | the script gets past the cases exactly when every case's table has a 1/1 row |
| Reduction.CheckNotEqual | argobots_framework/examples/reduction/reduction.c:29-32 | the check returns 1 exactly when result differs from expected, and 0 otherwise |
| Reduction.SumFoldAppend | argobots_framework/examples/reduction/reduction.c:40-101 | the sum of two concatenated parts is the sum of the second continued from the sum of the first |
| Reduction.SumFoldConstant | argobots_framework/examples/reduction/reduction.c:47-81 | a sum of n copies of v adds n*v: all zeroes give 0, 123 among zeroes 123, 1024 ones 1024 |
| Reduction.SumFoldIndices | argobots_framework/examples/reduction/reduction.c:85-94 | the sum of base..base+n-1 is n(2base+n-1)/2, so 0..N-1 sums to N(N-1)/2 |
| Reduction.ProgressionFitsInInt | argobots_framework/examples/reduction/reduction.c:85-94 | every partial sum of 0..1023 fits in a 32-bit int |
| Reduction.MaxFoldIsMaximum | argobots_framework/examples/reduction/reduction.c:294-364 | the max fold is at least every element and the start value, and equals one of them |
| Reduction.MinFoldIsMinimum | argobots_framework/examples/reduction/reduction.c:438-508 | the min fold is at most every element and the start value, and equals one of them |
| Reduction.MaxOfArray | argobots_framework/examples/reduction/reduction.c:298-357 | folding max from INT_MIN over 32-bit values gives the largest element |
| Reduction.MinOfArray | argobots_framework/examples/reduction/reduction.c:442-501 | folding min from INT_MAX over 32-bit values gives the smallest element |
| Reduction.ProdFoldOnes | argobots_framework/examples/reduction/reduction.c:173-194 | multiplying by ones leaves the product unchanged |
| Reduction.ProdFoldZero | argobots_framework/examples/reduction/reduction.c:198-205 | a product that reaches 0 stays 0 |
| Reduction.ProdFoldPowers | argobots_framework/examples/reduction/reduction.c:208-221 | the product of 2^b, 2^(b+1), ... is 2 to the sum of the exponents |
| Reduction.SixPowers | argobots_framework/examples/reduction/reduction.c:208-221 | 1*2*4*8*16*32 == 32768 |
| Reduction.ProdFoldAppend | argobots_framework/examples/reduction/reduction.c:208-221 | the product of two concatenated parts is the product of the second continued from the first |
| Reduction.ProdFoldLeadThenOnes | argobots_framework/examples/reduction/reduction.c:185-205 | an array that is v followed by ones has product v (the 123 and the zero checks) |
| Reduction.PowersThenOnes | argobots_framework/examples/reduction/reduction.c:208-221 | 1, 2, 4, 8, 16, 32 followed by ones has product 32768 |
| Reduction.TestSumInt | argobots_framework/examples/reduction/reduction.c:40-101 | the integer sum test reports no failure |
| Reduction.TestProdInt | argobots_framework/examples/reduction/reduction.c:166-228 | the integer product test reports no failure |
| Reduction.TestMaxInt | argobots_framework/examples/reduction/reduction.c:294-364 | the integer max test reports no failure |
| Reduction.TestMinInt | argobots_framework/examples/reduction/reduction.c:438-508 | the integer min test reports no failure |
| Reduction.TestIntReductions | argobots_framework/examples/reduction/reduction.c:582-595 | the integer tests of test_different_reductions add up to no failure |
| Reduction.ClampCount | argobots_framework/examples/reduction/reduction.c:622-625 | a non-positive count becomes 1 and a positive count is kept |
| Reduction.ParseFromSpec | argobots_framework/examples/reduction/reduction.c:602-625 | -h or an unknown option gives the usage exit; otherwise the option at the last -e (or -n) index wins, or 2 (or 8) when there is none, with a non-positive count replaced by 1 |
| Reduction.DefaultCounts | argobots_framework/examples/reduction/reduction.c:602-603 | with no options main uses 2 execution streams and 8 threads |
| Reduction.ExitStatus | argobots_framework/examples/reduction/reduction.c:604-685 | main returns 0 exactly when the options parse and no test failed, and -1 otherwise |
| Pools.PoolSet.constructor | argobots_framework/examples/workstealing_scheduler/abt_workstealing_scheduler.h:6-8 | the pool set holds the given, already initialised pools |
| Pools.PoolSet.Pop | argobots_framework/examples/workstealing_scheduler/abt_workstealing_scheduler.c:37 | popping an empty pool gives nothing and changes nothing; otherwise it gives the oldest thread and only that pool loses it |
| Pools.AllThreadsUpdate | argobots_framework/examples/workstealing_scheduler/abt_workstealing_scheduler.c:37-42 | replacing one pool's contents changes the threads in the pools by exactly what it lost and gained |
| Pools.PopKeepsOtherThreads | argobots_framework/examples/workstealing_scheduler/abt_workstealing_scheduler.c:37-42 | popping takes exactly the popped thread out of the pools |
| Pools.CreateSchedPools | argobots_framework/examples/workstealing_scheduler/abt_workstealing_scheduler.c:96-103 | the nested loops give scheduler i the pool list whose k-th pool is pools[(i+k) % num] |
| Pools.RotationStartsAtOwnPool | argobots_framework/examples/workstealing_scheduler/abt_workstealing_scheduler.c:97-100 | scheduler i's first pool is its own pool i |
| Pools.RotationIsPermutation | argobots_framework/examples/workstealing_scheduler/abt_workstealing_scheduler.c:98-99 | each pool list names every one of the num pools exactly once |
| Pools.Tick | argobots_framework/examples/workstealing_scheduler/abt_workstealing_scheduler.c:52-53 | the stop flag is consulted exactly when the incremented count reaches event_freq, and then the count resets to 0; otherwise it stays below event_freq |
| Pools.CountAfterCycles | argobots_framework/examples/workstealing_scheduler/abt_workstealing_scheduler.c:52-58 | after n iterations work_count is n mod event_freq, and the n-th iteration consults the stop flag exactly when n is a multiple of event_freq |
| Pools.StopCheckedEveryTenth | argobots_framework/examples/workstealing_scheduler/abt_workstealing_scheduler.c:94 | with event_freq 10 the stop flag is consulted on iterations 10, 20, 30, ... only |
| WorkStealing.FirstWorkIsFirst | argobots_framework/examples/workstealing_scheduler/abt_workstealing_scheduler.c:41-46 | the target found is the first non-empty pool of the list, and none means all are empty |
| WorkStealing.RunIteration | argobots_framework/examples/workstealing_scheduler/abt_workstealing_scheduler.c:35-60 | one pass pops the own pool, else the first non-empty target in order; the pools and what ran are Step's, and the counter and stop check are Tick's |
| WorkStealing.OwnPoolFirst | argobots_framework/examples/workstealing_scheduler/abt_workstealing_scheduler.c:37-39 | a scheduler with work in its own pool runs that pool's oldest thread and touches no other pool |
| WorkStealing.StealsFromFirstNonEmpty | argobots_framework/examples/workstealing_scheduler/abt_workstealing_scheduler.c:41-46 | a thread run is the oldest of some pool j of the list, every pool before j was empty, and only pool j changed |
| WorkStealing.IdleIffAllEmpty | argobots_framework/examples/workstealing_scheduler/abt_workstealing_scheduler.c:41-47 | an iteration schedules nothing exactly when all pools of the list are empty, and then no pool changes |
| WorkStealing.StepConservesThreads | argobots_framework/examples/workstealing_scheduler/abt_workstealing_scheduler.c:35-50 | the threads left plus the one run are exactly the threads that were in the pools |
| WorkStealing.RotatedStepTriesOwnPoolFirst | argobots_framework/examples/workstealing_scheduler/abt_workstealing_scheduler.c:97-100 | with its rotated list, scheduler i runs pool i's oldest thread whenever pool i has one |
| CostAware.LoadTable.constructor | argobots_framework/examples/workstealing_scheduler/abt_workstealing_scheduler_cost_aware.c:129-130 | the load table has num entries, all zero |
| CostAware.SchedData.constructor | argobots_framework/examples/workstealing_scheduler/abt_workstealing_scheduler_cost_aware.c:49-61 | a scheduler starts with its configured event frequency, its stream's rank and a zero total |
| CostAware.UpdateTaskTime | argobots_framework/examples/workstealing_scheduler/abt_workstealing_scheduler_cost_aware.c:38-45 | the scheduler's total grows by elapsed, its stream's load becomes the new total, and no other load changes |
| CostAware.FindHeaviestPool | argobots_framework/examples/workstealing_scheduler/abt_workstealing_scheduler_cost_aware.c:21-36 | the argmax loop returns Heaviest of the table |
| CostAware.HeaviestUpToIsMaximum | argobots_framework/examples/workstealing_scheduler/abt_workstealing_scheduler_cost_aware.c:27-33 | the scan keeps -1 with all others non-positive, or the first other entry holding the largest positive load |
| CostAware.HeaviestIsVictim | argobots_framework/examples/workstealing_scheduler/abt_workstealing_scheduler_cost_aware.c:21-36 | the victim is never the caller; it is -1 exactly when no other load is positive; otherwise it has the largest load of the others and ties go to the lowest index |
| CostAware.FreshTableHasNoVictim | argobots_framework/examples/workstealing_scheduler/abt_workstealing_scheduler_cost_aware.c:130 | a table of zeroes yields no victim |
| CostAware.RunIteration | argobots_framework/examples/workstealing_scheduler/abt_workstealing_scheduler_cost_aware.c:76-97 | one pass pops the own pool, else the victim's pool when there is a victim; the pools and what ran are Step's, and the counter and stop check are Tick's |
| CostAware.OwnPoolFirst | argobots_framework/examples/workstealing_scheduler/abt_workstealing_scheduler_cost_aware.c:78-80 | with work in its own pool, a scheduler runs its oldest thread whatever the loads |
| CostAware.StealsFromHeaviest | argobots_framework/examples/workstealing_scheduler/abt_workstealing_scheduler_cost_aware.c:80-87 | a steal takes the oldest thread of the other stream with the largest load, which is positive, and changes only that pool |
| CostAware.ZeroLoadsNeverSteal | argobots_framework/examples/workstealing_scheduler/abt_workstealing_scheduler_cost_aware.c:80-87 | with every load zero, a scheduler runs only its own pool's threads, and an idle iteration changes nothing |
| CostAware.StepConservesThreads | argobots_framework/examples/workstealing_scheduler/abt_workstealing_scheduler_cost_aware.c:76-90 | no thread is lost or duplicated by an iteration |
| CostAware.AsWrittenPopsRotatedPool | argobots_framework/examples/workstealing_scheduler/abt_workstealing_scheduler_cost_aware.c:81-83 | as written, scheduler i pops global pool (i + victim) mod num |
| CostAware.AsWrittenStealsFromWrongPool | argobots_framework/examples/workstealing_scheduler/abt_workstealing_scheduler_cost_aware.c:81-83 | two streams, scheduler 1 empty, load 5 on stream 0: as written it stays idle, as intended it runs stream 0's thread |
| BenchStats.SlotOwner | argobots_framework/examples/workstealing_scheduler/compare_schedulers_real.c:95 | an index lies in the slot range of at most one stream |
| BenchStats.FirstOutsideIsFirst | argobots_framework/examples/workstealing_scheduler/compare_schedulers_real.c:190 | the first task whose stream cannot be counted is found, and none means every task can be |
| BenchStats.CountsAddUp | argobots_framework/examples/workstealing_scheduler/compare_schedulers_real.c:187-191 | when every task ran on one of the n streams, the per-stream counts add up to the number of tasks |
| BenchStats.CountLayout | argobots_framework/examples/workstealing_scheduler/benchmark_test_4.c:75-79 | in the creation layout a stream is recorded exactly on its own slots |
| BenchStats.FullLayout | argobots_framework/examples/workstealing_scheduler/benchmark_test_4.c:68-79 | with all n*m slots filled, every stream has exactly m tasks |
| BenchStats.MaxUpToIsMaximum | argobots_framework/examples/workstealing_scheduler/compare_schedulers_real.c:193-197 | the max loop gives the largest count |
| BenchStats.MinUpToIsMinimum | argobots_framework/examples/workstealing_scheduler/compare_schedulers_real.c:193-197 | the min loop gives the smallest count |
| BenchStats.ImbalanceIsSpread | argobots_framework/examples/workstealing_scheduler/compare_schedulers_real.c:193-200 | with at least one stream, the imbalance is the largest count minus the smallest, so never negative |
| BenchStats.EqualCountsNoImbalance | argobots_framework/examples/workstealing_scheduler/benchmark_test_4.c:288-294 | equal counts give imbalance 0 |
| BenchStats.EmptyTableImbalance | argobots_framework/examples/workstealing_scheduler/compare_schedulers_real.c:193-200 | with no streams the imbalance is 0 - INT_MAX |
| BenchStats.Spread | argobots_framework/examples/workstealing_scheduler/benchmark_test_4.c:288-292 | the min/max loop computes the running max from 0 and the running min from INT_MAX |
| CompareSchedulers.Shape | argobots_framework/examples/workstealing_scheduler/compare_schedulers_real.c:102-122 | the complexity is the mode's, and the time lies in its band: [10,19], [40,59], [80,119], [20c,20c+19] with c = s%3+1, otherwise exactly 10 |
| CompareSchedulers.ShapeCoversBand | argobots_framework/examples/workstealing_scheduler/compare_schedulers_real.c:102-122 | every time in a band is drawn for some rand() value |
| CompareSchedulers.CreateTasks | argobots_framework/examples/workstealing_scheduler/compare_schedulers_real.c:87-127 | n*m fresh tasks; task id sits at index id, was created on its stream s with s*m <= id < s*m+m, has executed_on -1 and its mode's shape |
| CompareSchedulers.CreateStreamTasks | argobots_framework/examples/workstealing_scheduler/compare_schedulers_real.c:94-125 | the inner loop fills stream s's m slots with their created tasks and leaves the later slots alone |
| CompareSchedulers.SameSeedSameTasks | argobots_framework/examples/workstealing_scheduler/compare_schedulers_real.c:91 | with the same rand() values, as after srand(42), each index holds the same task in both runs |
| CompareSchedulers.RecordExecution | argobots_framework/examples/workstealing_scheduler/compare_schedulers_real.c:70-81 | a task records the rank that ran it; nothing else changes |
| CompareSchedulers.Statistics | argobots_framework/examples/workstealing_scheduler/compare_schedulers_real.c:184-200 | the statistics loops compute StatsOf: steals, per-stream counts and imbalance, or the first task written out of bounds |
| CompareSchedulers.StatsOfSpec | argobots_framework/examples/workstealing_scheduler/compare_schedulers_real.c:184-200 | statistics are computed exactly when every task ran on one of the n streams; then the counts are per stream and add up to the task count, and the imbalance is non-negative; otherwise the first task outside is where the write goes out of bounds, -1 included |
| CompareSchedulers.StealsCountsMovedTasks | argobots_framework/examples/workstealing_scheduler/compare_schedulers_real.c:187-189 | there are no steals exactly when every task ran on the stream it was created on |
| BenchmarkTest.Shape | argobots_framework/examples/workstealing_scheduler/benchmark_test_4.c:83-118 | a shape exists exactly for modes 0..4, with the band's complexity and a time in [10,29], [50,99], [100,199], by stream%3 in mode 3, and [150,249] for stream 0 or [5,19] in mode 4 |
| BenchmarkTest.ShapeCoversBand | argobots_framework/examples/workstealing_scheduler/benchmark_test_4.c:83-118 | every time in a band is drawn for some rand() value |
| BenchmarkTest.CreateTasks | argobots_framework/examples/workstealing_scheduler/benchmark_test_4.c:67-126 | n*m fresh tasks; task idx sits at index idx, created on its stream, executed_on -1, not stolen, with its mode's shape or none |
| BenchmarkTest.CreateStreamTasks | argobots_framework/examples/workstealing_scheduler/benchmark_test_4.c:74-119 | the inner loop fills exactly the m slots of its stream with the tasks create_tasks describes and leaves later slots alone |
| BenchmarkTest.TaskFunction | argobots_framework/examples/workstealing_scheduler/benchmark_test_4.c:147-165 | a stream's worker sets executed_on to its stream on exactly the tasks created there; stolen and the steal counter never change |
| BenchmarkTest.RunStreamsEffect | argobots_framework/examples/workstealing_scheduler/benchmark_test_4.c:151-160 | whatever order the workers run in, a task is recorded on its own stream if that stream's worker ran, and is untouched otherwise |
| BenchmarkTest.NoneStolen | argobots_framework/examples/workstealing_scheduler/benchmark_test_4.c:270-276 | with no task marked stolen the steal count is 0 |
| BenchmarkTest.CountStolen | argobots_framework/examples/workstealing_scheduler/benchmark_test_4.c:270-276 | the steal loop counts exactly the tasks marked stolen |
| BenchmarkTest.Statistics | argobots_framework/examples/workstealing_scheduler/benchmark_test_4.c:265-294 | the statistics loops compute StatsOf: n*m completed, the stolen count, counts of run tasks per stream and imbalance, or the first task written out of bounds |
| BenchmarkTest.FullRunIsBalanced | argobots_framework/examples/workstealing_scheduler/benchmark_test_4.c:147-294 | after every stream's worker has run on a fresh task list, in any order, the report has 0 steals, m tasks per stream and imbalance 0 |

## Left out

- Runtime behaviour is not modelled:
  - the Argobots runtime itself: initialisation, execution streams, threads, joins, mutexes;
  - how `ABT_self_schedule` runs a thread;
  - concurrency between schedulers.

  Each scheduling iteration is one sequential step over the pools. The stop flag is a parameter.
- Timing is not modelled: wall-clock time, `usleep`, `total_time_ms`, the efficiency ratio and the improvement percentage. These are timing-dependent and floating-point.
- The float reduction tests of `reduction.c` are not modelled: sum, product, max and min over floats with FLT_EPSILON comparisons. Neither are the printed test names.
- The `reduce_*` functions are defined in `abt_reduction.h`, which is not part of this model. They are modelled as left folds from the current `result`.
- Reduction.ParseFromSpec: option arguments are given as the int that `atoi` returns. The text-to-number conversion is not modelled.
- `benchmark_test_4.c` main has further parts that are not modelled:
  - its CSV writing and reading;
  - its console output;
  - the scheduler set-up around the worker threads.
- `create_benchmark_tasks` reads `data->steal_counter` after `benchmark_task_function` has already freed `data`. This use after free is not modelled. The steal counter it would read is unchanged (`BenchmarkTest.TaskFunction`).
- The demo programs `workstealing_scheduler.c` and `workstealing_scheduler_cost_aware.c` are runtime plumbing and printing, and are not modelled.
- The functions declared in `abt_workstealing_scheduler_cost_aware.h` but never defined are not modelled. The header's `ws_update_task_time(double, int)` does not match the definition, which takes `(double, ws_sched_data_t *)`. The model follows the definition.
- CostAware.RunIteration: the scheduler's rank is the `rank` field of its data. The model does not capture which stream the runtime actually runs it on.
- CostAware.UpdateTaskTime: loads are reals, not IEEE doubles, so float rounding is not modelled.
- ChartData.Divide: quotients are exact reals; float64 rounding and overflow to infinity for finite divisors are not modelled.
- LogAggregator.ParseDecimal: the captured time text is read as an exact real. float64 rounding, and hence the last digit of a printed mean, are not modelled.
- LogPatterns.IsWordChar: `\w` is restricted to ASCII letters, digits and `_`, and `\d` to ASCII digits. Python's Unicode classes are wider.
- LogAggregator.Summarize: assumes `sorted()` raises exactly when two keys of the table cannot be compared. Which pairs CPython's sort actually compares is not modelled.
- The script's output is modelled as values, not as I/O:
  - the directory listing and file reads of the parse script;
  - `pd.read_csv`;
  - matplotlib figure creation, titles and saving.

  A figure is its file path and the points it draws.
- The cross chart plots the tree subset's threads against the aligned ratio. matplotlib fails when the two have different lengths, and the model does not capture that failure.
- Pools.Tick: `work_count` is a `uint32_t`. It never exceeds `event_freq`, so its wrap-around is not modelled.
- The concrete `rand()` sequences are not modelled. `rand()` values are a parameter sequence indexed by task id, one draw per task. Only the bounds they give are stated.

## Findings

| source | as written | input that shows it | evidently intended | confidence | as-written member | corrected member |
|---|---|---|---|---|---|---|
| argobots_framework/examples/workstealing_scheduler/abt_workstealing_scheduler_cost_aware.c:81-83 | the victim returned by `ws_find_heaviest_pool` is a global stream rank, but indexes the scheduler's rotated pool list, so scheduler i pops global pool (i + victim) mod num | num = 2, scheduler 1 with an empty pool, loads [5.0, 0.0], pools [[7], []]: the victim is 0, `pools[0]` of scheduler 1 is its own empty pool, and it stays idle | pop the victim's own pool, global pool `victim`, and run its oldest thread | not executed | CostAware.StepAsWritten (CostAware.AsWrittenStealsFromWrongPool, CostAware.AsWrittenPopsRotatedPool) | CostAware.Step (CostAware.StealsFromHeaviest, CostAware.RunIteration) |
