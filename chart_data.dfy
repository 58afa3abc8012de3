/** The data behind the charts of graphs/graphs_builder.py: the baseline
    lookup, the Speedup column, the partition of a summary table by
    Xstreams, the three series drawn for each partition, and the ratio of
    the simple case to the tree case.

    Reading the CSV files and drawing the figures are left out; a table is
    given as its rows, and a chart as the file it is saved to and the
    points drawn in it. A row's position in its table is its pandas index
    label (read_csv numbers the rows 0, 1, 2, ...). */
module ChartData {
  import opened Common

  /** One row of a summary table: the columns Xstreams, Threads, Time(s), Time(nanos). */
  datatype Row = Row(xstreams: int, threads: int, seconds: real, nanos: real)

  /** An exact quotient; division by zero gives an infinity, or NaN for
      0/0, instead of raising, as numpy does. */
  datatype Quotient = Finite(value: real) | PosInf | NegInf | NaN

  function Divide(a: real, b: real): Quotient {
    if b != 0.0 then Finite(a / b)
    else if a > 0.0 then PosInf
    else if a < 0.0 then NegInf
    else NaN
  }

  /** A finite quotient times the divisor gives back the dividend; the
      quotient is finite exactly when the divisor is not zero. */
  lemma DivideInverse(a: real, b: real)
    ensures Divide(a, b).Finite? <==> b != 0.0
    ensures Divide(a, b).Finite? ==> Divide(a, b).value * b == a
  {
  }

  // ---------------------------------------------------------------------
  // Baseline and speedup (lines 9-10)

  predicate IsBaselineRow(r: Row) {
    r.xstreams == 1 && r.threads == 1
  }

  /** The index of the first row with Xstreams == 1 and Threads == 1. */
  function BaselineIndex(rows: seq<Row>): Option<nat> {
    if rows == [] then None
    else
      match BaselineIndex(rows[..|rows| - 1])
      case Some(i) => Some(i)
      case None => if IsBaselineRow(rows[|rows| - 1]) then Some(|rows| - 1) else None
  }

  /** `.values[0]` of the selection: the first such row's Time(nanos); an
      empty selection raises IndexError (None here). */
  function Baseline(rows: seq<Row>): Option<real> {
    match BaselineIndex(rows)
    case None => None
    case Some(i) => if i < |rows| then Some(rows[i].nanos) else None
  }

  /** The baseline is found exactly when some row is a 1/1 row, and it is
      the Time(nanos) of the first such row. */
  lemma {:induction false} BaselineIsFirst(rows: seq<Row>)
    ensures BaselineIndex(rows).None? <==> forall i :: 0 <= i < |rows| ==> !IsBaselineRow(rows[i])
    ensures BaselineIndex(rows).Some? ==>
              var i := BaselineIndex(rows).value;
              i < |rows| && IsBaselineRow(rows[i]) && Baseline(rows) == Some(rows[i].nanos)
              && forall j :: 0 <= j < i ==> !IsBaselineRow(rows[j])
  {
    if rows != [] {
      var init := rows[..|rows| - 1];
      BaselineIsFirst(init);
      assert forall j :: 0 <= j < |init| ==> init[j] == rows[j];
      if BaselineIndex(init).None? && IsBaselineRow(rows[|rows| - 1]) {
        assert !(forall i :: 0 <= i < |rows| ==> !IsBaselineRow(rows[i])) by {
          assert IsBaselineRow(rows[|rows| - 1]);
        }
      }
    }
  }

  /** baseline_time / df['Time(nanos)'], row by row. */
  function SpeedupColumn(rows: seq<Row>, baseline: real): (col: seq<Quotient>)
    ensures |col| == |rows|
  {
    seq(|rows|, i requires 0 <= i < |rows| => Divide(baseline, rows[i].nanos))
  }

  /** The baseline row's own speedup is exactly 1 when its time is not zero,
      and NaN when it is. */
  lemma BaselineSpeedupIsOne(rows: seq<Row>)
    requires Baseline(rows).Some?
    ensures var i := BaselineIndex(rows).value;
            var col := SpeedupColumn(rows, Baseline(rows).value);
            i < |col| && col[i] == (if rows[i].nanos != 0.0 then Finite(1.0) else NaN)
  {
    BaselineIsFirst(rows);
  }

  /** Every row's speedup times its own Time(nanos) gives the baseline time. */
  lemma SpeedupTimesTime(rows: seq<Row>, baseline: real, i: nat)
    requires i < |rows| && rows[i].nanos != 0.0
    ensures SpeedupColumn(rows, baseline)[i].Finite?
    ensures SpeedupColumn(rows, baseline)[i].value * rows[i].nanos == baseline
  {
    DivideInverse(baseline, rows[i].nanos);
  }

  /** A data frame whose Speedup column is added in place (line 10). */
  class Frame {
    var rows: seq<Row>
    var speedup: Option<seq<Quotient>>

    /** pd.read_csv: the table's rows, with no Speedup column yet. */
    constructor (rows: seq<Row>)
      ensures this.rows == rows && speedup == None
    {
      this.rows := rows;
      speedup := None;
    }

    /** Lines 9-10: look up the baseline, then add the Speedup column. With
        no baseline row the script raises and the frame is left as it was. */
    method AddSpeedup() returns (found: bool)
      modifies this
      ensures rows == old(rows)
      ensures found <==> Baseline(rows).Some?
      ensures found ==> speedup == Some(SpeedupColumn(rows, Baseline(rows).value))
      ensures !found ==> speedup == old(speedup)
    {
      var baseline := Baseline(rows);
      if baseline.None? {
        return false;
      }
      speedup := Some(SpeedupColumn(rows, baseline.value));
      found := true;
    }
  }

  // ---------------------------------------------------------------------
  // The partition by Xstreams (lines 13-14)

  function XstreamsOf(rows: seq<Row>): (xs: seq<int>)
    ensures |xs| == |rows| && forall i :: 0 <= i < |rows| ==> xs[i] == rows[i].xstreams
  {
    seq(|rows|, i requires 0 <= i < |rows| => rows[i].xstreams)
  }

  /** Series.unique(): each value once, in order of first appearance. */
  function Unique(xs: seq<int>): seq<int> {
    if xs == [] then []
    else
      var u := Unique(xs[..|xs| - 1]);
      if xs[|xs| - 1] in u then u else u + [xs[|xs| - 1]]
  }

  /** The position of the first occurrence of v in xs. */
  function FirstIndex(xs: seq<int>, v: int): (i: nat)
    requires v in xs
    ensures i < |xs| && xs[i] == v && v !in xs[..i]
  {
    var init := xs[..|xs| - 1];
    if v in init then
      var i := FirstIndex(init, v);
      assert xs[..i] == init[..i];
      i
    else
      assert xs[..|xs| - 1] == init;
      |xs| - 1
  }

  ghost predicate Distinct(xs: seq<int>) {
    forall i, j :: 0 <= i < j < |xs| ==> xs[i] != xs[j]
  }

  /** unique() lists every value of the column exactly once, and lists them
      in the order of their first appearance. */
  lemma {:induction false} UniqueSpec(xs: seq<int>)
    ensures Distinct(Unique(xs))
    ensures forall v :: v in Unique(xs) <==> v in xs
    ensures forall i, j :: 0 <= i < j < |Unique(xs)| ==>
              FirstIndex(xs, Unique(xs)[i]) < FirstIndex(xs, Unique(xs)[j])
  {
    if xs != [] {
      var init, last := xs[..|xs| - 1], xs[|xs| - 1];
      UniqueSpec(init);
      var u := Unique(init);
      assert xs == init + [last];
      forall v | v in init ensures FirstIndex(xs, v) == FirstIndex(init, v) {
        assert xs[..|xs| - 1] == init;
      }
      if last !in u {
        var u' := u + [last];
        assert last !in init;
        forall i, j | 0 <= i < j < |u'| ensures FirstIndex(xs, u'[i]) < FirstIndex(xs, u'[j]) {
          if j == |u| {
            assert u'[i] in init;
          }
        }
      }
    }
  }

  /** The index labels of df[df['Xstreams'] == x]: the positions of the rows
      with that Xstreams value, in table order. */
  function Indices(rows: seq<Row>, x: int): seq<nat> {
    if rows == [] then []
    else Indices(rows[..|rows| - 1], x) + (if rows[|rows| - 1].xstreams == x then [|rows| - 1] else [])
  }

  ghost predicate Increasing(ids: seq<nat>) {
    forall i, j :: 0 <= i < j < |ids| ==> ids[i] < ids[j]
  }

  /** A subset holds exactly the rows whose Xstreams equals x, each once, in table order. */
  lemma {:induction false} IndicesSpec(rows: seq<Row>, x: int)
    ensures Increasing(Indices(rows, x)) && ValidIndices(rows, Indices(rows, x))
    ensures forall i: nat :: i in Indices(rows, x) <==> i < |rows| && rows[i].xstreams == x
  {
    if rows != [] {
      var init := rows[..|rows| - 1];
      IndicesSpec(init, x);
      assert forall i :: 0 <= i < |init| ==> init[i] == rows[i];
      var ids := Indices(rows, x);
      assert forall j :: 0 <= j < |ids| ==> ids[j] in ids;
    }
  }

  /** The number of rows selected by the values of us. */
  function CoveredRows(rows: seq<Row>, us: seq<int>): nat {
    if us == [] then 0 else |Indices(rows, us[0])| + CoveredRows(rows, us[1..])
  }

  /** How many entries of us equal v. */
  function Occurrences(us: seq<int>, v: int): nat {
    if us == [] then 0 else (if us[0] == v then 1 else 0) + Occurrences(us[1..], v)
  }

  lemma {:induction false} OccursOnce(us: seq<int>, v: int)
    requires Distinct(us) && v in us
    ensures Occurrences(us, v) == 1
  {
    if us[0] != v {
      OccursOnce(us[1..], v);
    } else {
      assert v !in us[1..] by {
        forall k | 0 <= k < |us[1..]| ensures us[1..][k] != v {
          assert us[1..][k] == us[k + 1];
        }
      }
      NotOccurring(us[1..], v);
    }
  }

  lemma {:induction false} NotOccurring(us: seq<int>, v: int)
    requires v !in us
    ensures Occurrences(us, v) == 0
  {
    if us != [] {
      NotOccurring(us[1..], v);
    }
  }

  /** One more row adds one to the count of exactly the value it carries. */
  lemma {:induction false} CoveredRowsStep(rows: seq<Row>, us: seq<int>)
    requires rows != []
    ensures CoveredRows(rows, us)
            == CoveredRows(rows[..|rows| - 1], us) + Occurrences(us, rows[|rows| - 1].xstreams)
  {
    if us != [] {
      CoveredRowsStep(rows, us[1..]);
    }
  }

  /** The subsets of lines 13-14 partition the table: over a list of
      distinct values that includes every Xstreams value, they hold |rows| rows in all. */
  lemma {:induction false} PartitionCovers(rows: seq<Row>, us: seq<int>)
    requires Distinct(us)
    requires forall i :: 0 <= i < |rows| ==> rows[i].xstreams in us
    ensures CoveredRows(rows, us) == |rows|
  {
    if rows == [] {
      EmptyCovers(us);
    } else {
      var init := rows[..|rows| - 1];
      assert forall i :: 0 <= i < |init| ==> init[i] == rows[i];
      PartitionCovers(init, us);
      CoveredRowsStep(rows, us);
      OccursOnce(us, rows[|rows| - 1].xstreams);
    }
  }

  lemma {:induction false} EmptyCovers(us: seq<int>)
    ensures CoveredRows([], us) == 0
  {
    if us != [] {
      EmptyCovers(us[1..]);
    }
  }

  /** The Xstreams values the script loops over: every subset it draws is
      disjoint from the others, and together they hold the whole table. */
  lemma UniquePartition(rows: seq<Row>)
    ensures CoveredRows(rows, Unique(XstreamsOf(rows))) == |rows|
  {
    UniqueSpec(XstreamsOf(rows));
    forall i | 0 <= i < |rows| ensures rows[i].xstreams in Unique(XstreamsOf(rows)) {
      assert XstreamsOf(rows)[i] == rows[i].xstreams;
    }
    PartitionCovers(rows, Unique(XstreamsOf(rows)));
  }

  // ---------------------------------------------------------------------
  // The three charts of one partition (lines 16-47)

  datatype Point = Point(threads: int, y: Quotient)

  /** The four kinds of figure the script saves. */
  datatype ChartKind = MeanTime | MeanTimeNanos | Speedup | TreeVsSimple

  /** Where a figure is saved: a directory, its kind and its Xstreams value. */
  datatype ChartPath = ChartPath(dir: string, kind: ChartKind, xstreams: int)

  /** The part of a file name before the Xstreams value. */
  function Stem(kind: ChartKind): string {
    match kind
    case MeanTime => "/mean_execution_time_xstreams_"
    case MeanTimeNanos => "/mean_execution_time_xstreams_"
    case Speedup => "/speedup_xstreams_"
    case TreeVsSimple => "/tree_vs_simple_xstreams_"
  }

  /** The part of a file name after the Xstreams value. */
  function Tail(kind: ChartKind): string {
    if kind == MeanTimeNanos then "_nanos.png" else ".png"
  }

  /** The file name plt.savefig is given (lines 23, 34, 45, 64 and 81). */
  function FileName(p: ChartPath): string {
    p.dir + Stem(p.kind) + IntToDecimal(p.xstreams) + Tail(p.kind)
  }

  /** A decimal spelling is a sign and digits only. */
  lemma DecimalChars(n: int)
    ensures forall i :: 0 <= i < |IntToDecimal(n)| ==> IsDigit(IntToDecimal(n)[i]) || IntToDecimal(n)[i] == '-'
  {
    var s := IntToDecimal(n);
    if n < 0 {
      forall i | 1 <= i < |s| ensures IsDigit(s[i]) {
        assert s[i] == s[1..][i - 1];
      }
    }
  }

  /** Different numbers are spelled differently. */
  lemma IntToDecimalInjective(a: int, b: int)
    ensures IntToDecimal(a) == IntToDecimal(b) ==> a == b
  {
    if a >= 0 && b >= 0 {
      DecimalRoundTrip(a);
      DecimalRoundTrip(b);
    } else if a < 0 && b < 0 {
      DecimalRoundTrip(-a);
      DecimalRoundTrip(-b);
    } else {
      assert IntToDecimal(a)[0] != IntToDecimal(b)[0];
    }
  }

  /** Two figures saved into the same directory get the same file name only
      when they are the same kind of figure for the same Xstreams value: no
      chart of a case overwrites another. */
  lemma FileNameInjective(p: ChartPath, q: ChartPath)
    requires p.dir == q.dir
    ensures FileName(p) == FileName(q) ==> p == q
  {
    var d := p.dir;
    var x1, x2 := IntToDecimal(p.xstreams), IntToDecimal(q.xstreams);
    var s1, s2, t1, t2 := Stem(p.kind), Stem(q.kind), Tail(p.kind), Tail(q.kind);
    assert FileName(p) == d + s1 + (x1 + t1) && FileName(q) == d + s2 + (x2 + t2);
    if s1 != s2 {
      assert s1[1] != s2[1];
      CharAfterPrefix(d, s1, x1 + t1, 1);
      CharAfterPrefix(d, s2, x2 + t2, 1);
    } else {
      DropPrefix(d + s1, x1 + t1, x2 + t2);
      if t1 == t2 {
        DropSuffix(x1, x2, t1);
        IntToDecimalInjective(p.xstreams, q.xstreams);
      } else {
        DecimalChars(p.xstreams);
        DecimalChars(q.xstreams);
        if t1 == ".png" {
          TailsDiffer(x1, x2);
        } else {
          TailsDiffer(x2, x1);
        }
      }
    }
  }

  lemma CharAfterPrefix(d: string, s: string, r: string, i: nat)
    requires i < |s|
    ensures (d + s + r)[|d| + i] == s[i]
  {
  }

  lemma DropPrefix(u: string, a: string, b: string)
    ensures u + a == u + b ==> a == b
  {
    assert a == (u + a)[|u|..];
    assert b == (u + b)[|u|..];
  }

  lemma DropSuffix(a: string, b: string, t: string)
    ensures a + t == b + t ==> a == b
  {
    assert a == (a + t)[..|a|];
    assert b == (b + t)[..|b|];
  }

  /** A number followed by ".png" never reads as a number followed by "_nanos.png". */
  lemma TailsDiffer(x1: string, x2: string)
    requires forall i :: 0 <= i < |x1| ==> IsDigit(x1[i]) || x1[i] == '-'
    ensures x1 + ".png" != x2 + "_nanos.png"
  {
    var w1, w2 := x1 + ".png", x2 + "_nanos.png";
    if |w1| == |w2| {
      assert w1[|x2|] == x1[|x2|] && w2[|x2|] == '_';
    }
  }

  /** A saved figure: its path and the points of its one line. */
  datatype Chart = Chart(path: ChartPath, points: seq<Point>)
  ghost predicate ValidIndices(rows: seq<Row>, ids: seq<nat>) {
    forall j :: 0 <= j < |ids| ==> ids[j] < |rows|
  }

  /** Mean time in seconds against threads (lines 17-25). */
  function SecondsChart(caseName: string, rows: seq<Row>, ids: seq<nat>, x: int): Chart
    requires ValidIndices(rows, ids)
  {
    Chart(ChartPath(caseName, MeanTime, x),
          seq(|ids|, j requires 0 <= j < |ids| => Point(rows[ids[j]].threads, Finite(rows[ids[j]].seconds))))
  }

  /** Time(nanos) / 1e9 against threads (lines 27-36). */
  function NanosChart(caseName: string, rows: seq<Row>, ids: seq<nat>, x: int): Chart
    requires ValidIndices(rows, ids)
  {
    Chart(ChartPath(caseName, MeanTimeNanos, x),
          seq(|ids|, j requires 0 <= j < |ids| => Point(rows[ids[j]].threads, Divide(rows[ids[j]].nanos, 1_000_000_000.0))))
  }

  /** Speedup against threads (lines 38-47). */
  function SpeedupChart(caseName: string, rows: seq<Row>, speedup: seq<Quotient>, ids: seq<nat>, x: int): Chart
    requires |speedup| == |rows| && ValidIndices(rows, ids)
  {
    Chart(ChartPath(caseName, Speedup, x),
          seq(|ids|, j requires 0 <= j < |ids| => Point(rows[ids[j]].threads, speedup[ids[j]])))
  }

  function ChartsFor(caseName: string, rows: seq<Row>, speedup: seq<Quotient>, x: int): (cs: seq<Chart>)
    requires |speedup| == |rows|
    ensures |cs| == 3
  {
    var ids := Indices(rows, x);
    IndicesSpec(rows, x);
    [SecondsChart(caseName, rows, ids, x), NanosChart(caseName, rows, ids, x), SpeedupChart(caseName, rows, speedup, ids, x)]
  }

  /** The charts of lines 13-47 for the values us, in that order. */
  function ChartsOver(caseName: string, rows: seq<Row>, speedup: seq<Quotient>, us: seq<int>): (cs: seq<Chart>)
    requires |speedup| == |rows|
    ensures |cs| == 3 * |us|
  {
    if us == [] then [] else ChartsOver(caseName, rows, speedup, us[..|us| - 1]) + ChartsFor(caseName, rows, speedup, us[|us| - 1])
  }

  /** What one case directory gets, or None when the table has no baseline row. */
  function CaseCharts(caseName: string, rows: seq<Row>): Option<seq<Chart>> {
    match Baseline(rows)
    case None => None
    case Some(b) => Some(ChartsOver(caseName, rows, SpeedupColumn(rows, b), Unique(XstreamsOf(rows))))
  }

  /** Lines 6-47 for one case: add the Speedup column, then save three charts
      per Xstreams value. None is the IndexError of a missing baseline row. */
  method PlotCase(caseName: string, rows: seq<Row>) returns (charts: Option<seq<Chart>>)
    ensures charts == CaseCharts(caseName, rows)
  {
    var df := new Frame(rows);
    var found := df.AddSpeedup();
    if !found {
      return None;
    }
    var out := SaveCharts(caseName, df.rows, df.speedup.value, Unique(XstreamsOf(df.rows)));
    charts := Some(out);
  }

  /** Lines 13-47: the loop over the Xstreams values, three charts each. */
  method SaveCharts(caseName: string, rows: seq<Row>, speedup: seq<Quotient>, us: seq<int>) returns (out: seq<Chart>)
    requires |speedup| == |rows|
    ensures out == ChartsOver(caseName, rows, speedup, us)
  {
    out := [];
    for k := 0 to |us|
      invariant out == ChartsOver(caseName, rows, speedup, us[..k])
    {
      assert us[..k + 1][..k] == us[..k];
      out := out + ChartsFor(caseName, rows, speedup, us[k]);
    }
    assert us[..|us|] == us;
  }

  /** Each Xstreams value of the table gets its three charts, in order of
      first appearance, at the three paths under the case directory: the
      subset's threads against Time(s), against Time(nanos)/1e9 and against
      Speedup, over exactly the rows of that subset. */
  lemma {:induction false} ChartsOverLayout(caseName: string, rows: seq<Row>, speedup: seq<Quotient>, us: seq<int>)
    requires |speedup| == |rows|
    ensures forall j :: 0 <= j < |us| ==>
              var cs := ChartsOver(caseName, rows, speedup, us);
              var ids := Indices(rows, us[j]);
              cs[3 * j].path == ChartPath(caseName, MeanTime, us[j])
              && cs[3 * j + 1].path == ChartPath(caseName, MeanTimeNanos, us[j])
              && cs[3 * j + 2].path == ChartPath(caseName, Speedup, us[j])
              && ValidIndices(rows, ids)
              && cs[3 * j] == SecondsChart(caseName, rows, ids, us[j])
              && cs[3 * j + 1] == NanosChart(caseName, rows, ids, us[j])
              && cs[3 * j + 2] == SpeedupChart(caseName, rows, speedup, ids, us[j])
  {
    if us != [] {
      var init := us[..|us| - 1];
      ChartsOverLayout(caseName, rows, speedup, init);
      assert forall j :: 0 <= j < |us| - 1 ==> init[j] == us[j];
      forall j | 0 <= j < |us| ensures ValidIndices(rows, Indices(rows, us[j])) {
        IndicesSpec(rows, us[j]);
      }
    }
  }

  /** When Time(nanos) is Time(s) in nanoseconds, the nanosecond chart draws
      the same points as the seconds chart. */
  lemma NanosChartMatchesSeconds(caseName: string, rows: seq<Row>, ids: seq<nat>, x: int)
    requires ValidIndices(rows, ids)
    requires forall i :: 0 <= i < |rows| ==> rows[i].nanos == rows[i].seconds * 1_000_000_000.0
    ensures NanosChart(caseName, rows, ids, x).points == SecondsChart(caseName, rows, ids, x).points
  {
  }

  // ---------------------------------------------------------------------
  // Tree case against simple case (lines 50-82)

  /** The labels of the two subsets, merged: pandas aligns the two Series on
      their index labels, and the result carries the sorted union of both. */
  function UnionLabels(simple: seq<Row>, tree: seq<Row>, x: int, n: nat): seq<nat> {
    if n == 0 then []
    else
      var l := n - 1;
      UnionLabels(simple, tree, x, l)
      + (if (l < |simple| && simple[l].xstreams == x) || (l < |tree| && tree[l].xstreams == x) then [l] else [])
  }

  /** One entry of the aligned ratio: a label present on one side only gives NaN. */
  function RatioAt(simple: seq<Row>, tree: seq<Row>, x: int, l: nat): Quotient {
    if l < |simple| && simple[l].xstreams == x && l < |tree| && tree[l].xstreams == x
    then Divide(simple[l].nanos, tree[l].nanos)
    else NaN
  }

  /** subset_simple['Time(nanos)'] / subset_tree['Time(nanos)'] (lines 56 and 73), with its labels. */
  function CrossRatio(simple: seq<Row>, tree: seq<Row>, x: int): seq<(nat, Quotient)> {
    var ls := UnionLabels(simple, tree, x, Max(|simple|, |tree|));
    seq(|ls|, j requires 0 <= j < |ls| => (ls[j], RatioAt(simple, tree, x, ls[j])))
  }

  /** The labels of the ratio are increasing and are exactly the labels of
      either subset. */
  lemma {:induction false} UnionLabelsSpec(simple: seq<Row>, tree: seq<Row>, x: int, n: nat)
    ensures Increasing(UnionLabels(simple, tree, x, n))
    ensures forall l: nat :: l in UnionLabels(simple, tree, x, n) <==>
              l < n && ((l < |simple| && simple[l].xstreams == x) || (l < |tree| && tree[l].xstreams == x))
  {
    if n > 0 {
      UnionLabelsSpec(simple, tree, x, n - 1);
      var ls := UnionLabels(simple, tree, x, n - 1);
      assert forall j :: 0 <= j < |ls| ==> ls[j] in ls;
    }
  }

  /** When both tables list the same Xstreams values row for row, no label
      is missing on either side: the ratio is taken row by row over the tree
      subset, and its labels are that subset's labels. */
  lemma AlignedCrossRatio(simple: seq<Row>, tree: seq<Row>, x: int)
    requires |simple| == |tree|
    requires forall i :: 0 <= i < |tree| ==> simple[i].xstreams == tree[i].xstreams
    ensures var r := CrossRatio(simple, tree, x);
            var ids := Indices(tree, x);
            |r| == |ids|
            && forall j :: 0 <= j < |r| ==>
                 r[j].0 == ids[j] && ids[j] < |tree| && r[j].1 == Divide(simple[ids[j]].nanos, tree[ids[j]].nanos)
  {
    var ls := UnionLabels(simple, tree, x, |tree|);
    var ids := Indices(tree, x);
    UnionLabelsSpec(simple, tree, x, |tree|);
    IndicesSpec(tree, x);
    IncreasingSameSet(ls, ids);
  }

  /** The first label of an increasing list is its least. */
  lemma IncreasingStartsLeast(a: seq<nat>, i: nat)
    requires Increasing(a) && i < |a|
    ensures a[0] <= a[i]
  {
  }

  /** Past its first label, an increasing list holds exactly its other labels. */
  lemma TailMembers(a: seq<nat>, l: nat)
    requires Increasing(a) && a != []
    ensures Increasing(a[1..])
    ensures l in a[1..] <==> l in a && l != a[0]
  {
    if l in a[1..] {
      var m :| 0 <= m < |a[1..]| && a[1..][m] == l;
      assert a[m + 1] == l;
    }
    if l in a && l != a[0] {
      var n :| 0 <= n < |a| && a[n] == l;
      assert a[1..][n - 1] == l;
    }
  }

  lemma HeadIsMember(b: seq<nat>)
    ensures b != [] ==> b[0] in b
  {
  }

  /** Two increasing label lists with the same members are the same list. */
  lemma {:induction false} IncreasingSameSet(a: seq<nat>, b: seq<nat>)
    requires Increasing(a) && Increasing(b)
    requires forall l :: l in a <==> l in b
    ensures a == b
    decreases |a|
  {
    if a != [] {
      assert a[0] in b;
      var j :| 0 <= j < |b| && b[j] == a[0];
      assert b[0] in a;
      var i :| 0 <= i < |a| && a[i] == b[0];
      IncreasingStartsLeast(a, i);
      IncreasingStartsLeast(b, j);
      forall l ensures l in a[1..] <==> l in b[1..] {
        TailMembers(a, l);
        TailMembers(b, l);
      }
      IncreasingSameSet(a[1..], b[1..]);
      assert a == [a[0]] + a[1..] && b == [b[0]] + b[1..];
    } else {
      HeadIsMember(b);
    }
  }

  /** The ratio series of one cross chart: the tree subset's threads on the
      x axis, the aligned ratio values on the y axis (matplotlib's plot
      needs both to have the same length, which the aligned case gives). */
  datatype CrossChart = CrossChart(path: ChartPath, threads: seq<int>, ratio: seq<(nat, Quotient)>)

  function CrossChartFor(dir: string, simple: seq<Row>, tree: seq<Row>, x: int): CrossChart {
    var ids := Indices(tree, x);
    IndicesSpec(tree, x);
    CrossChart(ChartPath(dir, TreeVsSimple, x),
               seq(|ids|, j requires 0 <= j < |ids| => tree[ids[j]].threads),
               CrossRatio(simple, tree, x))
  }

  function CrossChartsOver(dir: string, simple: seq<Row>, tree: seq<Row>, us: seq<int>): (cs: seq<CrossChart>)
    ensures |cs| == |us|
  {
    if us == [] then [] else CrossChartsOver(dir, simple, tree, us[..|us| - 1]) + [CrossChartFor(dir, simple, tree, us[|us| - 1])]
  }

  lemma CrossChartsOverExtend(dir: string, simple: seq<Row>, tree: seq<Row>, us: seq<int>, k: nat)
    requires k < |us|
    ensures CrossChartsOver(dir, simple, tree, us[..k + 1])
            == CrossChartsOver(dir, simple, tree, us[..k]) + [CrossChartFor(dir, simple, tree, us[k])]
  {
    assert us[..k + 1][..k] == us[..k];
  }

  /** Lines 53-65 (and 70-82 for the small case): one chart per Xstreams
      value of the tree table, in order of first appearance. */
  method PlotCrossRatio(dir: string, simple: seq<Row>, tree: seq<Row>) returns (charts: seq<CrossChart>)
    ensures charts == CrossChartsOver(dir, simple, tree, Unique(XstreamsOf(tree)))
  {
    var us := Unique(XstreamsOf(tree));
    var out: seq<CrossChart> := [];
    for k := 0 to |us|
      invariant out == CrossChartsOver(dir, simple, tree, us[..k])
    {
      CrossChartsOverExtend(dir, simple, tree, us, k);
      out := out + [CrossChartFor(dir, simple, tree, us[k])];
    }
    assert us[..|us|] == us;
    charts := out;
  }

  /** Cross chart j is saved at the path for the j-th value. */
  lemma {:induction false} CrossChartPaths(dir: string, simple: seq<Row>, tree: seq<Row>, us: seq<int>)
    ensures forall j :: 0 <= j < |us| ==>
              CrossChartsOver(dir, simple, tree, us)[j].path == ChartPath(dir, TreeVsSimple, us[j])
  {
    if us != [] {
      var init := us[..|us| - 1];
      CrossChartPaths(dir, simple, tree, init);
      assert forall j :: 0 <= j < |us| - 1 ==> init[j] == us[j];
    }
  }

  /** Some cross chart is saved at path p. */
  ghost predicate SavedAt(cs: seq<CrossChart>, p: ChartPath) {
    exists j :: 0 <= j < |cs| && cs[j].path == p
  }

  /** No two cross charts are saved at the same path. */
  ghost predicate DistinctPaths(cs: seq<CrossChart>) {
    forall j, k :: 0 <= j < k < |cs| ==> cs[j].path != cs[k].path
  }

  /** A cross chart is saved at the path for x exactly when x is one of the
      values, and distinct values give distinct paths. */
  lemma CrossChartsForValues(dir: string, simple: seq<Row>, tree: seq<Row>, us: seq<int>, x: int)
    ensures SavedAt(CrossChartsOver(dir, simple, tree, us), ChartPath(dir, TreeVsSimple, x)) <==> x in us
    ensures Distinct(us) ==> DistinctPaths(CrossChartsOver(dir, simple, tree, us))
  {
    var cs := CrossChartsOver(dir, simple, tree, us);
    CrossChartPaths(dir, simple, tree, us);
    if x in us {
      var j :| 0 <= j < |us| && us[j] == x;
      assert cs[j].path == ChartPath(dir, TreeVsSimple, x);
    }
  }

  /** The cross charts cover exactly the Xstreams values of the tree table,
      each once: a chart is saved at the path for x exactly when the tree
      table has a row with Xstreams x, and no two charts share a path. A
      value found only in the simple table gets no chart. */
  lemma CrossChartsCoverTree(dir: string, simple: seq<Row>, tree: seq<Row>, x: int)
    ensures SavedAt(CrossChartsOver(dir, simple, tree, Unique(XstreamsOf(tree))), ChartPath(dir, TreeVsSimple, x))
            <==> exists i :: 0 <= i < |tree| && tree[i].xstreams == x
    ensures DistinctPaths(CrossChartsOver(dir, simple, tree, Unique(XstreamsOf(tree))))
  {
    var xs := XstreamsOf(tree);
    var us := Unique(xs);
    UniqueSpec(xs);
    XstreamsMember(tree, x);
    CrossChartsForValues(dir, simple, tree, us, x);
  }

  /** A value is among the Xstreams column exactly when some row has it. */
  lemma XstreamsMember(rows: seq<Row>, x: int)
    ensures x in XstreamsOf(rows) <==> exists i :: 0 <= i < |rows| && rows[i].xstreams == x
  {
    if x in XstreamsOf(rows) {
      var i :| 0 <= i < |rows| && XstreamsOf(rows)[i] == x;
      assert rows[i].xstreams == x;
    }
    if exists i :: 0 <= i < |rows| && rows[i].xstreams == x {
      var i :| 0 <= i < |rows| && rows[i].xstreams == x;
      assert XstreamsOf(rows)[i] == x;
    }
  }

  // ---------------------------------------------------------------------
  // The whole script (lines 4-82)

  const TreeCase: string := "argobots_tree_summary"
  const TreeSmallCase: string := "argobots_tree_summary_small"
  const SimpleCase: string := "argobots_simple_summary"
  const SimpleSmallCase: string := "argobots_simple_summary_small"

  /** case_names, in the order the script processes them (line 4). */
  const CaseNames: seq<string> := [TreeCase, TreeSmallCase, SimpleCase, SimpleSmallCase]

  /** The charts saved so far, and whether the script is still running. */
  datatype Progress = Progress(charts: seq<Chart>, running: bool)

  /** Lines 5-47 over the cases names: each case's charts in turn; a case
      without a baseline row raises, and the cases after it are not drawn. */
  function CasesCharts(names: seq<string>, tables: map<string, seq<Row>>): Progress
    requires forall n :: n in names ==> n in tables
  {
    if names == [] then Progress([], true)
    else
      var prev := CasesCharts(names[..|names| - 1], tables);
      if !prev.running then prev
      else
        match CaseCharts(names[|names| - 1], tables[names[|names| - 1]])
        case None => Progress(prev.charts, false)
        case Some(cs) => Progress(prev.charts + cs, true)
  }

  /** Everything the script saves, and whether it ran to the end. */
  datatype Figures = Figures(charts: seq<Chart>, crossCharts: seq<CrossChart>, completed: bool)

  function AllFigures(tables: map<string, seq<Row>>): Figures
    requires forall n :: n in CaseNames ==> n in tables
  {
    var p := CasesCharts(CaseNames, tables);
    if !p.running then Figures(p.charts, [], false)
    else
      var tree, simple := tables[TreeCase], tables[SimpleCase];
      var treeSmall, simpleSmall := tables[TreeSmallCase], tables[SimpleSmallCase];
      Figures(p.charts,
              CrossChartsOver("tree_vs_simple_speedup", simple, tree, Unique(XstreamsOf(tree)))
              + CrossChartsOver("tree_vs_simple_speedup_small", simpleSmall, treeSmall, Unique(XstreamsOf(treeSmall))),
              true)
  }

  /** The script: the four cases, then the two tree-against-simple comparisons.
      The tables are what pd.read_csv gives for each case's CSV file. */
  method BuildGraphs(tables: map<string, seq<Row>>) returns (figs: Figures)
    requires forall n :: n in CaseNames ==> n in tables
    ensures figs == AllFigures(tables)
  {
    var p := PlotCases(CaseNames, tables);
    if !p.running {
      return Figures(p.charts, [], false);
    }
    var cross := PlotCrossRatio("tree_vs_simple_speedup", tables[SimpleCase], tables[TreeCase]);
    var crossSmall := PlotCrossRatio("tree_vs_simple_speedup_small", tables[SimpleSmallCase], tables[TreeSmallCase]);
    figs := Figures(p.charts, cross + crossSmall, true);
  }

  /** Lines 5-47: the loop over the case names, stopping at the first case
      whose table has no baseline row. */
  method PlotCases(names: seq<string>, tables: map<string, seq<Row>>) returns (p: Progress)
    requires forall n :: n in names ==> n in tables
    ensures p == CasesCharts(names, tables)
  {
    var charts: seq<Chart> := [];
    for c := 0 to |names|
      invariant CasesCharts(names[..c], tables) == Progress(charts, true)
    {
      var name := names[c];
      assert names[..c + 1][..c] == names[..c];
      var cs := PlotCase(name, tables[name]);
      if cs.None? {
        CasesStopped(names, tables, c + 1);
        return Progress(charts, false);
      }
      charts := charts + cs.value;
    }
    assert names[..|names|] == names;
    p := Progress(charts, true);
  }

  /** Once a case has raised, later cases change nothing. */
  lemma {:induction false} CasesStopped(names: seq<string>, tables: map<string, seq<Row>>, n: nat)
    requires forall m :: m in names ==> m in tables
    requires n <= |names| && !CasesCharts(names[..n], tables).running
    ensures CasesCharts(names, tables) == CasesCharts(names[..n], tables)
    decreases |names| - n
  {
    if n < |names| {
      assert names[..n + 1][..n] == names[..n];
      CasesStopped(names, tables, n + 1);
    } else {
      assert names[..n] == names;
    }
  }

  /** The script runs to the end exactly when every case's table has a row
      with Xstreams == 1 and Threads == 1. */
  lemma {:induction false} CasesComplete(names: seq<string>, tables: map<string, seq<Row>>)
    requires forall n :: n in names ==> n in tables
    ensures CasesCharts(names, tables).running <==> forall j :: 0 <= j < |names| ==> Baseline(tables[names[j]]).Some?
  {
    if names != [] {
      var init := names[..|names| - 1];
      CasesComplete(init, tables);
      CasesRunningStep(names, tables);
      assert forall j :: 0 <= j < |init| ==> init[j] == names[j];
      if CasesCharts(init, tables).running && Baseline(tables[names[|names| - 1]]).None? {
        assert !(forall j :: 0 <= j < |names| ==> Baseline(tables[names[j]]).Some?) by {
          assert Baseline(tables[names[|names| - 1]]).None?;
        }
      }
    }
  }

  /** One more case keeps the script running exactly when it was running
      and that case's table has a baseline row. */
  lemma CasesRunningStep(names: seq<string>, tables: map<string, seq<Row>>)
    requires names != [] && forall n :: n in names ==> n in tables
    ensures CasesCharts(names, tables).running
            <==> CasesCharts(names[..|names| - 1], tables).running && Baseline(tables[names[|names| - 1]]).Some?
  {
  }
}
