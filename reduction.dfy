/** The integer part of the reduction example
    (argobots_framework/examples/reduction/reduction.c): the check helper,
    the four integer tests and the command-line handling of main.

    The reductions themselves (reduce_sum_int and the others) live in
    abt_reduction.h, which is not part of this model; they are given here
    as left folds that combine every array element into the current value
    of `result`. Every test resets `result` to the operation's identity
    before each call, so a reduction that ignores the incoming value gives
    the same results. */
module Reduction {
  import opened Common

  const NumElems: nat := 1024
  const DefaultNumXstreams: int := 2
  const DefaultNumThreads: int := 8

  /** check_not_equal: 1 when the result differs from the expected value, else 0. */
  function CheckNotEqual(result: int, expected: int): (bad: int)
    ensures bad == 0 || bad == 1
    ensures bad == 1 <==> result != expected
  {
    if result != expected then 1 else 0
  }

  // ---------------------------------------------------------------------
  // The reductions, as folds

  function SumFold(acc: int, s: seq<int>): int
    decreases |s|
  {
    if s == [] then acc else SumFold(acc + s[0], s[1..])
  }

  function ProdFold(acc: int, s: seq<int>): int
    decreases |s|
  {
    if s == [] then acc else ProdFold(acc * s[0], s[1..])
  }

  function MaxFold(acc: int, s: seq<int>): int
    decreases |s|
  {
    if s == [] then acc else MaxFold(Max(acc, s[0]), s[1..])
  }

  function MinFold(acc: int, s: seq<int>): int
    decreases |s|
  {
    if s == [] then acc else MinFold(Min(acc, s[0]), s[1..])
  }

  /** The sum of an array is the sum of its first element and of the rest
      taken from the other end, so the fold adds up the elements whatever
      the order: folding a + b is folding b after a. */
  lemma {:induction false} SumFoldAppend(acc: int, a: seq<int>, b: seq<int>)
    ensures SumFold(acc, a + b) == SumFold(SumFold(acc, a), b)
    decreases |a|
  {
    if a != [] {
      assert (a + b)[1..] == a[1..] + b;
      SumFoldAppend(acc + a[0], a[1..], b);
    } else {
      assert a + b == b;
    }
  }

  /** Adding n copies of v adds n * v. */
  lemma {:induction false} SumFoldConstant(acc: int, s: seq<int>, v: int)
    requires forall i :: 0 <= i < |s| ==> s[i] == v
    ensures SumFold(acc, s) == acc + |s| * v
    decreases |s|
  {
    if s != [] {
      SumFoldConstant(acc + v, s[1..], v);
    }
  }

  /** The sum of 0, 1, ..., n - 1 is n(n - 1)/2. */
  lemma {:induction false} SumFoldIndices(acc: int, s: seq<int>, base: int)
    requires forall i :: 0 <= i < |s| ==> s[i] == base + i
    ensures 2 * SumFold(acc, s) == 2 * acc + |s| * (2 * base + |s| - 1)
    decreases |s|
  {
    if s != [] {
      SumFoldIndices(acc + base, s[1..], base + 1);
    }
  }

  /** The fold's value is at least every element and at least the start
      value, and it is one of them. */
  lemma {:induction false} MaxFoldIsMaximum(acc: int, s: seq<int>)
    ensures forall i :: 0 <= i < |s| ==> s[i] <= MaxFold(acc, s)
    ensures acc <= MaxFold(acc, s)
    ensures MaxFold(acc, s) == acc || exists i :: 0 <= i < |s| && MaxFold(acc, s) == s[i]
    decreases |s|
  {
    if s != [] {
      MaxFoldIsMaximum(Max(acc, s[0]), s[1..]);
      var m := MaxFold(acc, s);
      assert forall i :: 1 <= i < |s| ==> s[i] == s[1..][i - 1];
      if m != Max(acc, s[0]) {
        var i :| 0 <= i < |s[1..]| && m == s[1..][i];
        assert m == s[i + 1];
      }
    }
  }

  /** The fold's value is at most every element and at most the start
      value, and it is one of them. */
  lemma {:induction false} MinFoldIsMinimum(acc: int, s: seq<int>)
    ensures forall i :: 0 <= i < |s| ==> MinFold(acc, s) <= s[i]
    ensures MinFold(acc, s) <= acc
    ensures MinFold(acc, s) == acc || exists i :: 0 <= i < |s| && MinFold(acc, s) == s[i]
    decreases |s|
  {
    if s != [] {
      MinFoldIsMinimum(Min(acc, s[0]), s[1..]);
      var m := MinFold(acc, s);
      assert forall i :: 1 <= i < |s| ==> s[i] == s[1..][i - 1];
      if m != Min(acc, s[0]) {
        var i :| 0 <= i < |s[1..]| && m == s[1..][i];
        assert m == s[i + 1];
      }
    }
  }

  /** Folding the maximum from INT_MIN over 32-bit values gives exactly the
      largest element of a non-empty array. */
  lemma MaxOfArray(s: seq<int>, k: nat)
    requires k < |s| && forall i :: 0 <= i < |s| ==> s[i] <= s[k]
    requires forall i :: 0 <= i < |s| ==> IntMin <= s[i]
    ensures MaxFold(IntMin, s) == s[k]
  {
    MaxFoldIsMaximum(IntMin, s);
  }

  /** Folding the minimum from INT_MAX over 32-bit values gives exactly the
      smallest element of a non-empty array. */
  lemma MinOfArray(s: seq<int>, k: nat)
    requires k < |s| && forall i :: 0 <= i < |s| ==> s[k] <= s[i]
    requires forall i :: 0 <= i < |s| ==> s[i] <= IntMax
    ensures MinFold(IntMax, s) == s[k]
  {
    MinFoldIsMinimum(IntMax, s);
  }

  /** Multiplying by ones changes nothing. */
  lemma {:induction false} ProdFoldOnes(acc: int, s: seq<int>)
    requires forall i :: 0 <= i < |s| ==> s[i] == 1
    ensures ProdFold(acc, s) == acc
    decreases |s|
  {
    if s != [] {
      ProdFoldOnes(acc, s[1..]);
    }
  }

  /** Once the running product is zero it stays zero. */
  lemma {:induction false} ProdFoldZero(s: seq<int>)
    ensures ProdFold(0, s) == 0
  {
    if s != [] {
      ProdFoldZero(s[1..]);
    }
  }

  function Pow2(n: nat): (p: nat)
    ensures p >= 1
  {
    if n == 0 then 1 else 2 * Pow2(n - 1)
  }

  /** base + (base + 1) + ... + (base + n - 1). */
  function ExponentSum(base: nat, n: nat): nat
    decreases n
  {
    if n == 0 then 0 else base + ExponentSum(base + 1, n - 1)
  }

  /** The product of 2^base, 2^(base + 1), ... is 2 raised to the sum of
      the exponents. */
  lemma {:induction false} ProdFoldPowers(acc: int, s: seq<int>, base: nat)
    requires forall i :: 0 <= i < |s| ==> s[i] == Pow2(base + i)
    ensures ProdFold(acc, s) == acc * Pow2(ExponentSum(base, |s|))
    decreases |s|
  {
    if s != [] {
      ProdFoldPowers(acc * Pow2(base), s[1..], base + 1);
      Pow2Add(base, ExponentSum(base + 1, |s| - 1));
    }
  }

  /** 1 * 2 * 4 * 8 * 16 * 32 == 2^15 == 32768. */
  lemma SixPowers()
    ensures Pow2(ExponentSum(0, 6)) == 32768
  {
    assert ExponentSum(0, 6) == 15;
    Pow2Add(5, 10);
    Pow2Add(5, 5);
    assert Pow2(5) == 32;
  }

  lemma {:induction false} Pow2Add(a: nat, b: nat)
    ensures Pow2(a + b) == Pow2(a) * Pow2(b)
  {
    if a > 0 {
      Pow2Add(a - 1, b);
    }
  }

  lemma {:induction false} ProdFoldAppend(acc: int, a: seq<int>, b: seq<int>)
    ensures ProdFold(acc, a + b) == ProdFold(ProdFold(acc, a), b)
    decreases |a|
  {
    if a != [] {
      assert (a + b)[1..] == a[1..] + b;
      ProdFoldAppend(acc * a[0], a[1..], b);
    } else {
      assert a + b == b;
    }
  }

  // ---------------------------------------------------------------------
  // The integer tests, as written: fill the array, reduce, check, reset

  /** test_sum_int (lines 40-101): all zeroes, one 123 among zeroes, all
      ones, and 0..1023; no check fails. */
  method TestSumInt() returns (badTests: int)
    ensures badTests == 0
  {
    badTests := 0;
    var a := new int[NumElems];
    var result := 0;

    for idx := 0 to NumElems
      invariant forall j :: 0 <= j < idx ==> a[j] == 0
    {
      a[idx] := 0;
    }
    SumFoldConstant(result, a[..], 0);
    result := SumFold(result, a[..]);
    badTests := badTests + CheckNotEqual(result, 0);
    result := 0;

    a[0] := 123;
    assert a[..] == [123] + a[1..];
    SumFoldConstant(result + 123, a[1..], 0);
    result := SumFold(result, a[..]);
    badTests := badTests + CheckNotEqual(result, 123);
    result := 0;

    for idx := 0 to NumElems
      invariant forall j :: 0 <= j < idx ==> a[j] == 1
    {
      a[idx] := 1;
    }
    SumFoldConstant(result, a[..], 1);
    result := SumFold(result, a[..]);
    badTests := badTests + CheckNotEqual(result, NumElems);
    result := 0;

    for idx := 0 to NumElems
      invariant forall j :: 0 <= j < idx ==> a[j] == j
    {
      a[idx] := idx;
    }
    SumFoldIndices(result, a[..], 0);
    result := SumFold(result, a[..]);
    badTests := badTests + CheckNotEqual(result, (NumElems * (NumElems - 1)) / 2);
    result := 0;
  }

  /** A list that is v followed by ones has product v. */
  lemma ProdFoldLeadThenOnes(s: seq<int>)
    requires |s| > 0 && forall j :: 1 <= j < |s| ==> s[j] == 1
    ensures ProdFold(1, s) == s[0]
  {
    ProdFoldOnes(s[0], s[1..]);
  }

  /** 1, 2, 4, 8, 16, 32 followed by ones has product 2^15. */
  lemma PowersThenOnes(s: seq<int>)
    requires |s| >= 6
    requires forall j :: 0 <= j < 6 ==> s[j] == Pow2(j)
    requires forall j :: 6 <= j < |s| ==> s[j] == 1
    ensures ProdFold(1, s) == 32768
  {
    assert s == s[..6] + s[6..];
    ProdFoldAppend(1, s[..6], s[6..]);
    ProdFoldPowers(1, s[..6], 0);
    SixPowers();
    ProdFoldOnes(32768, s[6..]);
  }

  /** test_prod_int (lines 166-228): all ones, one 123 among ones, one zero
      among ones, and 1, 2, 4, 8, 16, 32 then ones; no check fails. */
  method TestProdInt() returns (badTests: int)
    ensures badTests == 0
  {
    badTests := 0;
    var a := new int[NumElems];
    var result := 1;

    for idx := 0 to NumElems
      invariant forall j :: 0 <= j < idx ==> a[j] == 1
    {
      a[idx] := 1;
    }
    ProdFoldOnes(result, a[..]);
    result := ProdFold(result, a[..]);
    badTests := badTests + CheckNotEqual(result, 1);
    result := 1;

    a[0] := 123;
    ProdFoldLeadThenOnes(a[..]);
    result := ProdFold(result, a[..]);
    badTests := badTests + CheckNotEqual(result, 123);
    result := 1;

    a[0] := 0;
    ProdFoldLeadThenOnes(a[..]);
    result := ProdFold(result, a[..]);
    badTests := badTests + CheckNotEqual(result, 0);
    result := 1;

    for idx := 0 to 6
      invariant forall j :: 0 <= j < idx ==> a[j] == Pow2(j)
      invariant forall j :: 6 <= j < NumElems ==> a[j] == 1
    {
      a[idx] := Pow2(idx);
    }
    for idx := 6 to NumElems
      invariant forall j :: 0 <= j < 6 ==> a[j] == Pow2(j)
      invariant forall j :: 6 <= j < idx ==> a[j] == 1
    {
      a[idx] := 1;
    }
    PowersThenOnes(a[..]);
    result := ProdFold(result, a[..]);
    badTests := badTests + CheckNotEqual(result, 32768);
    result := 1;
  }

  /** test_max_int (lines 294-364): all ones, 123 first, 0 first, 0..1023,
      and INT_MAX first; no check fails. */
  method TestMaxInt() returns (badTests: int)
    ensures badTests == 0
  {
    badTests := 0;
    var a := new int[NumElems];
    var result := IntMin;

    for idx := 0 to NumElems
      invariant forall j :: 0 <= j < idx ==> a[j] == 1
    {
      a[idx] := 1;
    }
    MaxOfArray(a[..], 0);
    result := MaxFold(result, a[..]);
    badTests := badTests + CheckNotEqual(result, 1);
    result := IntMin;

    a[0] := 123;
    MaxOfArray(a[..], 0);
    result := MaxFold(result, a[..]);
    badTests := badTests + CheckNotEqual(result, 123);
    result := IntMin;

    a[0] := 0;
    MaxOfArray(a[..], 1);
    result := MaxFold(result, a[..]);
    badTests := badTests + CheckNotEqual(result, 1);
    result := IntMin;

    for idx := 0 to NumElems
      invariant forall j :: 0 <= j < idx ==> a[j] == j
    {
      a[idx] := idx;
    }
    MaxOfArray(a[..], NumElems - 1);
    result := MaxFold(result, a[..]);
    badTests := badTests + CheckNotEqual(result, NumElems - 1);
    result := IntMin;

    a[0] := IntMax;
    MaxOfArray(a[..], 0);
    result := MaxFold(result, a[..]);
    badTests := badTests + CheckNotEqual(result, IntMax);
    result := IntMin;
  }

  /** test_min_int (lines 438-508): all ones, 123 first, 0 first, 0..1023,
      and INT_MIN first; no check fails. */
  method TestMinInt() returns (badTests: int)
    ensures badTests == 0
  {
    badTests := 0;
    var a := new int[NumElems];
    var result := IntMax;

    for idx := 0 to NumElems
      invariant forall j :: 0 <= j < idx ==> a[j] == 1
    {
      a[idx] := 1;
    }
    MinOfArray(a[..], 0);
    result := MinFold(result, a[..]);
    badTests := badTests + CheckNotEqual(result, 1);
    result := IntMax;

    a[0] := 123;
    MinOfArray(a[..], 1);
    result := MinFold(result, a[..]);
    badTests := badTests + CheckNotEqual(result, 1);
    result := IntMax;

    a[0] := 0;
    MinOfArray(a[..], 0);
    result := MinFold(result, a[..]);
    badTests := badTests + CheckNotEqual(result, 0);
    result := IntMax;

    for idx := 0 to NumElems
      invariant forall j :: 0 <= j < idx ==> a[j] == j
    {
      a[idx] := idx;
    }
    MinOfArray(a[..], 0);
    result := MinFold(result, a[..]);
    badTests := badTests + CheckNotEqual(result, 0);
    result := IntMax;

    a[0] := IntMin;
    MinOfArray(a[..], 0);
    result := MinFold(result, a[..]);
    badTests := badTests + CheckNotEqual(result, IntMin);
    result := IntMax;
  }

  /** The integer tests of test_different_reductions (lines 582-595),
      summed; the float tests are not part of this model. */
  method TestIntReductions() returns (badTests: int)
    ensures badTests == 0
  {
    badTests := 0;
    var b := TestSumInt();
    badTests := badTests + b;
    b := TestProdInt();
    badTests := badTests + b;
    b := TestMaxInt();
    badTests := badTests + b;
    b := TestMinInt();
    badTests := badTests + b;
  }

  /** The partial sums of 0..1023 all fit in a 32-bit int, so the progression
      test cannot overflow. */
  lemma ProgressionFitsInInt(s: seq<int>, k: nat)
    requires |s| == NumElems && forall i :: 0 <= i < |s| ==> s[i] == i
    requires k <= |s|
    ensures 0 <= SumFold(0, s[..k]) <= IntMax
  {
    SumFoldIndices(0, s[..k], 0);
    assert k * (k - 1) <= 1024 * 1023 by {
      MulMonotone(k, k - 1, 1023);
      MulMonotone(1023, k, 1024);
    }
  }

  lemma MulMonotone(x: nat, y: int, z: int)
    requires y <= z
    ensures x * y <= x * z
  {
  }

  // ---------------------------------------------------------------------
  // Command line (lines 598-625, 658-662)

  /** One option as getopt returns it; atoi's result stands in for the argument text. */
  datatype Opt = Xstreams(count: int) | Threads(count: int) | Help | Unknown

  /** The counts main runs with: None is the usage message and exit code -1. */
  function ParseOptions(opts: seq<Opt>): Option<(int, int)> {
    ParseFrom(opts, DefaultNumXstreams, DefaultNumThreads)
  }

  function ParseFrom(opts: seq<Opt>, xstreams: int, threads: int): Option<(int, int)>
    decreases |opts|
  {
    if opts == [] then Some((ClampCount(xstreams), ClampCount(threads)))
    else
      match opts[0]
      case Xstreams(n) => ParseFrom(opts[1..], n, threads)
      case Threads(n) => ParseFrom(opts[1..], xstreams, n)
      case Help => None
      case Unknown => None
  }

  /** A count that is zero or negative becomes 1 (lines 622-625). */
  function ClampCount(n: int): (c: int)
    ensures c >= 1
    ensures n <= 0 ==> c == 1
    ensures n >= 1 ==> c == n
  {
    if n <= 0 then 1 else n
  }

  /** Whether o is an -e option (forXstreams) or an -n option. */
  predicate Sets(o: Opt, forXstreams: bool) {
    if forXstreams then o.Xstreams? else o.Threads?
  }

  /** opts[i] is the last -e (forXstreams) or -n option of the command line. */
  predicate LastSetting(opts: seq<Opt>, i: int, forXstreams: bool) {
    0 <= i < |opts| && Sets(opts[i], forXstreams)
    && forall j :: i < j < |opts| ==> !Sets(opts[j], forXstreams)
  }

  /** Without options main runs 2 execution streams and 8 threads; -h or an
      unknown option stops it; otherwise the last -e and the last -n win,
      with a non-positive count replaced by 1. */
  lemma {:induction false} ParseFromSpec(opts: seq<Opt>, xstreams: int, threads: int)
    ensures ParseFrom(opts, xstreams, threads).None? <==> exists i :: 0 <= i < |opts| && (opts[i].Help? || opts[i].Unknown?)
    ensures ParseFrom(opts, xstreams, threads).Some? ==>
              var (x, t) := ParseFrom(opts, xstreams, threads).value;
              x >= 1 && t >= 1
              && (forall i :: LastSetting(opts, i, true) ==> x == ClampCount(opts[i].count))
              && ((forall i :: 0 <= i < |opts| ==> !opts[i].Xstreams?) ==> x == ClampCount(xstreams))
              && (forall i :: LastSetting(opts, i, false) ==> t == ClampCount(opts[i].count))
              && ((forall i :: 0 <= i < |opts| ==> !opts[i].Threads?) ==> t == ClampCount(threads))
    decreases |opts|
  {
    if opts != [] {
      var tail := opts[1..];
      ParseFromSpec(tail, if opts[0].Xstreams? then opts[0].count else xstreams,
                    if opts[0].Threads? then opts[0].count else threads);
      assert forall i :: 1 <= i < |opts| ==> opts[i] == tail[i - 1];
      if opts[0].Help? || opts[0].Unknown? {
        assert 0 < |opts| && (opts[0].Help? || opts[0].Unknown?);
      } else {
        LastSettingTail(opts, true);
        LastSettingTail(opts, false);
      }
    }
  }

  /** The last setting of a non-empty command line is the first option when
      the rest sets nothing, and otherwise the last setting of the rest. */
  lemma LastSettingTail(opts: seq<Opt>, forXstreams: bool)
    requires opts != []
    ensures forall i :: LastSetting(opts, i, forXstreams) && i > 0 ==> LastSetting(opts[1..], i - 1, forXstreams)
    ensures LastSetting(opts, 0, forXstreams) ==> forall i :: 0 <= i < |opts[1..]| ==> !Sets(opts[1..][i], forXstreams)
  {
    assert forall i :: 1 <= i < |opts| ==> opts[i] == opts[1..][i - 1];
  }

  lemma DefaultCounts()
    ensures ParseOptions([]) == Some((2, 8))
  {
  }

  /** main's exit status: -1 after the usage message or when any test
      failed, 0 otherwise. */
  function ExitStatus(opts: seq<Opt>, failedTests: int): (status: int)
    ensures status == 0 || status == -1
    ensures status == 0 <==> ParseOptions(opts).Some? && failedTests <= 0
  {
    if ParseOptions(opts).None? then -1
    else if failedTests > 0 then -1
    else 0
  }
}
