/** The benchmark log aggregator (scripts/parse_raw_results_argobots.py):
    it reads every ".txt" file of a directory, pulls labelled fields out of
    each, drops unverified runs with a diagnostic, groups the elapsed times
    by (class, xstreams, threads) and reports each group's mean, rounded to
    two places, in ascending key order.

    The directory listing and the file reads are parameters: the script's
    input is the sequence of (name, content) entries that os.listdir and
    file.read() would give, in listing order. */
module LogAggregator {
  import opened Common
  import opened LogPatterns

  datatype DirEntry = DirEntry(name: string, content: string)

  /** The fields of one log file (lines 25-37); every field may be absent. */
  datatype LogRecord = LogRecord(
    cls: Option<string>,
    xstreams: Option<nat>,
    threads: Option<nat>,
    initTime: Option<string>,
    verified: bool,
    timeText: Option<string>)

  /** The grouping key, a Python tuple (class, xstreams, threads). */
  datatype Key = Key(cls: Option<string>, xstreams: Option<nat>, threads: Option<nat>)

  /** Why the script stops with an exception instead of printing its report. */
  datatype Crash =
    | TimeMissing(file: string)             // float(None): TypeError
    | TimeMalformed(file: string, text: string)  // float("1.2.3"): ValueError
    | Unorderable                           // sorted() compares None with a value: TypeError

  const LogSuffix: string := ".txt"

  /** int(m.group(1)) if m else None, for the xstreams and threads labels. */
  function CountField(content: string, tag: string): (r: Option<nat>)
    ensures r.Some? <==> Search(content, [Lit(tag), Spaces, Capture(Digit)]).Some?
  {
    LabelledGroupInClass(content, tag, Digit);
    match SearchGroup(content, [Lit(tag), Spaces, Capture(Digit)])
    case None => None
    case Some(g) => Some(DecimalValue(g))
  }

  /** int() of the captured digits reads back the number written after the
      first occurrence of the label followed by white space and digits, at
      whatever offset it is in the file. */
  lemma CountFieldReadsNumber(pre: string, tag: string, ws: string, n: nat, rest: string)
    requires |ws| > 0 && forall q :: 0 <= q < |ws| ==> IsSpace(ws[q])
    requires rest == [] || !IsDigit(rest[0])
    requires NoMatchBetween(pre + tag + ws + NatToDecimal(n) + rest, [Lit(tag), Spaces, Capture(Digit)], 0, |pre|)
    ensures CountField(pre + tag + ws + NatToDecimal(n) + rest, tag) == Some(n)
  {
    LabelledNumber(pre, tag, ws, n, rest);
    DecimalRoundTrip(n);
  }

  /** The record the script builds from a file's content. */
  function Extract(content: string): LogRecord {
    LogRecord(
      SearchGroup(content, ClassPattern),
      CountField(content, XstreamsLabel),
      CountField(content, ThreadsLabel),
      SearchGroup(content, InitTimePattern),
      Search(content, VerificationPattern).Some?,
      SearchGroup(content, TimePattern))
  }

  function KeyOf(r: LogRecord): Key {
    Key(r.cls, r.xstreams, r.threads)
  }

  /** The first index of c in s, if any. */
  function IndexOf(s: string, c: char): (r: Option<nat>)
    ensures r.None? <==> c !in s
    ensures r.Some? ==> r.value < |s| && s[r.value] == c && c !in s[..r.value]
  {
    if s == [] then None
    else if s[0] == c then Some(0)
    else
      match IndexOf(s[1..], c)
      case None => None
      case Some(i) => assert s[..i + 1] == [s[0]] + s[1..][..i]; Some(i + 1)
  }

  function Pow10(n: nat): (r: nat)
    ensures r >= 1
  {
    if n == 0 then 1 else 10 * Pow10(n - 1)
  }

  /** Python's float() on the captured text: digits with at most one dot
      and at least one digit; anything else raises ValueError (None here). */
  function ParseDecimal(t: string): (r: Option<real>)
  {
    match IndexOf(t, '.')
    case None =>
      if |t| > 0 && AllDigits(t) then Some(DecimalValue(t) as real) else None
    case Some(p) =>
      var whole, frac := t[..p], t[p + 1..];
      if |whole| + |frac| > 0 && AllDigits(whole) && AllDigits(frac)
      then Some(DecimalValue(whole) as real + DecimalValue(frac) as real / Pow10(|frac|) as real)
      else None
  }

  /** The float the script would read for a verified file, or the crash it would raise. */
  datatype Seconds = Seconds(value: real) | Fails(crash: Crash)

  function ReadSeconds(name: string, text: Option<string>): Seconds {
    match text
    case None => Fails(TimeMissing(name))
    case Some(t) =>
      match ParseDecimal(t)
      case None => Fails(TimeMalformed(name, t))
      case Some(v) => Seconds(v)
  }

  function Diagnostic(name: string): string {
    "Verification failed on " + name
  }

  /** The script's state after some directory entries: time_dict (a map with
      its keys in insertion order), the diagnostics printed so far, and the
      exception that ended the loop, if one did. */
  datatype Scan = Scan(groups: map<Key, seq<real>>, order: seq<Key>, diagnostics: seq<string>, crash: Option<Crash>)

  const Start: Scan := Scan(map[], [], [], None)

  /** time_dict[key].append(v) on a defaultdict(list). */
  function Append(st: Scan, k: Key, v: real): Scan {
    if k in st.groups then st.(groups := st.groups[k := st.groups[k] + [v]])
    else st.(groups := st.groups[k := [v]], order := st.order + [k])
  }

  /** What the loop body makes of one directory entry. */
  datatype Outcome =
    | Skipped                    // not a ".txt" file
    | Unverified                 // no success marker: one diagnostic
    | Timed(key: Key, v: real)   // a time for key
    | Raised(crash: Crash)       // float() raised

  function Classify(e: DirEntry): Outcome {
    if !EndsWith(e.name, LogSuffix) then Skipped
    else
      var r := Extract(e.content);
      if !r.verified then Unverified
      else
        match ReadSeconds(e.name, r.timeText)
        case Fails(c) => Raised(c)
        case Seconds(v) => Timed(KeyOf(r), v)
  }

  /** One pass of the loop body (lines 18-44) over one directory entry. */
  function Step(st: Scan, e: DirEntry): Scan {
    Apply(st, e.name, Classify(e))
  }

  /** The effect of an entry named name whose outcome is c. */
  function Apply(st: Scan, name: string, c: Outcome): Scan {
    if st.crash.Some? then st
    else
      match c
      case Skipped => st
      case Unverified => st.(diagnostics := st.diagnostics + [Diagnostic(name)])
      case Raised(x) => st.(crash := Some(x))
      case Timed(k, v) => Append(st, k, v)
  }

  /** The state after the loop has seen all of es, in order. */
  function ScanAll(es: seq<DirEntry>): Scan {
    if es == [] then Start else Step(ScanAll(es[..|es| - 1]), es[|es| - 1])
  }

  /** The loop of lines 18-44: appends every verified log file's time to its
      key's list, prints a diagnostic for every unverified one, and stops at
      the first verified file whose time cannot be read as a float. */
  method AggregateLogs(es: seq<DirEntry>) returns (st: Scan)
    ensures st == ScanAll(es)
  {
    st := Start;
    var i := 0;
    while i < |es|
      invariant i <= |es|
      invariant ScanAll(es[..i]) == st && st.crash.None?
    {
      assert es[..i + 1][..i] == es[..i];
      st := VisitEntry(st, es[i]);
      if st.crash.Some? {
        CrashIsFinal(es, i + 1);
        return;
      }
      i := i + 1;
    }
    assert es[..i] == es;
  }

  /** The loop body for one directory entry, on a state that has not raised. */
  method VisitEntry(st: Scan, e: DirEntry) returns (st': Scan)
    requires st.crash.None?
    ensures st' == Step(st, e)
  {
    st' := st;
    if EndsWith(e.name, LogSuffix) {
      var r := Extract(e.content);
      if !r.verified {
        st' := st.(diagnostics := st.diagnostics + [Diagnostic(e.name)]);
      } else {
        var t := ReadSeconds(e.name, r.timeText);
        if t.Fails? {
          st' := st.(crash := Some(t.crash));
        } else {
          var k := KeyOf(r);
          if k in st.groups {
            st' := st.(groups := st.groups[k := st.groups[k] + [t.value]]);
          } else {
            st' := st.(groups := st.groups[k := [t.value]], order := st.order + [k]);
          }
        }
      }
    }
  }

  /** Once an exception is raised, no later entry changes the outcome. */
  lemma {:induction false} CrashIsFinal(es: seq<DirEntry>, n: nat)
    requires n <= |es| && ScanAll(es[..n]).crash.Some?
    ensures ScanAll(es) == ScanAll(es[..n])
    decreases |es| - n
  {
    if n < |es| {
      assert es[..n + 1][..n] == es[..n];
      CrashIsFinal(es, n + 1);
    } else {
      assert es[..n] == es;
    }
  }

  // ---------------------------------------------------------------------
  // What one entry does (lines 18-44)

  /** An entry whose name does not end in ".txt" is skipped without effect. */
  lemma NonLogFileSkipped(st: Scan, e: DirEntry)
    requires !EndsWith(e.name, LogSuffix)
    ensures Step(st, e) == st
  {
  }

  /** A log file without the success marker adds nothing to the table and
      prints exactly one diagnostic naming the file. */
  lemma UnverifiedFileReported(st: Scan, e: DirEntry)
    requires st.crash.None? && EndsWith(e.name, LogSuffix)
    requires !LiteralOccurs(e.content, VerificationMarker)
    ensures Step(st, e) == st.(diagnostics := st.diagnostics + ["Verification failed on " + e.name])
  {
    LiteralSearch(e.content, VerificationMarker);
  }

  predicate LiteralOccurs(s: string, t: string) {
    exists p :: 0 <= p <= |s| && LitAt(s, p, t)
  }

  /** A verified log file whose time reads as v appends exactly v to the
      list of its own key; every other key's list, and the diagnostics, stay as they were. */
  lemma VerifiedFileAppends(st: Scan, e: DirEntry, v: real)
    requires st.crash.None? && EndsWith(e.name, LogSuffix)
    requires LiteralOccurs(e.content, VerificationMarker)
    requires ReadSeconds(e.name, Extract(e.content).timeText) == Seconds(v)
    ensures var k := KeyOf(Extract(e.content));
            var st' := Step(st, e);
            st'.crash.None? && st'.diagnostics == st.diagnostics
            && k in st'.groups && st'.groups[k] == (if k in st.groups then st.groups[k] else []) + [v]
            && forall k' :: k' != k ==>
                 (k' in st'.groups <==> k' in st.groups)
                 && (k' in st.groups ==> st'.groups[k'] == st.groups[k'])
  {
    LiteralSearch(e.content, VerificationMarker);
  }

  /** A verified log file without a "Time in seconds =" value ends the run
      with a TypeError (float(None)). */
  lemma MissingTimeCrashes(st: Scan, e: DirEntry)
    requires st.crash.None? && EndsWith(e.name, LogSuffix)
    requires LiteralOccurs(e.content, VerificationMarker)
    requires Search(e.content, TimePattern).None?
    ensures Step(st, e) == st.(crash := Some(TimeMissing(e.name)))
  {
    LiteralSearch(e.content, VerificationMarker);
  }

  /** The initialization time is read but plays no part: two files that
      differ only in it have the same effect. */
  lemma InitTimeIgnored(st: Scan, e1: DirEntry, e2: DirEntry)
    requires e1.name == e2.name
    requires Extract(e1.content).(initTime := None) == Extract(e2.content).(initTime := None)
    ensures Step(st, e1) == Step(st, e2)
  {
  }

  // ---------------------------------------------------------------------
  // The table after the whole directory

  /** A verified log file whose time cannot be read: the script raises on it. */
  predicate Fatal(e: DirEntry) {
    Classify(e).Raised?
  }

  /** What entry e contributes to key k's list. */
  function Contribution(e: DirEntry, k: Key): seq<real> {
    Share(Classify(e), k)
  }

  /** What an entry with outcome c contributes to key k's list. */
  function Share(c: Outcome, k: Key): seq<real> {
    match c
    case Timed(k', v) => if k' == k then [v] else []
    case _ => []
  }

  /** The times of key k, file by file in listing order: an independent
      statement of what time_dict[k] holds at the end. */
  function TimesFor(es: seq<DirEntry>, k: Key): seq<real> {
    if es == [] then [] else TimesFor(es[..|es| - 1], k) + Contribution(es[|es| - 1], k)
  }

  /** time_dict's shape: its keys in insertion order, each once, each list non-empty. */
  ghost predicate WellFormed(st: Scan) {
    (forall i, j :: 0 <= i < j < |st.order| ==> st.order[i] != st.order[j])
    && (forall k :: k in st.groups <==> k in st.order)
    && (forall k :: k in st.groups ==> |st.groups[k]| > 0)
  }

  /** st's table is the one TimesFor describes for the entries es. */
  ghost predicate Agrees(st: Scan, es: seq<DirEntry>) {
    forall k :: (k in st.groups <==> TimesFor(es, k) != [])
              && (k in st.groups ==> st.groups[k] == TimesFor(es, k))
  }

  /** The run ends with an exception exactly when some verified log file
      has no readable time. */
  lemma {:induction false} ScanAllCrash(es: seq<DirEntry>)
    ensures ScanAll(es).crash.None? <==> forall i :: 0 <= i < |es| ==> !Fatal(es[i])
    ensures ScanAll(es).crash != Some(Unorderable)
  {
    if es != [] {
      var init, e := es[..|es| - 1], es[|es| - 1];
      ScanAllCrash(init);
      StepCrash(ScanAll(init), e);
      assert forall i :: 0 <= i < |init| ==> init[i] == es[i];
      if ScanAll(init).crash.None? && Fatal(e) {
        assert !(forall i :: 0 <= i < |es| ==> !Fatal(es[i])) by {
          assert Fatal(es[|es| - 1]);
        }
      }
    }
  }

  /** One entry raises exactly when it is fatal and nothing raised before;
      the loop itself never raises the sort's TypeError. */
  lemma StepCrash(st: Scan, e: DirEntry)
    ensures Step(st, e).crash.None? <==> st.crash.None? && !Fatal(e)
    ensures st.crash != Some(Unorderable) ==> Step(st, e).crash != Some(Unorderable)
  {
  }

  /** One entry that does not crash keeps the table well formed and in
      agreement with TimesFor. */
  lemma StepAgrees(st: Scan, init: seq<DirEntry>, e: DirEntry)
    requires st.crash.None? && WellFormed(st) && Agrees(st, init) && !Fatal(e)
    ensures Step(st, e).crash.None? && WellFormed(Step(st, e)) && Agrees(Step(st, e), init + [e])
  {
    var es := init + [e];
    forall k ensures TimesFor(es, k) == TimesFor(init, k) + Share(Classify(e), k) {
      assert es[..|es| - 1] == init;
    }
    ApplyAgrees(st, init, es, e.name, Classify(e));
  }

  /** An outcome other than an exception keeps the table well formed and
      moves it from agreeing with one listing to agreeing with a listing
      that adds that outcome's share to every key. */
  lemma ApplyAgrees(st: Scan, before: seq<DirEntry>, after: seq<DirEntry>, name: string, c: Outcome)
    requires st.crash.None? && WellFormed(st) && Agrees(st, before) && !c.Raised?
    requires forall k :: TimesFor(after, k) == TimesFor(before, k) + Share(c, k)
    ensures Apply(st, name, c).crash.None? && WellFormed(Apply(st, name, c)) && Agrees(Apply(st, name, c), after)
  {
    var st' := Apply(st, name, c);
    if c.Timed? {
      AppendGroups(st, c.key, c.v);
      forall k ensures (k in st'.groups <==> TimesFor(after, k) != [])
                       && (k in st'.groups ==> st'.groups[k] == TimesFor(after, k)) {
        AppendKey(st, c.key, c.v, k, TimesFor(before, k), TimesFor(after, k));
      }
    } else {
      assert forall k :: Share(c, k) == [];
    }
  }

  /** Key k' of the table agrees with a list before appending to key k
      exactly when it agrees with that list extended by v (for k' == k)
      afterwards. */
  lemma AppendKey(st: Scan, k: Key, v: real, k': Key, before: seq<real>, after: seq<real>)
    requires (k' in st.groups <==> before != []) && (k' in st.groups ==> st.groups[k'] == before)
    requires after == before + (if k' == k then [v] else [])
    ensures (k' in Append(st, k, v).groups <==> after != [])
            && (k' in Append(st, k, v).groups ==> Append(st, k, v).groups[k'] == after)
  {
  }

  /** Appending v to key k keeps time_dict well formed, gives k its old
      list plus v, and leaves every other key as it was. */
  lemma AppendGroups(st: Scan, k: Key, v: real)
    requires WellFormed(st)
    ensures var st' := Append(st, k, v);
            WellFormed(st') && st'.crash == st.crash && st'.diagnostics == st.diagnostics
            && (forall k' :: k' in st'.groups <==> k' in st.groups || k' == k)
            && k in st'.groups && st'.groups[k] == (if k in st.groups then st.groups[k] else []) + [v]
            && forall k' :: k' != k && k' in st.groups ==> st'.groups[k'] == st.groups[k']
  {
    var st' := Append(st, k, v);
    if k !in st.groups {
      forall i, j | 0 <= i < j < |st'.order| ensures st'.order[i] != st'.order[j] {
        if j == |st.order| {
          assert st'.order[i] == st.order[i] && st.order[i] in st.order;
        } else {
          assert st'.order[i] == st.order[i] && st'.order[j] == st.order[j];
        }
      }
      forall k' ensures k' in st'.groups <==> k' in st'.order {
        assert k' in st'.order <==> k' in st.order || k' == k;
      }
    }
  }

  /** Without an exception, the table is well formed and key k's list is
      exactly TimesFor(es, k), present precisely when that is non-empty. */
  lemma {:induction false} ScanAllGroups(es: seq<DirEntry>)
    requires ScanAll(es).crash.None?
    ensures WellFormed(ScanAll(es)) && Agrees(ScanAll(es), es)
  {
    if es != [] {
      var init, e := es[..|es| - 1], es[|es| - 1];
      assert ScanAll(init).crash.None?;
      ScanAllGroups(init);
      ScanAllCrash(es);
      assert !Fatal(es[|es| - 1]);
      assert init + [e] == es;
      StepAgrees(ScanAll(init), init, e);
    }
  }

  lemma ScanAllWellFormed(es: seq<DirEntry>)
    requires ScanAll(es).crash.None?
    ensures WellFormed(ScanAll(es))
  {
    ScanAllGroups(es);
  }

  /** TimesFor distributes over concatenation of listings. */
  lemma {:induction false} TimesForAppend(a: seq<DirEntry>, b: seq<DirEntry>, k: Key)
    ensures TimesFor(a + b, k) == TimesFor(a, k) + TimesFor(b, k)
    decreases |b|
  {
    if b != [] {
      var b', x := b[..|b| - 1], b[|b| - 1];
      assert (a + b)[..|a + b| - 1] == a + b';
      TimesForAppend(a, b', k);
    } else {
      assert a + b == a;
    }
  }

  /** Removing the same element from both sides of a permutation leaves a permutation. */
  lemma RemoveFromPermutation<T>(a: seq<T>, b: seq<T>, j: nat)
    requires multiset(a) == multiset(b) && |a| > 0 && j < |b| && b[j] == a[|a| - 1]
    ensures multiset(a[..|a| - 1]) == multiset(b[..j] + b[j + 1..])
  {
    var a', x, b1, b2 := a[..|a| - 1], a[|a| - 1], b[..j], b[j + 1..];
    assert a == a' + [x];
    assert b == b1 + [x] + b2;
    assert multiset(b) == multiset(b1) + multiset{x} + multiset(b2);
    assert multiset(a) == multiset(a') + multiset{x};
    assert multiset(b1 + b2) == multiset(b1) + multiset(b2);
    forall y ensures multiset(a')[y] == multiset(b1 + b2)[y] {
      assert multiset(a)[y] == multiset(b)[y];
    }
  }

  /** The times of a listing split around one entry. */
  lemma TimesForAround(b1: seq<DirEntry>, x: DirEntry, b2: seq<DirEntry>, k: Key)
    ensures TimesFor(b1 + [x] + b2, k) == TimesFor(b1, k) + Contribution(x, k) + TimesFor(b2, k)
  {
    TimesForAppend(b1 + [x], b2, k);
    assert (b1 + [x])[..|b1 + [x]| - 1] == b1;
  }

  /** Listing the same files in another order gives every key the same
      multiset of times (the listing order of os.listdir is unspecified). */
  lemma {:induction false} TimesForPermutation(a: seq<DirEntry>, b: seq<DirEntry>, k: Key)
    requires multiset(a) == multiset(b)
    ensures multiset(TimesFor(a, k)) == multiset(TimesFor(b, k))
    decreases |a|
  {
    if a == [] {
      assert b == [] by { assert |multiset(b)| == 0; }
    } else {
      var a', x := a[..|a| - 1], a[|a| - 1];
      assert x in multiset(b);
      var j :| 0 <= j < |b| && b[j] == x;
      var b1, b2 := b[..j], b[j + 1..];
      assert b == b1 + [x] + b2;
      RemoveFromPermutation(a, b, j);
      TimesForPermutation(a', b1 + b2, k);
      TimesForAppend(b1, b2, k);
      TimesForAround(b1, x, b2, k);
      assert TimesFor(a, k) == TimesFor(a', k) + Contribution(x, k);
      SpliceSameMultiset(TimesFor(a', k), Contribution(x, k), TimesFor(b1, k), TimesFor(b2, k));
    }
  }

  /** Putting c at the end of one list and between the two parts of a
      rearrangement of it gives rearrangements of each other. */
  lemma SpliceSameMultiset(p: seq<real>, c: seq<real>, q1: seq<real>, q2: seq<real>)
    requires multiset(p) == multiset(q1 + q2)
    ensures multiset(p + c) == multiset(q1 + c + q2)
  {
  }

  // ---------------------------------------------------------------------
  // Ordering the keys (line 46): Python 3 tuple comparison

  /** The outcome of comparing two values; Unordered is the TypeError that
      `<` raises between None and a string or an int. */
  datatype Order = Less | Same | Greater | Unordered {
    function Flip(): Order {
      match this
      case Less => Greater
      case Greater => Less
      case other => other
    }
  }

  /** String comparison: lexicographic by code point, a proper prefix first. */
  function CompareText(a: string, b: string): (o: Order)
    ensures o != Unordered
    decreases |a|
  {
    if a == [] then (if b == [] then Same else Less)
    else if b == [] then Greater
    else if a[0] < b[0] then Less
    else if a[0] > b[0] then Greater
    else CompareText(a[1..], b[1..])
  }

  function CompareNat(a: nat, b: nat): Order {
    if a < b then Less else if a > b then Greater else Same
  }

  /** A tuple field that may be None: equal values compare Same (tuple
      comparison checks == first); None against a value is Unordered. */
  function CompareOptText(a: Option<string>, b: Option<string>): Order {
    match (a, b)
    case (None, None) => Same
    case (Some(x), Some(y)) => CompareText(x, y)
    case _ => Unordered
  }

  function CompareOptNat(a: Option<nat>, b: Option<nat>): Order {
    match (a, b)
    case (None, None) => Same
    case (Some(x), Some(y)) => CompareNat(x, y)
    case _ => Unordered
  }

  /** Lexicographic: the first field that is not Same decides. */
  function Then(first: Order, rest: Order): Order {
    if first == Same then rest else first
  }

  function CompareKeys(a: Key, b: Key): Order {
    Then(CompareOptText(a.cls, b.cls), Then(CompareOptNat(a.xstreams, b.xstreams), CompareOptNat(a.threads, b.threads)))
  }

  predicate KeyLess(a: Key, b: Key) {
    CompareKeys(a, b) == Less
  }

  lemma {:induction false} CompareTextProperties(a: string, b: string)
    ensures CompareText(a, b) == Same <==> a == b
    ensures CompareText(b, a) == CompareText(a, b).Flip()
    decreases |a|
  {
    if a != [] && b != [] && a[0] == b[0] {
      CompareTextProperties(a[1..], b[1..]);
      assert a == [a[0]] + a[1..] && b == [b[0]] + b[1..];
    }
  }

  lemma {:induction false} CompareTextTransitive(a: string, b: string, c: string)
    requires CompareText(a, b) == Less && CompareText(b, c) == Less
    ensures CompareText(a, c) == Less
    decreases |a|
  {
    if a != [] && b != [] && c != [] && a[0] == b[0] && b[0] == c[0] {
      CompareTextTransitive(a[1..], b[1..], c[1..]);
    }
  }

  /** Comparing keys is Same exactly on equal keys, swapping the operands
      swaps the answer, and Unordered is symmetric. */
  lemma CompareKeysProperties(a: Key, b: Key)
    ensures CompareKeys(a, b) == Same <==> a == b
    ensures CompareKeys(b, a) == CompareKeys(a, b).Flip()
  {
    if a.cls.Some? && b.cls.Some? {
      CompareTextProperties(a.cls.value, b.cls.value);
    }
  }

  /** Less between keys is transitive: a chain of successful comparisons
      never hides a pair that would raise. */
  lemma KeyLessTransitive(a: Key, b: Key, c: Key)
    requires KeyLess(a, b) && KeyLess(b, c)
    ensures KeyLess(a, c)
  {
    CompareKeysProperties(a, b);
    CompareKeysProperties(b, c);
    if a.cls.Some? && b.cls.Some? && c.cls.Some? {
      var x, y, z := a.cls.value, b.cls.value, c.cls.value;
      CompareTextProperties(x, y);
      CompareTextProperties(y, z);
      CompareTextProperties(x, z);
      if CompareText(x, y) == Less && CompareText(y, z) == Less {
        CompareTextTransitive(x, y, z);
      }
    }
  }

  /** Every two keys of xs can be compared without raising. */
  predicate AllComparable(xs: seq<Key>) {
    forall i, j :: 0 <= i < |xs| && 0 <= j < |xs| ==> CompareKeys(xs[i], xs[j]) != Unordered
  }

  ghost predicate Distinct(xs: seq<Key>) {
    forall i, j :: 0 <= i < j < |xs| ==> xs[i] != xs[j]
  }

  ghost predicate Ascending(xs: seq<Key>) {
    forall i, j :: 0 <= i < j < |xs| ==> KeyLess(xs[i], xs[j])
  }

  /** Insertion into an ordered list: k goes before the first element it
      is not greater than. */
  function Insert(k: Key, xs: seq<Key>): seq<Key> {
    if xs == [] then [k]
    else if CompareKeys(k, xs[0]) == Greater then [xs[0]] + Insert(k, xs[1..])
    else [k] + xs
  }

  /** sorted(): the keys in ascending order. */
  function SortKeys(xs: seq<Key>): seq<Key> {
    if xs == [] then [] else Insert(xs[0], SortKeys(xs[1..]))
  }

  lemma {:induction false} InsertPermutation(k: Key, xs: seq<Key>)
    ensures multiset(Insert(k, xs)) == multiset(xs) + multiset{k}
  {
    if xs != [] && CompareKeys(k, xs[0]) == Greater {
      InsertPermutation(k, xs[1..]);
      assert xs == [xs[0]] + xs[1..];
    }
  }

  /** Sorting rearranges the keys and neither adds nor drops any. */
  lemma {:induction false} SortKeysPermutation(xs: seq<Key>)
    ensures multiset(SortKeys(xs)) == multiset(xs)
    ensures forall k :: k in SortKeys(xs) <==> k in xs
  {
    if xs != [] {
      SortKeysPermutation(xs[1..]);
      InsertPermutation(xs[0], SortKeys(xs[1..]));
      assert xs == [xs[0]] + xs[1..];
    }
    forall k ensures k in SortKeys(xs) <==> k in xs {
      assert k in SortKeys(xs) <==> k in multiset(SortKeys(xs));
      assert k in xs <==> k in multiset(xs);
    }
  }

  lemma {:induction false} InsertAscending(k: Key, xs: seq<Key>)
    requires Ascending(xs) && k !in xs
    requires forall x :: x in xs ==> CompareKeys(k, x) != Unordered
    ensures Ascending(Insert(k, xs))
  {
    if xs != [] {
      var x := xs[0];
      CompareKeysProperties(k, x);
      if CompareKeys(k, x) == Greater {
        var rest := xs[1..];
        InsertAscending(k, rest);
        InsertPermutation(k, rest);
        var r := Insert(k, rest);
        forall j | 0 <= j < |r| ensures KeyLess(x, r[j]) {
          assert r[j] in multiset(rest) + multiset{k};
          if r[j] != k {
            assert r[j] in rest;
            var m :| 0 <= m < |rest| && rest[m] == r[j];
            assert xs[m + 1] == r[j];
          }
        }
        assert Insert(k, xs) == [x] + r;
      } else {
        forall j | 0 <= j < |xs| ensures KeyLess(k, xs[j]) {
          if j > 0 {
            KeyLessTransitive(k, x, xs[j]);
          }
        }
      }
    }
  }

  /** With distinct, pairwise comparable keys, sorting yields them in
      strictly ascending order. */
  lemma {:induction false} SortKeysAscending(xs: seq<Key>)
    requires Distinct(xs) && AllComparable(xs)
    ensures Ascending(SortKeys(xs))
  {
    if xs != [] {
      var rest := xs[1..];
      assert Distinct(rest) && AllComparable(rest) by {
        assert forall i :: 0 <= i < |rest| ==> rest[i] == xs[i + 1];
      }
      SortKeysAscending(rest);
      SortKeysPermutation(rest);
      forall x | x in SortKeys(rest) ensures CompareKeys(xs[0], x) != Unordered {
        var m :| 0 <= m < |rest| && rest[m] == x;
        assert xs[m + 1] == x;
      }
      assert xs[0] !in rest by {
        forall m | 0 <= m < |rest| ensures rest[m] != xs[0] {
          assert rest[m] == xs[m + 1];
        }
      }
      InsertAscending(xs[0], SortKeys(rest));
    }
  }

  /** There is only one ascending arrangement of a set of keys: the report
      does not depend on the order the keys were first seen in. */
  lemma {:induction false} AscendingSameSet(xs: seq<Key>, ys: seq<Key>)
    requires Ascending(xs) && Ascending(ys)
    requires forall k :: k in xs <==> k in ys
    ensures xs == ys
    decreases |xs|
  {
    if xs != [] {
      assert xs[0] in ys;
      var j :| 0 <= j < |ys| && ys[j] == xs[0];
      assert ys[0] in xs;
      var i :| 0 <= i < |xs| && xs[i] == ys[0];
      AscendingStartsLeast(xs, i);
      AscendingStartsLeast(ys, j);
      CompareKeysProperties(xs[0], ys[0]);
      forall k ensures k in xs[1..] <==> k in ys[1..] {
        AscendingTail(xs, k);
        AscendingTail(ys, k);
      }
      AscendingSameSet(xs[1..], ys[1..]);
      assert xs == [xs[0]] + xs[1..] && ys == [ys[0]] + ys[1..];
    } else {
      KeyHeadIsMember(ys);
    }
  }

  lemma AscendingStartsLeast(xs: seq<Key>, i: nat)
    requires Ascending(xs) && i < |xs|
    ensures i > 0 ==> KeyLess(xs[0], xs[i])
  {
  }

  /** Past its first key, an ascending list holds exactly its other keys. */
  lemma AscendingTail(xs: seq<Key>, k: Key)
    requires Ascending(xs) && xs != []
    ensures Ascending(xs[1..])
    ensures k in xs[1..] <==> k in xs && k != xs[0]
  {
    CompareKeysProperties(xs[0], xs[0]);
    if k in xs[1..] {
      var m :| 0 <= m < |xs[1..]| && xs[1..][m] == k;
      assert xs[m + 1] == k;
    }
    if k in xs && k != xs[0] {
      var n :| 0 <= n < |xs| && xs[n] == k;
      assert xs[1..][n - 1] == k;
    }
  }

  lemma KeyHeadIsMember(ys: seq<Key>)
    ensures ys != [] ==> ys[0] in ys
  {
  }

  // ---------------------------------------------------------------------
  // Mean and rounding (lines 47-49)

  function Sum(xs: seq<real>): real {
    if xs == [] then 0.0 else xs[0] + Sum(xs[1..])
  }

  /** statistics.mean: the exact arithmetic mean (it raises on an empty
      list, which no key of the table has). */
  function Mean(xs: seq<real>): real
    requires |xs| > 0
  {
    Sum(xs) / (|xs| as real)
  }

  lemma {:induction false} SumAppend(a: seq<real>, b: seq<real>)
    ensures Sum(a + b) == Sum(a) + Sum(b)
  {
    if a != [] {
      SumAppend(a[1..], b);
      assert (a + b)[1..] == a[1..] + b;
    } else {
      assert a + b == b;
    }
  }

  /** The sum, and so the mean, does not depend on the order of the values. */
  lemma {:induction false} SumPermutation(a: seq<real>, b: seq<real>)
    requires multiset(a) == multiset(b)
    ensures Sum(a) == Sum(b)
    decreases |a|
  {
    if a == [] {
      assert |multiset(b)| == 0;
    } else {
      var a', x := a[..|a| - 1], a[|a| - 1];
      assert x in multiset(b);
      var j :| 0 <= j < |b| && b[j] == x;
      var b1, b2 := b[..j], b[j + 1..];
      assert b == b1 + [x] + b2;
      assert a == a' + [x];
      RemoveFromPermutation(a, b, j);
      SumPermutation(a', b1 + b2);
      SumAppend(a', [x]);
      SumAppend(b1, b2);
      SumAppend(b1 + [x], b2);
      SumAppend(b1, [x]);
      assert Sum([x]) == x;
    }
  }

  lemma {:induction false} SumBounds(xs: seq<real>, lo: real, hi: real)
    requires forall i :: 0 <= i < |xs| ==> lo <= xs[i] <= hi
    ensures (|xs| as real) * lo <= Sum(xs) <= (|xs| as real) * hi
  {
    if xs != [] {
      SumBounds(xs[1..], lo, hi);
      assert forall i :: 0 <= i < |xs[1..]| ==> xs[1..][i] == xs[i + 1];
    }
  }

  /** The mean lies between any lower and upper bound of the values. */
  lemma MeanBounds(xs: seq<real>, lo: real, hi: real)
    requires |xs| > 0
    requires forall i :: 0 <= i < |xs| ==> lo <= xs[i] <= hi
    ensures lo <= Mean(xs) <= hi
  {
    SumBounds(xs, lo, hi);
    var n := |xs| as real;
    assert Mean(xs) * n == Sum(xs);
  }

  /** The integer nearest to y, the even one on a tie (round(y) in Python 3). */
  function RoundHalfEven(y: real): int {
    var f := y.Floor;
    var d := y - f as real;
    if d < 0.5 then f else if d > 0.5 then f + 1 else if f % 2 == 0 then f else f + 1
  }

  /** round(x, ndigits): the nearest multiple of 10^-ndigits, ties to the even one. */
  function Round(x: real, ndigits: nat): real
    decreases ndigits
  {
    if ndigits == 0 then RoundHalfEven(x) as real else Round(x * 10.0, ndigits - 1) / 10.0
  }

  /** RoundHalfEven is within one half of its argument, and a tie goes to
      the even integer. */
  lemma RoundHalfEvenNearest(y: real)
    ensures -0.5 <= RoundHalfEven(y) as real - y <= 0.5
    ensures (RoundHalfEven(y) as real - y == 0.5 || RoundHalfEven(y) as real - y == -0.5) ==> RoundHalfEven(y) % 2 == 0
  {
  }

  /** Two places: the nearest whole number of hundredths. */
  lemma RoundTwoPlaces(x: real)
    ensures Round(x, 2) == RoundHalfEven(x * 100.0) as real / 100.0
  {
    assert Round(x, 2) == Round(x * 10.0, 1) / 10.0;
    assert Round(x * 10.0, 1) == Round(x * 10.0 * 10.0, 0) / 10.0;
    assert x * 10.0 * 10.0 == x * 100.0;
  }

  /** Rounding to two places moves a value by at most half a hundredth. */
  lemma RoundTwoPlacesClose(x: real)
    ensures -0.005 <= Round(x, 2) - x <= 0.005
  {
    RoundTwoPlaces(x);
    RoundHalfEvenNearest(x * 100.0);
  }

  /** A value that is already a whole number of hundredths is kept. */
  lemma RoundTwoPlacesKeeps(n: int)
    ensures Round(n as real / 100.0, 2) == n as real / 100.0
  {
    RoundTwoPlaces(n as real / 100.0);
    assert (n as real / 100.0) * 100.0 == n as real;
    assert (n as real).Floor == n;
  }

  /** Rounding twice is rounding once. */
  lemma RoundTwoPlacesIdempotent(x: real)
    ensures Round(Round(x, 2), 2) == Round(x, 2)
  {
    RoundTwoPlaces(x);
    RoundTwoPlacesKeeps(RoundHalfEven(x * 100.0));
  }

  /** A tie goes to the even hundredth: 0.125 becomes 0.12, 0.135 becomes 0.14. */
  lemma RoundTwoPlacesHalfEven()
    ensures Round(0.125, 2) == 0.12 && Round(0.135, 2) == 0.14
  {
    RoundTwoPlaces(0.125);
    RoundTwoPlaces(0.135);
    assert (0.125 * 100.0).Floor == 12;
    assert (0.135 * 100.0).Floor == 13;
  }

  /** Means of two arrangements of the same values agree. */
  lemma MeanPermutation(a: seq<real>, b: seq<real>)
    requires |a| > 0 && multiset(a) == multiset(b)
    ensures |b| > 0 && Mean(a) == Mean(b)
  {
    assert |a| == |multiset(a)| == |multiset(b)| == |b|;
    SumPermutation(a, b);
  }

  // ---------------------------------------------------------------------
  // The report (lines 46-50) and the whole script

  /** One printed line: a key and its rounded mean time. */
  datatype Line = Line(key: Key, mean: real)

  /** What the script ends with: the report lines, or the exception that stopped it. */
  datatype Report = Printed(lines: seq<Line>) | Stopped(crash: Crash)

  datatype Output = Output(diagnostics: seq<string>, report: Report)

  /** One line per key of ks, with the rounded mean of its times. */
  function LinesFor(groups: map<Key, seq<real>>, ks: seq<Key>): (lines: seq<Line>)
    requires forall k :: k in ks ==> k in groups && |groups[k]| > 0
    ensures |lines| == |ks|
    ensures forall i :: 0 <= i < |ks| ==> lines[i] == Line(ks[i], Round(Mean(groups[ks[i]]), 2))
  {
    if ks == [] then []
    else
      var k := ks[|ks| - 1];
      LinesFor(groups, ks[..|ks| - 1]) + [Line(k, Round(Mean(groups[k]), 2))]
  }

  lemma LinesForExtend(groups: map<Key, seq<real>>, ks: seq<Key>, i: nat)
    requires i < |ks| && forall k :: k in ks ==> k in groups && |groups[k]| > 0
    ensures forall k :: k in ks[..i] ==> k in groups && |groups[k]| > 0
    ensures LinesFor(groups, ks[..i + 1]) == LinesFor(groups, ks[..i]) + [Line(ks[i], Round(Mean(groups[ks[i]]), 2))]
  {
    assert ks[..i + 1][..i] == ks[..i];
    assert forall k :: k in ks[..i + 1] ==> k in ks;
  }

  /** The report over a finished table. */
  function Summarize(st: Scan): Report
    requires WellFormed(st)
  {
    if !AllComparable(st.order) then Stopped(Unorderable)
    else
      var ks := SortKeys(st.order);
      SortKeysPermutation(st.order);
      Printed(LinesFor(st.groups, ks))
  }

  /** The script's whole effect on a directory listing. */
  function RunScript(es: seq<DirEntry>): Output {
    var st := ScanAll(es);
    match st.crash
    case Some(c) => Output(st.diagnostics, Stopped(c))
    case None =>
      ScanAllWellFormed(es);
      Output(st.diagnostics, Summarize(st))
  }

  /** The script: the aggregation loop, then one line per key in sorted order. */
  method ParseRawResults(es: seq<DirEntry>) returns (out: Output)
    ensures out == RunScript(es)
  {
    var st := AggregateLogs(es);
    if st.crash.Some? {
      return Output(st.diagnostics, Stopped(st.crash.value));
    }
    ScanAllWellFormed(es);
    var report := PrintReport(st);
    out := Output(st.diagnostics, report);
  }

  /** Lines 46-50: sort the keys, then print each with its rounded mean. */
  method PrintReport(st: Scan) returns (r: Report)
    requires WellFormed(st)
    ensures r == Summarize(st)
  {
    if !AllComparable(st.order) {
      return Stopped(Unorderable);
    }
    var ks := SortKeys(st.order);
    SortKeysPermutation(st.order);
    var lines: seq<Line> := [];
    for i := 0 to |ks|
      invariant lines == LinesFor(st.groups, ks[..i])
    {
      var k := ks[i];
      LinesForExtend(st.groups, ks, i);
      lines := lines + [Line(k, Round(Mean(st.groups[k]), 2))];
    }
    assert ks[..|ks|] == ks;
    r := Printed(lines);
  }

  /** The names of the unverified log files, in listing order. */
  function UnverifiedNames(es: seq<DirEntry>): seq<string> {
    if es == [] then []
    else UnverifiedNames(es[..|es| - 1]) + (if Classify(es[|es| - 1]).Unverified? then [Diagnostic(es[|es| - 1].name)] else [])
  }

  /** Without an exception, one diagnostic is printed per unverified log file, in listing order. */
  lemma {:induction false} DiagnosticsAreUnverified(es: seq<DirEntry>)
    requires ScanAll(es).crash.None?
    ensures ScanAll(es).diagnostics == UnverifiedNames(es)
  {
    if es != [] {
      var init := es[..|es| - 1];
      assert ScanAll(init).crash.None?;
      DiagnosticsAreUnverified(init);
    }
  }

  /** Keys that occur in verified, readable log files. */
  ghost predicate Present(es: seq<DirEntry>, k: Key) {
    TimesFor(es, k) != []
  }

  /** The script stops on a float() error exactly when some verified log
      file has no readable time. */
  lemma RunScriptStopsOnFloat(es: seq<DirEntry>)
    ensures (RunScript(es).report.Stopped? && RunScript(es).report.crash != Unorderable)
            <==> exists i :: 0 <= i < |es| && Fatal(es[i])
  {
    ScanAllCrash(es);
    if ScanAll(es).crash.None? {
      ScanAllGroups(es);
      assert RunScript(es).report == Summarize(ScanAll(es));
    }
  }

  /** Short of that, it stops on the sort exactly when two present keys
      cannot be compared. */
  lemma RunScriptStopsOnSort(es: seq<DirEntry>)
    ensures RunScript(es).report == Stopped(Unorderable)
            <==> (forall i :: 0 <= i < |es| ==> !Fatal(es[i]))
                 && exists k1, k2 :: Present(es, k1) && Present(es, k2) && CompareKeys(k1, k2) == Unordered
  {
    ScanAllCrash(es);
    var st := ScanAll(es);
    if st.crash.None? {
      ScanAllGroups(es);
      assert RunScript(es).report == Summarize(st);
      SummarizeStopsOnSort(st);
      assert forall k :: Present(es, k) <==> k in st.groups;
    }
  }

  /** Over a finished table, the sort raises exactly when two of its keys
      cannot be compared. */
  lemma SummarizeStopsOnSort(st: Scan)
    requires WellFormed(st)
    ensures Summarize(st) == Stopped(Unorderable)
            <==> exists k1, k2 :: k1 in st.groups && k2 in st.groups && CompareKeys(k1, k2) == Unordered
  {
    ComparableKeys(st);
  }

  lemma ComparableKeys(st: Scan)
    requires WellFormed(st)
    ensures AllComparable(st.order)
            <==> forall k1, k2 :: k1 in st.groups && k2 in st.groups ==> CompareKeys(k1, k2) != Unordered
  {
    ComparableMembers(st.order);
  }

  /** Comparing by position is comparing by membership. */
  lemma ComparableMembers(xs: seq<Key>)
    ensures AllComparable(xs)
            <==> forall k1, k2 :: k1 in xs && k2 in xs ==> CompareKeys(k1, k2) != Unordered
  {
    if AllComparable(xs) {
      forall k1, k2 | k1 in xs && k2 in xs ensures CompareKeys(k1, k2) != Unordered {
        var i :| 0 <= i < |xs| && xs[i] == k1;
        var j :| 0 <= j < |xs| && xs[j] == k2;
      }
    } else {
      var i, j :| 0 <= i < |xs| && 0 <= j < |xs| && CompareKeys(xs[i], xs[j]) == Unordered;
      assert xs[i] in xs && xs[j] in xs;
    }
  }

  /** The keys of the printed lines, in order. */
  function KeysOf(lines: seq<Line>): (ks: seq<Key>)
    ensures |ks| == |lines| && forall i :: 0 <= i < |lines| ==> ks[i] == lines[i].key
  {
    seq(|lines|, i requires 0 <= i < |lines| => lines[i].key)
  }

  /** A printed report has each present key once, in strictly ascending
      order, with the rounded mean of that key's times. */
  lemma RunScriptPrints(es: seq<DirEntry>)
    requires RunScript(es).report.Printed?
    ensures var lines := RunScript(es).report.lines;
            Ascending(KeysOf(lines))
            && (forall k :: Present(es, k) <==> k in KeysOf(lines))
            && forall i :: 0 <= i < |lines| ==>
                 Present(es, lines[i].key) && lines[i].mean == Round(Mean(TimesFor(es, lines[i].key)), 2)
  {
    var st := ScanAll(es);
    ScanAllGroups(es);
    assert RunScript(es).report == Summarize(st);
    SummarizePrints(st);
  }

  /** Over a finished table, a printed report has each key once, in
      strictly ascending order, with the rounded mean of its list. */
  lemma SummarizePrints(st: Scan)
    requires WellFormed(st) && Summarize(st).Printed?
    ensures var lines := Summarize(st).lines;
            Ascending(KeysOf(lines))
            && (forall k :: k in st.groups <==> k in KeysOf(lines))
            && forall i :: 0 <= i < |lines| ==>
                 lines[i].key in st.groups && lines[i].mean == Round(Mean(st.groups[lines[i].key]), 2)
  {
    var ks := SortKeys(st.order);
    SortKeysPermutation(st.order);
    SortKeysAscending(st.order);
    assert KeysOf(Summarize(st).lines) == ks;
  }

  /** A key is present in a listing exactly when it is present in any permutation of it. */
  lemma PresentInPermutation(es1: seq<DirEntry>, es2: seq<DirEntry>, k: Key)
    requires multiset(es1) == multiset(es2)
    ensures Present(es1, k) <==> Present(es2, k)
  {
    TimesForPermutation(es1, es2, k);
    assert |multiset(TimesFor(es1, k))| == |TimesFor(es1, k)|;
    assert |multiset(TimesFor(es2, k))| == |TimesFor(es2, k)|;
  }

  /** Listing the same files in another order changes neither whether the
      script prints a report nor, when it does, the report. */
  lemma ReportIndependentOfListingOrder(es1: seq<DirEntry>, es2: seq<DirEntry>)
    requires multiset(es1) == multiset(es2)
    ensures RunScript(es1).report.Printed? <==> RunScript(es2).report.Printed?
    ensures RunScript(es1).report.Printed? ==> RunScript(es1).report == RunScript(es2).report
  {
    forall k ensures Present(es1, k) <==> Present(es2, k) {
      PresentInPermutation(es1, es2, k);
    }
    FatalInPermutation(es1, es2);
    FatalInPermutation(es2, es1);
    RunScriptStopsOnFloat(es1);
    RunScriptStopsOnFloat(es2);
    RunScriptStopsOnSort(es1);
    RunScriptStopsOnSort(es2);
    if RunScript(es1).report.Printed? {
      SameLines(es1, es2);
    }
  }

  lemma SameLines(es1: seq<DirEntry>, es2: seq<DirEntry>)
    requires multiset(es1) == multiset(es2)
    requires RunScript(es1).report.Printed? && RunScript(es2).report.Printed?
    ensures RunScript(es1).report == RunScript(es2).report
  {
    RunScriptPrints(es1);
    RunScriptPrints(es2);
    var l1, l2 := RunScript(es1).report.lines, RunScript(es2).report.lines;
    var k1, k2 := KeysOf(l1), KeysOf(l2);
    forall k ensures k in k1 <==> k in k2 {
      PresentInPermutation(es1, es2, k);
    }
    AscendingSameSet(k1, k2);
    forall i | 0 <= i < |l1| ensures l1[i] == l2[i] {
      assert k1[i] == k2[i];
      TimesForPermutation(es1, es2, l1[i].key);
      MeanPermutation(TimesFor(es1, l1[i].key), TimesFor(es2, l1[i].key));
    }
  }

  /** A fatal entry of one listing is also in any permutation of it. */
  lemma FatalInPermutation(es1: seq<DirEntry>, es2: seq<DirEntry>)
    requires multiset(es1) == multiset(es2)
    ensures (exists i :: 0 <= i < |es1| && Fatal(es1[i])) ==> exists j :: 0 <= j < |es2| && Fatal(es2[j])
  {
    if i :| 0 <= i < |es1| && Fatal(es1[i]) {
      assert es1[i] in multiset(es2);
      var j :| 0 <= j < |es2| && es2[j] == es1[i];
      assert Fatal(es2[j]);
    }
  }
}
