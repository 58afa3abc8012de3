/** The six regular expressions of the log aggregator, as a tiny pattern
    language with leftmost search (Python's re.search) and greedy runs.

    A pattern is a sequence of tokens: a literal, a run of one or more white
    space characters (\s+), or a captured run of one or more characters of a
    class ((\d+), (\w+), ([\d.]+)). In every pattern of the script the
    character after a run can never belong to the run's class, so a greedy
    run never has to give characters back: matching each run maximally is
    exactly what the backtracking regular-expression engine does. */
module LogPatterns {
  import opened Common

  datatype CharClass = Space | Digit | Word | DigitOrDot

  /** Python's \s on str patterns: the characters for which str.isspace() holds. */
  predicate IsSpace(c: char) {
    ('\U{09}' <= c <= '\U{0D}') || ('\U{1C}' <= c <= '\U{20}') || c == '\U{85}' || c == '\U{A0}'
    || c == '\U{1680}' || ('\U{2000}' <= c <= '\U{200A}') || c == '\U{2028}' || c == '\U{2029}'
    || c == '\U{202F}' || c == '\U{205F}' || c == '\U{3000}'
  }

  /** Python's \w, restricted to ASCII letters, digits and the underscore. */
  predicate IsWordChar(c: char) {
    ('a' <= c <= 'z') || ('A' <= c <= 'Z') || IsDigit(c) || c == '_'
  }

  predicate InClass(c: char, k: CharClass) {
    match k
    case Space => IsSpace(c)
    case Digit => IsDigit(c)
    case Word => IsWordChar(c)
    case DigitOrDot => IsDigit(c) || c == '.'
  }

  datatype Token = Lit(text: string) | Spaces | Capture(cls: CharClass)

  type Pattern = seq<Token>

  /** Result of one successful match: where it ends and what group 1 holds. */
  datatype Match = Match(start: nat, end: nat, group: Option<string>)

  predicate LitAt(s: string, i: nat, t: string) {
    i + |t| <= |s| && s[i..i + |t|] == t
  }

  /** Length of the longest run of class-k characters starting at i. */
  function RunLength(s: string, i: nat, k: CharClass): (n: nat)
    requires i <= |s|
    ensures i + n <= |s|
    decreases |s| - i
  {
    if i < |s| && InClass(s[i], k) then 1 + RunLength(s, i + 1, k) else 0
  }

  /** The run is greedy: every character in it belongs to class k, and the
      one after it (if any) does not. */
  lemma {:induction false} RunLengthMaximal(s: string, i: nat, k: CharClass)
    requires i <= |s|
    ensures forall j :: i <= j < i + RunLength(s, i, k) ==> InClass(s[j], k)
    ensures i + RunLength(s, i, k) == |s| || !InClass(s[i + RunLength(s, i, k)], k)
    decreases |s| - i
  {
    if i < |s| && InClass(s[i], k) {
      RunLengthMaximal(s, i + 1, k);
    }
  }

  /** Anchored match of pat at position i; on success the end position and
      the text of the first capture. */
  function MatchAt(s: string, i: nat, pat: Pattern): (r: Option<Match>)
    requires i <= |s|
    ensures r.Some? ==> r.value.start == i && i <= r.value.end <= |s|
    decreases pat
  {
    if pat == [] then Some(Match(i, i, None))
    else
      match pat[0]
      case Lit(t) =>
        if LitAt(s, i, t) then
          (match MatchAt(s, i + |t|, pat[1..])
           case None => None
           case Some(m) => Some(Match(i, m.end, m.group)))
        else None
      case Spaces =>
        var n := RunLength(s, i, Space);
        if n == 0 then None
        else
          (match MatchAt(s, i + n, pat[1..])
           case None => None
           case Some(m) => Some(Match(i, m.end, m.group)))
      case Capture(k) =>
        var n := RunLength(s, i, k);
        if n == 0 then None
        else
          match MatchAt(s, i + n, pat[1..])
          case None => None
          case Some(m) => Some(Match(i, m.end, Some(s[i..i + n])))
  }

  /** The first successful anchored match at position i or later. */
  function SearchFrom(s: string, pat: Pattern, i: nat): Option<Match>
    requires i <= |s| + 1
    decreases |s| + 1 - i
  {
    if i > |s| then None
    else
      match MatchAt(s, i, pat)
      case Some(m) => Some(m)
      case None => SearchFrom(s, pat, i + 1)
  }

  /** No anchored match at any position in [i, j). */
  predicate NoMatchBetween(s: string, pat: Pattern, i: nat, j: nat)
    requires j <= |s| + 1
  {
    forall p :: i <= p < j ==> MatchAt(s, p, pat).None?
  }

  /** SearchFrom finds nothing exactly when every position from i on fails,
      and otherwise the match at the least position that succeeds. */
  lemma {:induction false} SearchFromIsLeast(s: string, pat: Pattern, i: nat)
    requires i <= |s| + 1
    ensures SearchFrom(s, pat, i).None? <==> NoMatchBetween(s, pat, i, |s| + 1)
    ensures SearchFrom(s, pat, i).Some? ==>
              var m := SearchFrom(s, pat, i).value;
              i <= m.start <= |s| && MatchAt(s, m.start, pat) == Some(m)
              && NoMatchBetween(s, pat, i, m.start)
    decreases |s| + 1 - i
  {
    if i <= |s| {
      var r := MatchAt(s, i, pat);
      if r.None? {
        assert SearchFrom(s, pat, i) == SearchFrom(s, pat, i + 1);
        SearchFromIsLeast(s, pat, i + 1);
        assert NoMatchBetween(s, pat, i, |s| + 1) <==> NoMatchBetween(s, pat, i + 1, |s| + 1);
        if SearchFrom(s, pat, i).Some? {
          var m := SearchFrom(s, pat, i).value;
          assert NoMatchBetween(s, pat, i + 1, m.start);
        }
      } else {
        assert SearchFrom(s, pat, i) == r;
        assert !NoMatchBetween(s, pat, i, |s| + 1) by {
          assert MatchAt(s, i, pat).Some?;
        }
      }
    }
  }

  /** re.search: the leftmost position at which the pattern matches. */
  function Search(s: string, pat: Pattern): Option<Match> {
    SearchFrom(s, pat, 0)
  }

  /** The search succeeds exactly when the pattern matches somewhere, and
      then reports the match at the leftmost such position. */
  lemma SearchIsLeftmost(s: string, pat: Pattern)
    ensures Search(s, pat).None? <==> forall p :: 0 <= p <= |s| ==> MatchAt(s, p, pat).None?
    ensures Search(s, pat).Some? ==>
              var m := Search(s, pat).value;
              m.start <= |s| && MatchAt(s, m.start, pat) == Some(m)
              && forall q :: 0 <= q < m.start ==> MatchAt(s, q, pat).None?
  {
    SearchFromIsLeast(s, pat, 0);
    if Search(s, pat).Some? {
      assert NoMatchBetween(s, pat, 0, Search(s, pat).value.start);
    }
  }

  /** group(1) of re.search, or None when the pattern does not occur. */
  function SearchGroup(s: string, pat: Pattern): Option<string> {
    match Search(s, pat)
    case None => None
    case Some(m) => m.group
  }

  // The patterns of scripts/parse_raw_results_argobots.py, lines 9-14.
  const XstreamsLabel: string := "Number of available xstreams:"
  const ThreadsLabel: string := "Number of available threads:"
  const VerificationMarker: string := "VERIFICATION SUCCESSFUL"
  const TimeLabel: string := "Time in seconds ="

  const XstreamsPattern: Pattern := [Lit(XstreamsLabel), Spaces, Capture(Digit)]
  const ThreadsPattern: Pattern := [Lit(ThreadsLabel), Spaces, Capture(Digit)]
  const InitTimePattern: Pattern := [Lit("Initialization time ="), Spaces, Capture(DigitOrDot), Lit(" seconds")]
  const VerificationPattern: Pattern := [Lit(VerificationMarker)]
  const ClassPattern: Pattern := [Lit("Class"), Spaces, Lit("="), Spaces, Capture(Word)]
  const TimePattern: Pattern := [Lit(TimeLabel), Spaces, Capture(DigitOrDot)]

  /** A captured run at the end of a pattern takes the maximal run. */
  lemma CaptureLast(s: string, g: nat, k: CharClass)
    requires g <= |s|
    ensures var n := RunLength(s, g, k);
            MatchAt(s, g, [Capture(k)]) == if n == 0 then None else Some(Match(g, g + n, Some(s[g..g + n])))
  {
    var pat := [Capture(k)];
    assert pat[1..] == [];
  }

  /** White space then a captured run: the group starts after all the white space. */
  lemma SpacesThenCapture(s: string, j: nat, k: CharClass)
    requires j <= |s|
    ensures var ns := RunLength(s, j, Space);
            var g := j + ns;
            var nk := RunLength(s, g, k);
            MatchAt(s, j, [Spaces, Capture(k)])
              == if ns == 0 || nk == 0 then None else Some(Match(j, g + nk, Some(s[g..g + nk])))
  {
    var g := j + RunLength(s, j, Space);
    var pat := [Spaces, Capture(k)];
    assert pat[1..] == [Capture(k)];
    SpacesThen(s, j, pat, g);
    CaptureLast(s, g, k);
  }

  /** A leading run of white space must be non-empty; the rest of the
      pattern then matches right after all of it, at j. */
  lemma SpacesThen(s: string, i: nat, pat: Pattern, j: nat)
    requires i <= |s| && j == i + RunLength(s, i, Space)
    requires pat != [] && pat[0] == Spaces
    ensures MatchAt(s, i, pat)
            == if j == i then None
               else match MatchAt(s, j, pat[1..])
                    case None => None
                    case Some(m) => Some(Match(i, m.end, m.group))
  {
  }

  /** A leading literal must occur at i; the rest of the pattern then
      matches right after it, at j. */
  lemma LitThen(s: string, i: nat, t: string, rest: Pattern, j: nat)
    requires i <= |s| && j == i + |t|
    ensures MatchAt(s, i, [Lit(t)] + rest)
            == if !LitAt(s, i, t) then None
               else match MatchAt(s, j, rest)
                    case None => None
                    case Some(m) => Some(Match(i, m.end, m.group))
  {
    var pat := [Lit(t)] + rest;
    assert pat[0] == Lit(t) && pat[1..] == rest;
  }

  /** A label followed by a run of spaces and a captured run, the label
      ending at j: the group is exactly the maximal run of class-k
      characters after the spaces. */
  lemma LabelledRunMatch(s: string, i: nat, tag: string, k: CharClass, j: nat)
    requires i <= |s| && j == i + |tag|
    ensures var m := MatchAt(s, i, [Lit(tag), Spaces, Capture(k)]);
            m == if !LitAt(s, i, tag) then None
                 else
                   var ns := RunLength(s, j, Space);
                   var g := j + ns;
                   var nk := RunLength(s, g, k);
                   if ns == 0 || nk == 0 then None else Some(Match(i, g + nk, Some(s[g..g + nk])))
  {
    var rest := [Spaces, Capture(k)];
    assert [Lit(tag), Spaces, Capture(k)] == [Lit(tag)] + rest;
    LitThen(s, i, tag, rest, j);
    if LitAt(s, i, tag) {
      SpacesThenCapture(s, j, k);
    }
  }

  /** Where the label-space-run pattern matches, its group is a non-empty run of class k. */
  lemma LabelledRunGroup(s: string, i: nat, tag: string, k: CharClass, j: nat)
    requires i <= |s| && j == i + |tag|
    ensures var m := MatchAt(s, i, [Lit(tag), Spaces, Capture(k)]);
            m.Some? ==> m.value.group.Some? && |m.value.group.value| > 0
                        && forall q :: 0 <= q < |m.value.group.value| ==> InClass(m.value.group.value[q], k)
  {
    LabelledRunMatch(s, i, tag, k, j);
    if LitAt(s, i, tag) {
      var g := j + RunLength(s, j, Space);
      var n := RunLength(s, g, k);
      RunSliceInClass(s, g, k, n, s[g..g + n]);
    }
  }

  lemma RunSliceInClass(s: string, g: nat, k: CharClass, n: nat, w: string)
    requires g <= |s| && n == RunLength(s, g, k) && w == s[g..g + n]
    ensures forall q :: 0 <= q < |w| ==> InClass(w[q], k)
  {
    RunLengthMaximal(s, g, k);
    forall q | 0 <= q < |w| ensures InClass(w[q], k) {
      assert w[q] == s[g + q];
    }
  }

  /** The group a label-space-run pattern reports is a non-empty run of its class. */
  lemma LabelledGroupInClass(s: string, tag: string, k: CharClass)
    ensures var g := SearchGroup(s, [Lit(tag), Spaces, Capture(k)]);
            (g.Some? <==> Search(s, [Lit(tag), Spaces, Capture(k)]).Some?)
            && (g.Some? ==> |g.value| > 0 && forall j :: 0 <= j < |g.value| ==> InClass(g.value[j], k))
  {
    var pat := [Lit(tag), Spaces, Capture(k)];
    SearchIsLeftmost(s, pat);
    if Search(s, pat).Some? {
      var i := Search(s, pat).value.start;
      LabelledRunGroup(s, i, tag, k, i + |tag|);
    }
  }

  /** A pattern that is a single literal occurs exactly when the text contains it. */
  lemma LiteralSearch(s: string, t: string)
    ensures Search(s, [Lit(t)]).Some? <==> exists p :: 0 <= p <= |s| && LitAt(s, p, t)
  {
    var pat := [Lit(t)];
    assert pat[1..] == [];
    SearchIsLeftmost(s, pat);
    if Search(s, pat).Some? {
      var m := Search(s, pat).value;
      assert LitAt(s, m.start, t);
    } else {
      forall p | 0 <= p <= |s| ensures !LitAt(s, p, t) {
        assert MatchAt(s, p, pat).None?;
        if LitAt(s, p, t) {
          assert MatchAt(s, p + |t|, pat[1..]).Some?;
        }
      }
    }
  }

  /** If position i matches and no position in [k, i) does, the search
      from k reports the match at i. */
  lemma {:induction false} SearchAt(s: string, pat: Pattern, k: nat, i: nat)
    requires k <= i <= |s| && MatchAt(s, i, pat).Some?
    requires NoMatchBetween(s, pat, k, i)
    ensures SearchFrom(s, pat, k) == MatchAt(s, i, pat)
    decreases i - k
  {
    if k < i {
      assert MatchAt(s, k, pat).None?;
      SearchAt(s, pat, k + 1, i);
    }
  }

  /** The runs found in text laid out as prefix, label, white space, digits,
      rest, where the label starts at i, the white space at j and the
      digits at g. */
  lemma {:induction false} LayoutRuns(s: string, pre: string, tag: string, ws: string, d: string, rest: string,
                                      i: nat, j: nat, g: nat)
    requires s == pre + tag + ws + d + rest
    requires i == |pre| && j == i + |tag| && g == j + |ws|
    requires forall q :: 0 <= q < |ws| ==> IsSpace(ws[q])
    requires |d| > 0 && AllDigits(d)
    requires rest == [] || !IsDigit(rest[0])
    ensures LitAt(s, i, tag)
    ensures RunLength(s, j, Space) == |ws|
    ensures RunLength(s, g, Digit) == |d|
    ensures s[g..g + |d|] == d
  {
    assert s[i..j] == tag;
    assert s[j..g] == ws;
    assert s[g..g + |d|] == d;
    assert s[g] == d[0];
    RunOfPrefix(s, j, ws, Space);
    assert g + |d| == |s| || s[g + |d|] == rest[0];
    RunOfPrefix(s, g, d, Digit);
  }

  /** Text in which the label, a run of white space and the decimal spelling
      of n (followed by anything but a digit) come after a prefix in which
      the pattern nowhere matches yields the group spelling n: what the
      extraction reads back is what was written, wherever the label is. */
  lemma LabelledNumber(pre: string, tag: string, ws: string, n: nat, rest: string)
    requires |ws| > 0 && forall q :: 0 <= q < |ws| ==> IsSpace(ws[q])
    requires rest == [] || !IsDigit(rest[0])
    requires NoMatchBetween(pre + tag + ws + NatToDecimal(n) + rest, [Lit(tag), Spaces, Capture(Digit)], 0, |pre|)
    ensures var s := pre + tag + ws + NatToDecimal(n) + rest;
            SearchGroup(s, [Lit(tag), Spaces, Capture(Digit)]) == Some(NatToDecimal(n))
  {
    var d := NatToDecimal(n);
    var s := pre + tag + ws + d + rest;
    var pat := [Lit(tag), Spaces, Capture(Digit)];
    var i := |pre|;
    var j := i + |tag|;
    var g := j + |ws|;
    LayoutRuns(s, pre, tag, ws, d, rest, i, j, g);
    LabelledRunMatch(s, i, tag, Digit, j);
    SearchAt(s, pat, 0, i);
  }

  /** If the text at i starts with a run w of class-k characters, followed
      by the end of the text or a character outside k, that run is the maximal one. */
  lemma {:induction false} RunOfPrefix(s: string, i: nat, w: string, k: CharClass)
    requires i + |w| <= |s| && s[i..i + |w|] == w
    requires forall j :: 0 <= j < |w| ==> InClass(w[j], k)
    requires i + |w| == |s| || !InClass(s[i + |w|], k)
    ensures RunLength(s, i, k) == |w|
    decreases |w|
  {
    if |w| > 0 {
      assert s[i] == w[0];
      assert s[i + 1..i + 1 + |w[1..]|] == w[1..];
      RunOfPrefix(s, i + 1, w[1..], k);
    }
  }
}
