/**
 * The parts of Python's string operations that the research code relies on:
 * `str.strip()`, `str.replace(pat, "")`, `sep.join(xs)` and formatting an
 * `int` with an f-string; plus `s.split(c)`, which the code never calls and
 * which is here only to read a joined text back.
 */
module Text {
  import opened Sequences

  /** `c.isspace()` for Python 3 strings: exactly the characters Python treats as whitespace. */
  predicate IsSpace(c: char) {
    || c == ' '
    || ('\t' <= c <= '\r')
    || ('\U{1c}' <= c <= '\U{1f}')
    || c == '\U{85}' || c == '\U{a0}' || c == '\U{1680}'
    || ('\U{2000}' <= c <= '\U{200a}')
    || c == '\U{2028}' || c == '\U{2029}' || c == '\U{202f}' || c == '\U{205f}' || c == '\U{3000}'
  }

  predicate AllSpace(s: string) {
    forall i :: 0 <= i < |s| ==> IsSpace(s[i])
  }

  /** Neither the first nor the last character is whitespace. */
  predicate Trimmed(s: string) {
    s == [] || (!IsSpace(s[0]) && !IsSpace(s[|s| - 1]))
  }

  /** `s.lstrip()`: drops the whitespace prefix and nothing else. */
  function StripLeft(s: string): (r: string)
    ensures |r| <= |s| && r == s[|s| - |r|..]
    ensures AllSpace(s[..|s| - |r|])
    ensures r == [] || !IsSpace(r[0])
  {
    if s != [] && IsSpace(s[0]) then
      var r := StripLeft(s[1..]);
      assert s[..|s| - |r|] == [s[0]] + s[1..][..|s[1..]| - |r|];
      r
    else s
  }

  /** `s.rstrip()`: drops the whitespace suffix and nothing else. */
  function StripRight(s: string): (r: string)
    ensures |r| <= |s| && r == s[..|r|]
    ensures AllSpace(s[|r|..])
    ensures r == [] || !IsSpace(r[|r| - 1])
    ensures r != [] && !IsSpace(s[0]) ==> !IsSpace(r[0])
  {
    if s != [] && IsSpace(s[|s| - 1]) then
      var r := StripRight(s[..|s| - 1]);
      assert s[|r|..] == s[..|s| - 1][|r|..] + [s[|s| - 1]];
      r
    else s
  }

  /** `s.strip()`: `s.lstrip()` then `s.rstrip()`, which leaves neither edge blank. */
  function Strip(s: string): (r: string)
    ensures Trimmed(r)
    ensures |r| <= |s|
  {
    StripRight(StripLeft(s))
  }

  /** `lstrip` drops a whitespace prefix in front of a text that starts with a non-space, and nothing more. */
  lemma {:induction false} StripLeftPast(pre: string, x: string)
    requires AllSpace(pre) && x != [] && !IsSpace(x[0])
    ensures StripLeft(pre + x) == x
    decreases |pre|
  {
    if pre == [] {
      assert pre + x == x;
    } else {
      assert (pre + x)[1..] == pre[1..] + x;
      assert AllSpace(pre[1..]) by {
        forall i | 0 <= i < |pre[1..]| ensures IsSpace(pre[1..][i]) { assert pre[1..][i] == pre[i + 1]; }
      }
      StripLeftPast(pre[1..], x);
    }
  }

  /** `rstrip` never reaches into a text that ends with a non-space: only what follows it is stripped. */
  lemma {:induction false} StripRightPast(x: string, tail: string)
    requires x != [] && !IsSpace(x[|x| - 1])
    ensures StripRight(x + tail) == x + StripRight(tail)
    decreases |tail|
  {
    var s := x + tail;
    if tail == [] {
      assert s == x;
      StripRightStops(x);
      StripRightStops(tail);
    } else {
      var init := tail[..|tail| - 1];
      assert s[|s| - 1] == tail[|tail| - 1];
      if IsSpace(tail[|tail| - 1]) {
        assert s[..|s| - 1] == x + init;
        StripRightPast(x, init);
        StripRightStep(s);
        StripRightStep(tail);
      } else {
        StripRightStops(s);
        StripRightStops(tail);
      }
    }
  }

  /**
   * `strip` of a text set between a whitespace prefix and a tail keeps the
   * text whole when it neither starts nor ends with whitespace, and strips
   * only the end of the tail.
   */
  lemma StripAround(pre: string, x: string, tail: string)
    requires AllSpace(pre) && x != [] && !IsSpace(x[0]) && !IsSpace(x[|x| - 1])
    ensures Strip(pre + (x + tail)) == x + StripRight(tail)
  {
    assert (x + tail)[0] == x[0];
    StripLeftPast(pre, x + tail);
    StripRightPast(x, tail);
  }

  /** `rstrip` drops a trailing whitespace character and goes on with the rest. */
  lemma StripRightStep(s: string)
    requires s != [] && IsSpace(s[|s| - 1])
    ensures StripRight(s) == StripRight(s[..|s| - 1])
  {
  }

  /** `rstrip` of a string that does not end with whitespace is the string itself. */
  lemma StripRightStops(s: string)
    requires s == [] || !IsSpace(s[|s| - 1])
    ensures StripRight(s) == s
  {
  }

  /** `rstrip` of a string of whitespace is empty. */
  lemma {:induction false} StripRightSpace(sp: string)
    requires AllSpace(sp)
    ensures StripRight(sp) == []
    decreases |sp|
  {
    if sp != [] {
      var init := sp[..|sp| - 1];
      assert AllSpace(init) by {
        forall i | 0 <= i < |init| ensures IsSpace(init[i]) { assert init[i] == sp[i]; }
      }
      StripRightSpace(init);
    }
  }

  /** Stripping a string with no whitespace at either end changes nothing. */
  lemma StripTrimmed(s: string)
    requires Trimmed(s)
    ensures Strip(s) == s
  {
  }

  /** `pat` starts at position `i` of `s`. */
  predicate OccursAt(s: string, pat: string, i: int) {
    0 <= i && i + |pat| <= |s| && s[i..i + |pat|] == pat
  }

  /**
   * `s.replace(pat, rep)` for a non-empty `pat`: occurrences are found from
   * the left and do not overlap.
   */
  function ReplaceAll(s: string, pat: string, rep: string): (r: string)
    requires pat != []
    ensures |rep| <= |pat| ==> |r| <= |s|
    ensures |s| < |pat| ==> r == s
    decreases |s|
  {
    if |s| < |pat| then s
    else if s[..|pat|] == pat then rep + ReplaceAll(s[|pat|..], pat, rep)
    else [s[0]] + ReplaceAll(s[1..], pat, rep)
  }

  /** Where no occurrence starts in `a`, the scan keeps `a` as it is and goes on with `b`. */
  lemma {:induction false} ReplaceBefore(a: string, b: string, pat: string, rep: string)
    requires pat != []
    requires forall j :: 0 <= j < |a| ==> !OccursAt(a + b, pat, j)
    ensures ReplaceAll(a + b, pat, rep) == a + ReplaceAll(b, pat, rep)
    decreases |a|
  {
    if a == [] {
      assert a + b == b;
    } else {
      var s, t := a + b, a[1..] + b;
      assert s[1..] == t;
      forall j | 0 <= j < |a| - 1
        ensures !OccursAt(t, pat, j)
      {
        OccursShift(s, pat, j);
      }
      ReplaceBefore(a[1..], b, pat, rep);
      ReplacePastStart(s, pat, rep);
      AppendAssoc([a[0]], a[1..], ReplaceAll(b, pat, rep));
      assert [a[0]] + a[1..] == a;
    }
  }

  /** Where no occurrence starts at `j + 1` in `s`, none starts at `j` in its tail. */
  lemma OccursShift(s: string, pat: string, j: nat)
    requires s != []
    requires !OccursAt(s, pat, j + 1)
    ensures !OccursAt(s[1..], pat, j)
  {
    if j + |pat| <= |s[1..]| {
      assert s[1..][j..j + |pat|] == s[j + 1..j + 1 + |pat|];
    }
  }

  /** A string that does not open with the pattern keeps its first character. */
  lemma ReplacePastStart(s: string, pat: string, rep: string)
    requires pat != [] && s != []
    requires !OccursAt(s, pat, 0)
    ensures ReplaceAll(s, pat, rep) == [s[0]] + ReplaceAll(s[1..], pat, rep)
  {
    if |pat| <= |s| {
      assert s[..|pat|] != pat;
    }
  }

  /**
   * The scan stops at the first occurrence: everything before it is kept,
   * the occurrence becomes `rep`, and the scan goes on after it.
   */
  lemma ReplaceFirst(s: string, pat: string, rep: string, i: nat)
    requires pat != []
    requires OccursAt(s, pat, i)
    requires forall j :: 0 <= j < i ==> !OccursAt(s, pat, j)
    ensures ReplaceAll(s, pat, rep) == s[..i] + rep + ReplaceAll(s[i + |pat|..], pat, rep)
  {
    ReplaceSplit(s, pat, rep, i);
    var b := s[i..];
    assert OccursAt(b, pat, 0) by { assert b[..|pat|] == s[i..i + |pat|]; }
    assert b[|pat|..] == s[i + |pat|..];
    ReplaceAtStart(b, pat, rep);
    AppendAssoc(s[..i], rep, ReplaceAll(s[i + |pat|..], pat, rep));
  }

  /** Up to the first occurrence, the text is kept and the scan goes on from there. */
  lemma ReplaceSplit(s: string, pat: string, rep: string, i: nat)
    requires pat != [] && i <= |s|
    requires forall j :: 0 <= j < i ==> !OccursAt(s, pat, j)
    ensures ReplaceAll(s, pat, rep) == s[..i] + ReplaceAll(s[i..], pat, rep)
  {
    var a, b := s[..i], s[i..];
    assert a + b == s;
    ReplaceBefore(a, b, pat, rep);
  }

  /** A string that opens with the pattern gets the replacement in its place. */
  lemma ReplaceAtStart(s: string, pat: string, rep: string)
    requires pat != []
    requires OccursAt(s, pat, 0)
    ensures ReplaceAll(s, pat, rep) == rep + ReplaceAll(s[|pat|..], pat, rep)
  {
    assert s[..|pat|] == pat;
  }

  /** Replacing a pattern that does not occur leaves the string as it is. */
  lemma {:induction false} ReplaceAbsent(s: string, pat: string, rep: string)
    requires pat != []
    requires forall i :: 0 <= i <= |s| - |pat| ==> !OccursAt(s, pat, i)
    ensures ReplaceAll(s, pat, rep) == s
    decreases |s|
  {
    if |s| >= |pat| {
      assert !OccursAt(s, pat, 0);
      forall i | 0 <= i <= |s[1..]| - |pat|
        ensures !OccursAt(s[1..], pat, i)
      {
        assert !OccursAt(s, pat, i + 1);
        assert s[1..][i..i + |pat|] == s[i + 1..i + 1 + |pat|];
      }
      ReplaceAbsent(s[1..], pat, rep);
    }
  }

  /** A pattern that occurs only at the very front is replaced there alone. */
  lemma ReplaceLeading(pat: string, b: string, c: string, rep: string)
    requires pat != []
    requires forall i :: 0 <= i <= |b + c| - |pat| ==> !OccursAt(b + c, pat, i)
    ensures ReplaceAll(pat + b + c, pat, rep) == rep + (b + c)
    ensures rep == [] ==> ReplaceAll(pat + b + c, pat, rep) == b + c
  {
    AppendAssoc(pat, b, c);
    var s, u := pat + (b + c), b + c;
    assert OccursAt(s, pat, 0) by { assert s[..|pat|] == pat; }
    ReplaceAtStart(s, pat, rep);
    assert s[|pat|..] == u;
    ReplaceAbsent(u, pat, rep);
  }

  /** A pattern that occurs only at the very end is replaced there alone. */
  lemma ReplaceTrailing(a: string, pat: string, rep: string)
    requires pat != []
    requires forall j :: 0 <= j < |a| ==> !OccursAt(a + pat, pat, j)
    ensures ReplaceAll(a + pat, pat, rep) == a + rep
    ensures rep == [] ==> ReplaceAll(a + pat, pat, rep) == a
  {
    ReplaceBefore(a, pat, pat, rep);
    assert OccursAt(pat, pat, 0) by { assert pat[..|pat|] == pat; }
    ReplaceAtStart(pat, pat, rep);
    assert pat[|pat|..] == [] && rep + [] == rep;
  }

  /** `sep.join(xs)`. */
  function Join(xs: seq<string>, sep: string): (r: string)
    ensures |xs| == 1 ==> r == xs[0]
    ensures xs == [] ==> r == ""
  {
    if xs == [] then "" else if |xs| == 1 then xs[0] else xs[0] + sep + Join(xs[1..], sep)
  }

  /** `s.split(c)` for a one-character separator: never empty, and "" splits to [""]. */
  function Split(s: string, c: char): (r: seq<string>)
    ensures |r| >= 1
  {
    if s == [] then [""]
    else if s[0] == c then [""] + Split(s[1..], c)
    else var t := Split(s[1..], c); [[s[0]] + t[0]] + t[1..]
  }

  /** A piece without the separator splits to itself. */
  lemma {:induction false} SplitNoSeparator(x: string, c: char)
    requires c !in x
    ensures Split(x, c) == [x]
  {
    if x != [] {
      assert x[0] != c && c !in x[1..];
      SplitNoSeparator(x[1..], c);
      assert [x[0]] + x[1..] == x;
    }
  }

  /** Splitting at the first separator. */
  lemma {:induction false} SplitAtFirst(x: string, c: char, y: string)
    requires c !in x
    ensures Split(x + [c] + y, c) == [x] + Split(y, c)
  {
    if x == [] {
      assert x + [c] + y == [c] + y;
    } else {
      assert x[0] != c && c !in x[1..];
      assert (x + [c] + y)[1..] == x[1..] + [c] + y;
      SplitAtFirst(x[1..], c, y);
      assert [x[0]] + x[1..] == x;
    }
  }

  /** Splitting undoes joining, as long as no piece holds the separator. */
  lemma {:induction false} SplitJoin(xs: seq<string>, c: char)
    requires xs != []
    requires forall i :: 0 <= i < |xs| ==> c !in xs[i]
    ensures Split(Join(xs, [c]), c) == xs
  {
    if |xs| == 1 {
      SplitNoSeparator(xs[0], c);
    } else {
      SplitJoin(xs[1..], c);
      SplitAtFirst(xs[0], c, Join(xs[1..], [c]));
      assert xs == [xs[0]] + xs[1..];
    }
  }

  function DigitChar(d: nat): (c: char)
    requires d < 10
    ensures '0' <= c <= '9' && c as int - '0' as int == d
  {
    ('0' as int + d) as char
  }

  /** The number a string of decimal digits denotes, most significant digit first. */
  function DigitsValue(s: string): int {
    if s == [] then 0 else 10 * DigitsValue(s[..|s| - 1]) + (s[|s| - 1] as int - '0' as int)
  }

  /** The decimal digits of `n`, as `str(n)` writes them: they denote `n`, with no leading zero. */
  function NatToString(n: nat): (r: string)
    ensures |r| >= 1
    ensures forall i :: 0 <= i < |r| ==> '0' <= r[i] <= '9'
    ensures DigitsValue(r) == n
    ensures r[0] == '0' <==> n == 0
  {
    if n < 10 then [DigitChar(n)]
    else
      var r := NatToString(n / 10) + [DigitChar(n % 10)];
      assert r[..|r| - 1] == NatToString(n / 10);
      r
  }

  /** `str(n)` / `f"{n}"` for an `int`: a minus sign before the digits of a negative number. */
  function IntToString(n: int): (r: string)
    ensures n >= 0 ==> r == NatToString(n) && DigitsValue(r) == n
    ensures n < 0 ==> |r| >= 2 && r[0] == '-' && r[1..] == NatToString(-n) && DigitsValue(r[1..]) == -n
  {
    if n < 0 then "-" + NatToString(-n) else NatToString(n)
  }
}
