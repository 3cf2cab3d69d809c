/**
 * The Python `str` operations the orchestrator's stages are written with,
 * stated over `string` (a `seq<char>`): `in`, `startswith`, `endswith`,
 * `find`, `rfind`, `lower`, `replace`, `strip`, `splitlines`, `join` and
 * slicing with Python's rules for out-of-range and negative bounds.
 */
module Strings {

  function Min(a: int, b: int): int { if a <= b then a else b }

  function Max(a: int, b: int): int { if a <= b then b else a }

  // ---------------------------------------------------------------------------
  // Prefixes, suffixes and occurrences
  // ---------------------------------------------------------------------------

  predicate StartsWith(s: string, p: string) {
    |p| <= |s| && s[..|p|] == p
  }

  predicate EndsWith(s: string, p: string) {
    |p| <= |s| && s[|s| - |p|..] == p
  }

  /** `sub` occurs in `s` starting at index `i`. */
  predicate OccursAt(s: string, sub: string, i: int) {
    0 <= i && i + |sub| <= |s| && s[i..i + |sub|] == sub
  }

  /** Python's `sub in s`. */
  predicate Contains(s: string, sub: string) {
    exists i | 0 <= i <= |s| - |sub| :: OccursAt(s, sub, i)
  }

  lemma OccursAtContains(s: string, sub: string, i: int)
    requires OccursAt(s, sub, i)
    ensures Contains(s, sub)
  {
  }

  /** If some character of `sub` never appears in `s`, `sub` does not occur in `s`. */
  lemma MissingCharNotContained(s: string, sub: string, k: nat)
    requires k < |sub| && sub[k] !in s
    ensures !Contains(s, sub)
  {
    forall i | 0 <= i <= |s| - |sub| ensures !OccursAt(s, sub, i) {
      assert s[i..i + |sub|][k] == s[i + k];
    }
  }

  /** One mismatching character rules out an occurrence at `p`. */
  lemma MismatchAt(s: string, sub: string, p: int, k: nat)
    requires 0 <= p && p + |sub| <= |s| && k < |sub| && s[p + k] != sub[k]
    ensures !OccursAt(s, sub, p)
  {
    assert s[p..p + |sub|][k] == s[p + k];
  }

  /** Occurrence is transitive: a string containing `mid` contains whatever `mid` contains. */
  lemma ContainsTransitive(s: string, mid: string, sub: string)
    requires Contains(s, mid) && Contains(mid, sub)
    ensures Contains(s, sub)
  {
    var i :| 0 <= i <= |s| - |mid| && OccursAt(s, mid, i);
    var j :| 0 <= j <= |mid| - |sub| && OccursAt(mid, sub, j);
    forall k | 0 <= k < |sub| ensures s[i + j + k] == sub[k] {
      assert s[i..i + |mid|][j + k] == s[i + j + k];
      assert mid[j..j + |sub|][k] == mid[j + k];
    }
    assert s[i + j..i + j + |sub|] == sub;
    assert OccursAt(s, sub, i + j);
  }

  /** An occurrence in a suffix is an occurrence in the whole string. */
  lemma ContainsInSuffix(s: string, k: nat, sub: string)
    requires k <= |s| && Contains(s[k..], sub)
    ensures Contains(s, sub)
  {
    var j :| 0 <= j <= |s[k..]| - |sub| && OccursAt(s[k..], sub, j);
    assert s[k + j..k + j + |sub|] == s[k..][j..j + |sub|];
    assert OccursAt(s, sub, k + j);
  }

  /** An occurrence in a prefix is an occurrence in the whole string. */
  lemma ContainsInPrefix(s: string, k: nat, sub: string)
    requires k <= |s| && Contains(s[..k], sub)
    ensures Contains(s, sub)
  {
    var j :| 0 <= j <= |s[..k]| - |sub| && OccursAt(s[..k], sub, j);
    assert s[j..j + |sub|] == s[..k][j..j + |sub|];
    assert OccursAt(s, sub, j);
  }

  // ---------------------------------------------------------------------------
  // find / rfind
  // ---------------------------------------------------------------------------

  /** The first index `>= from` at which `sub` occurs, or -1. */
  function FindFrom(s: string, sub: string, from: nat): (r: int)
    decreases |s| - from
    ensures r == -1 || (from <= r && OccursAt(s, sub, r))
    ensures forall j :: from <= j && (r == -1 || j < r) ==> !OccursAt(s, sub, j)
  {
    if from + |sub| > |s| then -1
    else if s[from..from + |sub|] == sub then from
    else FindFrom(s, sub, from + 1)
  }

  /** Python's `s.find(sub)`: the first occurrence, or -1 when there is none. */
  function Find(s: string, sub: string): (r: int)
    ensures r == -1 <==> !Contains(s, sub)
    ensures r != -1 ==> OccursAt(s, sub, r)
    ensures forall j :: 0 <= j && (r == -1 || j < r) ==> !OccursAt(s, sub, j)
  {
    var r := FindFrom(s, sub, 0);
    assert r != -1 ==> OccursAt(s, sub, r) && Contains(s, sub);
    r
  }

  /** The last index `<= j` at which `sub` occurs, or -1. */
  function RFindUpTo(s: string, sub: string, j: int): (r: int)
    decreases j + 1
    ensures r == -1 || (r <= j && OccursAt(s, sub, r))
    ensures forall k :: k <= j && (r == -1 || r < k) ==> !OccursAt(s, sub, k)
  {
    if j < 0 then -1
    else if OccursAt(s, sub, j) then j
    else RFindUpTo(s, sub, j - 1)
  }

  /** Python's `s.rfind(sub)`: the last occurrence, or -1 when there is none. */
  function RFind(s: string, sub: string): (r: int)
    ensures r == -1 <==> !Contains(s, sub)
    ensures r != -1 ==> OccursAt(s, sub, r)
    ensures forall k :: (r == -1 || r < k) ==> !OccursAt(s, sub, k)
  {
    var r := RFindUpTo(s, sub, |s| - |sub|);
    assert r != -1 ==> OccursAt(s, sub, r) && Contains(s, sub);
    r
  }

  // ---------------------------------------------------------------------------
  // lower() and replace()
  // ---------------------------------------------------------------------------

  /** `str.lower()` on one character; only the ASCII letters are mapped. */
  function LowerChar(c: char): char {
    if 'A' <= c <= 'Z' then (c as int + 32) as char else c
  }

  function Lower(s: string): (r: string)
    ensures |r| == |s|
    ensures forall i :: 0 <= i < |s| ==> r[i] == LowerChar(s[i])
  {
    seq(|s|, i requires 0 <= i < |s| => LowerChar(s[i]))
  }

  /** Python's `s.replace(pat, rep)`: every occurrence, left to right, without overlaps. */
  function ReplaceAll(s: string, pat: string, rep: string): string
    requires |pat| > 0
    decreases |s|
  {
    if |s| < |pat| then s
    else if s[..|pat|] == pat then rep + ReplaceAll(s[|pat|..], pat, rep)
    else [s[0]] + ReplaceAll(s[1..], pat, rep)
  }

  /** Replacing a pattern that does not occur leaves the string as it was. */
  lemma {:induction false} ReplaceAbsent(s: string, pat: string, rep: string)
    requires |pat| > 0 && !Contains(s, pat)
    ensures ReplaceAll(s, pat, rep) == s
    decreases |s|
  {
    if |s| >= |pat| {
      assert !OccursAt(s, pat, 0);
      if Contains(s[1..], pat) {
        ContainsInSuffix(s, 1, pat);
      }
      ReplaceAbsent(s[1..], pat, rep);
      assert [s[0]] + s[1..] == s;
    }
  }

  /** An occurrence in `s[1..]` is an occurrence in `s`, one position later. */
  lemma OccursAtShift(s: string, pat: string, j: nat)
    requires |s| > 0
    ensures OccursAt(s[1..], pat, j) <==> OccursAt(s, pat, j + 1)
  {
    if j + |pat| <= |s| - 1 {
      assert s[1..][j..j + |pat|] == s[j + 1..j + 1 + |pat|];
    }
  }

  /**
   * The first occurrence is replaced and the scan resumes after it: with
   * `ReplaceAbsent`, this pins `replace` down to leftmost, non-overlapping
   * replacement of every occurrence.
   */
  lemma {:induction false} ReplaceAtFirst(s: string, pat: string, rep: string, i: nat)
    requires |pat| > 0 && OccursAt(s, pat, i)
    requires forall j :: 0 <= j < i ==> !OccursAt(s, pat, j)
    ensures ReplaceAll(s, pat, rep) == s[..i] + rep + ReplaceAll(s[i + |pat|..], pat, rep)
    decreases i
  {
    if i > 0 {
      ReplaceSkipsFirst(s, pat, rep);
      ShiftedOccurrences(s, pat, i);
      ReplaceAtFirst(s[1..], pat, rep, i - 1);
      assert s[1..][i - 1 + |pat|..] == s[i + |pat|..];
      assert [s[0]] + s[1..][..i - 1] == s[..i];
    } else {
      ReplaceAtStart(s, pat, rep, i);
    }
  }

  /** Without an occurrence at 0, `replace` keeps the first character and goes on with the rest. */
  lemma ReplaceSkipsFirst(s: string, pat: string, rep: string)
    requires |pat| > 0 && |pat| <= |s| && !OccursAt(s, pat, 0)
    ensures ReplaceAll(s, pat, rep) == [s[0]] + ReplaceAll(s[1..], pat, rep)
  {
    assert s[0..|pat|] == s[..|pat|];
  }

  /** The first occurrence at `i` in `s` is the first occurrence at `i - 1` in `s[1..]`. */
  lemma ShiftedOccurrences(s: string, pat: string, i: nat)
    requires i > 0 && OccursAt(s, pat, i)
    requires forall j :: 0 <= j < i ==> !OccursAt(s, pat, j)
    ensures OccursAt(s[1..], pat, i - 1)
    ensures forall j :: 0 <= j < i - 1 ==> !OccursAt(s[1..], pat, j)
    ensures |pat| <= |s| && !OccursAt(s, pat, 0)
  {
    OccursAtShift(s, pat, i - 1);
    forall j | 0 <= j < i - 1 ensures !OccursAt(s[1..], pat, j) {
      OccursAtShift(s, pat, j);
    }
  }

  /** A string that starts with the pattern has that occurrence replaced first. */
  lemma ReplaceAtStart(s: string, pat: string, rep: string, i: nat)
    requires |pat| > 0 && i == 0 && OccursAt(s, pat, i)
    ensures ReplaceAll(s, pat, rep) == s[..i] + rep + ReplaceAll(s[i + |pat|..], pat, rep)
  {
    assert s[..|pat|] == pat by {
      assert s[0..|pat|] == s[..|pat|];
    }
    assert s[..0] + rep == rep;
  }

  /** `ReplaceAtFirst` at the index `find` reports. */
  lemma ReplaceAtFind(s: string, pat: string, rep: string)
    requires |pat| > 0 && Contains(s, pat)
    ensures var i := Find(s, pat);
      ReplaceAll(s, pat, rep) == s[..i] + rep + ReplaceAll(s[i + |pat|..], pat, rep)
  {
    ReplaceAtFirst(s, pat, rep, Find(s, pat));
  }

  // ---------------------------------------------------------------------------
  // strip()
  // ---------------------------------------------------------------------------

  /** Python's `str.isspace()` on one character. */
  predicate IsSpace(c: char) {
    || c == ' '
    || '\t' <= c <= '\r'
    || '\U{1c}' <= c <= '\U{1f}'
    || c == '\U{85}' || c == '\U{a0}' || c == '\U{1680}'
    || '\U{2000}' <= c <= '\U{200a}'
    || c == '\U{2028}' || c == '\U{2029}' || c == '\U{202f}' || c == '\U{205f}' || c == '\U{3000}'
  }

  function TrimLeft(s: string): (r: string)
    decreases |s|
    ensures EndsWith(s, r)
    ensures r == [] || !IsSpace(r[0])
    ensures forall i :: 0 <= i < |s| - |r| ==> IsSpace(s[i])
  {
    if |s| > 0 && IsSpace(s[0]) then TrimLeft(s[1..]) else s
  }

  function TrimRight(s: string): (r: string)
    decreases |s|
    ensures StartsWith(s, r)
    ensures r == [] || !IsSpace(r[|r| - 1])
    ensures forall i :: |r| <= i < |s| ==> IsSpace(s[i])
  {
    if |s| > 0 && IsSpace(s[|s| - 1]) then TrimRight(s[..|s| - 1]) else s
  }

  /** Python's `s.strip()`: the infix left after removing white space at both ends. */
  function Strip(s: string): (r: string)
    ensures |r| <= |s|
    ensures r == [] || (!IsSpace(r[0]) && !IsSpace(r[|r| - 1]))
    ensures Contains(s, r)
  {
    var l := TrimLeft(s);
    var r := TrimRight(l);
    assert OccursAt(s, r, |s| - |l|) by {
      assert s[|s| - |l|..] == l;
      assert s[|s| - |l|..|s| - |l| + |r|] == l[..|r|];
    }
    r
  }

  /** A string whose ends are not white space is its own strip. */
  lemma StripUnspaced(s: string)
    requires s == [] || (!IsSpace(s[0]) && !IsSpace(s[|s| - 1]))
    ensures Strip(s) == s
  {
  }

  /**
   * Stripping keeps a prefix that starts and ends with non-space characters.
   */
  lemma {:induction false} StripKeepsPrefix(s: string, p: string)
    requires StartsWith(s, p) && |p| > 0 && !IsSpace(p[0]) && !IsSpace(p[|p| - 1])
    ensures StartsWith(Strip(s), p)
  {
    assert TrimLeft(s) == s;
    TrimRightKeepsPrefix(s, p);
  }

  lemma {:induction false} TrimRightKeepsPrefix(s: string, p: string)
    requires StartsWith(s, p) && |p| > 0 && !IsSpace(p[|p| - 1])
    ensures StartsWith(TrimRight(s), p)
    decreases |s|
  {
    if |s| > 0 && IsSpace(s[|s| - 1]) {
      assert s[..|s| - 1][..|p|] == p;
      TrimRightKeepsPrefix(s[..|s| - 1], p);
    }
  }

  // ---------------------------------------------------------------------------
  // splitlines() and join()
  // ---------------------------------------------------------------------------

  /** The first index `>= from` holding `c`, or -1. */
  function FindCharFrom(s: string, c: char, from: nat): (r: int)
    decreases |s| - from
    ensures r == -1 || (from <= r < |s| && s[r] == c)
    ensures forall j :: from <= j < |s| && (r == -1 || j < r) ==> s[j] != c
  {
    if from >= |s| then -1
    else if s[from] == c then from
    else FindCharFrom(s, c, from + 1)
  }

  /**
   * Python's `s.splitlines()` for text whose only line boundary is '\n':
   * no trailing empty line, and "" has no lines at all.
   */
  function SplitLines(s: string): (lines: seq<string>)
    decreases |s|
    ensures s == [] <==> lines == []
    ensures forall k :: 0 <= k < |lines| ==> '\n' !in lines[k]
  {
    if s == [] then []
    else
      var i := FindCharFrom(s, '\n', 0);
      if i == -1 then [s]
      else [s[..i]] + SplitLines(s[i + 1..])
  }

  /** A line without a break, then a break: it is the first line, and the rest is split on its own. */
  lemma SplitLinesCons(x: string, rest: string)
    requires '\n' !in x
    ensures SplitLines(x + "\n" + rest) == [x] + SplitLines(rest)
  {
    var s := x + "\n" + rest;
    assert forall j :: 0 <= j < |x| ==> s[j] == x[j];
    assert s[|x|] == '\n';
    assert FindCharFrom(s, '\n', 0) == |x|;
    assert s[..|x|] == x && s[|x| + 1..] == rest;
  }

  /** A non-empty text without a break is one line. */
  lemma SplitLinesSingle(x: string)
    requires x != [] && '\n' !in x
    ensures SplitLines(x) == [x]
  {
    assert FindCharFrom(x, '\n', 0) == -1;
  }

  /** Python's `sep.join(parts)`. */
  function Join(sep: string, parts: seq<string>): string
    decreases |parts|
  {
    if |parts| == 0 then ""
    else if |parts| == 1 then parts[0]
    else parts[0] + sep + Join(sep, parts[1..])
  }

  /** A joined text starts with its first part. */
  lemma JoinStartsWithFirst(sep: string, parts: seq<string>)
    requires |parts| > 0
    ensures StartsWith(Join(sep, parts), parts[0])
  {
    if |parts| > 1 {
      var rest := sep + Join(sep, parts[1..]);
      assert Join(sep, parts) == parts[0] + rest;
      assert (parts[0] + rest)[..|parts[0]|] == parts[0];
    }
  }

  /** Joining a part in front of a non-empty list puts one separator between them. */
  lemma JoinCons(sep: string, first: string, rest: seq<string>)
    requires |rest| > 0
    ensures Join(sep, [first] + rest) == first + sep + Join(sep, rest)
  {
    assert ([first] + rest)[1..] == rest;
  }

  /** A text with a line break yields the line before it, then the lines after it. */
  lemma SplitLinesAtBreak(s: string)
    requires FindCharFrom(s, '\n', 0) != -1
    ensures var i := FindCharFrom(s, '\n', 0);
      SplitLines(s) == [s[..i]] + SplitLines(s[i + 1..])
  {
  }

  /** A non-empty text ends with "\n" exactly when its last character is a line break. */
  lemma EndsWithNewline(s: string)
    requires s != []
    ensures EndsWith(s, "\n") <==> s[|s| - 1] == '\n'
  {
    assert s[|s| - 1..] == [s[|s| - 1]];
  }

  /** The text a list of lines joins back into, for a text `s`: `s` without one trailing break. */
  function Unterminated(s: string): string {
    if EndsWith(s, "\n") then s[..|s| - 1] else s
  }

  /** Re-joining across one line break, once the lines after it are known to join back. */
  lemma JoinAcrossBreak(s: string, i: nat, tail: seq<string>)
    requires i < |s| && s[i] == '\n'
    requires tail == [] <==> i + 1 == |s|
    requires Join("\n", tail) == Unterminated(s[i + 1..])
    ensures Join("\n", [s[..i]] + tail) == Unterminated(s)
  {
    var rest := s[i + 1..];
    EndsWithNewline(s);
    if tail == [] {
      assert [s[..i]] + tail == [s[..i]];
      assert s[..|s| - 1] == s[..i];
    } else {
      JoinCons("\n", s[..i], tail);
      EndsWithNewline(rest);
      if EndsWith(rest, "\n") {
        assert s[..i] + "\n" + rest[..|rest| - 1] == s[..|s| - 1];
      } else {
        assert s[..i] + "\n" + rest == s;
      }
    }
  }

  /**
   * Splitting into lines and joining them back with '\n' gives the text
   * back, except for one trailing line break, which `splitlines` drops.
   */
  lemma {:induction false} JoinSplitLines(s: string)
    ensures Join("\n", SplitLines(s)) == Unterminated(s)
    decreases |s|
  {
    if s != [] {
      var i := FindCharFrom(s, '\n', 0);
      if i == -1 {
        EndsWithNewline(s);
      } else {
        SplitLinesAtBreak(s);
        JoinSplitLines(s[i + 1..]);
        JoinAcrossBreak(s, i, SplitLines(s[i + 1..]));
      }
    }
  }

  // ---------------------------------------------------------------------------
  // Slices with Python's bounds
  // ---------------------------------------------------------------------------

  /** Python's `s[:n]`: a negative `n` counts from the end, an oversized one is clamped. */
  function PyPrefix<T>(s: seq<T>, n: int): (r: seq<T>)
    ensures |r| <= |s| && r == s[..|r|]
    ensures n >= 0 ==> |r| == Min(n, |s|)
    ensures n < 0 ==> |r| == Max(0, |s| + n)
  {
    if n >= 0 then (if n <= |s| then s[..n] else s)
    else if -n <= |s| then s[..|s| + n]
    else []
  }

  // ---------------------------------------------------------------------------
  // str(int)
  // ---------------------------------------------------------------------------

  function DigitChar(d: nat): char
    requires d < 10
  {
    "0123456789"[d]
  }

  function NatToString(n: nat): string
    decreases n
  {
    if n < 10 then [DigitChar(n)] else NatToString(n / 10) + [DigitChar(n % 10)]
  }

  /** Python's `str(i)` for an integer. */
  function IntToString(i: int): string {
    if i < 0 then "-" + NatToString(-i) else NatToString(i)
  }
}
