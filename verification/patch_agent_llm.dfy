/**
 * The LLM patch stage (src/se_assistant/nodes/patch_agent_llm.py), a
 * stand-alone stage that the compiled graph does not wire in. It asks a
 * language model for whole-file updates of the selected files, enforces a
 * path allow-list and a few content checks on every update, writes the
 * accepted ones, records one patch per changed file, retries once with a
 * stricter task on any raise, and escalates to human review on a second.
 *
 * The model call (`ask`), `json.loads` (`loads`), the test-path regex
 * (`findTestPaths`), `unified_diff` (`diff`) and the patch ids (`ids`) are
 * parameters; the file system is a map from relative path to content.
 */
module PatchLlmNode {
  import opened Wrappers
  import opened Strings
  import opened State
  import SynthesisNode
  import SafetyNode

  // ---------------------------------------------------------------------------
  // Path rules
  // ---------------------------------------------------------------------------

  const SandboxPrefix := "src/sandbox/"
  const DisallowedSubstrings: seq<string> := ["tests/", "tests\\", "readme", ".md", ".rst", ".txt"]
  const SensitiveSubstrings: seq<string> := ["security", "secret", "token", "auth", ".env"]

  /** `_norm`: Python's `p.replace("\\", "/")`. */
  function Norm(p: string): string {
    ReplaceAll(p, "\\", "/")
  }

  function NormChar(c: char): char {
    if c == '\\' then '/' else c
  }

  /** `_norm` rewrites each backslash to a slash and touches no other character. */
  lemma {:induction false} NormPointwise(p: string)
    ensures |Norm(p)| == |p|
    ensures forall i :: 0 <= i < |p| ==> Norm(p)[i] == NormChar(p[i])
    decreases |p|
  {
    if |p| >= 1 {
      NormPointwise(p[1..]);
      assert Norm(p) == [NormChar(p[0])] + Norm(p[1..]);
    }
  }

  /** `_norm` leaves no backslash behind, so applying it twice is applying it once. */
  lemma NormIdempotent(p: string)
    ensures '\\' !in Norm(p)
    ensures Norm(Norm(p)) == Norm(p)
  {
    NormPointwise(p);
    NormPointwise(Norm(p));
  }

  /** Some entry of `subs` occurs in `s`: Python's `any(x in s for x in subs)`. */
  predicate ContainsAny(s: string, subs: seq<string>) {
    exists i | 0 <= i < |subs| :: Contains(s, subs[i])
  }

  /** `_is_allowed_path`, on the lower-cased and then normalised path. */
  predicate IsAllowedPath(path: string) {
    var low := Norm(Lower(path));
    if ContainsAny(low, SensitiveSubstrings) then false
    else if ContainsAny(low, DisallowedSubstrings) then false
    else StartsWith(low, SandboxPrefix)
  }

  /** An occurrence of a backslash-free text survives normalisation. */
  lemma NormKeepsOccurrence(s: string, sub: string, i: int)
    requires '\\' !in sub
    ensures OccursAt(s, sub, i) ==> OccursAt(Norm(s), sub, i)
  {
    if OccursAt(s, sub, i) {
      NormPointwise(s);
      forall k | 0 <= k < |sub| ensures Norm(s)[i + k] == sub[k] {
        assert s[i..i + |sub|][k] == s[i + k];
      }
      assert Norm(s)[i..i + |sub|] == sub;
    }
  }

  /** A backslash-free text absent from the normalised string is absent from the original. */
  lemma NormHidesNothing(s: string, sub: string)
    requires '\\' !in sub && !Contains(Norm(s), sub)
    ensures !Contains(s, sub)
  {
    NormPointwise(s);
    forall i | 0 <= i <= |s| - |sub| ensures !OccursAt(s, sub, i) {
      NormKeepsOccurrence(s, sub, i);
    }
  }

  lemma ContainsTransitiveImplication(s: string, mid: string, sub: string)
    requires Contains(mid, sub)
    ensures Contains(s, mid) ==> Contains(s, sub)
  {
    if Contains(s, mid) {
      ContainsTransitive(s, mid, sub);
    }
  }

  /**
   * A path this stage may write never trips the safety gate: every hint of
   * the gate contains one of the stage's sensitive substrings, none of which
   * holds a backslash.
   */
  lemma AllowedNeverSensitive(p: string)
    requires IsAllowedPath(p)
    ensures !SafetyNode.Sensitive(Lower(p))
  {
    var low := Lower(p);
    var hints := SafetyNode.SensitiveHints;
    assert !ContainsAny(Norm(low), SensitiveSubstrings);
    forall i | 0 <= i < |hints| ensures !Contains(low, hints[i]) {
      if i == 0 {
        assert !Contains(Norm(low), SensitiveSubstrings[0]);
        NormHidesNothing(low, "security");
        assert OccursAt("security.py", "security", 0) by {
          assert "security.py"[0..8] == "security";
        }
        ContainsTransitiveImplication(low, "security.py", "security");
      } else {
        var j := if i == 1 then 4 else i - 1;
        assert hints[i] == SensitiveSubstrings[j];
        assert !Contains(Norm(low), SensitiveSubstrings[j]);
        NormHidesNothing(low, hints[i]);
      }
    }
  }

  /** The "tests\\" entry of the deny-list can never match: the path is normalised first. */
  lemma BackslashEntryInert(p: string)
    ensures !Contains(Norm(Lower(p)), DisallowedSubstrings[1])
  {
    NormIdempotent(Lower(p));
    assert DisallowedSubstrings[1][5] == '\\';
    MissingCharNotContained(Norm(Lower(p)), DisallowedSubstrings[1], 5);
  }

  /** The sandbox pricing module is writable, whether written with slashes or backslashes. */
  lemma SandboxTargetAllowed()
    ensures IsAllowedPath("src/sandbox/pricing.py")
    ensures IsAllowedPath("src\\sandbox\\pricing.py")
  {
    SandboxLowNormal("src/sandbox/pricing.py");
    SandboxLowNormal("src\\sandbox\\pricing.py");
    SandboxPathClean();
  }

  /** The slash spelling of the pricing module holds no sensitive or denied text and sits in the sandbox. */
  lemma SandboxPathClean()
    ensures !ContainsAny("src/sandbox/pricing.py", SensitiveSubstrings)
    ensures !ContainsAny("src/sandbox/pricing.py", DisallowedSubstrings)
    ensures StartsWith("src/sandbox/pricing.py", SandboxPrefix)
  {
    var target := "src/sandbox/pricing.py";
    assert 'e' !in target && 't' !in target && 'u' !in target && 'm' !in target;
    forall i | 0 <= i < |SensitiveSubstrings| ensures !Contains(target, SensitiveSubstrings[i]) {
      var k := if i == 2 then 0 else 1;
      assert SensitiveSubstrings[i][k] in {'e', 't', 'u'};
      MissingCharNotContained(target, SensitiveSubstrings[i], k);
    }
    forall i | 0 <= i < |DisallowedSubstrings| ensures !Contains(target, DisallowedSubstrings[i]) {
      var k := if i == 4 then 3 else if i >= 2 then 1 else 0;
      assert DisallowedSubstrings[i][k] in {'e', 't', 'm'};
      MissingCharNotContained(target, DisallowedSubstrings[i], k);
    }
    assert target[..|SandboxPrefix|] == SandboxPrefix;
  }

  /** Both spellings of the pricing module normalise to the slash spelling. */
  lemma SandboxLowNormal(p: string)
    requires p == "src/sandbox/pricing.py" || p == "src\\sandbox\\pricing.py"
    ensures Norm(Lower(p)) == "src/sandbox/pricing.py"
  {
    NormPointwise(Lower(p));
    var target := "src/sandbox/pricing.py";
    forall k | 0 <= k < |target| ensures Norm(Lower(p))[k] == target[k] {
      assert Lower(p)[k] == LowerChar(p[k]);
    }
  }

  // ---------------------------------------------------------------------------
  // Errors and content checks
  // ---------------------------------------------------------------------------

  /** A Python exception: its class name and its message. */
  datatype PyError = PyError(kind: string, message: string)

  /** A value, or the exception raised instead. */
  datatype Checked<T> = Ok(value: T) | Raised(error: PyError)

  const Fence := "```"
  const FenceError := PyError("ValueError", "LLM output contains markdown code fences.")
  const NoChangeError := PyError("ValueError", "LLM inserted NO_CHANGE into file content.")
  const NotAListError := PyError("ValueError", "updates must be a list")
  const NoChangeToken := "NO_CHANGE"

  function DisallowedError(path: string): PyError {
    PyError("ValueError", "LLM attempted to modify disallowed path: " + path)
  }

  /** The error `read_text` raises for a path the repository does not hold. */
  function MissingFileError(path: string): PyError {
    PyError("FileNotFoundError", "[Errno 2] No such file or directory: '" + path + "'")
  }

  /** `_strip_code_fences`: the text itself, or a raise when it holds a triple backtick. */
  function StripCodeFences(s: string): (r: Checked<string>)
    ensures r.Raised? <==> Contains(s, Fence)
    ensures r.Ok? ==> r.value == s
    ensures r.Raised? ==> r.error == FenceError
  {
    if Contains(s, Fence) then Raised(FenceError) else Ok(s)
  }

  /** `"NO_CHANGE" in content.strip().splitlines()[:3]`. */
  predicate NoChangeMarked(content: string) {
    NoChangeInFirstLines(Strip(content))
  }

  /** "NO_CHANGE" is one of the first three lines of `x`. */
  predicate NoChangeInFirstLines(x: string) {
    NoChangeToken in PyPrefix(SplitLines(x), 3)
  }

  /** Content whose first line is exactly "NO_CHANGE" is refused. */
  lemma NoChangeFirstLine(content: string)
    requires StartsWith(content, NoChangeToken)
    requires |content| == |NoChangeToken| || content[|NoChangeToken|] == '\n'
    ensures NoChangeMarked(content)
  {
    TokenSurvivesStrip(content);
    TokenLineKept(content, Strip(content));
    FirstLineIsToken(Strip(content));
  }

  /** Stripping a text that starts with the token removes nothing in front and keeps the token. */
  lemma TokenSurvivesStrip(content: string)
    requires StartsWith(content, NoChangeToken)
    ensures StartsWith(content, Strip(content))
    ensures StartsWith(Strip(content), NoChangeToken)
  {
    var n := |NoChangeToken|;
    assert content[0] == content[..n][0] == 'N';
    assert !IsSpace(NoChangeToken[0]) && !IsSpace(NoChangeToken[n - 1]);
    StripFromUnspacedStart(content);
    StripKeepsPrefix(content, NoChangeToken);
  }

  /** A prefix of the content that still starts with the token keeps the line break after it. */
  lemma TokenLineKept(content: string, x: string)
    requires StartsWith(content, x) && StartsWith(x, NoChangeToken)
    requires |content| == |NoChangeToken| || content[|NoChangeToken|] == '\n'
    ensures |x| == |NoChangeToken| || x[|NoChangeToken|] == '\n'
  {
    var n := |NoChangeToken|;
    if |x| > n {
      assert x[n] == content[..|x|][n] == content[n];
    }
  }

  /** A text that does not start with white space strips to one of its prefixes. */
  lemma StripFromUnspacedStart(s: string)
    requires s != [] && !IsSpace(s[0])
    ensures StartsWith(s, Strip(s))
  {
    assert TrimLeft(s) == s;
  }

  /** A text made of the token alone, or of the token and a line break first, has the token as first line. */
  lemma FirstLineIsToken(x: string)
    requires StartsWith(x, NoChangeToken)
    requires |x| == |NoChangeToken| || x[|NoChangeToken|] == '\n'
    ensures NoChangeInFirstLines(x)
  {
    var n := |NoChangeToken|;
    assert x[..n] == NoChangeToken;
    forall j | 0 <= j < n ensures x[j] != '\n' {
      assert x[j] == NoChangeToken[j];
    }
    var i := FindCharFrom(x, '\n', 0);
    assert i == -1 || i == n;
    var lines := SplitLines(x);
    assert lines[0] == NoChangeToken by {
      if i == -1 {
        assert lines == [x];
      } else {
        assert lines == [x[..i]] + SplitLines(x[i + 1..]);
      }
    }
    assert PyPrefix(lines, 3)[0] == lines[0];
  }

  // ---------------------------------------------------------------------------
  // Prompt material
  // ---------------------------------------------------------------------------

  /** The list with every entry stripped. */
  function StripEach(xs: seq<string>): (r: seq<string>)
    ensures |r| == |xs| && forall i :: 0 <= i < |xs| ==> r[i] == Strip(xs[i])
  {
    seq(|xs|, i requires 0 <= i < |xs| => Strip(xs[i]))
  }

  /** Each distinct entry once, at its first position. */
  function Dedup(xs: seq<string>): (r: seq<string>)
    decreases |xs|
    ensures |r| <= |xs|
    ensures forall x :: x in r <==> x in xs
    ensures forall i, j :: 0 <= i < j < |r| ==> r[i] != r[j]
  {
    if xs == [] then []
    else
      var d := Dedup(xs[..|xs| - 1]);
      var x := xs[|xs| - 1];
      assert forall y :: y in xs <==> y in xs[..|xs| - 1] || y == x;
      if x in d then d else d + [x]
  }

  /** Later entries never displace earlier ones: deduplicating a prefix gives a prefix. */
  lemma {:induction false} DedupPrefix(xs: seq<string>, k: nat)
    requires k <= |xs|
    ensures Dedup(xs[..k]) <= Dedup(xs)
    decreases |xs| - k
  {
    if k < |xs| {
      DedupPrefix(xs, k + 1);
      assert xs[..k + 1][..k] == xs[..k];
    } else {
      assert xs[..k] == xs;
    }
  }

  /** One more entry is appended to the deduplicated list exactly when it is new. */
  lemma DedupStep(xs: seq<string>, k: nat)
    requires k < |xs|
    ensures Dedup(xs[..k + 1]) == if xs[k] in Dedup(xs[..k]) then Dedup(xs[..k]) else Dedup(xs[..k]) + [xs[k]]
  {
    assert xs[..k + 1][..k] == xs[..k];
  }

  /** `_extract_test_paths` after the regex: strip, keep first occurrences, cap at two. */
  function TestPaths(matches: seq<string>): (r: seq<string>)
    ensures |r| == Min(2, |Dedup(StripEach(matches))|) && r <= Dedup(StripEach(matches))
    ensures forall i, j :: 0 <= i < j < |r| ==> r[i] != r[j]
    ensures forall p :: p in r ==> exists i :: 0 <= i < |matches| && p == Strip(matches[i])
  {
    var d := Dedup(StripEach(matches));
    var r := PyPrefix(d, 2);
    assert forall p :: p in r ==> p in d;
    r
  }

  /** The loop of `_extract_test_paths` with its `seen` set. */
  method ExtractTestPaths(matches: seq<string>) returns (out: seq<string>)
    ensures out == TestPaths(matches)
  {
    var stripped := StripEach(matches);
    var seen: set<string> := {};
    var all: seq<string> := [];
    for k := 0 to |matches|
      invariant all == Dedup(stripped[..k])
      invariant forall x :: x in seen <==> x in all
    {
      var p := Strip(matches[k]);
      assert p == stripped[k];
      DedupStep(stripped, k);
      if p !in seen {
        seen := seen + {p};
        all := all + [p];
      }
    }
    assert stripped[..|matches|] == stripped;
    out := PyPrefix(all, 2);
  }

  /** `i` is where "FAILURES" first occurs in `t`. */
  predicate FirstFailuresAt(t: string, i: int) {
    OccursAt(t, "FAILURES", i) && forall j :: 0 <= j < i ==> !OccursAt(t, "FAILURES", j)
  }

  /** `_compact_failures`: the stripped text from its first "FAILURES" on, cut to `maxChars`. */
  function CompactFailures(text: string, maxChars: int): (r: string)
    ensures maxChars >= 0 ==> |r| <= maxChars
    ensures Contains(Strip(text), r)
    ensures !Contains(Strip(text), "FAILURES") ==> r == PyPrefix(Strip(text), maxChars)
    ensures Contains(Strip(text), "FAILURES") && maxChars >= 8 ==> StartsWith(r, "FAILURES")
    ensures Contains(Strip(text), "FAILURES") ==> exists i :: FirstFailuresAt(Strip(text), i) && r == PyPrefix(Strip(text)[i..], maxChars)
  {
    var t := Strip(text);
    var i := Find(t, "FAILURES");
    var u := if i != -1 then t[i..] else t;
    var r := PyPrefix(u, maxChars);
    PrefixOfSuffixContained(t, |t| - |u|, r);
    assert i != -1 ==> FirstFailuresAt(t, i);
    assert i != -1 && maxChars >= 8 ==> StartsWith(r, "FAILURES") by {
      if i != -1 && maxChars >= 8 {
        SectionStart(t, i, maxChars);
      }
    }
    r
  }

  /** A prefix of a suffix of `t` occurs in `t`. */
  lemma PrefixOfSuffixContained(t: string, k: nat, r: string)
    requires k <= |t| && |r| <= |t| - k && r == t[k..][..|r|]
    ensures Contains(t, r)
  {
    assert t[k..k + |r|] == r;
    assert OccursAt(t, r, k);
  }

  /** Cutting the text from an occurrence of "FAILURES" keeps that word at its head. */
  lemma SectionStart(t: string, i: int, maxChars: int)
    requires 0 <= i && OccursAt(t, "FAILURES", i) && maxChars >= 8
    ensures StartsWith(PyPrefix(t[i..], maxChars), "FAILURES")
  {
    var r := PyPrefix(t[i..], maxChars);
    assert |r| >= 8;
    assert r[..8] == t[i..][..8] == t[i..i + 8];
  }

  /** `_best_pytest_text`. A ToolRun has no full `stdout`/`stderr`, so the tails are used. */
  function BestPytestText(lastTest: Option<ToolRun>): string {
    match lastTest
    case None => ""
    case Some(r) => Strip(Strip(r.stdoutTail.GetOr("")) + "\n" + Strip(r.stderrTail.GetOr("")))
  }

  const ChunkSeparator := "\n\n---\n\n"
  const MaxFailureItems := 12
  const MaxFailureChars := 2200

  /** The non-blank stripped raws of the items, in order. */
  function Chunks(items: seq<Failure>): (r: seq<string>)
    decreases |items|
    ensures |r| <= |items|
    ensures forall c :: c in r ==> c != []
  {
    if items == [] then []
    else
      var rest := Chunks(items[..|items| - 1]);
      var raw := Strip(items[|items| - 1].raw);
      if raw != [] then rest + [raw] else rest
  }

  /** Every chunk is the stripped raw text of some item. */
  lemma {:induction false} ChunksFromItems(items: seq<Failure>)
    ensures forall c :: c in Chunks(items) ==> exists i :: 0 <= i < |items| && c == Strip(items[i].raw)
    decreases |items|
  {
    if items != [] {
      var init := items[..|items| - 1];
      ChunksFromItems(init);
      forall c | c in Chunks(items) ensures exists i :: 0 <= i < |items| && c == Strip(items[i].raw) {
        if c in Chunks(init) {
          var i :| 0 <= i < |init| && c == Strip(init[i].raw);
          assert init[i] == items[i];
        } else {
          assert c == Strip(items[|items| - 1].raw);
        }
      }
    }
  }

  /** The chunk one item contributes: its stripped raw text, or nothing when that is blank. */
  function ItemChunk(f: Failure): seq<string> {
    if Strip(f.raw) != [] then [Strip(f.raw)] else []
  }

  lemma ChunksLast(items: seq<Failure>)
    requires items != []
    ensures Chunks(items) == Chunks(items[..|items| - 1]) + ItemChunk(items[|items| - 1])
  {
  }

  /** Every non-blank item gives its stripped raw text as a chunk. */
  lemma ChunksComplete(items: seq<Failure>)
    ensures forall i :: 0 <= i < |items| && Strip(items[i].raw) != [] ==> Strip(items[i].raw) in Chunks(items)
  {
    forall i | 0 <= i < |items| && Strip(items[i].raw) != [] ensures Strip(items[i].raw) in Chunks(items) {
      ItemChunkPresent(items, i);
    }
  }

  lemma ItemChunkPresent(items: seq<Failure>, i: nat)
    requires i < |items|
    ensures Strip(items[i].raw) != [] ==> Strip(items[i].raw) in Chunks(items)
  {
    var x, pre, post := items[i], items[..i], items[i + 1..];
    assert items == pre + ([x] + post);
    ChunksAppend(pre, [x] + post);
    ChunksAppend([x], post);
    ChunksSingle(x);
    var cs := Chunks(items);
    assert cs == Chunks(pre) + (ItemChunk(x) + Chunks(post));
    if Strip(x.raw) != [] {
      assert cs[|Chunks(pre)|] == Strip(x.raw);
    }
  }

  lemma ChunksSingle(x: Failure)
    ensures Chunks([x]) == ItemChunk(x)
  {
    ChunksLast([x]);
    assert [x][..0] == [];
  }

  /** Chunks keep the order of the items: chunking a concatenation concatenates the chunks. */
  lemma {:induction false} ChunksAppend(a: seq<Failure>, b: seq<Failure>)
    ensures Chunks(a + b) == Chunks(a) + Chunks(b)
    decreases |b|
  {
    if b == [] {
      assert a + b == a;
    } else {
      var init := b[..|b| - 1];
      var last := b[|b| - 1];
      var c := a + b;
      assert c[..|c| - 1] == a + init;
      assert c[|c| - 1] == last;
      ChunksLast(c);
      ChunksLast(b);
      ChunksAppend(a, init);
      calc {
        Chunks(c);
        Chunks(a + init) + ItemChunk(last);
        Chunks(a) + Chunks(init) + ItemChunk(last);
        Chunks(a) + (Chunks(init) + ItemChunk(last));
        Chunks(a) + Chunks(b);
      }
    }
  }

  /** The parsed failures of the last test run, or none without one. */
  function FailureItems(lastTest: Option<ToolRun>): seq<Failure> {
    match lastTest
    case None => []
    case Some(r) => r.failuresParsed
  }

  /** `_format_failures_parsed` with its default limits. */
  function FailuresDigest(lastTest: Option<ToolRun>): (r: string)
    ensures var joined := Strip(Join(ChunkSeparator, Chunks(PyPrefix(FailureItems(lastTest), MaxFailureItems))));
      && |r| <= MaxFailureChars && StartsWith(joined, r)
      && (|joined| <= MaxFailureChars ==> r == joined)
      && (|joined| > MaxFailureChars ==> |r| == MaxFailureChars)
  {
    var items := PyPrefix(FailureItems(lastTest), MaxFailureItems);
    PyPrefix(Strip(Join(ChunkSeparator, Chunks(items))), MaxFailureChars)
  }

  /** With no last test, or only blank raws among the first twelve items, the digest is empty. */
  lemma {:induction false} BlankItemsNoChunks(items: seq<Failure>)
    requires forall i :: 0 <= i < |items| ==> Strip(items[i].raw) == []
    ensures Chunks(items) == []
    decreases |items|
  {
    if items != [] {
      BlankItemsNoChunks(items[..|items| - 1]);
    }
  }

  /**
   * The digest is empty exactly when each of the first twelve items is blank,
   * which is when the payload falls back to "(none)".
   */
  lemma DigestEmptyIffBlank(lastTest: Option<ToolRun>)
    ensures var items := PyPrefix(FailureItems(lastTest), MaxFailureItems);
      FailuresDigest(lastTest) == [] <==> forall i :: 0 <= i < |items| ==> Strip(items[i].raw) == []
  {
    var items := PyPrefix(FailureItems(lastTest), MaxFailureItems);
    var joined := Strip(Join(ChunkSeparator, Chunks(items)));
    assert FailuresDigest(lastTest) == [] <==> joined == [];
    if forall i :: 0 <= i < |items| ==> Strip(items[i].raw) == [] {
      BlankItemsNoChunks(items);
      StripUnspaced([]);
    } else {
      var i :| 0 <= i < |items| && Strip(items[i].raw) != [];
      JoinedChunksNonBlank(items, i);
    }
  }

  /** One non-blank item makes the stripped join of the chunks non-blank. */
  lemma JoinedChunksNonBlank(items: seq<Failure>, i: nat)
    requires i < |items| && Strip(items[i].raw) != []
    ensures Strip(Join(ChunkSeparator, Chunks(items))) != []
  {
    var chunks := Chunks(items);
    ItemChunkPresent(items, i);
    ChunksFromItems(items);
    assert chunks[0] in chunks;
    var k :| 0 <= k < |items| && chunks[0] == Strip(items[k].raw);
    JoinStartsWithFirst(ChunkSeparator, chunks);
    var joined := Join(ChunkSeparator, chunks);
    assert joined[0] == chunks[0][0];
    StripNonBlank(joined);
  }

  /** A text whose first character is not white space does not strip to nothing. */
  lemma StripNonBlank(s: string)
    requires s != [] && !IsSpace(s[0])
    ensures Strip(s) != []
  {
    assert TrimLeft(s) == s;
  }

  /** One more item adds its stripped raw text, unless that is blank. */
  lemma ChunksStep(items: seq<Failure>, k: nat)
    requires k < |items|
    ensures Chunks(items[..k + 1]) ==
      if Strip(items[k].raw) != [] then Chunks(items[..k]) + [Strip(items[k].raw)] else Chunks(items[..k])
  {
    assert items[..k + 1][..k] == items[..k];
  }

  /** The loop of `_format_failures_parsed`. */
  method FormatFailuresParsed(lastTest: Option<ToolRun>) returns (text: string)
    ensures text == FailuresDigest(lastTest)
  {
    var items := PyPrefix(FailureItems(lastTest), MaxFailureItems);
    var chunks: seq<string> := [];
    for k := 0 to |items|
      invariant chunks == Chunks(items[..k])
    {
      ChunksStep(items, k);
      var raw := Strip(items[k].raw);
      if raw != [] {
        chunks := chunks + [raw];
      }
    }
    assert items[..|items|] == items;
    text := PyPrefix(Strip(Join(ChunkSeparator, chunks)), MaxFailureChars);
  }

  /** The `run_info` block; the run's duration is not part of the model and renders empty. */
  function RunInfo(lastTest: Option<ToolRun>): string {
    match lastTest
    case None => ""
    case Some(r) =>
      "COMMAND: " + r.command + "\n"
      + "STATUS: " + RunStatusName(r.status) + "\n"
      + "EXIT_CODE: " + SynthesisNode.ShowExitCode(r.exitCode) + "\n"
      + "DURATION_SEC: \n"
  }

  /** The read-only blocks of the test files that exist, in order. */
  function TestBlocks(paths: seq<string>, files: map<string, string>): seq<string>
    decreases |paths|
  {
    if paths == [] then []
    else
      var rest := TestBlocks(paths[..|paths| - 1], files);
      var p := paths[|paths| - 1];
      if p in files then rest + ["=== READ-ONLY TEST: " + p + " ===\n" + files[p] + "\n"] else rest
  }

  /** The blocks of the target files that exist, in order. */
  function FileBlocks(paths: seq<string>, files: map<string, string>): seq<string>
    decreases |paths|
  {
    if paths == [] then []
    else
      var rest := FileBlocks(paths[..|paths| - 1], files);
      var p := paths[|paths| - 1];
      if p in files then rest + ["=== " + p + " ===\n" + files[p] + "\n"] else rest
  }

  /** The prompt inputs of one model call. */
  datatype Payload = Payload(
    task: string,
    runInfo: string,
    failuresCompact: string,
    failuresParsed: string,
    tests: string,
    files: string)

  const Reminder := "\n\nREMINDER: Output JSON only. No markdown. No extra text."

  /** The payload of the first attempt. */
  function InitialPayload(taskPrompt: string, lastTest: Option<ToolRun>, targets: seq<string>,
                          files: map<string, string>, findTestPaths: string -> seq<string>): Payload
  {
    var pytestText := BestPytestText(lastTest);
    var digest := FailuresDigest(lastTest);
    Payload(
      taskPrompt,
      RunInfo(lastTest),
      CompactFailures(pytestText, 2500),
      if digest == "" then "(none)" else digest,
      PyPrefix(Join("\n", TestBlocks(TestPaths(findTestPaths(pytestText)), files)), 8000),
      PyPrefix(Join("\n", FileBlocks(targets, files)), 12000))
  }

  /** The targets that pass `_is_allowed_path`, in order. */
  function AllowedTargets(paths: seq<string>): (r: seq<string>)
    decreases |paths|
    ensures |r| <= |paths|
    ensures forall p :: p in r <==> p in paths && IsAllowedPath(p)
  {
    if paths == [] then []
    else
      var rest := AllowedTargets(paths[..|paths| - 1]);
      var p := paths[|paths| - 1];
      assert forall q :: q in paths <==> q in paths[..|paths| - 1] || q == p;
      if IsAllowedPath(p) then rest + [p] else rest
  }

  // ---------------------------------------------------------------------------
  // Model answers and the update loop
  // ---------------------------------------------------------------------------

  /** What the model call gives back: the message content, or an exception. */
  datatype ModelReply = Content(text: string) | CallFailed(error: PyError)

  /**
   * One entry of `updates`: a dict with a path (missing reads as "") and a
   * content that may not be a string (None here), or an entry whose path
   * cannot be normalised, which raises.
   */
  datatype UpdateEntry = Entry(path: string, content: Option<string>) | Malformed(error: PyError)

  /** The `updates` field: a list, or something else. A missing field reads as the empty list. */
  datatype UpdatesField = Updates(entries: seq<UpdateEntry>) | NotAList

  /** What `json.loads` gives back: an object, or an exception. */
  datatype Parsed = Object(updates: UpdatesField) | ParseFailed(error: PyError)

  /** Some "{" of `t` comes before some "}". */
  predicate HasBracePair(t: string) {
    exists i, j :: 0 <= i < j < |t| && t[i] == '{' && t[j] == '}'
  }

  /** `r` is the piece of `t` from its first "{" to its last "}". */
  ghost predicate FirstToLastBrace(t: string, r: string) {
    exists b, e :: BraceBounds(t, b, e) && r == t[b..e + 1]
  }

  /** `b` holds the first "{" of `t`, and `e > b` its last "}". */
  predicate BraceBounds(t: string, b: int, e: int) {
    0 <= b < e < |t| && t[b] == '{' && t[e] == '}' && '{' !in t[..b] && '}' !in t[e + 1..]
  }

  /**
   * `t[t.find("{"):t.rfind("}") + 1]`, taken only when both are found and
   * the "}" comes after the "{"; None otherwise.
   */
  function BraceSlice(t: string): (r: Option<string>)
    ensures r.Some? <==> HasBracePair(t)
    ensures r.Some? ==> FirstToLastBrace(t, r.value)
  {
    var start := Find(t, "{");
    var end := RFind(t, "}");
    BraceSliceFacts(t);
    if start != -1 && end != -1 && end > start then Some(t[start..end + 1]) else None
  }

  /** A one-character text occurs exactly where that character stands. */
  lemma CharOccurs(t: string, c: char, k: int)
    ensures OccursAt(t, [c], k) <==> 0 <= k < |t| && t[k] == c
  {
    if 0 <= k < |t| {
      assert t[k..k + 1] == [t[k]];
    }
  }

  lemma BraceSliceFacts(t: string)
    ensures var start, end := Find(t, "{"), RFind(t, "}");
      && (start != -1 && end != -1 && end > start <==> HasBracePair(t))
      && (start != -1 && end != -1 && end > start ==> FirstToLastBrace(t, t[start..end + 1]))
  {
    var start, end := Find(t, "{"), RFind(t, "}");
    if start != -1 && end != -1 && end > start {
      CharOccurs(t, '{', start);
      CharOccurs(t, '}', end);
      assert '{' !in t[..start] by {
        forall k | 0 <= k < start ensures t[..start][k] != '{' {
          CharOccurs(t, '{', k);
        }
      }
      var after := t[end + 1..];
      assert '}' !in after by {
        forall k | 0 <= k < |after| ensures after[k] != '}' {
          CharOccurs(t, '}', end + 1 + k);
        }
      }
      assert BraceBounds(t, start, end);
      assert FirstToLastBrace(t, t[start..end + 1]);
    }
    if HasBracePair(t) {
      var i, j :| 0 <= i < j < |t| && t[i] == '{' && t[j] == '}';
      CharOccurs(t, '{', i);
      CharOccurs(t, '}', j);
    }
  }

  /** The first-"{"-to-last-"}" piece of a text is unique, and is a braced piece of that text. */
  lemma FirstToLastBraceUnique(t: string, r1: string, r2: string)
    requires FirstToLastBrace(t, r1) && FirstToLastBrace(t, r2)
    ensures r1 == r2
    ensures StartsWith(r1, "{") && EndsWith(r1, "}") && Contains(t, r1)
  {
    var b1, e1 :| BraceBounds(t, b1, e1) && r1 == t[b1..e1 + 1];
    var b2, e2 :| BraceBounds(t, b2, e2) && r2 == t[b2..e2 + 1];
    BraceBoundsUnique(t, b1, e1, b2, e2);
    assert r1[..1] == [t[b1]];
    assert r1[|r1| - 1..] == [t[e1]];
    assert OccursAt(t, r1, b1);
  }

  lemma BraceBoundsUnique(t: string, b1: int, e1: int, b2: int, e2: int)
    requires BraceBounds(t, b1, e1) && BraceBounds(t, b2, e2)
    ensures b1 == b2 && e1 == e2
  {
    EarlierBraceSeen(t, b1, b2);
    EarlierBraceSeen(t, b2, b1);
    LaterBraceSeen(t, e1, e2);
    LaterBraceSeen(t, e2, e1);
  }

  lemma EarlierBraceSeen(t: string, b: int, b': int)
    requires 0 <= b < |t| && 0 <= b' <= |t| && t[b] == '{'
    ensures b < b' ==> '{' in t[..b']
  {
    if b < b' {
      assert t[..b'][b] == '{';
    }
  }

  lemma LaterBraceSeen(t: string, e: int, e': int)
    requires 0 <= e < |t| && 0 <= e' < |t| && t[e'] == '}'
    ensures e < e' ==> '}' in t[e + 1..]
  {
    if e < e' {
      assert t[e + 1..][e' - e - 1] == '}';
    }
  }

  /**
   * `_invoke_llm_json`'s slice: the stripped text when it opens with "{" or
   * holds no "{" before a "}", else its first-"{"-to-last-"}" piece.
   */
  function JsonCandidate(content: string): (r: string)
    ensures StartsWith(Strip(content), "{") || !HasBracePair(Strip(content)) ==> r == Strip(content)
    ensures !StartsWith(Strip(content), "{") && HasBracePair(Strip(content)) ==> FirstToLastBrace(Strip(content), r)
  {
    var raw := Strip(content);
    if StartsWith(raw, "{") then raw
    else match BraceSlice(raw)
      case Some(piece) => piece
      case None => raw
  }

  /** The state of one pass over the updates: files, patches so far, and a raise that ended it. */
  datatype UpdState = UpdState(files: map<string, string>, patches: seq<Patch>, error: Option<PyError>)

  const LlmConfidence := 0.6

  function LlmPatch(patchId: string, path: string, diffText: string): (p: Patch)
    ensures p.filesTouched == [path] && WellFormedPatch(p)
  {
    Patch(patchId, "LLM-generated fix for " + path, diffText, [path], LlmConfidence)
  }

  /** `content` with a trailing line break, added if missing. */
  function Terminated(content: string): (r: string)
    ensures EndsWith(r, "\n") && StartsWith(r, content)
  {
    if EndsWith(content, "\n") then content else content + "\n"
  }

  /** The checks on one update: allowed path, no code fence, no NO_CHANGE line near the top. */
  function CheckEntry(path: string, content: string): (r: Checked<string>)
    ensures r.Ok? <==> IsAllowedPath(path) && !Contains(content, Fence) && !NoChangeMarked(content)
    ensures r.Ok? ==> r.value == content
    ensures !IsAllowedPath(path) ==> r == Raised(DisallowedError(path))
  {
    if !IsAllowedPath(path) then Raised(DisallowedError(path))
    else match StripCodeFences(content)
      case Raised(e) => Raised(e)
      case Ok(text) => if NoChangeMarked(text) then Raised(NoChangeError) else Ok(text)
  }

  /** Read the file, add the line break, and write and record it when it changed. */
  function WriteEntry(s: UpdState, path: string, text: string,
                      diff: (string, string, string) -> string, ids: nat -> string): (s': UpdState)
    ensures path !in s.files ==> s' == s.(error := Some(MissingFileError(path)))
    ensures path in s.files && s.files[path] == Terminated(text) ==> s' == s
    ensures path in s.files && s.files[path] != Terminated(text) ==>
      && s'.files == s.files[path := Terminated(text)]
      && s'.patches == s.patches + [LlmPatch(ids(|s.patches|), path, diff(s.files[path], Terminated(text), path))]
      && s'.error == s.error
  {
    if path !in s.files then s.(error := Some(MissingFileError(path)))
    else
      var current := s.files[path];
      var fixed := Terminated(text);
      if current == fixed then s
      else s.(files := s.files[path := fixed],
              patches := s.patches + [LlmPatch(ids(|s.patches|), path, diff(current, fixed, path))])
  }

  /** The body of the update loop for one entry. */
  function Step(s: UpdState, u: UpdateEntry, diff: (string, string, string) -> string, ids: nat -> string): UpdState {
    match u
    case Malformed(e) => s.(error := Some(e))
    case Entry(rawPath, content) =>
      var path := Strip(Norm(rawPath));
      if path == [] || content.None? then s
      else match CheckEntry(path, content.value)
        case Raised(e) => s.(error := Some(e))
        case Ok(text) => WriteEntry(s, path, text, diff, ids)
  }

  /** The update loop: entries in order, stopping at the first raise. */
  function ApplyAll(s: UpdState, us: seq<UpdateEntry>, diff: (string, string, string) -> string, ids: nat -> string): UpdState
    decreases |us|
  {
    if us == [] || s.error.Some? then s else ApplyAll(Step(s, us[0], diff, ids), us[1..], diff, ids)
  }

  /** The `for u in updates` loop of one attempt. Writes made before a raise are kept. */
  method ApplyUpdates(files: map<string, string>, entries: seq<UpdateEntry>,
                      diff: (string, string, string) -> string, ids: nat -> string) returns (s: UpdState)
    ensures s == ApplyAll(UpdState(files, [], None), entries, diff, ids)
  {
    var fs := files;
    var newPatches: seq<Patch> := [];
    for k := 0 to |entries|
      invariant ApplyAll(UpdState(fs, newPatches, None), entries[k..], diff, ids)
             == ApplyAll(UpdState(files, [], None), entries, diff, ids)
    {
      var cur := UpdState(fs, newPatches, None);
      assert entries[k..][0] == entries[k] && entries[k..][1..] == entries[k + 1..];
      var u := entries[k];
      if u.Malformed? {
        return UpdState(fs, newPatches, Some(u.error));
      }
      var path := Strip(Norm(u.path));
      if path != [] && u.content.Some? {
        if !IsAllowedPath(path) {
          return UpdState(fs, newPatches, Some(DisallowedError(path)));
        }
        var checked := StripCodeFences(u.content.value);
        if checked.Raised? {
          return UpdState(fs, newPatches, Some(checked.error));
        }
        var content := checked.value;
        if NoChangeMarked(content) {
          return UpdState(fs, newPatches, Some(NoChangeError));
        }
        if path !in fs {
          return UpdState(fs, newPatches, Some(MissingFileError(path)));
        }
        var current := fs[path];
        var fixed := if EndsWith(content, "\n") then content else content + "\n";
        if current != fixed {
          var d := diff(current, fixed, path);
          fs := fs[path := fixed];
          newPatches := newPatches + [LlmPatch(ids(|newPatches|), path, d)];
        }
      }
      assert UpdState(fs, newPatches, None) == Step(cur, u, diff, ids);
    }
    s := UpdState(fs, newPatches, None);
  }

  /** One attempt: ask, slice, parse, then run the update loop on the current files. */
  function Attempt(files: map<string, string>, payload: Payload, ask: Payload -> ModelReply,
                   loads: string -> Parsed, diff: (string, string, string) -> string, ids: nat -> string): UpdState
  {
    match ask(payload)
    case CallFailed(e) => UpdState(files, [], Some(e))
    case Content(text) =>
      match loads(JsonCandidate(text))
      case ParseFailed(e) => UpdState(files, [], Some(e))
      case Object(NotAList) => UpdState(files, [], Some(NotAListError))
      case Object(Updates(entries)) => ApplyAll(UpdState(files, [], None), entries, diff, ids)
  }

  method RunAttempt(files: map<string, string>, payload: Payload, ask: Payload -> ModelReply,
                    loads: string -> Parsed, diff: (string, string, string) -> string, ids: nat -> string)
    returns (s: UpdState)
    ensures s == Attempt(files, payload, ask, loads, diff, ids)
  {
    var reply := ask(payload);
    if reply.CallFailed? {
      return UpdState(files, [], Some(reply.error));
    }
    var obj := loads(JsonCandidate(reply.text));
    match obj {
      case ParseFailed(e) =>
        s := UpdState(files, [], Some(e));
      case Object(NotAList) =>
        s := UpdState(files, [], Some(NotAListError));
      case Object(Updates(entries)) =>
        s := ApplyUpdates(files, entries, diff, ids);
    }
  }

  // ---------------------------------------------------------------------------
  // The stage
  // ---------------------------------------------------------------------------

  const NoFilesReason := "No files selected for patching."
  const NotAllowedReason := "Selected files were not allowed (tests/docs/sensitive)."

  function FailureReason(e: PyError): string {
    "Patch generation failed/unsafe: " + e.kind + ": " + e.message
  }

  /** The result of the retry loop: the files, the new patches, and an escalation reason. */
  datatype LlmResult = LlmResult(files: map<string, string>, newPatches: seq<Patch>, escalation: Option<string>)

  /** Two attempts at most; the second starts from the files the first left and a stricter task. */
  function Attempts(files: map<string, string>, payload: Payload, taskPrompt: string, ask: Payload -> ModelReply,
                    loads: string -> Parsed, diff: (string, string, string) -> string, ids: nat -> string): LlmResult
  {
    var first := Attempt(files, payload, ask, loads, diff, ids);
    if first.error.None? then LlmResult(first.files, first.patches, None)
    else
      var second := Attempt(first.files, payload.(task := taskPrompt + Reminder), ask, loads, diff, ids);
      if second.error.None? then LlmResult(second.files, second.patches, None)
      else LlmResult(second.files, [], Some(FailureReason(second.error.value)))
  }

  /** The prompt inputs `patch_agent_llm` assembles before its first attempt. */
  method BuildPayload(taskPrompt: string, lastTest: Option<ToolRun>, targets: seq<string>,
                      files: map<string, string>, findTestPaths: string -> seq<string>) returns (payload: Payload)
    ensures payload == InitialPayload(taskPrompt, lastTest, targets, files, findTestPaths)
  {
    var pytestText := BestPytestText(lastTest);
    var failuresCompact := CompactFailures(pytestText, 2500);
    var failuresParsed := FormatFailuresParsed(lastTest);
    var testPaths := ExtractTestPaths(findTestPaths(pytestText));
    payload := Payload(
      taskPrompt,
      RunInfo(lastTest),
      failuresCompact,
      if failuresParsed == "" then "(none)" else failuresParsed,
      PyPrefix(Join("\n", TestBlocks(testPaths, files)), 8000),
      PyPrefix(Join("\n", FileBlocks(targets, files)), 12000));
  }

  /**
   * The `for attempt in range(2)` loop: an attempt without a raise records
   * its patches and ends the stage; a first raise tightens the task and
   * retries from the files as they are now; a second raise escalates.
   */
  method RetryLoop(t: Ticket, files: map<string, string>, payload0: Payload, ask: Payload -> ModelReply,
                   loads: string -> Parsed, diff: (string, string, string) -> string, ids: nat -> string)
    returns (files': map<string, string>)
    modifies t`hitl, t`finalStatus, t`patches
    ensures var r := Attempts(files, payload0, t.taskPrompt, ask, loads, diff, ids);
      && files' == r.files
      && t.patches == old(t.patches) + r.newPatches
      && (r.escalation.None? ==> t.hitl == old(t.hitl) && t.finalStatus == old(t.finalStatus))
      && (r.escalation.Some? ==>
            t.hitl == old(t.hitl).(required := true, reason := r.escalation) && t.finalStatus == Some(StoppedForReview))
  {
    files' := files;
    var payload := payload0;
    ghost var first := Attempt(files, payload0, ask, loads, diff, ids);
    ghost var r := Attempts(files, payload0, t.taskPrompt, ask, loads, diff, ids);
    var done := false;
    for attempt := 0 to 2
      invariant !done ==> attempt <= 1 && t.patches == old(t.patches) && t.hitl == old(t.hitl)
      invariant !done ==> t.finalStatus == old(t.finalStatus)
      invariant !done && attempt == 0 ==> files' == files && payload == payload0
      invariant !done && attempt == 1 ==>
        first.error.Some? && files' == first.files && payload == payload0.(task := t.taskPrompt + Reminder)
      invariant done ==> files' == r.files && t.patches == old(t.patches) + r.newPatches
      invariant done && r.escalation.None? ==> t.hitl == old(t.hitl) && t.finalStatus == old(t.finalStatus)
      invariant done && r.escalation.Some? ==>
        t.hitl == old(t.hitl).(required := true, reason := r.escalation) && t.finalStatus == Some(StoppedForReview)
    {
      if !done {
        var s := RunAttempt(files', payload, ask, loads, diff, ids);
        files' := s.files;
        if s.error.None? {
          if s.patches != [] {
            t.patches := t.patches + s.patches;
          }
          done := true;
        } else if attempt == 0 {
          payload := payload.(task := t.taskPrompt + Reminder);
        } else {
          t.RequestReview(FailureReason(s.error.value));
          done := true;
        }
      }
    }
  }

  /**
   * `patch_agent_llm`. With a review already requested nothing happens. With
   * no selected file, or none that is allowed, the stage escalates. Otherwise
   * it runs the retry loop: the new patches follow the existing ones, and a
   * second raise escalates with the exception's class name and message.
   */
  method PatchAgentLlm(t: Ticket, files: map<string, string>, findTestPaths: string -> seq<string>,
                       ask: Payload -> ModelReply, loads: string -> Parsed,
                       diff: (string, string, string) -> string, ids: nat -> string)
    returns (files': map<string, string>)
    modifies t`hitl, t`finalStatus, t`patches
    ensures old(t.hitl.required) ==>
      files' == files && t.hitl == old(t.hitl) && t.finalStatus == old(t.finalStatus) && t.patches == old(t.patches)
    ensures !old(t.hitl.required) && t.selectedFiles == [] ==>
      && files' == files && t.patches == old(t.patches)
      && t.hitl == old(t.hitl).(required := true, reason := Some(NoFilesReason))
      && t.finalStatus == Some(StoppedForReview)
    ensures !old(t.hitl.required) && t.selectedFiles != [] && AllowedTargets(t.selectedFiles) == [] ==>
      && files' == files && t.patches == old(t.patches)
      && t.hitl == old(t.hitl).(required := true, reason := Some(NotAllowedReason))
      && t.finalStatus == Some(StoppedForReview)
    ensures !old(t.hitl.required) && AllowedTargets(t.selectedFiles) != [] ==>
      var payload := InitialPayload(t.taskPrompt, SynthesisNode.LastTestRun(t.toolRuns),
                                    AllowedTargets(t.selectedFiles), files, findTestPaths);
      var r := Attempts(files, payload, t.taskPrompt, ask, loads, diff, ids);
      && files' == r.files
      && t.patches == old(t.patches) + r.newPatches
      && (r.escalation.None? ==> t.hitl == old(t.hitl) && t.finalStatus == old(t.finalStatus))
      && (r.escalation.Some? ==>
            t.hitl == old(t.hitl).(required := true, reason := r.escalation) && t.finalStatus == Some(StoppedForReview))
  {
    files' := files;
    if t.hitl.required {
      return;
    }
    var lastTest := SynthesisNode.LastTestRun(t.toolRuns);
    var targets := t.selectedFiles;
    if targets == [] {
      t.RequestReview(NoFilesReason);
      return;
    }
    targets := AllowedTargets(targets);
    if targets == [] {
      t.RequestReview(NotAllowedReason);
      return;
    }
    var payload := BuildPayload(t.taskPrompt, lastTest, targets, files, findTestPaths);
    files' := RetryLoop(t, files, payload, ask, loads, diff, ids);
  }



  // ---------------------------------------------------------------------------
  // What the stage may do to the repository
  // ---------------------------------------------------------------------------

  /**
   * Relative to `before`, `after` holds the same paths, and every file whose
   * content differs sits at an allowed path and ends with a line break.
   */
  predicate WritesAllowed(before: map<string, string>, after: map<string, string>) {
    && after.Keys == before.Keys
    && forall p :: p in after && after[p] != before[p] ==> IsAllowedPath(p) && EndsWith(after[p], "\n")
  }

  /** Every patch touches one allowed path. */
  predicate PatchesAllowed(ps: seq<Patch>) {
    forall i :: 0 <= i < |ps| ==> |ps[i].filesTouched| == 1 && IsAllowedPath(ps[i].filesTouched[0]) && WellFormedPatch(ps[i])
  }

  lemma WritesAllowedTransitive(a: map<string, string>, b: map<string, string>, c: map<string, string>)
    requires WritesAllowed(a, b) && WritesAllowed(b, c)
    ensures WritesAllowed(a, c)
  {
    forall p | p in c && c[p] != a[p] ensures IsAllowedPath(p) && EndsWith(c[p], "\n") {
      if c[p] == b[p] {
        assert b[p] != a[p];
      }
    }
  }

  /** Writing an accepted update changes at most its own, allowed, path and records at most one patch. */
  lemma WriteEntryAllowed(s: UpdState, path: string, text: string,
                          diff: (string, string, string) -> string, ids: nat -> string)
    requires IsAllowedPath(path)
    ensures WritesAllowed(s.files, WriteEntry(s, path, text, diff, ids).files)
    ensures PatchesAllowed(s.patches) ==> PatchesAllowed(WriteEntry(s, path, text, diff, ids).patches)
    ensures s.patches <= WriteEntry(s, path, text, diff, ids).patches
    ensures |WriteEntry(s, path, text, diff, ids).patches| <= |s.patches| + 1
  {
  }

  /** One entry writes at most one allowed path, and records a patch only for that path. */
  lemma StepAllowed(s: UpdState, u: UpdateEntry, diff: (string, string, string) -> string, ids: nat -> string)
    ensures WritesAllowed(s.files, Step(s, u, diff, ids).files)
    ensures PatchesAllowed(s.patches) ==> PatchesAllowed(Step(s, u, diff, ids).patches)
    ensures s.patches <= Step(s, u, diff, ids).patches
    ensures |Step(s, u, diff, ids).patches| <= |s.patches| + 1
  {
    var s' := Step(s, u, diff, ids);
    match u
    case Malformed(e) =>
      assert s'.files == s.files && s'.patches == s.patches;
    case Entry(rawPath, content) =>
      var path := Strip(Norm(rawPath));
      if path == [] || content.None? {
        assert s' == s;
      } else {
        var c := CheckEntry(path, content.value);
        if c.Ok? {
          assert s' == WriteEntry(s, path, c.value, diff, ids);
          WriteEntryAllowed(s, path, c.value, diff, ids);
        } else {
          assert s'.files == s.files && s'.patches == s.patches;
        }
      }
  }

  /** The update loop writes only allowed paths and records only patches of allowed paths. */
  lemma {:induction false} ApplyAllAllowed(s: UpdState, us: seq<UpdateEntry>, diff: (string, string, string) -> string, ids: nat -> string)
    requires PatchesAllowed(s.patches)
    ensures WritesAllowed(s.files, ApplyAll(s, us, diff, ids).files)
    ensures PatchesAllowed(ApplyAll(s, us, diff, ids).patches)
    ensures s.patches <= ApplyAll(s, us, diff, ids).patches
    ensures |ApplyAll(s, us, diff, ids).patches| <= |s.patches| + |us|
    decreases |us|
  {
    if us != [] && s.error.None? {
      var s' := Step(s, us[0], diff, ids);
      StepAllowed(s, us[0], diff, ids);
      ApplyAllAllowed(s', us[1..], diff, ids);
      WritesAllowedTransitive(s.files, s'.files, ApplyAll(s', us[1..], diff, ids).files);
    }
  }

  /** A raise does not roll back: the files are those the entries before it left. */
  lemma {:induction false} RaiseKeepsWrites(s: UpdState, us: seq<UpdateEntry>, e: PyError,
                                            diff: (string, string, string) -> string, ids: nat -> string)
    requires ApplyAll(s, us, diff, ids).error.None?
    ensures ApplyAll(s, us + [Malformed(e)], diff, ids).files == ApplyAll(s, us, diff, ids).files
    ensures ApplyAll(s, us + [Malformed(e)], diff, ids).error == Some(e)
    decreases |us|
  {
    if us == [] {
      assert ApplyAll(s, us, diff, ids) == s;
      assert us + [Malformed(e)] == [Malformed(e)];
    } else {
      assert s.error.None?;
      assert (us + [Malformed(e)])[0] == us[0] && (us + [Malformed(e)])[1..] == us[1..] + [Malformed(e)];
      RaiseKeepsWrites(Step(s, us[0], diff, ids), us[1..], e, diff, ids);
    }
  }

  lemma AttemptAllowed(files: map<string, string>, payload: Payload, ask: Payload -> ModelReply,
                       loads: string -> Parsed, diff: (string, string, string) -> string, ids: nat -> string)
    ensures WritesAllowed(files, Attempt(files, payload, ask, loads, diff, ids).files)
    ensures PatchesAllowed(Attempt(files, payload, ask, loads, diff, ids).patches)
  {
    var a := Attempt(files, payload, ask, loads, diff, ids);
    match ask(payload)
    case CallFailed(_) =>
      assert a.files == files && a.patches == [];
    case Content(text) =>
      match loads(JsonCandidate(text))
      case ParseFailed(_) =>
        assert a.files == files && a.patches == [];
      case Object(NotAList) =>
        assert a.files == files && a.patches == [];
      case Object(Updates(entries)) =>
        ApplyAllAllowed(UpdState(files, [], None), entries, diff, ids);
  }

  /**
   * Whatever the model answers, over both attempts the stage writes only
   * allowed paths, each write ends with a line break, and every recorded
   * patch touches exactly one allowed path.
   */
  lemma AttemptsAllowed(files: map<string, string>, payload: Payload, taskPrompt: string, ask: Payload -> ModelReply,
                        loads: string -> Parsed, diff: (string, string, string) -> string, ids: nat -> string)
    ensures WritesAllowed(files, Attempts(files, payload, taskPrompt, ask, loads, diff, ids).files)
    ensures PatchesAllowed(Attempts(files, payload, taskPrompt, ask, loads, diff, ids).newPatches)
  {
    var first := Attempt(files, payload, ask, loads, diff, ids);
    AttemptAllowed(files, payload, ask, loads, diff, ids);
    if first.error.Some? {
      var retry := payload.(task := taskPrompt + Reminder);
      AttemptAllowed(first.files, retry, ask, loads, diff, ids);
      WritesAllowedTransitive(files, first.files, Attempt(first.files, retry, ask, loads, diff, ids).files);
    }
  }

  /** The stage escalates after the loop exactly when both attempts raised. */
  lemma EscalatesOnlyOnSecondRaise(files: map<string, string>, payload: Payload, taskPrompt: string, ask: Payload -> ModelReply,
                                   loads: string -> Parsed, diff: (string, string, string) -> string, ids: nat -> string)
    ensures var r := Attempts(files, payload, taskPrompt, ask, loads, diff, ids);
      var first := Attempt(files, payload, ask, loads, diff, ids);
      && (r.escalation.Some? <==>
            first.error.Some? && Attempt(first.files, payload.(task := taskPrompt + Reminder), ask, loads, diff, ids).error.Some?)
      && (r.escalation.Some? ==> r.newPatches == [])
  {
  }

  /** Patches this stage records never trip the safety gate. */
  lemma LlmPatchesPassSafetyGate(ps: seq<Patch>)
    requires PatchesAllowed(ps)
    ensures forall i :: 0 <= i < |ps| ==> forall f :: f in SafetyNode.LoweredPaths(ps[i].filesTouched) ==> !SafetyNode.Sensitive(f)
  {
    forall i, f | 0 <= i < |ps| && f in SafetyNode.LoweredPaths(ps[i].filesTouched) ensures !SafetyNode.Sensitive(f) {
      assert f == Lower(ps[i].filesTouched[0]);
      AllowedNeverSensitive(ps[i].filesTouched[0]);
    }
  }
}
