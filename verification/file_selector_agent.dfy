/**
 * The file-selection stage (src/se_assistant/nodes/file_selector_agent.py),
 * a stand-alone stage that the compiled graph does not wire in. It shows a
 * language model the last pytest output and the repository's `src/` paths,
 * accepts at most two answers, and stores the files of the first valid one
 * as `selected_files` unless the rules leave none of them.
 *
 * The model call (`ask`) and `json.loads` with the schema's shape
 * (`parse`) are parameters; the `:.2f` rendering of the confidence is `fmt`.
 */
module FileSelectorNode {
  import opened Wrappers
  import opened Strings
  import opened State
  import SynthesisNode
  import PatchLlmNode

  // ---------------------------------------------------------------------------
  // `_allowed`
  // ---------------------------------------------------------------------------

  const SensitiveWords: seq<string> := ["security", "secret", "token", "auth", ".env"]

  /** `_allowed`: on the lower-cased path with slashes for backslashes. There is no "src/" requirement. */
  predicate Allowed(p: string) {
    var low := PatchLlmNode.Norm(Lower(p));
    if StartsWith(low, "tests/") || StartsWith(low, "/tests/") then false
    else if EndsWith(low, ".md") || Contains(low, "readme") then false
    else if PatchLlmNode.ContainsAny(low, SensitiveWords) then false
    else true
  }

  /** The selected files that pass `_allowed`, in order. */
  function AllowedFiles(files: seq<string>): (r: seq<string>)
    decreases |files|
    ensures |r| <= |files|
    ensures forall p :: p in r <==> p in files && Allowed(p)
  {
    if files == [] then []
    else
      var rest := AllowedFiles(files[..|files| - 1]);
      var p := files[|files| - 1];
      assert forall q :: q in files <==> q in files[..|files| - 1] || q == p;
      if Allowed(p) then rest + [p] else rest
  }

  lemma StartsWithOccurs(s: string, p: string)
    ensures StartsWith(s, p) ==> OccursAt(s, p, 0)
  {
  }

  /**
   * The LLM patch stage's allow-list is stricter: every path it may write
   * passes this stage's rules too (its deny-list covers "tests/", ".md" and
   * "readme" anywhere, and the sensitive words are the same).
   */
  lemma PatcherStricterThanSelector(p: string)
    requires PatchLlmNode.IsAllowedPath(p)
    ensures Allowed(p)
  {
    var low := PatchLlmNode.Norm(Lower(p));
    assert !Contains(low, PatchLlmNode.DisallowedSubstrings[0]);
    assert !Contains(low, PatchLlmNode.DisallowedSubstrings[2]);
    assert !Contains(low, PatchLlmNode.DisallowedSubstrings[3]);
    assert !OccursAt(low, "tests/", 0) && !OccursAt(low, "tests/", 1);
    assert !OccursAt(low, ".md", |low| - 3);
    assert !StartsWith(low, "/tests/") by {
      if |low| >= 7 {
        assert low[1..7] == low[..7][1..7];
      }
    }
    assert !EndsWith(low, ".md");
  }

  /** A path outside `src/` can be selected, yet the LLM patch stage refuses to write it. */
  lemma SelectorLooserThanPatcher()
    ensures Allowed("lib/util.py")
    ensures !PatchLlmNode.IsAllowedPath("lib/util.py")
  {
    var p := "lib/util.py";
    LowerNormalPath(p);
    LibPathClean();
    assert p[..1] != "s";
  }

  /** A path with no upper-case letter and no backslash is its own lower-cased, normalised form. */
  lemma LowerNormalPath(p: string)
    requires forall k :: 0 <= k < |p| ==> !('A' <= p[k] <= 'Z') && p[k] != '\\'
    ensures PatchLlmNode.Norm(Lower(p)) == p
  {
    PatchLlmNode.NormPointwise(Lower(p));
    forall k | 0 <= k < |p| ensures PatchLlmNode.Norm(Lower(p))[k] == p[k] {
      assert Lower(p)[k] == LowerChar(p[k]);
    }
  }

  lemma LibPathClean()
    ensures !Contains("lib/util.py", "readme") && !EndsWith("lib/util.py", ".md")
    ensures !PatchLlmNode.ContainsAny("lib/util.py", SensitiveWords)
    ensures !StartsWith("lib/util.py", "tests/") && !StartsWith("lib/util.py", "/tests/")
  {
    var p := "lib/util.py";
    assert 'e' !in p && 'a' !in p && 'k' !in p && 'm' !in p;
    MissingCharNotContained(p, "readme", 1);
    forall i | 0 <= i < |SensitiveWords| ensures !Contains(p, SensitiveWords[i]) {
      var k := if i == 3 then 0 else if i == 2 then 2 else 1;
      assert SensitiveWords[i][k] in {'e', 'a', 'k'};
      MissingCharNotContained(p, SensitiveWords[i], k);
    }
    assert p[|p| - 3..] != ".md" by { assert p[|p| - 3..][1] == 'p'; }
    assert p[..6] != "tests/" by { assert p[..6][0] == 'l'; }
    assert p[..7] != "/tests/" by { assert p[..7][0] == 'l'; }
  }

  /** Anything under a top-level `tests/` directory is refused, in either slash style. */
  lemma TestsDirectoryRefused(rest: string)
    ensures !Allowed("tests/" + rest) && !Allowed("tests\\" + rest)
  {
    var a := "tests/" + rest;
    var b := "tests\\" + rest;
    PatchLlmNode.NormPointwise(Lower(a));
    PatchLlmNode.NormPointwise(Lower(b));
    assert PatchLlmNode.Norm(Lower(a))[..6] == "tests/" by {
      forall k | 0 <= k < 6 ensures PatchLlmNode.Norm(Lower(a))[k] == "tests/"[k] {
        assert Lower(a)[k] == LowerChar(a[k]);
      }
    }
    assert PatchLlmNode.Norm(Lower(b))[..6] == "tests/" by {
      forall k | 0 <= k < 6 ensures PatchLlmNode.Norm(Lower(b))[k] == "tests/"[k] {
        assert Lower(b)[k] == LowerChar(b[k]);
      }
    }
  }

  // ---------------------------------------------------------------------------
  // `extract_json`
  // ---------------------------------------------------------------------------

  const Fence := "```"

  /** The lines that are not fence lines once stripped, in order. */
  function FenceFree(lines: seq<string>): (r: seq<string>)
    decreases |lines|
    ensures |r| <= |lines|
    ensures forall l :: l in r <==> l in lines && !StartsWith(Strip(l), Fence)
  {
    if lines == [] then []
    else
      var rest := FenceFree(lines[..|lines| - 1]);
      var l := lines[|lines| - 1];
      assert forall q :: q in lines <==> q in lines[..|lines| - 1] || q == l;
      if StartsWith(Strip(l), Fence) then rest else rest + [l]
  }

  /** A stripped text that opens with a fence loses every fence line, and is stripped again. */
  function Defenced(t: string): string {
    if StartsWith(t, Fence) then Strip(Join("\n", FenceFree(SplitLines(t)))) else t
  }

  /**
   * The brace-delimited text itself, else its first-"{"-to-last-"}" piece
   * when some "{" comes before some "}", else the text.
   */
  function BraceSpan(t: string): (r: string)
    ensures StartsWith(t, "{") && EndsWith(t, "}") ==> r == t
    ensures !(StartsWith(t, "{") && EndsWith(t, "}")) && PatchLlmNode.HasBracePair(t) ==>
      PatchLlmNode.FirstToLastBrace(t, r)
    ensures !(StartsWith(t, "{") && EndsWith(t, "}")) && !PatchLlmNode.HasBracePair(t) ==> r == t
  {
    if StartsWith(t, "{") && EndsWith(t, "}") then t
    else match PatchLlmNode.BraceSlice(t)
      case Some(piece) => piece
      case None => t
  }

  /** `extract_json`: strip, drop fence lines when the text opens with one, then take the brace span. */
  function ExtractJson(text: string): string {
    BraceSpan(Defenced(Strip(text)))
  }

  /** A JSON object on one line inside a fenced block is unwrapped exactly. */
  lemma FencedObjectUnwrapped(tag: string, body: string)
    requires '\n' !in tag && '\n' !in body
    requires |body| >= 2 && body[0] == '{' && body[|body| - 1] == '}'
    ensures ExtractJson(Fence + tag + "\n" + body + "\n" + Fence) == body
  {
    var s := Fence + tag + "\n" + body + "\n" + Fence;
    FencedDefenced(tag, body);
    BraceDelimited(body);
    assert ExtractJson(s) == BraceSpan(body);
  }

  lemma BraceDelimited(body: string)
    requires |body| >= 2 && body[0] == '{' && body[|body| - 1] == '}'
    ensures StartsWith(body, "{") && EndsWith(body, "}")
  {
    assert body[..1] == "{" && body[|body| - 1..] == "}";
  }

  /** Defencing the stripped fenced block leaves the body line. */
  lemma FencedDefenced(tag: string, body: string)
    requires '\n' !in tag && '\n' !in body
    requires |body| >= 2 && body[0] == '{' && body[|body| - 1] == '}'
    ensures Defenced(Strip(Fence + tag + "\n" + body + "\n" + Fence)) == body
  {
    var s := Fence + tag + "\n" + body + "\n" + Fence;
    assert s[0] == '`' && s[|s| - 1] == '`';
    StripUnspaced(s);
    assert s[..3] == Fence;
    FencedLines(tag, body);
    FenceFreeThree(Fence + tag, body);
    StripUnspaced(body);
  }

  /** The fenced block splits into the opening line, the body and the closing fence. */
  lemma FencedLines(tag: string, body: string)
    requires '\n' !in tag && '\n' !in body && body != []
    ensures SplitLines(Fence + tag + "\n" + body + "\n" + Fence) == [Fence + tag, body, Fence]
  {
    var opening := Fence + tag;
    assert '\n' !in opening by {
      forall j | 0 <= j < |opening| ensures opening[j] != '\n' {
        if j >= 3 {
          assert opening[j] == tag[j - 3];
        }
      }
    }
    assert Fence + tag + "\n" + body + "\n" + Fence == opening + "\n" + (body + "\n" + Fence);
    SplitLinesCons(opening, body + "\n" + Fence);
    SplitLinesCons(body, Fence);
    SplitLinesSingle(Fence);
  }

  /** Of an opening fence line, a body that opens with "{" and a closing fence, only the body survives. */
  lemma FenceFreeThree(opening: string, body: string)
    requires StartsWith(opening, Fence) && body != [] && body[0] == '{'
    ensures FenceFree([opening, body, Fence]) == [body]
  {
    assert opening[0] == '`';
    StripKeepsPrefix(opening, Fence);
    assert body[..1] == "{";
    StripKeepsPrefix(body, "{");
    StripUnspaced(Fence);
    var sb := Strip(body);
    assert !StartsWith(sb, Fence) by {
      if |sb| >= 3 { assert sb[..3][0] == sb[..1][0] == '{'; }
    }
    var lines := [opening, body, Fence];
    assert lines[..2] == [opening, body] && lines[..2][..1] == [opening];
    assert FenceFree([opening]) == [];
    assert FenceFree([opening, body]) == [body];
  }

  // ---------------------------------------------------------------------------
  // `FileSelectionOut` and the prompt
  // ---------------------------------------------------------------------------

  /** The fields of a parsed answer. */
  datatype Selection = Selection(files: seq<string>, confidence: real, rationale: string)

  /** The schema's constraints: one to five files, a confidence in [0, 1]. */
  predicate ValidSelection(s: Selection) {
    1 <= |s.files| <= 5 && 0.0 <= s.confidence <= 1.0
  }

  /** The prompt inputs: the pytest output and the list of repository paths. */
  datatype SelectionPrompt = SelectionPrompt(pytestOut: string, repoFiles: string)

  const OutputReminder := "\n\nREMINDER: output JSON only."

  /** The error tail, a line break and the output tail of the last test run, or "". */
  function PytestOut(lastTest: Option<ToolRun>): string {
    match lastTest
    case None => ""
    case Some(r) => r.stderrTail.GetOr("") + "\n" + r.stdoutTail.GetOr("")
  }

  /** The paths of the repository map, in order. */
  function RepoPaths(m: RepoMap): (r: seq<string>)
    ensures |r| == |m.files| && forall i :: 0 <= i < |r| ==> r[i] == m.files[i].path
  {
    seq(|m.files|, i requires 0 <= i < |m.files| => m.files[i].path)
  }

  /** The paths under `src/`, after lower-casing and normalising, in order. */
  function CandidatePaths(paths: seq<string>): (r: seq<string>)
    decreases |paths|
    ensures |r| <= |paths|
    ensures forall p :: p in r <==> p in paths && StartsWith(PatchLlmNode.Norm(Lower(p)), "src/")
  {
    if paths == [] then []
    else
      var rest := CandidatePaths(paths[..|paths| - 1]);
      var p := paths[|paths| - 1];
      assert forall q :: q in paths <==> q in paths[..|paths| - 1] || q == p;
      if StartsWith(PatchLlmNode.Norm(Lower(p)), "src/") then rest + [p] else rest
  }

  /** The first prompt: 6000 characters of output and at most 2000 candidate paths. */
  function FirstPrompt(lastTest: Option<ToolRun>, m: RepoMap): (p: SelectionPrompt)
    ensures |p.pytestOut| <= 6000 && StartsWith(PytestOut(lastTest), p.pytestOut)
    ensures |PytestOut(lastTest)| <= 6000 ==> p.pytestOut == PytestOut(lastTest)
    ensures var o := PytestOut(lastTest); p.pytestOut == o[..Min(6000, |o|)]
    ensures var c := CandidatePaths(RepoPaths(m)); p.repoFiles == Join("\n", c[..Min(2000, |c|)])
  {
    SelectionPrompt(PyPrefix(PytestOut(lastTest), 6000), Join("\n", PyPrefix(CandidatePaths(RepoPaths(m)), 2000)))
  }

  /** The retry prompt: the same, with the reminder after the output. */
  function RetryPrompt(p: SelectionPrompt): SelectionPrompt {
    p.(pytestOut := p.pytestOut + OutputReminder)
  }

  /** One answer: extract, parse and validate; None when any of them fails. */
  function Accept(raw: string, parse: string -> Option<Selection>): (r: Option<Selection>)
    ensures r.Some? ==> ValidSelection(r.value) && parse(ExtractJson(raw)) == r
    ensures parse(ExtractJson(raw)).Some? && ValidSelection(parse(ExtractJson(raw)).value) ==> r.Some?
  {
    var obj := parse(ExtractJson(raw));
    if obj.Some? && ValidSelection(obj.value) then obj else None
  }

  /** At most two answers: the second is asked for only when the first is not accepted. */
  function Choose(prompt: SelectionPrompt, ask: SelectionPrompt -> string,
                  parse: string -> Option<Selection>): (r: Option<Selection>)
    ensures r.Some? ==> ValidSelection(r.value)
    ensures Accept(Strip(ask(prompt)), parse).Some? ==> r == Accept(Strip(ask(prompt)), parse)
    ensures Accept(Strip(ask(prompt)), parse).None? ==> r == Accept(Strip(ask(RetryPrompt(prompt))), parse)
    ensures r.None? <==>
      Accept(Strip(ask(prompt)), parse).None? && Accept(Strip(ask(RetryPrompt(prompt))), parse).None?
  {
    var first := Accept(Strip(ask(prompt)), parse);
    if first.Some? then first else Accept(Strip(ask(RetryPrompt(prompt))), parse)
  }

  const InvalidJsonReason := "LLM file selection returned invalid JSON."

  function NothingAllowedReason(rationale: string): string {
    "No files selected or all selected files were disallowed by rules. Rationale: " + rationale
  }

  function SelectionNote(s: Selection, fmt: real -> string): string {
    "File selection: " + s.rationale + " (conf=" + fmt(s.confidence) + ")"
  }

  /** The parse-retry loop of `file_selector_agent` over the two answers. */
  method ParseAnswers(prompt: SelectionPrompt, ask: SelectionPrompt -> string,
                      parse: string -> Option<Selection>) returns (out: Option<Selection>)
    ensures out == Choose(prompt, ask, parse)
  {
    var raw := Strip(ask(prompt));
    out := None;
    for attempt := 0 to 2
      invariant attempt == 0 ==> raw == Strip(ask(prompt)) && out.None?
      invariant attempt == 1 ==>
        Accept(Strip(ask(prompt)), parse).None? && raw == Strip(ask(RetryPrompt(prompt))) && out.None?
      invariant attempt == 2 ==> out == Choose(prompt, ask, parse)
    {
      var obj := parse(ExtractJson(raw));
      if obj.Some? && ValidSelection(obj.value) {
        out := obj;
        assert out == Choose(prompt, ask, parse);
        return;
      }
      if attempt == 0 {
        raw := Strip(ask(RetryPrompt(prompt)));
      }
    }
  }

  /** What `file_selector_agent` does with the chosen answer (or its absence). */
  method StoreSelection(t: Ticket, out: Option<Selection>, fmt: real -> string)
    modifies t`hitl, t`finalStatus, t`openQuestions, t`selectedFiles
    ensures match out
      case None =>
        && t.hitl == old(t.hitl).(required := true, reason := Some(InvalidJsonReason))
        && t.finalStatus == Some(StoppedForReview)
        && t.openQuestions == old(t.openQuestions) && t.selectedFiles == old(t.selectedFiles)
      case Some(s) =>
        if AllowedFiles(s.files) == [] then
          && t.hitl == old(t.hitl).(required := true, reason := Some(NothingAllowedReason(s.rationale)))
          && t.finalStatus == Some(StoppedForReview)
          && t.openQuestions == old(t.openQuestions) && t.selectedFiles == old(t.selectedFiles)
        else
          && t.openQuestions == old(t.openQuestions) + [SelectionNote(s, fmt)]
          && t.selectedFiles == s.files
          && t.hitl == old(t.hitl) && t.finalStatus == old(t.finalStatus)
  {
    if out.None? {
      t.RequestReview(InvalidJsonReason);
      return;
    }
    var files := AllowedFiles(out.value.files);
    if files == [] {
      t.RequestReview(NothingAllowedReason(out.value.rationale));
      return;
    }
    t.openQuestions := t.openQuestions + [SelectionNote(out.value, fmt)];
    t.selectedFiles := out.value.files;
  }

  /**
   * `file_selector_agent`. Without an accepted answer it escalates; with
   * one whose files all fail `_allowed` it escalates with the rationale;
   * otherwise it stores the answer's files UNFILTERED and appends one note.
   */
  method FileSelectorAgent(t: Ticket, ask: SelectionPrompt -> string, parse: string -> Option<Selection>,
                           fmt: real -> string)
    modifies t`hitl, t`finalStatus, t`openQuestions, t`selectedFiles
    ensures var out := Choose(FirstPrompt(SynthesisNode.LastTestRun(old(t.toolRuns)), old(t.repoMap)), ask, parse);
      match out
      case None =>
        && t.hitl == old(t.hitl).(required := true, reason := Some(InvalidJsonReason))
        && t.finalStatus == Some(StoppedForReview)
        && t.openQuestions == old(t.openQuestions) && t.selectedFiles == old(t.selectedFiles)
      case Some(s) =>
        if AllowedFiles(s.files) == [] then
          && t.hitl == old(t.hitl).(required := true, reason := Some(NothingAllowedReason(s.rationale)))
          && t.finalStatus == Some(StoppedForReview)
          && t.openQuestions == old(t.openQuestions) && t.selectedFiles == old(t.selectedFiles)
        else
          && t.openQuestions == old(t.openQuestions) + [SelectionNote(s, fmt)]
          && t.selectedFiles == s.files
          && t.hitl == old(t.hitl) && t.finalStatus == old(t.finalStatus)
  {
    var lastTest := SynthesisNode.LastTestRun(t.toolRuns);
    var prompt := FirstPrompt(lastTest, t.repoMap);
    var out := ParseAnswers(prompt, ask, parse);
    StoreSelection(t, out, fmt);
  }

  /** The stored selection is never empty and never longer than five files. */
  lemma StoredSelectionBounded(prompt: SelectionPrompt, ask: SelectionPrompt -> string, parse: string -> Option<Selection>)
    requires Choose(prompt, ask, parse).Some?
    ensures 1 <= |Choose(prompt, ask, parse).value.files| <= 5
  {
  }

  /**
   * The stored files are not filtered: an accepted answer naming an allowed
   * file and a test file keeps both, and the test file is not allowed.
   */
  lemma UnfilteredSelectionKept(s: Selection, good: string, rest: string)
    requires s.files == [good, "tests/" + rest] && Allowed(good)
    ensures AllowedFiles(s.files) == [good]
    ensures "tests/" + rest in s.files && !Allowed("tests/" + rest)
  {
    TestsDirectoryRefused(rest);
    assert s.files[..1] == [good];
    assert AllowedFiles([good]) == [good] by {
      assert [good][..0] == [];
    }
  }
}
