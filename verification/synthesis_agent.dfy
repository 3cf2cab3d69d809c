/**
 * The terminal stage (src/se_assistant/nodes/synthesis_agent.py): derive
 * the final status from the HITL request and the last test run, and render
 * the PR report line by line. The `:.2f` rendering of a confidence is the
 * parameter `fmt`.
 */
module SynthesisNode {
  import opened Wrappers
  import opened Strings
  import opened State

  /** Python's `f"{x}"` for an optional string: `None` renders as "None". */
  function ShowOptional(o: Option<string>): string {
    match o
    case Some(s) => s
    case None => "None"
  }

  /** Python's `f"{exit_code}"` for an optional integer. */
  function ShowExitCode(e: Option<int>): string {
    match e
    case Some(i) => IntToString(i)
    case None => "None"
  }

  /** The last run whose type is "test", searching from the end. */
  function LastTestRun(runs: seq<ToolRun>): (r: Option<ToolRun>)
    decreases |runs|
    ensures r.None? <==> forall i :: 0 <= i < |runs| ==> runs[i].runType != Test
    ensures r.Some? ==> r.value.runType == Test
    ensures r.Some? ==>
      exists i :: 0 <= i < |runs| && runs[i] == r.value && forall j :: i < j < |runs| ==> runs[j].runType != Test
  {
    if runs == [] then None
    else if runs[|runs| - 1].runType == Test then Some(runs[|runs| - 1])
    else
      var r := LastTestRun(runs[..|runs| - 1]);
      assert forall i :: 0 <= i < |runs| - 1 ==> runs[..|runs| - 1][i] == runs[i];
      r
  }

  /**
   * The authoritative status: a HITL request wins; otherwise a last test run
   * with exit code 0 is a success; anything else, including no test run at
   * all, is a failure. The last run's status string is not consulted.
   */
  function DerivedStatus(hitlRequired: bool, lastTest: Option<ToolRun>): (s: FinalStatus)
    ensures s == StoppedForReview <==> hitlRequired
    ensures s == Succeeded <==> !hitlRequired && lastTest.Some? && lastTest.value.exitCode == Some(0)
    ensures s in {StoppedForReview, Succeeded, Failed}
  {
    if hitlRequired then StoppedForReview
    else if lastTest.Some? && lastTest.value.exitCode == Some(0) then Succeeded
    else Failed
  }

  /** `xs[-2:]`: the last two entries, or all of them when there are fewer. */
  function LastTwo<T>(xs: seq<T>): (r: seq<T>)
    ensures |r| == Min(2, |xs|) && r == xs[|xs| - |r|..]
  {
    if |xs| <= 2 then xs else xs[|xs| - 2..]
  }

  const HitlLinePrefix := "- HITL required: "

  function HeaderLines(status: FinalStatus, hitl: HITL, taskPrompt: string): seq<string> {
    ["FINAL STATUS: " + FinalStatusName(status), ""]
    + (if hitl.required then [HitlLinePrefix + ShowOptional(hitl.reason)] else [])
    + ["# PR Report", "", "**Task:** " + taskPrompt, ""]
  }

  function LocationLine(l: CodeLocation): string {
    "  - Location: `" + l.path + "` (" + l.reason + ")"
  }

  function LocationLines(locs: seq<CodeLocation>): seq<string>
    decreases |locs|
  {
    if locs == [] then [] else LocationLines(locs[..|locs| - 1]) + [LocationLine(locs[|locs| - 1])]
  }

  function HypothesisLines(h: Hypothesis, fmt: real -> string): seq<string> {
    ["- " + h.summary + " (confidence=" + fmt(h.confidence) + ")"] + LocationLines(h.locations)
  }

  function HypothesesLines(hs: seq<Hypothesis>, fmt: real -> string): seq<string>
    decreases |hs|
  {
    if hs == [] then [] else HypothesesLines(hs[..|hs| - 1], fmt) + HypothesisLines(hs[|hs| - 1], fmt)
  }

  function DiagnosisLines(hs: seq<Hypothesis>, fmt: real -> string): seq<string> {
    if hs == [] then [] else ["## Diagnosis"] + HypothesesLines(LastTwo(hs), fmt) + [""]
  }

  /** The diff as rendered: stripped, then cut to its first 3000 characters. */
  function DiffExcerpt(diff: string): (r: string)
    ensures |r| <= 3000 && StartsWith(Strip(diff), r)
    ensures |Strip(diff)| <= 3000 ==> r == Strip(diff)
    ensures |Strip(diff)| > 3000 ==> |r| == 3000
  {
    PyPrefix(Strip(diff), 3000)
  }

  function PatchLines(p: Patch, fmt: real -> string): seq<string> {
    ["- " + p.summary + " (confidence=" + fmt(p.confidence) + ")", "```diff", DiffExcerpt(p.diffUnified), "```"]
  }

  function PatchesLines(ps: seq<Patch>, fmt: real -> string): seq<string>
    decreases |ps|
  {
    if ps == [] then [] else PatchesLines(ps[..|ps| - 1], fmt) + PatchLines(ps[|ps| - 1], fmt)
  }

  function PatchSectionLines(ps: seq<Patch>, fmt: real -> string): seq<string> {
    if ps == [] then [] else ["## Patch"] + PatchesLines(LastTwo(ps), fmt) + [""]
  }

  function FailureLine(f: Failure): string {
    "  - " + f.raw
  }

  function FailureLines(fs: seq<Failure>): seq<string>
    decreases |fs|
  {
    if fs == [] then [] else FailureLines(fs[..|fs| - 1]) + [FailureLine(fs[|fs| - 1])]
  }

  const NotExecutedLine := "- Tests were not executed."
  const FailuresLine := "- Failures:"

  function RunLines(r: ToolRun): seq<string> {
    ["- Command: `" + r.command + "`",
     "- Status: `" + RunStatusName(r.status) + "` (exit_code=" + ShowExitCode(r.exitCode) + ")"]
    + (if r.status != Success then [FailuresLine] + FailureLines(r.failuresParsed) else [])
  }

  function VerificationLines(lastTest: Option<ToolRun>): seq<string> {
    ["## Verification"]
    + (match lastTest case Some(r) => RunLines(r) case None => [NotExecutedLine])
    + [""]
  }

  const SafetyTriggeredLine := "- Safety gate triggered; requires human approval."
  const NoSafetyFlagsLine := "- No safety flags triggered in this run."

  function NotesLines(safetyOk: bool): seq<string> {
    ["## Notes / Risks", if safetyOk then NoSafetyFlagsLine else SafetyTriggeredLine]
  }

  /** Everything the report is rendered from. */
  datatype ReportInput = ReportInput(
    status: FinalStatus,
    hitl: HITL,
    taskPrompt: string,
    hypotheses: seq<Hypothesis>,
    patches: seq<Patch>,
    lastTest: Option<ToolRun>,
    safetyOk: bool)

  /** The report's lines, section by section. */
  function ReportLines(inp: ReportInput, fmt: real -> string): seq<string> {
    HeaderLines(inp.status, inp.hitl, inp.taskPrompt)
    + DiagnosisLines(inp.hypotheses, fmt)
    + PatchSectionLines(inp.patches, fmt)
    + VerificationLines(inp.lastTest)
    + NotesLines(inp.safetyOk)
  }

  /** The header lines of `synthesis_agent`, with the HITL line only on a request. */
  method RenderHeader(status: FinalStatus, hitl: HITL, taskPrompt: string) returns (lines: seq<string>)
    ensures lines == HeaderLines(status, hitl, taskPrompt)
  {
    lines := ["FINAL STATUS: " + FinalStatusName(status)];
    lines := lines + [""];
    if hitl.required {
      lines := lines + [HitlLinePrefix + ShowOptional(hitl.reason)];
    }
    lines := lines + ["# PR Report"];
    lines := lines + [""];
    lines := lines + ["**Task:** " + taskPrompt];
    lines := lines + [""];
  }

  /** The location lines of one hypothesis, in order. */
  method RenderLocations(locs: seq<CodeLocation>) returns (lines: seq<string>)
    ensures lines == LocationLines(locs)
  {
    lines := [];
    for m := 0 to |locs|
      invariant lines == LocationLines(locs[..m])
    {
      assert locs[..m + 1][..m] == locs[..m];
      lines := lines + [LocationLine(locs[m])];
    }
    assert locs[..|locs|] == locs;
  }

  /** The summary line of one hypothesis, then its location lines. */
  method RenderHypothesis(h: Hypothesis, fmt: real -> string) returns (lines: seq<string>)
    ensures lines == HypothesisLines(h, fmt)
  {
    var locLines := RenderLocations(h.locations);
    lines := ["- " + h.summary + " (confidence=" + fmt(h.confidence) + ")"] + locLines;
  }

  lemma HypothesesStep(hs: seq<Hypothesis>, k: nat, fmt: real -> string)
    requires k < |hs|
    ensures HypothesesLines(hs[..k + 1], fmt) == HypothesesLines(hs[..k], fmt) + HypothesisLines(hs[k], fmt)
  {
    assert hs[..k + 1][..k] == hs[..k];
  }

  /** The diagnosis loop over the last two hypotheses. */
  method RenderDiagnosis(hs: seq<Hypothesis>, fmt: real -> string) returns (lines: seq<string>)
    ensures lines == DiagnosisLines(hs, fmt)
  {
    lines := [];
    if hs != [] {
      var shown := LastTwo(hs);
      var body := [];
      for k := 0 to |shown|
        invariant body == HypothesesLines(shown[..k], fmt)
      {
        var h := shown[k];
        HypothesesStep(shown, k, fmt);
        var hLines := RenderHypothesis(h, fmt);
        body := body + hLines;
      }
      assert shown[..|shown|] == shown;
      lines := ["## Diagnosis"] + body + [""];
    }
  }

  /** The patch loop over the last two patches. */
  method RenderPatches(ps: seq<Patch>, fmt: real -> string) returns (lines: seq<string>)
    ensures lines == PatchSectionLines(ps, fmt)
  {
    lines := [];
    if ps != [] {
      var shown := LastTwo(ps);
      var body := [];
      for k := 0 to |shown|
        invariant body == PatchesLines(shown[..k], fmt)
      {
        var p := shown[k];
        assert shown[..k + 1][..k] == shown[..k];
        assert PatchesLines(shown[..k + 1], fmt) == PatchesLines(shown[..k], fmt) + PatchLines(p, fmt);
        body := body + ["- " + p.summary + " (confidence=" + fmt(p.confidence) + ")", "```diff", DiffExcerpt(p.diffUnified), "```"];
      }
      assert shown[..|shown|] == shown;
      lines := ["## Patch"] + body + [""];
    }
  }

  /** The failure items of the last test run, in order. */
  method RenderFailures(fs: seq<Failure>) returns (lines: seq<string>)
    ensures lines == FailureLines(fs)
  {
    lines := [];
    for k := 0 to |fs|
      invariant lines == FailureLines(fs[..k])
    {
      assert fs[..k + 1][..k] == fs[..k];
      lines := lines + [FailureLine(fs[k])];
    }
    assert fs[..|fs|] == fs;
  }

  /** The verification section: the last test run, or a note that tests did not run. */
  method RenderVerification(lastTest: Option<ToolRun>) returns (lines: seq<string>)
    ensures lines == VerificationLines(lastTest)
  {
    lines := ["## Verification"];
    match lastTest {
      case Some(r) =>
        var runLines := ["- Command: `" + r.command + "`",
                         "- Status: `" + RunStatusName(r.status) + "` (exit_code=" + ShowExitCode(r.exitCode) + ")"];
        if r.status != Success {
          var items := RenderFailures(r.failuresParsed);
          runLines := runLines + [FailuresLine] + items;
        }
        lines := lines + runLines;
      case None =>
        lines := lines + [NotExecutedLine];
    }
    lines := lines + [""];
  }

  /** `synthesis_agent`'s report: its five sections in order. */
  method RenderReport(inp: ReportInput, fmt: real -> string) returns (lines: seq<string>)
    ensures lines == ReportLines(inp, fmt)
  {
    var header := RenderHeader(inp.status, inp.hitl, inp.taskPrompt);
    var diagnosis := RenderDiagnosis(inp.hypotheses, fmt);
    var patches := RenderPatches(inp.patches, fmt);
    var verification := RenderVerification(inp.lastTest);
    var notes := ["## Notes / Risks", if inp.safetyOk then NoSafetyFlagsLine else SafetyTriggeredLine];
    lines := header + diagnosis + patches + verification + notes;
  }

  /** What the stage renders from the ledger, once the final status is decided. */
  function TicketReportInput(status: FinalStatus, hitl: HITL, taskPrompt: string, hypotheses: seq<Hypothesis>,
                             patches: seq<Patch>, runs: seq<ToolRun>, safetyOk: bool): ReportInput
  {
    ReportInput(status, hitl, taskPrompt, hypotheses, patches, LastTestRun(runs), safetyOk)
  }

  /**
   * `synthesis_agent`: assign the final status in place, then store the
   * report, its lines joined with "\n". Nothing else changes.
   */
  method SynthesisAgent(t: Ticket, fmt: real -> string)
    modifies t`finalStatus, t`finalReport
    ensures t.finalStatus == Some(DerivedStatus(t.hitl.required, LastTestRun(t.toolRuns)))
    ensures t.finalReport == Some(Join("\n", ReportLines(
      TicketReportInput(t.finalStatus.value, t.hitl, t.taskPrompt, t.hypotheses, t.patches, t.toolRuns, t.safetyOk), fmt)))
  {
    var lastTest := LastTestRun(t.toolRuns);
    var status := DerivedStatus(t.hitl.required, lastTest);
    t.finalStatus := Some(status);
    var lines := RenderReport(
      TicketReportInput(status, t.hitl, t.taskPrompt, t.hypotheses, t.patches, t.toolRuns, t.safetyOk), fmt);
    t.finalReport := Some(Join("\n", lines));
  }

  // ---------------------------------------------------------------------------
  // Properties of the report
  // ---------------------------------------------------------------------------

  /** The report opens with the final status. */
  lemma FirstLineIsStatus(inp: ReportInput, fmt: real -> string)
    ensures |ReportLines(inp, fmt)| > 0
    ensures ReportLines(inp, fmt)[0] == "FINAL STATUS: " + FinalStatusName(inp.status)
  {
    var h := HeaderLines(inp.status, inp.hitl, inp.taskPrompt);
    assert ReportLines(inp, fmt)[0] == h[0];
  }

  /** The third line is the HITL line exactly when review is required; otherwise it is the title. */
  lemma HitlLineIffRequired(inp: ReportInput, fmt: real -> string)
    ensures |ReportLines(inp, fmt)| > 2
    ensures StartsWith(ReportLines(inp, fmt)[2], HitlLinePrefix) <==> inp.hitl.required
    ensures inp.hitl.required ==> ReportLines(inp, fmt)[2] == HitlLinePrefix + ShowOptional(inp.hitl.reason)
    ensures !inp.hitl.required ==> ReportLines(inp, fmt)[2] == "# PR Report"
  {
    var lines := ReportLines(inp, fmt);
    var h := HeaderLines(inp.status, inp.hitl, inp.taskPrompt);
    assert lines[2] == h[2];
    if inp.hitl.required {
      assert (HitlLinePrefix + ShowOptional(inp.hitl.reason))[..|HitlLinePrefix|] == HitlLinePrefix;
    } else {
      assert "# PR Report"[0] != HitlLinePrefix[0];
    }
  }

  /** The report closes with the safety note, which depends on `safety_ok` alone. */
  lemma LastLineIsSafetyNote(inp: ReportInput, fmt: real -> string)
    ensures |ReportLines(inp, fmt)| > 0
    ensures ReportLines(inp, fmt)[|ReportLines(inp, fmt)| - 1] ==
      if inp.safetyOk then NoSafetyFlagsLine else SafetyTriggeredLine
  {
  }

  lemma LastTwoIdempotent<T>(xs: seq<T>)
    ensures LastTwo(LastTwo(xs)) == LastTwo(xs)
    ensures LastTwo(xs) == [] <==> xs == []
  {
  }

  /**
   * Only the last two hypotheses and the last two patches are rendered:
   * the report on the full history equals the report on its last two
   * entries of each.
   */
  lemma OnlyLastTwoRendered(inp: ReportInput, fmt: real -> string)
    ensures ReportLines(inp, fmt) ==
      ReportLines(inp.(hypotheses := LastTwo(inp.hypotheses), patches := LastTwo(inp.patches)), fmt)
  {
    LastTwoIdempotent(inp.hypotheses);
    LastTwoIdempotent(inp.patches);
  }

  /** Every line of a rendered failure list starts with the item marker "  - ". */
  lemma {:induction false} FailureLinesAreItems(fs: seq<Failure>)
    ensures forall k :: 0 <= k < |FailureLines(fs)| ==> StartsWith(FailureLines(fs)[k], "  - ")
    decreases |fs|
  {
    if fs != [] {
      FailureLinesAreItems(fs[..|fs| - 1]);
      var line := FailureLine(fs[|fs| - 1]);
      assert line[..4] == "  - ";
    }
  }

  /** "- Tests were not executed." appears in the verification section exactly when no test ran. */
  lemma NotExecutedIffNoTest(lastTest: Option<ToolRun>)
    ensures NotExecutedLine in VerificationLines(lastTest) <==> lastTest.None?
  {
    if lastTest.Some? {
      var r := lastTest.value;
      var lines := VerificationLines(lastTest);
      FailureLinesAreItems(r.failuresParsed);
      forall k | 0 <= k < |lines| ensures lines[k] != NotExecutedLine {
        if 0 < k < |lines| - 1 {
          var rl := RunLines(r);
          assert lines[k] == rl[k - 1];
          if k - 1 == 0 || k - 1 == 1 {
            assert rl[k - 1][2] != NotExecutedLine[2];
          } else if k - 1 == 2 {
            assert rl[k - 1] == FailuresLine;
          } else {
            var fl := FailureLines(r.failuresParsed);
            assert rl[k - 1] == fl[k - 4];
            assert fl[k - 4][0] != NotExecutedLine[0];
          }
        }
      }
    }
  }

  /** The failure list is headed by "- Failures:" exactly when the last test did not succeed. */
  lemma FailuresListedIffNotSuccess(r: ToolRun)
    ensures FailuresLine in RunLines(r) <==> r.status != Success
  {
    var rl := RunLines(r);
    if r.status == Success {
      assert rl[0][2] != FailuresLine[2];
      assert rl[1][2] != FailuresLine[2];
    }
  }
}
