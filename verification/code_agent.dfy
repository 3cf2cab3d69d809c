/**
 * The diagnosis stage (src/se_assistant/nodes/code_agent.py): one fixed
 * rule that, on a failing run mentioning `apply_discount`, blames the
 * rounding in the sandbox's pricing module.
 */
module CodeNode {
  import opened Wrappers
  import opened Strings
  import opened State

  const PricingModule := "src/sandbox/pricing.py"
  const FailingTestName := "test_apply_discount_rounds_up"
  const FunctionName := "apply_discount"

  const SuspectLocation := CodeLocation(
    PricingModule, 1, 999, "Failing test suggests rounding/truncation in apply_discount.")

  const HypothesisSummary := "apply_discount truncates instead of rounding; use round(x, 2)."

  /** The error tail, a line break and the output tail of a run, missing tails read as "". */
  function JoinedOutput(run: ToolRun): string {
    run.stderrTail.GetOr("") + "\n" + run.stdoutTail.GetOr("")
  }

  /** The name of the failing test contains the function's name. */
  lemma TestNameMentionsFunction(s: string)
    requires Contains(s, FailingTestName)
    ensures Contains(s, FunctionName)
  {
    assert OccursAt(FailingTestName, FunctionName, 5) by {
      forall k | 0 <= k < |FunctionName| ensures FailingTestName[5 + k] == FunctionName[k] {
      }
      assert FailingTestName[5..5 + |FunctionName|] == FunctionName;
    }
    ContainsTransitive(s, FailingTestName, FunctionName);
  }

  /**
   * The rule of `code_agent`. It looks only at the last run, whatever its
   * type, and fires on a "fail" (not a timeout or an error) whose output
   * mentions `apply_discount`: the test-name test in the source is
   * subsumed by the function-name one.
   */
  function Hypothesize(runs: seq<ToolRun>, id: string): (h: Option<Hypothesis>)
    ensures h.Some? <==>
      |runs| > 0 && runs[|runs| - 1].status == Fail && Contains(JoinedOutput(runs[|runs| - 1]), FunctionName)
    ensures h.Some? ==> h.value.locations == [SuspectLocation] && h.value.confidence == 0.75
    ensures h.Some? ==> h.value.id == id && ConfidenceInRange(h.value.confidence)
    ensures h.Some? ==> forall l :: l in h.value.locations ==> WellFormedLocation(l)
  {
    if |runs| > 0 && runs[|runs| - 1].status == Fail then
      var joined := JoinedOutput(runs[|runs| - 1]);
      if Contains(joined, FailingTestName) || Contains(joined, FunctionName) then
        assert Contains(joined, FunctionName) by {
          if Contains(joined, FailingTestName) { TestNameMentionsFunction(joined); }
        }
        Some(Hypothesis(id, HypothesisSummary, [SuspectLocation], 0.75))
      else None
    else None
  }

  /** With no runs recorded, or a last run that timed out or errored, nothing is hypothesised. */
  lemma NoHypothesisWithoutFailure(runs: seq<ToolRun>, id: string)
    requires runs == [] || runs[|runs| - 1].status != Fail
    ensures Hypothesize(runs, id).None?
  {
  }

  /** `code_agent`: append the hypothesis and its locations, or change nothing. */
  method CodeAgent(t: Ticket, id: string)
    modifies t`hypotheses, t`codeLocations
    ensures match Hypothesize(old(t.toolRuns), id)
      case Some(h) =>
        t.hypotheses == old(t.hypotheses) + [h] && t.codeLocations == old(t.codeLocations) + h.locations
      case None =>
        t.hypotheses == old(t.hypotheses) && t.codeLocations == old(t.codeLocations)
  {
    var hyp := Hypothesize(t.toolRuns, id);
    if hyp.Some? {
      t.hypotheses := t.hypotheses + [hyp.value];
      t.codeLocations := t.codeLocations + hyp.value.locations;
    }
  }
}
