/**
 * The test stage (src/se_assistant/nodes/test_agent.py): run `pytest -q`,
 * record the run as a `ToolRun`, and pick the `FAILED ` lines out of the
 * error output.
 */
module TestNode {
  import opened Wrappers
  import opened Strings
  import opened State
  import opened Tools

  const PytestCommand := "pytest -q"

  /** The prefix a pytest summary line for a failed test starts with. */
  const FailedPrefix := "FAILED "

  /** The failures named in a list of lines, in the order of the lines. */
  function FailuresIn(lines: seq<string>): (r: seq<Failure>)
    decreases |lines|
    ensures |r| <= |lines|
  {
    if lines == [] then []
    else
      var rest := FailuresIn(lines[..|lines| - 1]);
      var line := lines[|lines| - 1];
      if StartsWith(line, FailedPrefix) then rest + [Failure(Strip(line))] else rest
  }

  /** `parse_pytest_failures`: one entry per line that starts with "FAILED ", stripped. */
  method ParsePytestFailures(stderr: Option<string>) returns (out: seq<Failure>)
    ensures out == FailuresIn(SplitLines(stderr.GetOr("")))
  {
    var lines := SplitLines(stderr.GetOr(""));
    out := [];
    for k := 0 to |lines|
      invariant out == FailuresIn(lines[..k])
    {
      assert lines[..k + 1][..k] == lines[..k];
      if StartsWith(lines[k], FailedPrefix) {
        out := out + [Failure(Strip(lines[k]))];
      }
    }
    assert lines[..|lines|] == lines;
  }

  /** Empty or missing error output names no failures. */
  lemma NoOutputNoFailures(stderr: Option<string>)
    requires stderr.None? || stderr == Some("")
    ensures FailuresIn(SplitLines(stderr.GetOr(""))) == []
  {
  }

  /** Parsing distributes over concatenation of line lists, so input order is kept. */
  lemma {:induction false} FailuresInAppend(a: seq<string>, b: seq<string>)
    ensures FailuresIn(a + b) == FailuresIn(a) + FailuresIn(b)
    decreases |b|
  {
    if b == [] {
      assert a + b == a;
    } else {
      var b' := b[..|b| - 1];
      assert (a + b)[..|a + b| - 1] == a + b';
      FailuresInAppend(a, b');
    }
  }

  /** `line` is a "FAILED " line whose stripped text is `f`. */
  predicate Names(line: string, f: Failure) {
    StartsWith(line, FailedPrefix) && f.raw == Strip(line)
  }

  /** The last line contributes at most its own failure. */
  lemma FailuresInLast(lines: seq<string>, f: Failure)
    requires lines != []
    ensures f in FailuresIn(lines) <==>
      f in FailuresIn(lines[..|lines| - 1]) || Names(lines[|lines| - 1], f)
  {
  }

  /** Every recorded failure comes from some "FAILED " line. */
  lemma {:induction false} FailureHasLine(lines: seq<string>, f: Failure) returns (k: nat)
    requires f in FailuresIn(lines)
    ensures k < |lines| && Names(lines[k], f)
    decreases |lines|
  {
    var init := lines[..|lines| - 1];
    FailuresInLast(lines, f);
    if f in FailuresIn(init) {
      k := FailureHasLine(init, f);
      assert lines[k] == init[k];
    } else {
      k := |lines| - 1;
    }
  }

  /** Every "FAILED " line is recorded. */
  lemma {:induction false} LineHasFailure(lines: seq<string>, f: Failure, k: nat)
    requires k < |lines| && Names(lines[k], f)
    ensures f in FailuresIn(lines)
    decreases |lines|
  {
    var init := lines[..|lines| - 1];
    FailuresInLast(lines, f);
    if k < |init| {
      assert init[k] == lines[k];
      LineHasFailure(init, f, k);
    } else {
      assert k == |lines| - 1;
    }
  }

  /** A failure is recorded exactly when some line starts with "FAILED " and strips to it. */
  lemma FailuresInMembers(lines: seq<string>, f: Failure)
    ensures f in FailuresIn(lines) <==> exists k :: 0 <= k < |lines| && Names(lines[k], f)
  {
    if f in FailuresIn(lines) {
      var k := FailureHasLine(lines, f);
    }
    forall k | 0 <= k < |lines| && Names(lines[k], f) ensures f in FailuresIn(lines) {
      LineHasFailure(lines, f, k);
    }
  }

  /** A line that starts with white space, such as an indented "FAILED", is never recorded. */
  lemma IndentedLineIgnored(lines: seq<string>, line: string)
    requires |line| > 0 && IsSpace(line[0])
    ensures FailuresIn(lines + [line]) == FailuresIn(lines)
  {
    assert (lines + [line])[..|lines|] == lines;
    assert !StartsWith(line, FailedPrefix) by {
      if |line| >= |FailedPrefix| {
        assert line[..|FailedPrefix|][0] == line[0];
      }
    }
  }

  /** Every recorded failure still starts with "FAILED": stripping only trims the trailing space. */
  lemma {:induction false} FailuresStartWithFailed(lines: seq<string>)
    ensures forall f :: f in FailuresIn(lines) ==> StartsWith(f.raw, "FAILED")
    decreases |lines|
  {
    if lines != [] {
      var init := lines[..|lines| - 1];
      var line := lines[|lines| - 1];
      FailuresStartWithFailed(init);
      if StartsWith(line, FailedPrefix) {
        assert line[..6] == "FAILED" by {
          assert line[..6] == line[..|FailedPrefix|][..6];
        }
        StripKeepsPrefix(line, "FAILED");
      }
    }
  }

  /** The run `test_agent` records for one execution of `pytest -q`. */
  function TestRunRecord(runId: string, outcome: CmdOutcome): (r: ToolRun)
    ensures r.runType == Test && r.command == PytestCommand && r.runId == runId
    ensures r.status == RunCmd(outcome).status && r.exitCode == RunCmd(outcome).exitCode
    ensures ConsistentRun(r)
    ensures r.stdoutTail.Some? && EndsWith(RunCmd(outcome).stdout, r.stdoutTail.value)
    ensures r.stderrTail.Some? && EndsWith(RunCmd(outcome).stderr, r.stderrTail.value)
    ensures |r.stdoutTail.value| == Min(TailChars, |RunCmd(outcome).stdout|)
    ensures |r.stderrTail.value| == Min(TailChars, |RunCmd(outcome).stderr|)
    ensures r.failuresParsed == FailuresIn(SplitLines(RunCmd(outcome).stderr))
  {
    var res := RunCmd(outcome);
    RunCmdConsistent(outcome);
    ToolRun(
      runId, Test, PytestCommand, res.status, res.exitCode,
      Some(Tail(res.stdout, TailChars)), Some(Tail(res.stderr, TailChars)),
      FailuresIn(SplitLines(res.stderr)))
  }

  /** `test_agent`: append the new run after the existing ones. */
  method TestAgent(t: Ticket, runId: string, outcome: CmdOutcome)
    modifies t`toolRuns
    ensures t.toolRuns == old(t.toolRuns) + [TestRunRecord(runId, outcome)]
  {
    t.toolRuns := t.toolRuns + [TestRunRecord(runId, outcome)];
  }
}
