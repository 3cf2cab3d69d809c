/**
 * The orchestrator (src/se_assistant/graph.py): the fixed edge table, the
 * two routers that mutate the ledger in place, and a driver that walks the
 * compiled graph from START to END.
 *
 * The driver is the run the compiled graph performs: repo, issue, then the
 * test / code / patch / safety loop, then synthesis. The command outcome of
 * the k-th test execution is `outcomes(k)`; identifiers the stages draw
 * (run ids, hypothesis ids, patch ids) come from `ids`; the file system is
 * the map `fs`, threaded through the patch stage.
 */
module Graph {
  import opened Wrappers
  import Strings
  import State
  import Tools
  import RepoNode
  import IssueNode
  import TestNode
  import CodeNode
  import PatchNode
  import SafetyNode
  import SynthesisNode

  /** The graph's nodes, with LangGraph's START and END. */
  datatype Stage = Start | Repo | Issue | Test | Code | Patch | Safety | Synthesis | End

  // ---------------------------------------------------------------------------
  // The edge table of `build_graph`
  // ---------------------------------------------------------------------------

  /** The unconditional edges; None for the two branching nodes and for END. */
  function FixedEdge(s: Stage): (r: Option<Stage>)
    ensures r.None? <==> s == Test || s == Safety || s == End
    ensures r.Some? ==> r.value != Start && r.value != s
  {
    match s
    case Start => Some(Repo)
    case Repo => Some(Issue)
    case Issue => Some(Test)
    case Code => Some(Patch)
    case Patch => Some(Safety)
    case Synthesis => Some(End)
    case _ => None
  }

  /** The targets a conditional edge may route to. */
  function BranchTargets(s: Stage): (r: set<Stage>)
    ensures r != {} <==> s == Test || s == Safety
    ensures Synthesis in r <==> r != {}
  {
    match s
    case Test => {Code, Synthesis}
    case Safety => {Test, Synthesis}
    case _ => {}
  }

  /** `next` follows `s` along some edge of the compiled graph. */
  predicate Edge(s: Stage, next: Stage) {
    FixedEdge(s) == Some(next) || next in BranchTargets(s)
  }

  /** Every node but END has a way on, and every way out of a branch can reach synthesis. */
  lemma EveryNodeButEndLeads(s: Stage)
    ensures s != End <==> exists n :: Edge(s, n)
    ensures s == Test || s == Safety ==> Edge(s, Synthesis)
  {
    if s != End {
      if s == Test || s == Safety {
        assert Edge(s, Synthesis);
      } else {
        assert Edge(s, FixedEdge(s).value);
      }
    }
  }

  /** The only edges into the test node come from issue and from safety; code is entered only from test. */
  lemma LoopEntries(s: Stage)
    ensures Edge(s, Test) <==> s == Issue || s == Safety
    ensures Edge(s, Code) <==> s == Test
    ensures Edge(s, End) <==> s == Synthesis
  {
  }

  // ---------------------------------------------------------------------------
  // The routers
  // ---------------------------------------------------------------------------

  const MaxIterationsReason := "Max iterations reached without passing tests."

  /** `last and last.status == "success"`: the last recorded run, of any type, succeeded. */
  predicate LastRunSucceeded(runs: seq<State.ToolRun>) {
    runs != [] && runs[|runs| - 1].status == State.Success
  }

  /** Where `route_after_test` goes once the count has been bumped to `count`. */
  function TestRoute(runs: seq<State.ToolRun>, count: int, max: int): (r: Stage)
    ensures r in BranchTargets(Test)
    ensures r == Code <==> !LastRunSucceeded(runs) && count < max
  {
    if LastRunSucceeded(runs) then Synthesis
    else if count >= max then Synthesis
    else Code
  }

  /**
   * `route_after_test`: bump the count on every call; on a success go to
   * synthesis; on anything else at the cap, ask for review and stop for
   * review; otherwise go back to code.
   */
  method RouteAfterTest(t: State.Ticket) returns (next: Stage)
    modifies t`iteration, t`hitl, t`finalStatus
    ensures t.iteration == old(t.iteration).(count := old(t.iteration.count) + 1)
    ensures next == TestRoute(t.toolRuns, t.iteration.count, t.iteration.max)
    ensures next == Synthesis && !LastRunSucceeded(t.toolRuns) ==>
      t.hitl == old(t.hitl).(required := true, reason := Some(MaxIterationsReason))
      && t.finalStatus == Some(State.StoppedForReview)
    ensures next == Code || LastRunSucceeded(t.toolRuns) ==>
      t.hitl == old(t.hitl) && t.finalStatus == old(t.finalStatus)
  {
    t.iteration := t.iteration.(count := t.iteration.count + 1);
    if LastRunSucceeded(t.toolRuns) {
      return Synthesis;
    }
    if t.iteration.count >= t.iteration.max {
      t.RequestReview(MaxIterationsReason);
      return Synthesis;
    }
    return Code;
  }

  /** `route_after_safety`: a pending HITL request ends the loop and stops for review. */
  method RouteAfterSafety(t: State.Ticket) returns (next: Stage)
    modifies t`finalStatus
    ensures next in BranchTargets(Safety)
    ensures next == Synthesis <==> t.hitl.required
    ensures t.finalStatus == if t.hitl.required then Some(State.StoppedForReview) else old(t.finalStatus)
  {
    if t.hitl.required {
      t.finalStatus := Some(State.StoppedForReview);
      return Synthesis;
    }
    return Test;
  }

  // ---------------------------------------------------------------------------
  // Walking the graph
  // ---------------------------------------------------------------------------

  /** The inputs the environment supplies to a run. */
  datatype Environment = Environment(
    listing: seq<string>,
    outcomes: nat -> Tools.CmdOutcome,
    diff: (string, string, string) -> string,
    ids: nat -> string,
    fmt: real -> string)

  /** The test node followed by its router: one more run recorded, the count bumped, the route taken. */
  method TestStage(t: State.Ticket, runId: string, outcome: Tools.CmdOutcome) returns (next: Stage)
    modifies t`toolRuns, t`iteration, t`hitl, t`finalStatus
    ensures t.toolRuns == old(t.toolRuns) + [TestNode.TestRunRecord(runId, outcome)]
    ensures t.iteration == old(t.iteration).(count := old(t.iteration.count) + 1)
    ensures next == TestRoute(t.toolRuns, t.iteration.count, t.iteration.max)
    ensures next in BranchTargets(Test)
  {
    TestNode.TestAgent(t, runId, outcome);
    next := RouteAfterTest(t);
  }

  /** The patch node; it raises exactly when the pricing module is missing. */
  method PatchStage(t: State.Ticket, fs: map<string, string>, env: Environment, patchId: string)
    returns (fs': map<string, string>, crashed: bool)
    modifies t`patches
    ensures crashed <==> PatchNode.Target !in fs
  {
    fs', crashed := PatchNode.PatchAgent(t, fs, env.diff, patchId);
  }

  /** The safety node followed by its router: on to synthesis exactly when review is required. */
  method SafetyStage(t: State.Ticket) returns (next: Stage)
    modifies t`safetyOk, t`riskFlags, t`hitl, t`finalStatus
    ensures next in BranchTargets(Safety)
    ensures next == Synthesis <==> t.hitl.required
  {
    SafetyNode.SafetyAgent(t);
    next := RouteAfterSafety(t);
  }

  /** The synthesis node: the derived status is set and a report is written. */
  method SynthesisStage(t: State.Ticket, fmt: real -> string)
    modifies t`finalStatus, t`finalReport
    ensures t.finalStatus == Some(SynthesisNode.DerivedStatus(t.hitl.required, SynthesisNode.LastTestRun(t.toolRuns)))
    ensures t.finalReport.Some?
  {
    SynthesisNode.SynthesisAgent(t, fmt);
  }

  /**
   * Run one node and choose the next one. `tests` is the number of test
   * executions so far (it picks the command outcome); `step` picks the ids.
   * `crashed` is the patch stage's `read_text` raising on a missing target.
   */
  method Advance(t: State.Ticket, s: Stage, fs: map<string, string>, env: Environment, tests: nat, step: nat)
    returns (next: Stage, fs': map<string, string>, crashed: bool)
    requires s != End
    modifies t
    ensures crashed ==> s == Patch
    ensures !crashed ==> Edge(s, next)
    ensures t.iteration.max == old(t.iteration.max)
    ensures s == Test ==>
      && t.iteration.count == old(t.iteration.count) + 1
      && |t.toolRuns| == |old(t.toolRuns)| + 1
      && t.toolRuns[|t.toolRuns| - 1] == TestNode.TestRunRecord(env.ids(step), env.outcomes(tests))
      && next == TestRoute(t.toolRuns, t.iteration.count, t.iteration.max)
    ensures s != Test ==> t.iteration.count == old(t.iteration.count) && t.toolRuns == old(t.toolRuns)
    ensures s == Synthesis ==>
      t.finalStatus == Some(SynthesisNode.DerivedStatus(t.hitl.required, SynthesisNode.LastTestRun(t.toolRuns)))
      && t.finalReport.Some?
    ensures s != Synthesis ==> t.finalReport == old(t.finalReport)
    ensures s == Safety ==> (next == Synthesis <==> t.hitl.required)
  {
    fs' := fs;
    crashed := false;
    match s
    case Start =>
      next := Repo;
    case Repo =>
      RepoNode.RepoAgent(t, env.listing);
      next := Issue;
    case Issue =>
      IssueNode.IssueAgent(t);
      next := Test;
    case Test =>
      next := TestStage(t, env.ids(step), env.outcomes(tests));
    case Code =>
      CodeNode.CodeAgent(t, env.ids(step));
      next := Patch;
    case Patch =>
      fs', crashed := PatchStage(t, fs, env, env.ids(step));
      next := Safety;
    case Safety =>
      next := SafetyStage(t);
    case Synthesis =>
      SynthesisStage(t, env.fmt);
      next := End;
  }

  /** The order the driver's termination argument uses within one round of the loop. */
  function Rank(s: Stage): nat {
    match s
    case Start => 8
    case Repo => 7
    case Issue => 6
    case Code => 5
    case Patch => 4
    case Safety => 3
    case Test => 2
    case Synthesis => 1
    case End => 0
  }

  /** The rounds still allowed before the cap: the driver's primary measure. */
  function Remaining(count: int, max: int): nat {
    if count < max then max - count else 0
  }

  /**
   * The compiled graph's run from START. Unless the patch stage raises, it
   * ends at END with a final status and a report; the test node runs at
   * least once and at most max(1, max - count) times, and every run adds
   * one to the count. `supersteps` counts the node executions: four per
   * test run (repo and issue, then code, patch and safety between tests,
   * then synthesis), three more when safety routes to synthesis.
   */
  method Run(t: State.Ticket, fs: map<string, string>, env: Environment)
    returns (tests: nat, fs': map<string, string>, crashed: bool, supersteps: nat)
    modifies t
    ensures tests <= Strings.Max(1, old(t.iteration.max) - old(t.iteration.count))
    ensures t.iteration.count == old(t.iteration.count) + tests
    ensures t.iteration.max == old(t.iteration.max)
    ensures |t.toolRuns| == |old(t.toolRuns)| + tests
    ensures old(t.iteration) == State.FreshIteration ==> tests <= 5
    ensures !crashed ==> 1 <= tests && t.finalReport.Some?
    ensures !crashed ==>
      t.finalStatus == Some(SynthesisNode.DerivedStatus(t.hitl.required, SynthesisNode.LastTestRun(t.toolRuns)))
    ensures !crashed ==>
      || supersteps == 4 * tests
      || (supersteps == 4 * tests + 3 && old(t.iteration.count) + tests < old(t.iteration.max))
    ensures crashed ==> supersteps == 4 * tests + 1
    ensures old(t.iteration) == State.FreshIteration ==> supersteps <= 20
  {
    ghost var c0 := t.iteration.count;
    ghost var m := t.iteration.max;
    var s := Start;
    var step: nat := 0;
    tests := 0;
    fs' := fs;
    crashed := false;
    supersteps := 0;
    while s != End
      invariant t.iteration.max == m
      invariant t.iteration.count == c0 + tests
      invariant |t.toolRuns| == |old(t.toolRuns)| + tests
      invariant tests <= Strings.Max(1, m - c0)
      invariant s in {Start, Repo, Issue} ==> tests == 0
      invariant s in {Code, Patch, Safety} ==> 1 <= tests && c0 + tests < m
      invariant s == Test && tests > 0 ==> c0 + tests < m
      invariant s in {Synthesis, End} ==> 1 <= tests
      invariant s == End ==> t.finalReport.Some?
      invariant s == End ==>
        t.finalStatus == Some(SynthesisNode.DerivedStatus(t.hitl.required, SynthesisNode.LastTestRun(t.toolRuns)))
      invariant s != End && s != Synthesis ==> t.finalReport == old(t.finalReport)
      invariant s in {Start, Repo} ==> supersteps == 0
      invariant s == Issue ==> supersteps == 1
      invariant s == Test ==> supersteps == 2 + 4 * tests
      invariant s == Code ==> supersteps == 4 * tests - 1
      invariant s == Patch ==> supersteps == 4 * tests
      invariant s == Safety ==> supersteps == 4 * tests + 1
      invariant s == Synthesis ==> supersteps == 4 * tests - 1 || (supersteps == 4 * tests + 2 && c0 + tests < m)
      invariant s == End ==> supersteps == 4 * tests || (supersteps == 4 * tests + 3 && c0 + tests < m)
      decreases Remaining(t.iteration.count, m), Rank(s)
    {
      ghost var before := t.iteration.count;
      var next, fs2, raised := Advance(t, s, fs', env, tests, step);
      step := step + 1;
      if s != Start {
        supersteps := supersteps + 1;
      }
      if s == Test {
        tests := tests + 1;
      }
      if raised {
        crashed := true;
        fs' := fs2;
        return;
      }
      fs' := fs2;
      s := next;
    }
  }
}
