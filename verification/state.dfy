/**
 * The run ledger the orchestrator's stages read and update: the records of
 * src/se_assistant/state.py with their defaults, and `Ticket`, the one
 * mutable `TicketState` a run threads through every stage.
 */
module State {
  import opened Wrappers

  datatype TaskType = Bugfix | Refactor | Optimization | Docs

  datatype Priority = Standard | Rush

  datatype RunType = Install | Test | Lint | Typecheck

  datatype RunStatus = Success | Fail | Timeout | Error

  /**
   * The declared literals plus `Succeeded`, the "success" that the synthesis
   * stage assigns although the declared literal does not list it.
   */
  datatype FinalStatus = Completed | CompletedWithWarnings | StoppedForReview | Failed | Succeeded

  function RunStatusName(s: RunStatus): string {
    match s
    case Success => "success"
    case Fail => "fail"
    case Timeout => "timeout"
    case Error => "error"
  }

  function FinalStatusName(s: FinalStatus): string {
    match s
    case Completed => "completed"
    case CompletedWithWarnings => "completed_with_warnings"
    case StoppedForReview => "stopped_for_review"
    case Failed => "failed"
    case Succeeded => "success"
  }

  datatype CodeLocation = CodeLocation(path: string, startLine: int, endLine: int, reason: string)

  datatype Hypothesis = Hypothesis(id: string, summary: string, locations: seq<CodeLocation>, confidence: real)

  datatype Patch = Patch(patchId: string, summary: string, diffUnified: string, filesTouched: seq<string>, confidence: real)

  /** One `{"raw": line}` entry of `failures_parsed`. */
  datatype Failure = Failure(raw: string)

  /** A recorded command run; `duration_sec` is not modelled. */
  datatype ToolRun = ToolRun(
    runId: string,
    runType: RunType,
    command: string,
    status: RunStatus,
    exitCode: Option<int>,
    stdoutTail: Option<string>,
    stderrTail: Option<string>,
    failuresParsed: seq<Failure>)

  /** One `{"path": f}` entry of `RepoMap.files`. */
  datatype FileEntry = FileEntry(path: string)

  datatype RepoMap = RepoMap(
    files: seq<FileEntry>,
    configsFound: seq<string>,
    testFramework: Option<string>,
    entrypoints: seq<string>)

  /** Human-in-the-loop request; the payload is the only one any stage sets, a list of touched files. */
  datatype HITL = HITL(required: bool, reason: Option<string>, payload: Option<seq<string>>)

  datatype Iteration = Iteration(count: int, max: int, lastRoute: Option<string>, stopReason: Option<string>)

  const EmptyRepoMap := RepoMap([], [], None, [])

  const NoHitl := HITL(false, None, None)

  const FreshIteration := Iteration(0, 5, None, None)

  /** Confidences are floats in the source; nothing keeps them within [0, 1]. */
  predicate ConfidenceInRange(c: real) {
    0.0 <= c <= 1.0
  }

  /** A location that spans at least one line; the record does not enforce it. */
  predicate WellFormedLocation(l: CodeLocation) {
    l.startLine <= l.endLine
  }

  /** A patch that names the files it touches and has a meaningful confidence; not enforced either. */
  predicate WellFormedPatch(p: Patch) {
    |p.filesTouched| > 0 && ConfidenceInRange(p.confidence)
  }

  /**
   * What a run produced by `run_cmd` satisfies: success means exit code 0,
   * and only a timeout or an error leaves the exit code unset.
   */
  predicate ConsistentRun(r: ToolRun) {
    && (r.status == Success ==> r.exitCode == Some(0))
    && (r.exitCode.None? <==> r.status == Timeout || r.status == Error)
  }

  /**
   * The ledger (`TicketState`). The identifiers and settings never change
   * during a run; every other field is reassigned by the stages.
   * `selectedFiles` is the `selected_files` entry that the file-selection
   * stage writes and the LLM patch stage reads; `TicketState` does not
   * declare it, so it is empty until the file-selection stage sets it.
   */
  class Ticket {
    const runId: string
    const repoRef: string
    const taskPrompt: string
    const taskType: TaskType
    const priority: Priority
    const timeoutSec: int

    var repoMap: RepoMap
    var assumptions: seq<string>
    var openQuestions: seq<string>
    var codeLocations: seq<CodeLocation>

    var hypotheses: seq<Hypothesis>
    var patches: seq<Patch>
    var toolRuns: seq<ToolRun>

    var riskFlags: seq<string>
    var safetyOk: bool
    var hitl: HITL
    var iteration: Iteration

    var finalReport: Option<string>
    var finalStatus: Option<FinalStatus>

    var selectedFiles: seq<string>

    /** A fresh ledger: every list empty, no HITL request, iteration 0 of 5, no final status. */
    constructor (runId: string, repoRef: string, taskPrompt: string,
                 taskType: TaskType := Bugfix, priority: Priority := Standard, timeoutSec: int := 30)
      ensures this.runId == runId && this.repoRef == repoRef && this.taskPrompt == taskPrompt
      ensures this.taskType == taskType && this.priority == priority && this.timeoutSec == timeoutSec
      ensures repoMap == EmptyRepoMap
      ensures assumptions == [] && openQuestions == [] && codeLocations == []
      ensures hypotheses == [] && patches == [] && toolRuns == [] && riskFlags == []
      ensures safetyOk
      ensures hitl == NoHitl && !hitl.required
      ensures iteration == FreshIteration && iteration.count == 0 && iteration.max == 5
      ensures finalReport.None? && finalStatus.None?
      ensures selectedFiles == []
    {
      this.runId := runId;
      this.repoRef := repoRef;
      this.taskPrompt := taskPrompt;
      this.taskType := taskType;
      this.priority := priority;
      this.timeoutSec := timeoutSec;
      repoMap := EmptyRepoMap;
      assumptions := [];
      openQuestions := [];
      codeLocations := [];
      hypotheses := [];
      patches := [];
      toolRuns := [];
      riskFlags := [];
      safetyOk := true;
      hitl := NoHitl;
      iteration := FreshIteration;
      finalReport := None;
      finalStatus := None;
      selectedFiles := [];
    }

    /**
     * The escalation several stages write in place: ask for human review
     * with `reason` and stop for review. The HITL payload is kept.
     */
    method RequestReview(reason: string)
      modifies this`hitl, this`finalStatus
      ensures hitl == old(hitl).(required := true, reason := Some(reason))
      ensures finalStatus == Some(StoppedForReview)
    {
      hitl := hitl.(required := true, reason := Some(reason));
      finalStatus := Some(StoppedForReview);
    }
  }
}
