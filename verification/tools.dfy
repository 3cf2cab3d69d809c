/**
 * The parts of src/se_assistant/tools.py with logic of their own: `tail`,
 * and how `run_cmd` classifies what the subprocess did. The subprocess
 * itself, the clock and the file system are not part of this model: a
 * command's outcome is an input.
 */
module Tools {
  import opened Wrappers
  import opened Strings
  import opened State

  /** The default length `tail` keeps. */
  const TailChars := 20000

  /**
   * Python's `s[-n:]` after the `if not s: return ""` guard. A positive `n`
   * keeps the last `n` characters; `-0` is `0`, so `n == 0` keeps the whole
   * string; a negative `n` drops the first `-n` characters.
   */
  function Tail(s: string, n: int): (r: string)
    ensures EndsWith(s, r)
    ensures s == [] ==> r == []
    ensures n >= 1 ==> |r| == Min(n, |s|)
    ensures n == 0 ==> r == s
    ensures n < 0 ==> |r| == Max(0, |s| + n)
  {
    if s == [] then ""
    else if n > 0 then (if n <= |s| then s[|s| - n..] else s)
    else if n == 0 then s
    else if -n <= |s| then s[-n..]
    else []
  }

  /** Tailing is idempotent for a positive length. */
  lemma TailIdempotent(s: string, n: int)
    requires n >= 1
    ensures Tail(Tail(s, n), n) == Tail(s, n)
  {
  }

  /** Tailing twice keeps the shorter tail. */
  lemma {:induction false} TailOfTail(s: string, n: int, m: int)
    requires 1 <= m <= n
    ensures Tail(Tail(s, n), m) == Tail(s, m)
  {
    var t := Tail(s, n);
    if s != [] && m < |s| {
      assert t[|t| - m..] == s[|s| - m..];
    }
  }

  /** What the subprocess did, as far as `run_cmd` can tell. */
  datatype CmdOutcome =
    /** The command ran to completion with this return code and captured output. */
    | Completed(returnCode: int, stdout: string, stderr: string)
    /** `subprocess.TimeoutExpired`, with whatever output was captured before it. */
    | TimedOut(partialStdout: Option<string>, partialStderr: Option<string>)
    /** Any other exception, by its type name and message. */
    | Crashed(errorType: string, message: string)

  /** The dictionary `run_cmd` returns, without `duration_sec`. */
  datatype CmdResult = CmdResult(status: RunStatus, exitCode: Option<int>, stdout: string, stderr: string)

  /** `run_cmd`'s classification of an outcome into a status, an exit code and the output texts. */
  function RunCmd(outcome: CmdOutcome): (r: CmdResult)
    ensures outcome.Completed? ==> (r.status == Success <==> outcome.returnCode == 0)
    ensures outcome.Completed? ==> r.status in {Success, Fail} && r.exitCode == Some(outcome.returnCode)
    ensures outcome.Completed? ==> r.stdout == outcome.stdout && r.stderr == outcome.stderr
    ensures outcome.TimedOut? ==> r.status == Timeout && r.exitCode.None?
    ensures outcome.TimedOut? ==> r.stdout == outcome.partialStdout.GetOr("")
    ensures outcome.TimedOut? ==> r.stderr == outcome.partialStderr.GetOr("") + "\nTIMEOUT"
    ensures outcome.Crashed? ==> r.status == Error && r.exitCode.None? && r.stdout == ""
    ensures outcome.Crashed? ==> r.stderr == outcome.errorType + ": " + outcome.message
  {
    match outcome
    case Completed(rc, out, err) => CmdResult(if rc == 0 then Success else Fail, Some(rc), out, err)
    case TimedOut(out, err) => CmdResult(Timeout, None, out.GetOr(""), err.GetOr("") + "\nTIMEOUT")
    case Crashed(kind, msg) => CmdResult(Error, None, "", kind + ": " + msg)
  }

  /**
   * Whatever happened, a success carries exit code 0 and the exit code is
   * missing exactly for a timeout or an error.
   */
  lemma RunCmdConsistent(outcome: CmdOutcome)
    ensures var r := RunCmd(outcome);
      && (r.status == Success ==> r.exitCode == Some(0))
      && (r.exitCode.None? <==> r.status == Timeout || r.status == Error)
  {
  }

  /** A timed-out run always reports the timeout at the end of its error output. */
  lemma TimeoutMarked(outcome: CmdOutcome)
    requires outcome.TimedOut?
    ensures EndsWith(RunCmd(outcome).stderr, "\nTIMEOUT")
  {
    var r := RunCmd(outcome);
    assert r.stderr[|r.stderr| - 8..] == "\nTIMEOUT";
  }
}
