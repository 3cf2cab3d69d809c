/**
 * The issue stage (src/se_assistant/nodes/issue_agent.py): record, in
 * place, the assumption that `pytest -q` is the verification command.
 */
module IssueNode {
  import opened State

  const PytestAssumption := "Use pytest -q as the primary verification command."

  /** `issue_agent`: append the assumption after the existing ones; nothing else changes. */
  method IssueAgent(t: Ticket)
    modifies t`assumptions
    ensures t.assumptions == old(t.assumptions) + [PytestAssumption]
  {
    t.assumptions := t.assumptions + [PytestAssumption];
  }

  /** The number of times `PytestAssumption` occurs in a list. */
  function Occurrences(xs: seq<string>): (n: nat)
    decreases |xs|
    ensures n <= |xs|
    ensures n == 0 <==> PytestAssumption !in xs
  {
    if xs == [] then 0
    else Occurrences(xs[..|xs| - 1]) + (if xs[|xs| - 1] == PytestAssumption then 1 else 0)
  }

  /** The stage does not deduplicate: each call adds one more copy. */
  lemma AppendAddsOne(xs: seq<string>)
    ensures Occurrences(xs + [PytestAssumption]) == Occurrences(xs) + 1
  {
    assert (xs + [PytestAssumption])[..|xs|] == xs;
  }

  /** Two calls in a row add two copies and keep the earlier assumptions as a prefix. */
  method IssueAgentTwice(t: Ticket)
    modifies t`assumptions
    ensures t.assumptions == old(t.assumptions) + [PytestAssumption, PytestAssumption]
    ensures Occurrences(t.assumptions) == Occurrences(old(t.assumptions)) + 2
  {
    IssueAgent(t);
    AppendAddsOne(old(t.assumptions));
    IssueAgent(t);
    AppendAddsOne(old(t.assumptions) + [PytestAssumption]);
    assert old(t.assumptions) + [PytestAssumption] + [PytestAssumption] == old(t.assumptions) + [PytestAssumption, PytestAssumption];
  }
}
