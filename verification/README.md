# Remediation orchestrator of the multi-agent repair assistant

This project models the repair loop of the multi-agent software-engineering
assistant. The loop walks one mutable run ledger, `TicketState`, through a
compiled graph:

- repo → issue → test;
- after test: to code, or to synthesis;
- code → patch → safety;
- after safety: back to test, or to synthesis;
- synthesis → END.

Two routers decide the branches. `route_after_test` bumps the iteration count
and stops on success or at the cap. `route_after_safety` ends the loop once a
human review has been requested.

The model covers:

- **Stages.** Each stage is a method over the ledger, the `State.Ticket` class:
  - repository scan, issue assumption, pytest run and `FAILED`-line parsing;
  - the fixed diagnosis rule and the fixed rounding patch;
  - the cumulative sensitive-path safety gate;
  - final-status derivation and report rendering.
- **Stand-alone stages.** Two stages exist in the repository but are not wired into the graph. They are modelled as separate methods over the same ledger:
  - the file-selection stage, which picks files with a language model;
  - the LLM patch stage, which applies model-proposed file updates behind allow-lists, with one retry and then escalation.
- **Command classification.** The `tail` helper, and how `run_cmd` classifies what a subprocess did.

Everything outside the process is a parameter:

- the subprocess outcome (`Tools.CmdOutcome`);
- the repository listing;
- the file system, as a map from path to content threaded through the patch stages;
- `unified_diff`;
- the language model's answers and `json.loads` with its schema check;
- fresh ids;
- the `:.2f` rendering of a confidence.

Every stage whose source updates state in place is a method. Its frame names exactly the ledger fields that stage writes, so "nothing else changes" is checked by Dafny's framing. Loop-built values are methods proved equal to a recursive specification function, and the properties are lemmas about those functions. This covers the touched-path set, the report lines, the parsed failures, the deduplicated test paths, the failure digest, the update loop and the retry loop.

Where the repository's declared types and its code disagree, the model follows the code:

- Synthesis assigns the final status "success", which the `FinalStatus` literal does not list, so `State.FinalStatus` has the extra constructor `Succeeded`.
- The file-selection stage writes `selected_files` and the LLM patch stage reads it, but `TicketState` does not declare that field. Here the model does not follow the code: `State.Ticket` carries `selectedFiles`, empty in a fresh ledger, so that both stand-alone stages can be stated at all (see "## Left out").
- `ToolRun` has no `stdout`/`stderr` attributes, so `_best_pytest_text` always falls back to the two tails. `PatchLlmNode.BestPytestText` models that fallback directly.

## Model

| member | source | states |
|---|---|---|
| State.Ticket.constructor | src/se_assistant/state.py:45-94 | A fresh ledger has every list empty, `safety_ok` true, no HITL request (required false, no reason, no payload), iteration 0 of 5, no final status or report, and timeout 30 by default |
| State.Ticket.RequestReview | src/se_assistant/graph.py:23-25 | The in-place escalation sets `hitl.required` and the given reason, keeps the payload, and sets `final_status` to stopped_for_review |
| Tools.Tail | src/se_assistant/tools.py:78-81 | The result is a suffix of `s`, "" for empty `s`, of length min(n, \|s\|) for n ≥ 1, the whole of `s` for n = 0, and \|s\| + n characters (at least 0) for negative n |
| Tools.TailIdempotent | src/se_assistant/tools.py:78-81 | Tailing a tail with the same positive length changes nothing |
| Tools.TailOfTail | src/se_assistant/tools.py:78-81 | Tailing to n and then to m ≤ n equals tailing to m |
| Tools.RunCmd | src/se_assistant/tools.py:36-76 | A completed command: "success" iff return code 0, else "fail", with the exit code as given. A timeout: "timeout", no exit code, stderr + "\nTIMEOUT". Any other exception: "error", no exit code, stdout "", stderr "Type: message" |
| Tools.RunCmdConsistent | src/se_assistant/tools.py:36-76 | Success implies exit code 0, and the exit code is missing iff the status is timeout or error |
| Tools.TimeoutMarked | src/se_assistant/tools.py:59-67 | A timed-out run's error output always ends with "\nTIMEOUT" |
| TestNode.ParsePytestFailures | src/se_assistant/nodes/test_agent.py:7-14 | The loop yields exactly the specification list of stripped `FAILED ` lines of stderr, in order |
| TestNode.FailuresIn | src/se_assistant/nodes/test_agent.py:10-14 | At most one failure per line; `FailuresInMembers`, `FailuresInAppend` and `FailuresStartWithFailed` state which lines and in what order |
| TestNode.FailuresInMembers | src/se_assistant/nodes/test_agent.py:10-14 | A failure is reported iff some line starts with "FAILED " and strips to its raw text |
| TestNode.FailuresInAppend | src/se_assistant/nodes/test_agent.py:11-14 | Parsing distributes over concatenation of line lists, so input order is kept |
| TestNode.NoOutputNoFailures | src/se_assistant/nodes/test_agent.py:11 | Missing or empty stderr yields no failures |
| TestNode.IndentedLineIgnored | src/se_assistant/nodes/test_agent.py:12 | A line that starts with whitespace adds nothing, even if it holds "FAILED" |
| TestNode.FailuresStartWithFailed | src/se_assistant/nodes/test_agent.py:12-13 | Every reported raw text starts with "FAILED" |
| TestNode.TestRunRecord | src/se_assistant/nodes/test_agent.py:20-30 | The recorded run has type test and command "pytest -q", and copies status and exit code from the classified result. Its tails are exactly the last min(20000, n) characters of the n-character stdout and stderr. Its failures are parsed from stderr only |
| TestNode.TestAgent | src/se_assistant/nodes/test_agent.py:32 | Exactly one run is appended after the existing ones; nothing else changes |
| CodeNode.Hypothesize | src/se_assistant/nodes/code_agent.py:7-24 | A hypothesis exists iff the last run of any type has status fail and its joined tails mention "apply_discount". It has the one location lines 1–999 of the pricing module and confidence 0.75 |
| CodeNode.TestNameMentionsFunction | src/se_assistant/nodes/code_agent.py:12 | The test-name disjunct is subsumed: text naming the test names the function |
| CodeNode.NoHypothesisWithoutFailure | src/se_assistant/nodes/code_agent.py:7-10 | With no runs, or a last run that timed out or errored, nothing is hypothesised |
| CodeNode.CodeAgent | src/se_assistant/nodes/code_agent.py:26-31 | The hypothesis and its locations are appended after the existing entries, or nothing changes |
| PatchNode.PricingFix | src/se_assistant/nodes/patch_agent.py:9-19 | A missing target raises; no marker means nothing to patch; otherwise the content is rewritten. A marker without the exact truncating return leaves the content unchanged |
| PatchNode.FixPatch | src/se_assistant/nodes/patch_agent.py:26-32 | The recorded patch touches exactly the target, with confidence 0.8, and is well formed |
| PatchNode.PatchAgent | src/se_assistant/nodes/patch_agent.py:7-34 | It raises iff the target is missing. On a rewrite the new content is written, even when equal to the old, and one patch with its diff is appended. Otherwise files and patches are unchanged |
| PatchNode.MarkerWithoutTruncation | src/se_assistant/nodes/patch_agent.py:12-34 | A marker without the exact return still counts as a rewrite to the same content |
| PatchNode.RerunIsNoOp | src/se_assistant/nodes/patch_agent.py:12-19 | When every marker lies inside the one truncating return, the stage rewrites exactly that return and a second run finds nothing to patch |
| PatchNode.NoMarkerAfterRewrite | src/se_assistant/nodes/patch_agent.py:16-19 | The replacement text cannot create a marker |
| RepoNode.Configs | src/se_assistant/nodes/repo_agent.py:9 | The configs are exactly the listed files named pyproject.toml, package.json or requirements.txt, and are empty iff none is listed |
| RepoNode.ConfigsAppend | src/se_assistant/nodes/repo_agent.py:9 | Config filtering distributes over concatenation, so listing order is kept |
| RepoNode.ScanRepo | src/se_assistant/nodes/repo_agent.py:8-18 | One file entry per listed path, in order. The configs are as above. The framework is "pytest" iff pyproject.toml is listed, else None. Entrypoints are empty |
| RepoNode.RepoAgent | src/se_assistant/nodes/repo_agent.py:18 | Only the repository map is replaced |
| IssueNode.IssueAgent | src/se_assistant/nodes/issue_agent.py:7-8 | The pytest assumption is appended after the existing ones; no other field changes |
| IssueNode.Occurrences | src/se_assistant/nodes/issue_agent.py:7 | The count is bounded by the length, and is zero iff the assumption is absent |
| IssueNode.AppendAddsOne | src/se_assistant/nodes/issue_agent.py:7 | One call adds exactly one occurrence |
| IssueNode.IssueAgentTwice | src/se_assistant/nodes/issue_agent.py:7 | There is no deduplication: two calls add two copies |
| SafetyNode.Touched | src/se_assistant/nodes/safety_agent.py:9-12 | The set of lower-cased touched paths over all patches; `TouchedMembers` and `TouchedGrows` state its contents |
| SafetyNode.TouchedMembers | src/se_assistant/nodes/safety_agent.py:9-12 | A path is touched iff it is the lower-cased form of a path listed by some recorded patch, over all patches |
| SafetyNode.TouchedGrows | src/se_assistant/nodes/safety_agent.py:10-12 | Recording a patch adds its lower-cased paths and never removes one |
| SafetyNode.CollectTouched | src/se_assistant/nodes/safety_agent.py:9-12 | The nested loops build exactly the specification set |
| SafetyNode.SetToList | src/se_assistant/nodes/safety_agent.py:22 | `list(touched)` holds every element once |
| SafetyNode.Scan | src/se_assistant/nodes/safety_agent.py:14-25 | The result is clear iff no touched path is sensitive. Otherwise it names a sensitive touched path and lists every touched path once |
| SafetyNode.SafetyAgent | src/se_assistant/nodes/safety_agent.py:5-25 | `safety_ok` is false iff some touched path contains a hint. Then one "sensitive_file_touched" is appended and HITL is required, with a reason naming a sensitive path and every touched path as payload. Otherwise flags and HITL are unchanged |
| SafetyNode.SecurityPackageNotSensitive | src/se_assistant/nodes/safety_agent.py:5-15 | "src/security/x.py" is not flagged, because the hint is "security.py" |
| SafetyNode.UpperCaseSecretFlagged | src/se_assistant/nodes/safety_agent.py:12-15 | A path "config/SECRET.yaml" is caught because paths are lower-cased first |
| SynthesisNode.LastTestRun | src/se_assistant/nodes/synthesis_agent.py:6 | The result is None iff no run has type test. Otherwise it is the last run of type test |
| SynthesisNode.DerivedStatus | src/se_assistant/nodes/synthesis_agent.py:9-16 | stopped_for_review iff HITL is required. "success" iff not required and the last test exists with exit code 0. Otherwise failed, including when there is no test |
| SynthesisNode.LastTwo | src/se_assistant/nodes/synthesis_agent.py:28-35 | `xs[-2:]` is the suffix of length min(2, \|xs\|) |
| SynthesisNode.LastTwoIdempotent | src/se_assistant/nodes/synthesis_agent.py:28-35 | Taking the last two twice changes nothing, and is empty iff the list is |
| SynthesisNode.DiffExcerpt | src/se_assistant/nodes/synthesis_agent.py:38 | The excerpt is a prefix of the stripped diff of at most 3000 characters: all of it when it fits, exactly 3000 otherwise |
| SynthesisNode.RenderHeader | src/se_assistant/nodes/synthesis_agent.py:17-25 | The appended header lines are the specification lines |
| SynthesisNode.RenderLocations | src/se_assistant/nodes/synthesis_agent.py:30-31 | One location line per location, in order |
| SynthesisNode.RenderDiagnosis | src/se_assistant/nodes/synthesis_agent.py:26-32 | The diagnosis section covers the last two hypotheses, or is absent |
| SynthesisNode.RenderPatches | src/se_assistant/nodes/synthesis_agent.py:33-40 | The patch section covers the last two patches with their diff excerpts, or is absent |
| SynthesisNode.RenderFailures | src/se_assistant/nodes/synthesis_agent.py:47-48 | One failure line per parsed failure, in order |
| SynthesisNode.RenderVerification | src/se_assistant/nodes/synthesis_agent.py:41-51 | The verification section is the specification lines |
| SynthesisNode.RenderReport | src/se_assistant/nodes/synthesis_agent.py:17-56 | The accumulated lines are the specification report |
| SynthesisNode.SynthesisAgent | src/se_assistant/nodes/synthesis_agent.py:5-58 | The final status is the derived status, assigned in place. The report is the report lines joined by "\n" |
| SynthesisNode.FirstLineIsStatus | src/se_assistant/nodes/synthesis_agent.py:18 | The first line is "FINAL STATUS: " and the status name |
| SynthesisNode.HitlLineIffRequired | src/se_assistant/nodes/synthesis_agent.py:20-22 | The third line is the HITL line (with its reason) iff HITL is required, else "# PR Report" |
| SynthesisNode.OnlyLastTwoRendered | src/se_assistant/nodes/synthesis_agent.py:26-40 | The report depends only on the last two hypotheses and the last two patches |
| SynthesisNode.FailureLinesAreItems | src/se_assistant/nodes/synthesis_agent.py:48 | Every failure line is an indented list item |
| SynthesisNode.NotExecutedIffNoTest | src/se_assistant/nodes/synthesis_agent.py:42-50 | "Tests were not executed." appears iff there is no test run |
| SynthesisNode.FailuresListedIffNotSuccess | src/se_assistant/nodes/synthesis_agent.py:45-48 | The failures header appears iff the last test's status is not success |
| SynthesisNode.LastLineIsSafetyNote | src/se_assistant/nodes/synthesis_agent.py:52-56 | The last line is the safety note, chosen by `safety_ok` alone |
| PatchLlmNode.Norm | src/se_assistant/nodes/patch_agent_llm.py:18-19 | `_norm` as `replace("\\", "/")`; its meaning is stated by `NormPointwise`, `NormIdempotent` and `NormHidesNothing` |
| PatchLlmNode.IsAllowedPath | src/se_assistant/nodes/patch_agent_llm.py:21-27 | `_is_allowed_path` on the lower-cased, normalised path: no sensitive word, no deny-listed piece, under "src/sandbox/"; its consequences are `AllowedNeverSensitive`, `BackslashEntryInert` and `SandboxTargetAllowed` |
| PatchLlmNode.NormPointwise | src/se_assistant/nodes/patch_agent_llm.py:18-19 | `_norm` keeps the length and rewrites each backslash to a slash, touching nothing else |
| PatchLlmNode.NormIdempotent | src/se_assistant/nodes/patch_agent_llm.py:18-19 | A normalised path has no backslash, and normalising twice equals normalising once |
| PatchLlmNode.NormHidesNothing | src/se_assistant/nodes/patch_agent_llm.py:21-26 | A backslash-free substring absent after normalisation was absent before |
| PatchLlmNode.AllowedNeverSensitive | src/se_assistant/nodes/patch_agent_llm.py:16-24 | A path the patch stage may write never trips the safety gate's hints |
| PatchLlmNode.BackslashEntryInert | src/se_assistant/nodes/patch_agent_llm.py:15-22 | The "tests\\" deny entry can never match, because paths are normalised first |
| PatchLlmNode.SandboxTargetAllowed | src/se_assistant/nodes/patch_agent_llm.py:14-27 | The sandbox pricing module is allowed in either slash style |
| PatchLlmNode.StripCodeFences | src/se_assistant/nodes/patch_agent_llm.py:30-33 | The text comes back unchanged, or it raises iff the text contains a triple backtick |
| PatchLlmNode.NoChangeFirstLine | src/se_assistant/nodes/patch_agent_llm.py:214-215 | Content whose first line is exactly "NO_CHANGE" is refused |
| PatchLlmNode.Dedup | src/se_assistant/nodes/patch_agent_llm.py:55-60 | The result holds the same elements, each once |
| PatchLlmNode.TestPaths | src/se_assistant/nodes/patch_agent_llm.py:55-61 | Exactly the first min(2, n) entries of the first-seen deduplication of the n distinct stripped matches: distinct, each a stripped match |
| PatchLlmNode.BestPytestText | src/se_assistant/nodes/patch_agent_llm.py:72-83 | No last test gives ""; otherwise the stripped join of the stripped output and error tails |
| PatchLlmNode.RunInfo | src/se_assistant/nodes/patch_agent_llm.py:116-123 | The four `run_info` lines of the last test, or "" without one |
| PatchLlmNode.ExtractTestPaths | src/se_assistant/nodes/patch_agent_llm.py:55-61 | The loop yields exactly `TestPaths` |
| PatchLlmNode.CompactFailures | src/se_assistant/nodes/patch_agent_llm.py:63-70 | At most `max_chars` characters of the stripped text: the `max_chars`-prefix of its suffix from the FIRST occurrence of "FAILURES" when there is one (so it starts with that word), and a plain prefix when there is none |
| PatchLlmNode.Chunks | src/se_assistant/nodes/patch_agent_llm.py:89-93 | No more chunks than items, and no chunk is blank |
| PatchLlmNode.ChunksComplete | src/se_assistant/nodes/patch_agent_llm.py:89-93 | Every non-blank item contributes its stripped raw text |
| PatchLlmNode.ChunksAppend | src/se_assistant/nodes/patch_agent_llm.py:89-93 | Chunks keep item order: chunking a concatenation concatenates the chunks |
| PatchLlmNode.ChunksFromItems | src/se_assistant/nodes/patch_agent_llm.py:89-93 | Each chunk is the stripped raw text of some item |
| PatchLlmNode.BlankItemsNoChunks | src/se_assistant/nodes/patch_agent_llm.py:91-93 | Blank raw texts are skipped |
| PatchLlmNode.FailuresDigest | src/se_assistant/nodes/patch_agent_llm.py:86-95 | A prefix of the stripped "\n\n---\n\n"-join of the chunks of the first 12 items: the whole join when it has at most 2200 characters, else exactly 2200 |
| PatchLlmNode.DigestEmptyIffBlank | src/se_assistant/nodes/patch_agent_llm.py:86-95 | The digest is empty (so the payload says "(none)") iff each of the first 12 items is blank |
| PatchLlmNode.FormatFailuresParsed | src/se_assistant/nodes/patch_agent_llm.py:86-95 | The loop yields exactly the digest |
| PatchLlmNode.AllowedTargets | src/se_assistant/nodes/patch_agent_llm.py:140 | The targets are exactly the selected paths that pass `_is_allowed_path` |
| PatchLlmNode.JsonCandidate | src/se_assistant/nodes/patch_agent_llm.py:38-45 | The stripped text when it opens with "{" or has no "{" before a "}"; otherwise exactly its piece from the first "{" to the last "}" |
| PatchLlmNode.BraceSlice | src/se_assistant/nodes/patch_agent_llm.py:42-45 | A slice exists iff some "{" precedes some "}", and it runs from the first "{" to the last "}" |
| PatchLlmNode.FirstToLastBraceUnique | src/se_assistant/nodes/patch_agent_llm.py:42-45 | That piece is unique, opens with "{", closes with "}" and occurs in the text |
| PatchLlmNode.Terminated | src/se_assistant/nodes/patch_agent_llm.py:219 | The written content ends with "\n" and starts with the proposed content |
| PatchLlmNode.CheckEntry | src/se_assistant/nodes/patch_agent_llm.py:209-215 | An update passes iff its path is allowed, it holds no fence and no leading "NO_CHANGE" line. A disallowed path raises the path error first |
| PatchLlmNode.WriteEntry | src/se_assistant/nodes/patch_agent_llm.py:217-234 | A missing file raises FileNotFoundError; an unchanged file is skipped; a changed file is overwritten with the line-terminated content and exactly one LLM patch, carrying the diff of old against new, is appended, with no error |
| PatchLlmNode.LlmPatch | src/se_assistant/nodes/patch_agent_llm.py:228-234 | Each LLM patch touches exactly its one path and is well formed |
| PatchLlmNode.ApplyUpdates | src/se_assistant/nodes/patch_agent_llm.py:203-234 | The update loop equals the specification fold that stops at the first raise |
| PatchLlmNode.WriteEntryAllowed | src/se_assistant/nodes/patch_agent_llm.py:209-234 | One write touches only an allowed path and appends at most one allowed patch |
| PatchLlmNode.StepAllowed | src/se_assistant/nodes/patch_agent_llm.py:203-234 | Any update, accepted or not, writes only allowed paths and adds at most one patch |
| PatchLlmNode.ApplyAllAllowed | src/se_assistant/nodes/patch_agent_llm.py:203-234 | Over all updates: only allowed paths change, every new patch is allowed, earlier patches are kept, and at most one patch is added per update |
| PatchLlmNode.RaiseKeepsWrites | src/se_assistant/nodes/patch_agent_llm.py:203-241 | A raise after earlier updates keeps the files they wrote |
| PatchLlmNode.RunAttempt | src/se_assistant/nodes/patch_agent_llm.py:196-239 | One attempt yields exactly the specification outcome |
| PatchLlmNode.AttemptAllowed | src/se_assistant/nodes/patch_agent_llm.py:196-239 | Whatever the model answers, an attempt writes only allowed paths and records only allowed patches |
| PatchLlmNode.AttemptsAllowed | src/se_assistant/nodes/patch_agent_llm.py:194-251 | The same holds over both attempts |
| PatchLlmNode.Attempts | src/se_assistant/nodes/patch_agent_llm.py:194-251 | At most two attempts, the second from the files the first left and with the reminder appended to the task; its properties are `AttemptsAllowed` and `EscalatesOnlyOnSecondRaise` |
| PatchLlmNode.EscalatesOnlyOnSecondRaise | src/se_assistant/nodes/patch_agent_llm.py:241-251 | Escalation happens iff the first attempt raises and the retry (with the reminder appended to the task) raises too. It then records no patch |
| PatchLlmNode.BuildPayload | src/se_assistant/nodes/patch_agent_llm.py:105-191 | The payload is the specification payload |
| PatchLlmNode.RetryLoop | src/se_assistant/nodes/patch_agent_llm.py:194-251 | Patches are appended after the existing ones. HITL and status are unchanged without escalation; on escalation they are the failure reason and stopped_for_review |
| PatchLlmNode.PatchAgentLlm | src/se_assistant/nodes/patch_agent_llm.py:98-251 | A pending HITL request changes nothing. No selected files, or none allowed, escalates with its reason. Otherwise the retry loop's result is stored |
| PatchLlmNode.LlmPatchesPassSafetyGate | src/se_assistant/nodes/patch_agent_llm.py:207-209 | No patch of this stage can make the safety gate fire |
| FileSelectorNode.Allowed | src/se_assistant/nodes/file_selector_agent.py:16-25 | `_allowed` on the lower-cased, normalised path; `PatcherStricterThanSelector`, `SelectorLooserThanPatcher` and `TestsDirectoryRefused` state what it admits |
| FileSelectorNode.AllowedFiles | src/se_assistant/nodes/file_selector_agent.py:107 | The filtered list holds exactly the answer's files that pass `_allowed` |
| FileSelectorNode.PatcherStricterThanSelector | src/se_assistant/nodes/file_selector_agent.py:16-25 | Every path the LLM patch stage may write passes `_allowed` |
| FileSelectorNode.SelectorLooserThanPatcher | src/se_assistant/nodes/file_selector_agent.py:16-25 | `_allowed` has no "src/" requirement: "lib/util.py" is accepted yet refused by the patch stage |
| FileSelectorNode.TestsDirectoryRefused | src/se_assistant/nodes/file_selector_agent.py:18-20 | Paths under a top-level tests directory are refused in either slash style |
| FileSelectorNode.ExtractJson | src/se_assistant/nodes/file_selector_agent.py:27-42 | `extract_json`: strip, drop fence lines when the text opens with a fence, then `BraceSpan`; `FencedObjectUnwrapped` states its round trip |
| FileSelectorNode.BraceSpan | src/se_assistant/nodes/file_selector_agent.py:34-42 | Brace-delimited text is kept. Otherwise the result is exactly the first-"{"-to-last-"}" piece when some "{" precedes some "}", and the text itself when none does |
| FileSelectorNode.FencedObjectUnwrapped | src/se_assistant/nodes/file_selector_agent.py:27-42 | A one-line object inside a fenced block comes back exactly |
| FileSelectorNode.FenceFree | src/se_assistant/nodes/file_selector_agent.py:31 | The kept lines are exactly those that do not start with a fence once stripped |
| FileSelectorNode.RepoPaths | src/se_assistant/nodes/file_selector_agent.py:51 | The paths of the repository map, in order |
| FileSelectorNode.CandidatePaths | src/se_assistant/nodes/file_selector_agent.py:52 | The candidates are exactly the paths starting with "src/" after lower-casing and normalising |
| FileSelectorNode.FirstPrompt | src/se_assistant/nodes/file_selector_agent.py:45-83 | The pytest text is its first 6000 characters (all of it when shorter), and the file list joins the first min(2000, n) of the n candidate paths |
| FileSelectorNode.RetryPrompt | src/se_assistant/nodes/file_selector_agent.py:96-99 | The retry prompt appends the reminder to the pytest text and keeps the file list |
| FileSelectorNode.Accept | src/se_assistant/nodes/file_selector_agent.py:89-91 | An answer is accepted iff its extracted JSON parses to a valid selection (1–5 files, confidence in [0, 1]), and then that selection is returned |
| FileSelectorNode.Choose | src/se_assistant/nodes/file_selector_agent.py:85-105 | Any choice is valid. An accepted first answer is chosen; otherwise the answer to the retry prompt decides. Nothing is chosen iff both are rejected |
| FileSelectorNode.ParseAnswers | src/se_assistant/nodes/file_selector_agent.py:85-101 | The two-attempt loop yields exactly `Choose` |
| FileSelectorNode.StoreSelection | src/se_assistant/nodes/file_selector_agent.py:102-119 | No answer: escalate with the invalid-JSON reason. No allowed file: escalate with the rationale. Otherwise one note is appended and the unfiltered files are stored |
| FileSelectorNode.FileSelectorAgent | src/se_assistant/nodes/file_selector_agent.py:44-119 | The stage's effect is that of the chosen answer for the first prompt |
| FileSelectorNode.UnfilteredSelectionKept | src/se_assistant/nodes/file_selector_agent.py:107-118 | An answer naming an allowed file and a test file stores both, though only one is allowed |
| Graph.FixedEdge | src/se_assistant/graph.py:48-65 | Every node has one fixed successor except test, safety and END; START is never a target |
| Graph.BranchTargets | src/se_assistant/graph.py:52-63 | Only test and safety branch, and each branch can go to synthesis |
| Graph.EveryNodeButEndLeads | src/se_assistant/graph.py:48-65 | A node has an outgoing edge iff it is not END |
| Graph.LoopEntries | src/se_assistant/graph.py:48-65 | Test is entered only from issue and safety, code only from test, and END only from synthesis |
| Graph.TestRoute | src/se_assistant/graph.py:17-29 | The router goes to code iff the last run, of any type, is not a success and the bumped count is below the cap; otherwise to synthesis. An empty run list counts as not a success |
| Graph.RouteAfterTest | src/se_assistant/graph.py:13-29 | The count rises by exactly 1 on every call. A success leaves HITL and status untouched. A non-success at the cap requests review with the max-iterations reason and stops for review. Going to code changes only the count |
| Graph.RouteAfterSafety | src/se_assistant/graph.py:31-35 | Goes to synthesis and stops for review iff HITL is required; otherwise goes to test with no change |
| Graph.Advance | src/se_assistant/graph.py:37-65 | One node runs and the next node follows an edge of the graph. Only the test node adds a run and bumps the count; the cap never changes |
| Graph.Run | src/se_assistant/graph.py:13-65 | Unless the patch stage raises, the run reaches END with the derived final status and a report. The test node runs at least once and at most max(1, cap − count₀) times, so at most 5 from a fresh ledger. Each test execution adds one to the count. The run takes 4k supersteps for k test runs, or 4k + 3 when safety routes to synthesis, so at most 20 from a fresh ledger |

## Left out

- LLM calls, prompt text and the `ChatOllama` model. A model answer is an input: a function from the prompt inputs to the reply, including a failed call for the patch stage.
- `json.loads` and pydantic validation. Each is a parameter saying "parses / does not parse", together with the 1–5 file and [0, 1] confidence constraints.
- FileSelectorNode.FileSelectorAgent: an exception raised by the model call itself is not modelled. In the source that call sits outside the retry's `try` and ends the run; `ask` here is total.
- The regular expression of `_extract_test_paths`. Its match list is an input (`findTestPaths`); only the strip, deduplicate and cap steps are modelled.
- `list_repo_files`, `read_text` and `write_text`. The listing is an input and the file system is a path-to-content map. A read of a missing path is a `FileNotFoundError` whose message omits the repository prefix.
- `unified_diff` is an uninterpreted parameter.
- The subprocess, the clock and `duration_sec`. `PatchLlmNode.RunInfo` renders the duration as empty.
- The `:.2f` formatting of confidences is a parameter, and confidence is a `real`.
- Python's `lower()` is modelled on ASCII letters only; other letters are kept as they are.
- `splitlines()` is modelled as splitting on "\n" only; the other line boundaries Python recognises are not.
- SafetyNode.Scan: Python visits a set in an order of its own. The model reports any sensitive touched path, and lists the touched paths in some order.
- LangGraph's merge of returned partial updates is modelled as direct field assignments, and the routers' in-place mutations persist as written. Compilation is not modelled.
- `print` output, `uuid` ids (ids are parameters), and the `run.py` entry point.
- `Quality` and `HITL.human_decision` are never read or written by the modelled code and are not fields of the model.
- Graph.Run: a raise from the patch stage ends the run (`crashed`), without synthesis, as an uncaught exception would.
- Graph.Run: LangGraph's recursion limit is not enforced. `run.py` invokes the graph without a config, so the default limit of 25 supersteps applies, and a run that needs more raises `GraphRecursionError` before synthesis. By the superstep count in the contract, that happens only when cap − count₀ ≥ 7 and the run reaches six or more test rounds. The model lets such a run go on to END with a report. A fresh ledger needs at most 20 supersteps and is unaffected.
- PatchLlmNode.PatchAgentLlm: the ledger is assumed to carry `selected_files`. In the source, `TicketState` (state.py:63-94) has no such field, so reading it at patch_agent_llm.py:132 raises `AttributeError` whenever no review was already requested; the "No files selected" and "not allowed" escalations and the retry loop are therefore modelled for a ledger that has the field, not for the one the repository declares.
- FileSelectorNode.FileSelectorAgent: likewise, storing `selected_files` is modelled as a field write; with the declared `TicketState` that key is not part of the state.
- Tools.RunCmd: the partial output of a timeout is modelled as text, as `subprocess.run` gives it on Windows. On POSIX it is bytes, and a non-empty partial stderr makes `(e.stderr or "") + "\nTIMEOUT"` raise an uncaught `TypeError`; that crash is not modelled.
