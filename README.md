# Refactoring Swarm — a verified model of its core

Refactoring Swarm is a pipeline that refactors the Python files of a target directory with LLM agents:

- The **Auditor** asks the LLM about each file and collects its issues.
- The **Fixer** rewrites each file, generates missing tests and documentation, and retries files after a test failure.
- The **Judge** runs pytest and asks the LLM to analyse any failures.
- The **orchestrator** (`run_refactoring_swarm`, plus an older copy in `t.py`) runs Audit → Fix → (test generation) → Judge passes. It stops when the tests pass, when a pass raises, or after `max_iterations` passes.
- A second front end is a LangGraph graph: analyze → detect_bugs → refactor → validate, with a retry edge.

Underneath are sandboxed file tools, a pytest report counter and a line counter. The repository also ships four small sample target programs with pytest suites.

This project models, in Dafny:

- the orchestrators' loops, filters, retry targeting and final report;
- the agents' result shaping;
- the sandbox checks;
- the graph's routing;
- the four sample programs.

It then proves the properties the code and its tests promise.

How the code is modelled:

- The filesystem is a `map` from absolute path to content.
- Things outside the model are parameters:
  - the LLM, `json.loads`, `ast.parse`, the regular expression of `extract_code_blocks`, pylint and `os.path.abspath` are function-typed parameters;
  - what `os.listdir` returns is a value;
  - what the agents return on pass `k` of a run is the input `env(k)`.
- A mutable Python object becomes a Dafny `class` whose methods name what they modify. Each method is proved against a specification function, and the properties are lemmas about that function.

Layout, one module per core file:

| file | module | models |
|---|---|---|
| `wrappers.dfy` | Wrappers, Llm | Option/Result/Outcome, the exceptions raised, an LLM reply |
| `text.dfy` | Text | `str` helpers: prefix tests, `strip`, `replace`, `join`, `split`, `upper`, `str(int)`, the JSON fence cleaning shared by the Auditor and the Judge |
| `swarm_loop.dfy` | SwarmLoop | the loop the two orchestrators share |
| `swarm_controller.py` → `swarm_controller.dfy` | SwarmController | `run_refactoring_swarm`, the file filters and retry targets, `main`'s flags |
| `t.py` → `legacy_swarm.dfy` | LegacySwarm | the older loop |
| `fixer.dfy`, `auditor.dfy`, `judge.dfy` | Fixer, Auditor, Judge | the three agents |
| `file_tools.dfy`, `sandbox_guard.dfy`, `pytest_tool.dfy`, `code_utils.dfy` | FileTools, SandboxGuard, PytestTool, CodeUtils | the tools |
| `agent_state.dfy`, `refactor.dfy`, `validator.dfy`, `workflow.dfy` | AgentStates, RefactorAgent, ValidatorAgent, Workflow | the LangGraph branch |
| `code1.dfy` … `code4.dfy` | Orders, Passwords, Tasks, Accounts | the sample programs under `sandbox/` |

How a run that never succeeds ends:

- A run whose Judge never succeeds does not always report `max_iterations_reached`. An exception on a pass before the last one ends the loop with the counter below `max_iterations` (src/orchestrator/swarm_controller.py:242-263 and 302), so the flag is false. `SwarmLoop.ResultFacts` states the exact condition.

## Model

| member | source | states |
|---|---|---|
| SwarmLoop.RunFacts | src/orchestrator/swarm_controller.py:82-83 | the counter is the number of passes run; every pass before the last one run failed; the loop broke out exactly when the last pass run did not fail; `success` holds exactly when that pass succeeded; the history holds the failed passes' records in pass order |
| SwarmLoop.RunStable | src/orchestrator/swarm_controller.py:190 | once a pass breaks out of the loop, later passes change nothing |
| SwarmLoop.FirstStop | src/orchestrator/swarm_controller.py:186-190 | the loop stops at the first pass that does not fail |
| SwarmLoop.ResultFacts | src/orchestrator/swarm_controller.py:299-303 | `total_iterations` stays within `max(0, max_iterations)`; `success` holds iff some pass succeeded after passes that all failed, and then the loop stopped there; `max_iterations_reached` holds iff the budget is empty, or every pass before the last allowed one failed and the last one did not succeed |
| SwarmLoop.CallsFacts | src/orchestrator/swarm_controller.py:82-263 | the agent calls of a run are those of the passes run, concatenated in pass order |
| SwarmLoop.CallsOfMember | src/orchestrator/swarm_controller.py:82-263 | every recorded call was made by one of the passes run |
| SwarmController.Modules | src/orchestrator/swarm_controller.py:141-144 | keeps exactly the listed `.py` files that do not start with `test_` and are not `__init__.py` |
| SwarmController.RetryCandidates | src/orchestrator/swarm_controller.py:207-210 | keeps exactly the listed `.py` files that do not start with `test_` |
| SwarmController.GenerateMissing | src/orchestrator/swarm_controller.py:141-162 | the generation loop makes one call per module whose output file is not listed, in listing order |
| SwarmController.MissingOutputsFacts | src/orchestrator/swarm_controller.py:148-153 | every generation call is of the requested kind; there is a call for `f` iff `f` is among the files scanned and its output name is not listed |
| SwarmController.ProblematicFiles | src/orchestrator/swarm_controller.py:212-216 | the nested loops collect exactly the candidates that some error mentions by name or by stem |
| SwarmController.FileErrors | src/orchestrator/swarm_controller.py:223 | keeps exactly the errors that contain the full file name |
| SwarmController.FirstThree | src/orchestrator/swarm_controller.py:224 | a prefix of at most 3 errors; the whole list when it has at most 3 |
| SwarmController.RetryFiles | src/orchestrator/swarm_controller.py:219-231 | every problematic file gets exactly one retry, with its own message |
| SwarmController.RetryMessageFacts | src/orchestrator/swarm_controller.py:223-224 | the message is empty when no error names the file in full, and is that error when exactly one does |
| SwarmController.RetryPlanFacts | src/orchestrator/swarm_controller.py:202-224 | a listed non-test `.py` file is retried iff some error contains its name or its `.py`-stripped stem, and its message joins its own first three errors |
| SwarmController.StemOnlyRetry | src/orchestrator/swarm_controller.py:215 | a file whose stem alone occurs in an error is still retried, with an empty message |
| SwarmController.RunPass | src/orchestrator/swarm_controller.py:89-263 | the loop body computes the pass the specification function defines |
| SwarmController.PassFix | src/orchestrator/swarm_controller.py:113-124 | the Fixer is called iff the audit found issues, with that report; a pass with no issues records `fixes_applied = 0` |
| SwarmController.PassTestGeneration | src/orchestrator/swarm_controller.py:136-167 | tests are generated iff `generate_tests` holds, this is pass 1, the audit and fix did not raise, and the listing was read; they are generated exactly for listed modules with no `test_<f>` beside them; no pass generates documentation |
| SwarmController.PassRetry | src/orchestrator/swarm_controller.py:202-231 | retries happen only after a failed Judge on a pass before `max_iterations`; the pass then fails with a record, and the plan is the one built from the Judge's errors |
| SwarmController.PassRecordFacts | src/orchestrator/swarm_controller.py:234-240 | a record exists only for a failed Judge; it is numbered by its pass and holds the audit's issue count and the Judge's counts |
| SwarmController.PassEnds | src/orchestrator/swarm_controller.py:186-263 | a pass succeeds iff it reaches the Judge and the Judge succeeds; it fails iff it reaches the Judge, the Judge fails, and the retry listing was read when retries are due; otherwise it raises |
| SwarmController.RunRefactoringSwarm | src/orchestrator/swarm_controller.py:22-306 | the loop, the documentation step and the final report compute the run the specification functions define |
| SwarmController.HistoryFacts | src/orchestrator/swarm_controller.py:234-240 | history record `k` belongs to pass `k`, whose Judge failed; it holds that pass's issue count and test counts |
| SwarmController.RunCalls | src/orchestrator/swarm_controller.py:89-268 | over a whole run, tests are generated on pass 1 only; retries happen only on passes before `max_iterations`, each with its pass's plan; the loop generates no documentation |
| SwarmController.OutcomeFacts | src/orchestrator/swarm_controller.py:62-306 | a missing target raises `FileNotFoundError` before any pass; the report comes from the loop state; documentation is generated iff the run succeeded and `generate_docs` holds, exactly for listed modules whose `README_<stem>.md` is absent |
| SwarmController.GenerationFlags | src/orchestrator/swarm_controller.py:396-401 | `--no_generation` turns both flags off; otherwise each flag follows its own option |
| LegacySwarm.RunPass | t.py:77-169 | the loop body computes the specified pass |
| LegacySwarm.PassFacts | t.py:84-150 | a pass raises iff the audit raised, or the Fixer was called and raised; otherwise it succeeds iff the Judge does; the Fixer is called iff there are issues; a record with no issues has no fixes; the record copies the Judge's counts |
| LegacySwarm.RunRefactoringSwarm | t.py:54-183 | the loop and the final report compute the run the specification function defines; a missing target raises `FileNotFoundError` |
| LegacySwarm.ExceptionEndsRun | t.py:152-179 | an exception on pass `k`, after passes that all failed, ends the run with `success` false, `total_iterations = k` and `k - 1` records |
| LegacySwarm.HistoryFacts | t.py:128-150 | history record `k` belongs to pass `k`, whose Judge failed, and holds its issue count |
| Fixer.GroupIssuesByFile | src/agents/fixer.py:420-428 | the keys are the distinct files in order of first occurrence; each key maps to the issues of that file |
| Fixer.DedupMembers | src/agents/fixer.py:420-428 | a file is a key iff some issue names it (`unknown.py` when none) |
| Fixer.DedupDistinct | src/agents/fixer.py:420-428 | no key appears twice |
| Fixer.GroupOfAppend | src/agents/fixer.py:423-427 | grouping keeps the original order |
| Fixer.GroupOfOwnFile | src/agents/fixer.py:423-427 | a group holds only issues of its own file |
| Fixer.GroupsPartition | src/agents/fixer.py:420-428 | the group sizes add up to the number of issues |
| Fixer.CleanCodeResponse | src/agents/fixer.py:478-490 | the cleaned answer has no surrounding whitespace |
| Fixer.PythonFenceRoundTrip | src/agents/fixer.py:478-490 | a ```python block cleans to its stripped body |
| Fixer.BareFenceRoundTrip | src/agents/fixer.py:478-490 | a bare ``` block cleans to its stripped body |
| Fixer.UnfencedAnswer | src/agents/fixer.py:478-490 | an answer without fences is only stripped |
| Fixer.IssueLines | src/agents/fixer.py:432-437 | one line per issue, in order |
| Fixer.FixPromptContents | src/agents/fixer.py:430-459 | the prompt names the file, states the issue count, and holds the code and every issue's line |
| Fixer.FixStepEffect | src/agents/fixer.py:101-131 | per group: an LLM exception ends `fix` and changes nothing else; a failed read or write changes no file or counter; a fix records the file and its issue count and replaces exactly that file with the cleaned answer |
| Fixer.FixAccounting | src/agents/fixer.py:97-152 | without an exception every group is handled; `files_fixed` lists exactly the groups whose write succeeded, in order; `total_fixes` adds up their issue counts |
| Fixer.FixFoldRaised | src/agents/fixer.py:158-173 | once a group raises, the remaining groups change nothing |
| Fixer.Fix | src/agents/fixer.py:68-173 | the method computes the specified result and file map |
| Fixer.FixResultProperties | src/agents/fixer.py:84-152 | an empty issue list gives `no_issues` and touches no file; otherwise, without an exception, `completed` with the fixed files and their issue count |
| Fixer.TestFileName | src/agents/fixer.py:218 | the test file name starts with `test_` and ends with the file name |
| Fixer.DocFileName | src/agents/fixer.py:308 | the documentation name starts with `README_` and ends with `.md` |
| Fixer.DocFileNameOfModule | src/agents/fixer.py:308 | `<stem>.py` gets `README_<stem>.md` |
| Fixer.GeneratedFailure | src/agents/fixer.py:241-257 | every failure is re-raised, and a failure leaves every file unchanged (tests here; documentation and retries the same at lines 331-347 and 402-418) |
| Fixer.GeneratedSucceeds | src/agents/fixer.py:189-239 | a success needs the read, the LLM call and the write to succeed |
| Fixer.GeneratedWrites | src/agents/fixer.py:215-220 | a success writes exactly the target, which then reads back as the returned text (tests here; documentation at lines 308-310) |
| Fixer.RetryRewritesSource | src/agents/fixer.py:364-400 | a successful retry replaces the file it read |
| Fixer.GenerateTests | src/agents/fixer.py:175-257 | the cleaned answer goes to `test_<filename>` |
| Fixer.GenerateDocumentation | src/agents/fixer.py:259-347 | the uncleaned answer goes to `README_<stem>.md` |
| Fixer.RetryFix | src/agents/fixer.py:349-418 | the cleaned answer replaces the file |
| Auditor.ParseLlmResponse | src/agents/auditor.py:221-264 | the loop stamps each decoded issue in place |
| Auditor.ParsedIssuesStamped | src/agents/auditor.py:245-264 | every parsed issue names a file; one that named a file keeps it, and nothing else changes; a missing `issues` key gives none; an undecodable answer gives exactly the `parse_error` issue; a non-object raises |
| Auditor.GenerateRecommendations | src/agents/auditor.py:266-293 | the five conditional appends, checked in table order |
| Auditor.RecommendationsProperties | src/agents/auditor.py:276-293 | no issue gives the "conforme" message; the list depends only on the set of issue types; with no known type the single fallback message is returned |
| Auditor.RecommendationFor | src/agents/auditor.py:280-291 | a table message is recommended iff its issue type occurs |
| Auditor.PylintSampleBounds | src/agents/auditor.py:185-186 | at most the first ten pylint issues are shown, and all of them when there are at most ten |
| Auditor.AnalysisPromptContents | src/agents/auditor.py:171-201 | the prompt shows the file name and the file's content |
| Auditor.Analyze | src/agents/auditor.py:68-169 | the method computes the specified report |
| Auditor.AnalyzeFiles | src/agents/auditor.py:97-143 | the issues of each file are concatenated in listing order, and the first failure ends it |
| Auditor.IssuesOfErrPersists | src/agents/auditor.py:156-169 | once a file fails, the whole analysis fails with that error |
| Auditor.IssuesOfStamped | src/agents/auditor.py:139-140 | every collected issue names a file |
| Auditor.AuditReportShape | src/agents/auditor.py:83-151 | a report lists the `.py` files in listing order; its total is the number of issues, each naming a file; a missing directory raises `FileNotFoundError`; no file gives the fixed empty report |
| Auditor.IssuesOfAppend | src/agents/auditor.py:139-140 | a report's issues are the per-file results concatenated |
| Text.JsonFenceRoundTrip | src/agents/auditor.py:236-243 | a ```json block cleans to its stripped body |
| Text.PlainFenceRoundTrip | src/agents/judge.py:250-257 | a bare ``` block cleans to its stripped body |
| Judge.ErrorBlocks | src/agents/judge.py:207-210 | at most five numbered error blocks, `ERREUR i:` followed by error `i` |
| Judge.AnalysisPromptContents | src/agents/judge.py:205-219 | the prompt reports the full error count and shows each of the first five errors |
| Judge.ParseFallbacks | src/agents/judge.py:241-271 | a non-text reply and an undecodable one both give severity `unknown`; an undecodable reply keeps its first 200 characters, or the default when empty |
| Judge.ParseObjectDefaults | src/agents/judge.py:261-265 | a string `root_cause` wins as a singleton; the recommendations fall back to the singular key; the severity falls back to `medium` |
| Judge.AnalyzeFallback | src/agents/judge.py:191-203 | the fixed fallback is taken iff the LLM raises or its answer decodes to a non-object; otherwise the parsed analysis, which always has a severity |
| Judge.TestShapes | src/agents/judge.py:79-189 | success iff the tool says so, with no failure, error or recommendation; a failure copies the tool's counts and errors and takes the analysis; an exception reports its message with zero counts |
| Judge.FailurePromptReportsAllErrors | src/agents/judge.py:136-139 | on failure the prompt states the tool's full error count (the prompt built at line 214) |
| Judge.AsWrittenNeverSucceeds | src/agents/judge.py:94-96 | as written, `test` never succeeds and reports the `AttributeError` text |
| FileTools.PathJoinEnds | src/agents/auditor.py:104 | the joined path ends with the file name |
| FileTools.BasenameOfJoin | src/agents/fixer.py:367 | the base name of a joined path is the file name |
| FileTools.FileSystem.ReadFileSafe | src/tools/file_tools.py:13-39 | the containment check refuses with `PermissionError` iff the absolute path does not start with the absolute sandbox (`sandbox` by default); inside it, the content of a stored path, or `FileNotFoundError` for a missing one |
| FileTools.FileSystem.GetFileContent | src/tools/file_tools.py:85-87 | behaves exactly like `read_file_safe` |
| FileTools.FileSystem.WriteFileSafe | src/tools/file_tools.py:41-66 | a refused path or a failed open writes nothing; a success replaces exactly that path, which reads back as the content; every other file is unchanged |
| FileTools.Written | src/tools/file_tools.py:59-66 | the file map after a write: one entry replaced, or unchanged on failure |
| FileTools.PythonEntriesMembers | src/tools/file_tools.py:83 | exactly the listed entries ending in `.py` are kept |
| FileTools.PythonEntriesAppend | src/tools/file_tools.py:83 | listing order is kept |
| FileTools.ListPythonFiles | src/tools/file_tools.py:68-83 | a missing directory raises `FileNotFoundError`; otherwise the `.py` entries |
| SandboxGuard.GetAbsoluteSafePath | src/utils/sandbox_guard.py:8-11 | the absolute path iff the path is safe, else `PermissionError` |
| SandboxGuard.ExtensionIsSafe | src/utils/sandbox_guard.py:3-6 | `SANDBOX_DIR` and every path extending it as text are safe |
| SandboxGuard.SiblingAccepted | src/utils/sandbox_guard.py:6 | a sibling such as `/x/sandbox2/f` is accepted for `/x/sandbox` |
| SandboxGuard.OutsideRefused | src/utils/sandbox_guard.py:5-10 | a path that is shorter than the sandbox, or differs from it at some position, is refused |
| PytestTool.ParseTestResults | src/tools/pytest_tool.py:13-21 | a missing report gives `False, 0, 0, ["report not found"]`; otherwise the counts of passed and failed tests, with success iff none failed |
| PytestTool.FailedIds | src/tools/pytest_tool.py:19 | the errors are exactly the node ids of failed tests |
| PytestTool.FailedIdsCount | src/tools/pytest_tool.py:18-19 | one error per failed test |
| PytestTool.CountsBounded | src/tools/pytest_tool.py:17-18 | passed plus failed is at most the number of tests |
| PytestTool.FailedIdsAppend | src/tools/pytest_tool.py:19 | errors come in report order |
| PytestTool.ReportSummary | src/tools/pytest_tool.py:17-19 | consistent counts; an empty report is a success |
| CodeUtils.CountLinesConcat | src/utils/code_utils.py:27-30 | `count_lines(a + "\n" + b) == count_lines(a) + count_lines(b)` |
| CodeUtils.CountLinesOfLine | src/utils/code_utils.py:29-30 | a single line counts once iff, stripped, it is non-empty and not a comment |
| CodeUtils.CountLinesEmpty | src/utils/code_utils.py:27-30 | empty code has no line |
| CodeUtils.CountLines | src/utils/code_utils.py:27-30 | at most one more than the number of line breaks |
| AgentStates.AgentState.constructor | src/core/orchestrator.py:32-43 | the initial state of `process_code`: the code and the description, step `init`, empty analysis and bugs, empty corrected code, no validation and the counter at 0 |
| RefactorAgent.RefactorPromptContents | src/agents/refactor_agent.py:24-41 | the prompt carries the code, the detected bugs and the analysis |
| RefactorAgent.CorrectedCode | src/agents/refactor_agent.py:47-60 | the first code block if any; else the raw reply; the original code if the LLM raised |
| RefactorAgent.Process | src/agents/refactor_agent.py:16-64 | only `corrected_code`, `refactor_error` and `current_step` change; `refactor_error` is set iff the LLM raised; `current_step` becomes `refactored` |
| ValidatorAgent.ValidationPromptContents | src/agents/validator_agent.py:30-49 | the prompt shows both versions of the code |
| ValidatorAgent.ValidationOf | src/agents/validator_agent.py:23-64 | `approved` holds iff the syntax is valid and the upper-cased reply contains `OUI`; it is false if the LLM raised, and `llm_validation` then holds the error text |
| ValidatorAgent.Process | src/agents/validator_agent.py:16-69 | only `validation` and `current_step` change; `current_step` becomes `validated` |
| Workflow.Decide | src/core/workflow.py:39-53 | `end` iff approved or `iterations >= 3`, leaving the counter; otherwise `retry` with the counter plus one, a missing counter or validation taking its default |
| Workflow.ShouldRetry | src/core/workflow.py:39-53 | the method takes the specified decision and changes only `iterations` |
| Workflow.AnalyzeNode | src/agents/analyzer_agent.py:21-58 | with no code, an analysis without LLM text and the step unchanged; otherwise the analysis and `analyzed` |
| Workflow.DetectBugsNode | src/agents/bug_detector_agent.py:53-54 | stores the bugs and `bugs_detected` |
| Workflow.RunWorkflow | src/core/workflow.py:56-78 | from a counter `start`, validate runs at least once and at most `4 - start` times (4 from the default 0); the counter ends at `start + validations - 1`; the run ends approved or with a counter of 3 or more |
| Orders.AmountConcat | sandbox/code1.py:23-26 | the value of two product lists joined is the sum of their values |
| Orders.AmountAppend | sandbox/code1.py:41 | adding a product raises the total by `prix * quantite` |
| Orders.Commande.Total | sandbox/code1.py:17-26 | the sum of `prix * quantite` over the products (0 for none) |
| Orders.Commande.AjouterProduit | sandbox/code1.py:28-41 | a negative quantity raises `ValueError` and leaves the products; otherwise the product is appended at the end |
| Orders.TotalCommandes | sandbox/code1.py:44-56 | the sum of the order totals (0 for none) |
| Orders.AjouterProduitGlobale | sandbox/code1.py:59-73 | the same check and append as the method, on `commande.produits` |
| Passwords.Changed | sandbox/code2.py:36-37 | with the right old password, the new one authenticates and the old one no longer does when they differ; otherwise the table is unchanged; no key is added or removed; no other entry changes |
| Passwords.Users.constructor | sandbox/code2.py:3-6 | the initial table `admin → 1234`, `user → abcd` |
| Passwords.Users.Authentifier | sandbox/code2.py:9-22 | true iff the login is a key and its password matches |
| Passwords.Users.ChangerMdp | sandbox/code2.py:25-38 | the table becomes the specified changed table |
| Tasks.Tache.constructor | sandbox/code3.py:7-19 | `tags=None` gives an empty list; otherwise the given tags |
| Tasks.Tache.AjouterTag | sandbox/code3.py:21-27 | one tag appended at the end |
| Tasks.GestionTaches.Ajouter | sandbox/code3.py:37-43 | one task appended at the end |
| Tasks.GestionTaches.Supprimer | sandbox/code3.py:45-61 | the list becomes the list without its first task of that title |
| Tasks.WithoutFirstMatch | sandbox/code3.py:51-58 | exactly the first task with the title is removed; the others keep their order |
| Tasks.WithoutNoMatch | sandbox/code3.py:51-58 | with no matching task, the list is unchanged |
| Tasks.WithoutLength | sandbox/code3.py:51-58 | the length drops by at most one |
| Accounts.LedgerKept | sandbox/code4.py:51-76 | deposits and withdrawals keep the balance equal to the opening one plus the net of the log, with non-negative logged amounts; a withdrawal never takes a non-negative balance below zero |
| Accounts.Compte.constructor | sandbox/code4.py:42-49 | the opening balance and an empty log |
| Accounts.Compte.Deposer | sandbox/code4.py:51-61 | a negative amount changes nothing; otherwise the balance grows by it and `("DEPOT", m)` is logged |
| Accounts.Compte.Retirer | sandbox/code4.py:63-76 | a negative amount, or one above the balance, changes nothing; otherwise the balance drops by it and `("RETRAIT", m)` is logged |
| Accounts.Utilisateur.constructor | sandbox/code4.py:10-21 | the given fields and no account |
| Accounts.Utilisateur.CreerCompte | sandbox/code4.py:23-29 | a new account with the opening balance and an empty log |
| Accounts.Utilisateur.EstMajeur | sandbox/code4.py:31-37 | of age iff the age is above 18, so 18 is not |
| Accounts.TransferFacts | sandbox/code4.py:136-148 | between different accounts, the sum of balances is conserved; a refused transfer changes neither; otherwise the source loses `m` and the destination gains it; a non-negative source stays non-negative |
| Accounts.SelfTransferFacts | sandbox/code4.py:147-148 | a transfer to the same account keeps its balance and logs both operations |
| Accounts.Transfert | sandbox/code4.py:127-150 | a missing account changes nothing; otherwise both accounts end as the specified transfer leaves them |
| Accounts.Registry.AjouterUtilisateur | sandbox/code4.py:82-95 | exactly one new user with the given fields is appended and returned |
| Accounts.Registry.TrouverUtilisateur | sandbox/code4.py:98-111 | the first user with that email, or `None` iff there is none |
| Accounts.Registry.TotalSoldes | sandbox/code4.py:114-124 | the sum of the balances of the users that have an account (0 for none) |

## Left out

Outside the model:

- **Output:** logging, `print`, `log_experiment`, `traceback`, the displayed summaries, `afficher`/`afficher_utilisateurs` and the `__main__` demos.
- **Agent setup:** constructing the agents and their LLM clients, and API keys.
- **Foreign code:** the LLM, `json.loads`, `ast.parse`, `re.findall`, pylint, `subprocess.run` and `os.path.abspath` are parameters whose behaviour is not modelled.
- **Unused modules:** `src/utils/language_detector.py` is not part of this model.
- **Directories:** `os.makedirs` in `write_file_safe`; the file map has no directories.

Pass-level approximations:

- **Per-pass inputs:** what the agents return on each pass is an input. So the model does not link one pass's writes to the next pass's audit.
- **Existence checks:** `os.path.exists` for test and documentation files is modelled as membership in the listing read before the generation loop. Two modules whose names give the same `README_<stem>.md` (such as `a.py` and `a.py.py`) would both be documented in the model, while the code skips the second once the first is written.
- **Retry order:** the retries of a pass are recorded as one map from file to message. Python walks a set, and that order is not modelled.
- **Generation and retry failures:** a failing call is caught and only reported. The model records the call either way and does not model its file effects inside the run.

Representation choices:

- **`run_pytest` stdout:** it is not interpreted. The corrected Judge takes the report record directly (see Findings).
- **Upper-casing:** `upper()` is modelled on ASCII letters only.
- **Numbers:** amounts and prices in the sample programs are unbounded integers, not floats.
- **Aliasing in the samples:** in `sandbox/code1.py` and `sandbox/code3.py` the product and tag lists passed to a constructor are shared with the caller. The model copies them as values, so aliasing through those lists is not captured.
- **Unreachable handler:** the `except (ValueError, IOError)` around `transfert` cannot fire on integer amounts and is not modelled.
- **Unused state keys:** the `errors` and `messages` keys of `AgentState` are not used by the modelled nodes and are left out.
- **Empty validation:** the initial `validation = {}` is represented as `None`. `should_retry` reads `approved` with default `False` from either.
- **JSON values:** a decoded field is either a value of the expected type (a string, an integer, a list of issues or of strings) or absent. JSON `null` and values of other types are not represented. So a `"file": null` issue, which the code does not re-stamp because the key exists, is stamped in the model, and `Auditor.ParsedIssuesStamped` relies on this. Likewise `issue.get('line', '?')` printing `None` and a `"recommendations": null` analysis are not modelled.
- **Uncaught JSON shapes:** `issues` holding `null` or a non-list raises `TypeError` outside the `json.JSONDecodeError` handler (src/agents/auditor.py:249). A `.report.json` that exists but does not decode, or lacks `tests`, `outcome` or `nodeid`, raises out of `parse_test_results` (src/tools/pytest_tool.py:15-19). Neither raise is modelled.
- **Router writes:** `should_retry` increments `state['iterations']` inside the routing function given to `add_conditional_edges` (src/core/workflow.py:52 and 71-78). The model treats the graph state as one object, so that write persists. LangGraph may apply updates only from what nodes return. Then the counter would stay at 0 and a run never approved would loop until LangGraph's recursion limit. `Workflow.ShouldRetry` and the bound on validate runs in `Workflow.RunWorkflow` depend on the write persisting.

Weaker contracts:

- FileTools.FileSystem.ReadFileSafe: a read inside the sandbox fails only for a missing path. Other failures of `open`/`read` (src/tools/file_tools.py:38-39) are not modelled. These are the operating system's `PermissionError` on an unreadable file, `UnicodeDecodeError` on content that is not UTF-8, and `IsADirectoryError` on a directory. So its `PermissionError` iff does not cover those OS refusals. In the code any of them ends `analyze` (src/agents/auditor.py:107), while the model's audit carries on. `FileTools.FileSystem.GetFileContent` and every agent read inherit this.
- Workflow.RunWorkflow: states the bounds on validate runs and how the run ends, not the final code or validation, because those come from the oracles on each call.

## Findings

| source | as written | input that shows it | evidently intended | confidence | as-written member | corrected member |
|---|---|---|---|---|---|---|
| src/agents/judge.py:94-96 | `test` calls `.get` on the value of `run_pytest`, which is the captured stdout string (src/tools/pytest_tool.py:11). So every call raises `AttributeError` and takes the exception branch | any pytest run, e.g. stdout `""` | `test` reads the passed/failed/success/errors record that `parse_test_results` builds | not executed | Judge.AsWrittenNeverSucceeds | Judge.TestShapes |
