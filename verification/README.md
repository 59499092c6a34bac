# Autonomous Roblox game development: a verified model of the core

This project models the decision logic of three Python scripts that maintain a
Roblox game with AI help, and proves properties of that logic in Dafny.

- **autonomous_game_dev.py** has two parts.
  - The `GameQualityAnalyzer` scans Lua files with string rules. It reports
    *issues*: long functions, repeated 5-line blocks, and no `pcall`. It also
    reports *opportunities*: `wait(`, TODOs in services, and heavy conditional
    logic.
  - The `AutonomousGameDeveloper` ranks those reports and turns each into a
    feature request. For each request it asks up to three code-generating
    backends for candidates. It picks the candidate with the best
    `quality * confidence`, validates it, and saves it. Its improvement loop
    develops the three highest-ranked tasks per iteration.
- **huggingface_workers/app.py** is the `RobloxGameWorker`. It dispatches a
  task to one of four handlers by type and counts successes and failures. It
  keeps a status record that mirrors the counters. It processes a fetched
  batch in order, honouring a cooperative stop flag. The module-level
  `start_worker` / `stop_worker` guards and the success rate shown by
  `get_status` are modelled too.
- **train_autocoder.py** is the `RobloxGameTrainer`. It has first-match file
  and service classifiers and builds a training record with a line count for
  every readable file. It counts the files the pattern learner accepted. Its
  generation test has a threshold verdict and an error path. The pipeline
  stops early when no data was found.

Everything external is an explicit input of the model:

- the code generators, the LLM, the pattern learner, and file reads and writes;
- whether the code-generation model loaded;
- when `stop` is called.

Python dicts are `map<string, string>`. Exceptions are `Result` / `Reply`
values. Floats are `real`.

Modules, in dependency order:

| file | module | contents |
|---|---|---|
| wrappers.dfy | Wrappers | `Option`, `Result` |
| text.dfy | Text | Python `in`, `find`, `split`, `join`, `count`, `str(n)` over `seq<char>` |
| records.dfy | Records | dicts, `dict.get`, external replies, the exceptions |
| stable_sort.dfy | StableSort | Python's stable `sorted(..., reverse=True)` |
| quality_analyzer.dfy | QualityAnalyzer | `_check_code_quality`, `_find_opportunities`, `analyze_codebase` |
| candidates.dfy | Candidates | `_generate_implementations`, `_select_best_implementation`, `_test_implementation` |
| developer.dfy | Developer | `_prioritize_tasks`, `_task_to_feature_request`, `develop_feature`, `autonomous_improvement_loop` |
| worker.dfy | Worker | the worker's handlers, `process_task`, the batch body of `worker_loop`, `stop`, `start_worker`, `stop_worker`, the success rate |
| trainer.dfy | Trainer | `_categorize_file`, `_get_service_type`, `collect_training_data`, `train_patterns`, `test_generation`, `run_full_training` |

## Model

| member | source | states |
|---|---|---|
| QualityAnalyzer.FindLongFunctions | autonomous_game_dev.py:75-85 | Completeness: every segment after the first of `split("function ")` with more than 100 newline-split parts is reported. Soundness: only such segments are reported. Each is reported once, with its line count, numbered by position (`#1` is the first function), in increasing order. |
| QualityAnalyzer.LongFunctionIssues | autonomous_game_dev.py:76-85 | One medium `code_smell` issue per long function, in order, naming the file. |
| QualityAnalyzer.DuplicateBlockStarts | autonomous_game_dev.py:88-98 | A start index is flagged if and only if it is examined (below `len(lines) - 5`) and its 5-line block occurs more than twice, counted without overlap. Starts are reported once each, in increasing order. The last full window is never examined, and a file of at most 5 lines has no flags. |
| QualityAnalyzer.DuplicationIssues | autonomous_game_dev.py:89-98 | One identical low `duplication` issue per flagged start. |
| QualityAnalyzer.XpcallMentionsPcall | autonomous_game_dev.py:101 | A file containing `xpcall` contains `pcall`, so the `xpcall` test decides nothing. |
| QualityAnalyzer.ErrorHandlingIssues | autonomous_game_dev.py:100-109 | Exactly one medium `error_handling` issue if and only if the file mentions `function` and never `pcall`; otherwise none. |
| QualityAnalyzer.CheckCodeQuality | autonomous_game_dev.py:69-111 | The issues are those of the three rules concatenated in source order: one per long function, in order, then one per flagged duplicate block, then the error-handling issue if any. Each rule has its own contract above. Every issue names the file and has its rule's severity. |
| QualityAnalyzer.OpportunityScanAlwaysRaises | autonomous_game_dev.py:139 | As written, the opportunity scan raises `TypeError: argument of type 'int' is not iterable` for every file. |
| QualityAnalyzer.FindOpportunitiesAsWritten | autonomous_game_dev.py:113-148 | The scan as written. The only exception it can raise is the not-iterable `TypeError`, and whatever it returns is what the corrected scan returns. |
| QualityAnalyzer.FindOpportunities | autonomous_game_dev.py:113-148 | Corrected scan. Each opportunity is present if and only if its trigger is: `wait(` in the code, `Service` in the name with `-- TODO` in the code, and more than 10 `if` occurrences. Nothing else is reported, and the length is the number of triggers that fire, so none is repeated. None has a severity, and all name the file. |
| QualityAnalyzer.OpportunitiesInRuleOrder | autonomous_game_dev.py:119-146 | The opportunities come in the order of the rules: performance, then the TODO feature, then the refactoring. |
| QualityAnalyzer.AnalyzeAsWrittenRaises | autonomous_game_dev.py:52-62 | As written, the tree scan fails with that `TypeError` if and only if the tree has a Lua file, and returns two empty lists otherwise. |
| QualityAnalyzer.AnalyzeAsWritten | autonomous_game_dev.py:43-67 | The tree scan as written. The only exception it raises is the scan's `TypeError`, and whatever it returns is what the corrected tree scan returns. |
| QualityAnalyzer.AnalyzeFile | autonomous_game_dev.py:56-62 | One file's issues are exactly those of `_check_code_quality` and its opportunities exactly those of the corrected scan. The issues all carry a severity, the opportunities none, and all of them name the file. |
| QualityAnalyzer.Analyze | autonomous_game_dev.py:43-67 | Corrected tree scan. Every report is well formed and names a scanned file. Issues have a severity, opportunities do not, and an empty tree yields nothing. |
| QualityAnalyzer.AnalyzeOneFile | autonomous_game_dev.py:52-62 | A tree of one file reports exactly that file's issues and opportunities. |
| QualityAnalyzer.AnalyzeAppend | autonomous_game_dev.py:52-67 | Scanning two trees in sequence reports the first tree's issues followed by the second's, and likewise the opportunities. With `AnalyzeOneFile`, the result is the per-file reports concatenated in file order. |
| Candidates.GenerateCandidates | autonomous_game_dev.py:256-319 | At most three candidates, listed by strictly increasing backend rank (autocoder, huggingface, llm), each from a known backend. |
| Candidates.CoderContribution | autonomous_game_dev.py:262-278 | An autocoder candidate exists if and only if the autocoder is available and did not raise. It carries the reply's code, quality and confidence, defaulting to `""`, 0 and 0. |
| Candidates.HfContribution | autonomous_game_dev.py:281-294 | A Hugging Face candidate exists if and only if the backend is available, did not raise and reported success. It carries the reply's code and the priors 0.5 / 0.6. |
| Candidates.LlmContribution | autonomous_game_dev.py:297-317 | An LLM candidate exists if and only if the LLM is available and did not raise. It carries the reply text and the priors 0.7 / 0.8. |
| Candidates.SelectBest | autonomous_game_dev.py:321-335 | Returns None if and only if there are no candidates. Otherwise it returns one of the candidates, unchanged, with `score = quality * confidence`, and no candidate scores higher. |
| Candidates.SelectBestIsEarliestArgmax | autonomous_game_dev.py:327-335 | On ties the earliest candidate of maximal score is selected, because the sort is stable. |
| Candidates.TestImplementation | autonomous_game_dev.py:337-360 | The validation passes if and only if there is a candidate whose code has at least 10 characters and contains `function` or `local`. The three rejections come in source order with their exact messages. A pass scores the candidate's quality. |
| StableSort.Sort | autonomous_game_dev.py:447-451 | The result is a permutation of the input (same multiset) in non-increasing key order. |
| StableSort.SortStable | autonomous_game_dev.py:447-451 | For every key value, the elements with that key keep their input order. |
| StableSort.SortHeadIsEarliestMax | autonomous_game_dev.py:333-335 | The first element after sorting is the earliest element of maximal key. |
| Developer.Rank | autonomous_game_dev.py:445-449 | `high` ranks 3, `medium` 2 and `low` 1. A missing or unknown severity ranks as low (1), so every opportunity ranks with the low issues. Ranks lie between 1 and 3. |
| Developer.Prioritize | autonomous_game_dev.py:441-453 | The result is a permutation of the tasks in non-increasing rank. |
| Developer.PrioritizeIsStable | autonomous_game_dev.py:447-451 | Tasks of equal rank keep their input order. |
| Developer.PrioritizeExample | autonomous_game_dev.py:441-453 | `[low, high, medium]` is prioritised to `[high, medium, low]`. |
| Developer.TaskToRequest | autonomous_game_dev.py:455-465 | Gives the exact request text for `code_smell`, `error_handling` and `performance`, and the description (default `Unknown task`) for any other type. For those three types a missing `file` raises `KeyError("file")`. With `file` present, a missing `suggestion` (for `code_smell`) or `description` (for `performance`) raises `KeyError` naming that key. Any failure names a missing key. A well-formed report never raises. |
| Developer.DevelopFeature | autonomous_game_dev.py:167-232 | `implementations` is the number of generated candidates. The selected one is the best of them and is one of them, with maximal score. The test result is the validation of that selection: it passes if and only if a candidate was selected whose code is plausible Lua. Success holds if and only if validation passed and saving did not raise. A failing save is recorded as `error`. After a successful save, a learner error is recorded only when the autocoder is present. A failed validation records an empty `errors` list and no `error`. |
| Developer.DevelopFeatureStubSucceeds | autonomous_game_dev.py:200-218 | A stub autocoder returning short valid Lua gets its candidate selected, validated and saved. |
| Developer.DevelopFeatureEmptyCodeFails | autonomous_game_dev.py:220-222 | The same stub returning empty code fails with `Code too short`. |
| Developer.TopTasks | autonomous_game_dev.py:422 | `tasks[:3]`: a prefix of length `min(3, len(tasks))`. |
| Developer.ImprovementLoop | autonomous_game_dev.py:401-434 | For any `develop_feature`: zero iterations do nothing. An analysis that raised crashes the loop before anything is developed. Otherwise the only crash is a `KeyError` from turning a task into a request. An analysis without tasks ends the loop at once. At most `max_iterations * 3` features are developed. |
| Developer.RunLoop | autonomous_game_dev.py:401-434 | The developer's own loop: a raising analysis crashes it at once, any other crash is a `KeyError`, and at most `max_iterations * 3` features are developed. |
| Developer.DevelopEachAll | autonomous_game_dev.py:422-425 | When every top task maps to a request, one iteration develops each of them once, in order, as consecutive calls. |
| Developer.IterateOnePerAttempt | autonomous_game_dev.py:408-434 | Over `n` iterations there are exactly `n * len(top)` records. Record `k` develops top task `k mod len(top)` (`Slot`) as the run's `k`-th call. |
| Developer.SlotIsRemainder | autonomous_game_dev.py:408-422 | `Slot(k, m)` is the remainder of `k` divided by `m`: `k` is a whole number of rounds of `m` plus the slot, and the slot is below `m`. |
| Developer.ImprovementLoopOnePerAttempt | autonomous_game_dev.py:401-434 | The improvement loop over an analysis whose top tasks all map to requests finishes with one record per attempt. |
| Developer.WellFormedLoopDevelopsTopTasks | autonomous_game_dev.py:408-430 | With well-formed reports the loop never crashes. It develops `max_iterations * min(3, len(tasks))` features, feature `k` being the request of top task `k mod len(top)`. |
| Developer.CorrectedLoopDevelopsTopTasks | autonomous_game_dev.py:408-430 | With the corrected analysis, every tree that yields tasks gets `max_iterations * min(3, len(tasks))` developed features. |
| Developer.AsWrittenLoopCrashes | autonomous_game_dev.py:408-415 | As written, the loop over a tree with a Lua file raises the scan's `TypeError` in its first iteration, before developing anything. |
| Developer.EmptyTreeLoopEnds | autonomous_game_dev.py:415-419 | A tree with no Lua files yields no tasks, and the loop ends at once. |
| Text.SplitJoin | autonomous_game_dev.py:88-90 | `sep.join(s.split(sep)) == s`. |
| Text.SplitOnCharCount | train_autocoder.py:62 | Splitting on one character gives one more part than there are occurrences of that character. |
| Worker.GenerateFeature | huggingface_workers/app.py:174-210 | Succeeds if and only if the model is loaded and answered, returning its text with the description. Without a model it fails with the exact message. |
| Worker.FixBug | huggingface_workers/app.py:212-228 | Always succeeds, with the task's file and issue (default `""`) and the fix text built from the issue. |
| Worker.FixHasErrorHandling | huggingface_workers/app.py:226 | Every generated fix contains `pcall`, so the analyser's error-handling rule never fires on it. |
| Worker.OptimizeCode | huggingface_workers/app.py:230-245 | Always succeeds, with the task's file and target. |
| Worker.GenerateContent | huggingface_workers/app.py:247-276 | Always succeeds. Returns the three NPC lines, the two item lines, or `["Default content"]` for any other type. Never empty. |
| Worker.Handle | huggingface_workers/app.py:128-152 | Success holds if and only if the type is `bug_fix`, `optimization` or `content`, or it is `feature` (the default) with the model loaded and answering. Any other type gives `Unknown task type: ...`, which has no success. |
| Worker.HandleDispatch | huggingface_workers/app.py:128-147 | A `feature` task goes to `generate_feature` with its description, `bug_fix` to `fix_bug`, `optimization` to `optimize_code` and `content` to `generate_content`. A task without a type is a `feature` task. |
| Worker.NewWorker | huggingface_workers/app.py:37-56 | A new worker is not running, has zero counters, and is consistent. |
| Worker.ProcessTask | huggingface_workers/app.py:123-172 | `processed` goes up by exactly 1 and exactly one of `succeeded` / `failed` goes up by 1. The status mirrors the three counters. `processed == succeeded + failed` is preserved, and nothing else changes. |
| Worker.Stop | huggingface_workers/app.py:347-351 | Clears the running flag and its status copy. Counters, mode and the rest of the status are unchanged, and consistency is preserved. |
| Worker.ProcessBatch | huggingface_workers/app.py:328-341 | Tasks run strictly in list order, only while running: all of them, only those before a stop, or none for a stopped worker. Result `i` is the handling of task `i`. Pull requests go to exactly the successful results, in order. Counters advance by exactly the results, and consistency is preserved. A stop leaves the worker stopped. |
| Worker.StartWorker | huggingface_workers/app.py:362-377 | Corrected start. A running worker is left unchanged with `Worker already running`. Otherwise there is a fresh consistent worker in the requested mode with zero counters, and the started message. |
| Worker.StartWorkerAsWritten | huggingface_workers/app.py:362-377 | As written. A running worker is left unchanged with `Worker already running`. Otherwise the global worker is replaced by a fresh, consistent, stopped worker and the call raises `RuntimeError`. The models are loaded only when no event loop was running. |
| Worker.StartWorkerAsWrittenNeverStarts | huggingface_workers/app.py:369-377 | As written, `start_worker` never returns the started message. It returns normally only for a running worker, and it never leaves a running worker other than the one already there. |
| Worker.StopWorker | huggingface_workers/app.py:380-388 | No worker gives `No worker running`. Otherwise the worker is stopped with its counters kept, and consistency is preserved. |
| Worker.StopThenStartWorker | huggingface_workers/app.py:362-388 | After `stop_worker`, the corrected `start_worker` always succeeds with a fresh worker. |
| Worker.SuccessRate | huggingface_workers/app.py:410 | `rate * processed == 100 * succeeded` when something was processed. The rate is `100 * succeeded` (that is, 0 for a fresh worker) when nothing was. It lies between 0 and 100 whenever `succeeded <= processed`. |
| Trainer.FirstMatch | train_autocoder.py:77-102 | The result of the first rule that fires, or the default when none fires. |
| Trainer.GuiMentionsUi | train_autocoder.py:81 | A name containing `GUI` contains `UI`, so the `GUI` test decides nothing. |
| Trainer.CategorizeFile | train_autocoder.py:77-88 | `service` if and only if the name has `Manager` or `Service`. Failing that, `ui` if and only if it has `UI`, then `config`, then `controller`, else `utility`. |
| Trainer.CategorizeIsFirstMatch | train_autocoder.py:77-88 | The category is the first-match classification over the rule list. |
| Trainer.ServiceType | train_autocoder.py:90-102 | ServerScriptService gives `server`, StarterGui `client_ui`, StarterPlayer `client_character`, ReplicatedStorage `shared`, each if and only if no earlier one matched; otherwise `unknown`. |
| Trainer.ServiceTypeIsFirstMatch | train_autocoder.py:90-102 | The service is the first-match classification over the rule list. |
| Trainer.LineCount | train_autocoder.py:62 | The number of newlines plus 1, so at least 1 even for an empty file. |
| Trainer.CollectWith | train_autocoder.py:52-72 | No more records than files. There are no records if and only if every read raised. Every record is built from a file that was read. |
| Trainer.Readable | train_autocoder.py:52-72 | The readable files are exactly the files whose read returned. When every read returns, they are all the files. |
| Trainer.CollectWithReadable | train_autocoder.py:52-72 | There is one record per readable file, in the order found, each built from that file and its contents. Files whose read raised are skipped, wherever they occur. |
| Trainer.CollectTrainingData | train_autocoder.py:42-75 | Record `i` is the training record of the `i`-th readable file: its path, contents, line count and classifications. Files whose read raised yield nothing. There are none if and only if every read raised. |
| Trainer.CollectEveryReadableFile | train_autocoder.py:52-67 | There is exactly one record per readable file, in order, with that file's path, contents and line count. When every read succeeds, that is one record per file. |
| Trainer.TrainPatterns | train_autocoder.py:104-131 | The count is the number of learner calls that returned: never more than the records, all of them if no call raised, 0 if every call raised. |
| Trainer.TestPrompt | train_autocoder.py:170-201 | The entry is recorded under its prompt. It succeeds if and only if the call returned with quality > 0.7 and confidence > 0.6 (missing scores default to 0). A raising call is recorded as an error with its message. |
| Trainer.TestGeneration | train_autocoder.py:156-207 | One entry per fixed prompt, in order, each with that verdict or error. |
| Trainer.Successes | train_autocoder.py:204 | The success count is the number of entries that succeeded: how often `True` occurs among the verdicts. It is at most the number of entries. It equals that number if and only if all succeeded, and is 0 if and only if none did. |
| Trainer.RunFullTraining | train_autocoder.py:242-280 | Returns False if and only if every read raised, and then trains and tests nothing. Otherwise the learned count is at most the number of records and there are four test entries. |

## Left out

- File and network I/O are not modelled. This covers `rglob` and `open` reads (their outcome is an input), `_save_implementation`, `_log_development`, `create_pull_request`, `save_trained_model` and `fetch_tasks`. A failing save or learner call is an input of `Developer.DevelopFeature`.
- `_plan_feature` is left out. It calls the LLM and only records a plan that no later step reads.
- `extract_common_patterns` is left out: it only prints what the external pattern learner returns.
- Timestamps, uptime, `asyncio.sleep`, the outer `while` of `worker_loop` and its catch-all handler are left out. Only the batch body is modelled.
- `initialize_models` becomes the `codeGenLoaded` flag. Whether the thread calling `start_worker` runs an event loop is the `hostLoopRunning` input of `Worker.StartWorkerAsWritten`.
- `Worker.ProcessTask`: the `except` branch of `process_task` is not modelled. Every handler of the model catches its own exceptions, so the branch cannot be reached.
- `Worker.FixBug`, `Worker.OptimizeCode` and `Worker.GenerateFeature` omit the constant fields of their outputs (`type`, `language`, `optimization`, `expected_improvement`).
- `Trainer.TestPrompt` does not model exceptions raised by the progress `print`s. One such source is formatting a non-numeric score with `:.2f`.
- train_autocoder.py:186 puts a backslash inside an f-string expression. That is a syntax error before Python 3.12, and the model assumes a Python that accepts it.
- Python floats are `real`, so a tie in `quality * confidence` under floating-point rounding may differ from a tie in the model.
- `Candidates.TestImplementation` does not model the 0.5 default for a missing quality. A selected candidate always has one.
- `Worker.SuccessRate`: the `:.1f` rounding is not modelled.
- The `get_status` text, the Gradio interface, setup_huggingface.py and all `print` output are left out.
- The improvement loop uses one analysis for every iteration. The loop writes generated features outside the scanned `src` tree, so every iteration's fresh analysis sees the same files.

## Findings

| source | as written | input that shows it | evidently intended | confidence | as-written member | corrected member |
|---|---|---|---|---|---|---|
| autonomous_game_dev.py:139 | `if "if" in code.count("if") > 10:` is a chained comparison, `("if" in n) and (n > 10)` with `n` an int. Evaluating `"if" in n` raises `TypeError`, so `_find_opportunities` never returns, and `analyze_codebase` raises as soon as one Lua file is scanned. | any file, e.g. `SourceFile("A.lua", "")` | `if code.count("if") > 10:` — report complex conditional logic when `if` occurs more than ten times | not executed | QualityAnalyzer.FindOpportunitiesAsWritten, QualityAnalyzer.OpportunityScanAlwaysRaises | QualityAnalyzer.FindOpportunities |
| huggingface_workers/app.py:369-377 | `start_worker` replaces the global worker, then calls `asyncio.run(...)` and `asyncio.create_task(...)` from plain synchronous code. Inside a running event loop `asyncio.run` raises `RuntimeError`. Otherwise `asyncio.run` leaves no loop running, so `asyncio.create_task` raises `RuntimeError: no running event loop`. The worker loop is never launched and the started message is never returned. | any call with no running worker, e.g. `StartWorkerAsWritten(None, "general", true, false)` | launch `worker_loop` in the background (on a loop or thread of its own) and return `Worker started in … mode` | not executed | Worker.StartWorkerAsWritten, Worker.StartWorkerAsWrittenNeverStarts | Worker.StartWorker |

For autonomous_game_dev.py:139, a condition that is simply always false would be a weaker reading of the
line. The model follows Python's evaluation: `in` on an `int` raises. The
consequences of the code as written are covered by three lemmas:

- `QualityAnalyzer.AnalyzeAsWrittenRaises`: the tree scan fails.
- `Developer.AsWrittenLoopCrashes`: the improvement loop crashes in its first
  iteration.
- `QualityAnalyzer.OpportunityScanAlwaysRaises`: the file scan itself raises.

The rest of the model uses the corrected scan:

- `QualityAnalyzer.Analyze` is the corrected tree scan.
- `Developer.CorrectedLoopDevelopsTopTasks` states what the corrected loop
  develops.

For `start_worker`, `Worker.StartWorkerAsWritten` keeps the replacement of
the global worker before the raise. The rest of the model, including
`Worker.StopThenStartWorker`, uses the corrected `Worker.StartWorker`.

Behaviours that follow from the code but are not errors:

- `QualityAnalyzer.XpcallMentionsPcall`: the `xpcall` test adds nothing.
- `Trainer.GuiMentionsUi`: the `GUI` test adds nothing.
- `Developer.DevelopFeature`: `errors` copied from a failed validation is always empty. The validator reports its reason under `error`, not `errors`.
