# Conclave Eval-Light: evaluation kernel in Dafny

This project models the evaluation kernel of `eval.py`, the benchmark harness
that runs a fixed catalog of reasoning, writing and code tasks against the
multi-model "council" pipeline and records what happened. The model covers
five parts:

- the catalog of evaluation tasks `EVAL_TASKS`, as a constant sequence of `Task` records
  (`catalog.dfy`);
- the result sanitizer `sanitize_result`, a pure projection of a raw council
  output onto a bounded summary (`sanitizer.dfy`);
- the single-task executor `run_single_eval`: tier and mode selection, exactly
  one council call, and a tagged success or failure record (`executor.dfy`);
- the suite runner `run_eval_suite`: task selection with its two fallbacks,
  the sequential loop that appends one record per task, and the run summary
  (`suite.dfy`);
- the file name built by `save_eval_results` (`persistence.dfy`).

The council is an input, not code: a total function `Council` from the call's
ordinal within the run and its `Request` (entry point, question, models) to a
`Reply`. A reply is either the returned `CouncilOutput` or the text of the
raised exception, together with the elapsed wall-clock time. Elapsed times are
natural numbers of hundredths of a second, so the source's `round(elapsed, 2)`
is the identity on them. The configuration module is a `Config` value: the
three tier model lists and the current chairman.

Python dictionaries with optional keys are datatypes with `Option` fields. A
`Keys` function gives the JSON key set that a sanitized result or a record
would be written with, so the "key present exactly when" rules are stated
directly. Tier and mode stay strings, as in the source. This keeps one quirk
visible: an unknown mode dispatches the full pipeline, but the sanitizer
still receives the unknown name and keeps no later stage.

Two behaviours of the code are worth stating plainly:

- `run_eval_suite` returns `{"error": ...}` without metadata when no task is
  selected, and `save_eval_results` names such an output
  `eval_unknown_unknown_<timestamp>.json` (`Persistence.NoMatchFileName`).
  `main` never produces it: it passes no task list and argparse limits
  `--category` to the nine names, each of which has a catalog task
  (`Suite.CommandLineSelectionNonEmpty`). Only a caller that passes its own
  task list, or an unknown category, reaches that file name.
- A failure record's `error` is `str(e)`, which is empty for an exception
  raised without a message. The model promises only that `error` is the
  exception's text.

## Model

| member | source | states |
|---|---|---|
| `Catalog.FilterByCategory` | eval.py:345-346 | the filter keeps exactly the tasks whose category equals the filter and is never longer than its input |
| `Catalog.FilterAppend` | eval.py:346 | filtering distributes over concatenation, so the filter never reorders tasks |
| `Catalog.FilterKeepsMatching` | eval.py:346 | a list whose tasks all have the category passes the filter unchanged |
| `Catalog.FilterIdempotent` | eval.py:346 | filtering twice by one category is the same as filtering once |
| `Catalog.FilterNoneMatching` | eval.py:346 | a list with no task of the category filters to the empty list |
| `Catalog.OwnCategoryContainsTask` | eval.py:346 | a task is kept by the filter for its own category, which is therefore non-empty |
| `Catalog.CatalogColumns` | eval.py:46-223 | the catalog has 16 tasks whose ids, categories and difficulties are the listed columns, in declaration order |
| `Catalog.CatalogWellFormed` | eval.py:46-223 | catalog ids are pairwise distinct; every category is one of the nine and every difficulty is easy, medium or hard |
| `Catalog.EveryCategoryUsed` | eval.py:454-459 | each of the nine selectable categories has at least one catalog task |
| `Catalog.MathSelection` | eval.py:50-65 | the `math` filter over the catalog is exactly its first two tasks |
| `Catalog.UnusedCategorySelectsNothing` | eval.py:345-346 | a category outside the nine selects nothing from the catalog |
| `Sanitizer.Keys` | eval.py:296-319 | a sanitized result always has `tier` and `models_queried`, has only keys from the seven the sanitizer writes, has `responses` and `rankings` exactly when those parts are present, and has `synthesis`, `chairman` and `consensus` together, exactly when the synthesis group is present |
| `Sanitizer.Truncate` | eval.py:306 | the slice `s[:n]` is a prefix of `s` of length min(len(s), n) |
| `Sanitizer.TruncateResponses` | eval.py:303-309 | the responses list has the same length and order as stage 1, each model copied unchanged and each content a prefix of length min(L, 2000) |
| `Sanitizer.SanitizeResult` | eval.py:294-321 | tier copied; models_queried is the stage-1 count, or 0 without stage 1; responses exactly when stage 1 is present; rankings exactly in ranked or full mode with stage 2 present, equal to the aggregate or an empty object; the synthesis group exactly in full mode with stage 3 present, with the synthesis cut to 3000 characters or empty, the chairman copied, and the consensus taken from the top-level `consensus.level` |
| `Sanitizer.SanitizedKeys` | eval.py:296-319 | the key set always has `tier` and `models_queried`, has `responses`, `rankings`, `synthesis`/`chairman`/`consensus` under exactly those conditions, and nothing else |
| `Sanitizer.QuickModeKeepsOnlyStageOne` | eval.py:302-319 | in quick mode the result has responses exactly when stage 1 is present and never a ranking or synthesis key |
| `Sanitizer.StageOneOnlyOmitsLaterStages` | eval.py:312-319 | an output with only stage 1 gives no ranking or synthesis key in any mode |
| `Sanitizer.TruncateIdempotent` | eval.py:306 | cutting an already cut string changes nothing |
| `Sanitizer.TruncateResponsesIdempotent` | eval.py:303-309 | re-sanitizing stored responses changes nothing: they are within the bound |
| `Executor.Keys` | eval.py:266-291 | a record always has the seven common keys, has `result` exactly when it succeeded and `error` exactly when it failed |
| `Executor.SelectModels` | eval.py:247-252 | `premium` selects the premium models, `budget` the budget models, any other name the standard models |
| `Executor.SelectCall` | eval.py:257-262 | `quick` and `ranked` select their own entry point and every other mode selects the full pipeline |
| `Executor.Dispatch` | eval.py:256-262 | the single request carries the question being evaluated, the selected entry point and the tier's models |
| `Executor.Record` | eval.py:264-291 | the record copies task id, category, difficulty, tier and mode and the elapsed time; it succeeds exactly when the call returned; a success carries question, expected answer, criteria and the sanitized output; a failure carries the exception text |
| `Executor.RunSingleEval` | eval.py:230-291 | the record of a task succeeds exactly when the council's reply to the one dispatched request returned, and its elapsed time is that reply's |
| `Executor.OneCouncilCall` | eval.py:256-262 | the record depends on the council only through its reply to the one request the executor sends |
| `Executor.RecordKeys` | eval.py:266-291 | every record has the seven common keys; a success adds exactly question, expected, eval_criteria and result, and a failure adds exactly error |
| `Executor.FailureRecordIsBare` | eval.py:280-291 | a failed call yields an unsuccessful record with no result, question, expected or eval_criteria key |
| `Executor.UnknownTierIsStandard` | eval.py:247-252 | an unknown tier sends the same request and yields the same record as `standard`, except for the recorded tier name |
| `Executor.UnknownModeDropsLaterStages` | eval.py:257-262 | an unknown mode calls the full pipeline, yet its successful record has no ranking or synthesis key |
| `Executor.QuickModeRecord` | eval.py:257-258 | a quick-mode success stores responses exactly when the council returned stage 1, and no later stage |
| `Suite.SelectTasks` | eval.py:342-346 | with a non-empty category every selected task has that category; with a non-empty explicit list every selected task comes from it; with such a list and no category the list is run as given (the fallbacks and the filter are pinned down by the selection lemmas below) |
| `Suite.Successes` | eval.py:368 | a record is among the successes exactly when it is a record that succeeded; with `SuccessesAppend` and `SingleRecord` this fixes order and repetitions |
| `Suite.Failures` | eval.py:374 | a record is among the failures exactly when it is a record that did not succeed; with `FailuresAppend` and `SingleRecord` this fixes order and repetitions |
| `Suite.SuccessesAppend` | eval.py:368 | the successes of two record lists are the successes of the first followed by those of the second |
| `Suite.FailuresAppend` | eval.py:374 | the failures of two record lists are the failures of the first followed by those of the second |
| `Suite.SingleRecord` | eval.py:368 | one record is one success or one failure, never both |
| `Suite.TotalTime` | eval.py:369 | the total time is at least each record's time, and it is 0 exactly when every record took no time; with `TotalTimeSingle` and `TotalTimeAppend` it is the sum of the records' times on every list |
| `Suite.TotalTimeSingle` | eval.py:369 | the total time of one record is that record's elapsed time |
| `Suite.Average` | eval.py:376 | the average times the number of tasks is the total time, and it is 0 with no tasks |
| `Suite.CountsPartition` | eval.py:368-374 | successes and failures together number the records |
| `Suite.TotalTimePartition` | eval.py:369 | the total time is the time of the successes plus that of the failures |
| `Suite.TotalTimeAppend` | eval.py:369 | the total time of two record lists is the sum of their totals |
| `Suite.Summarize` | eval.py:371-377 | the summary records the task count and the total time; `successful` is at most the number of records and `successful + failed == total_tasks`; in a complete run `successful` counts the succeeding records and `failed` the failed ones; the average is `Average` of the total time over the task count |
| `Suite.SummaryTotalTime` | eval.py:369-375 | the summary's total time counts successes and failures alike |
| `Suite.AllSucceeded` | eval.py:368 | records that all succeeded are all counted as successes |
| `Suite.OneFailure` | eval.py:368-374 | with exactly one failing record the summary has one failure and all the rest successes (2 and 1 for three tasks) |
| `Suite.EmptyListFallsBack` | eval.py:342 | an explicit empty task list selects from the catalog, just as an absent list does |
| `Suite.EmptyCategoryIsNoFilter` | eval.py:345 | an empty category string filters nothing, just as an absent one does |
| `Suite.SelectionIsCategoryFilter` | eval.py:342-346 | with a non-empty category the selection is the category filter of the given list or of the catalog |
| `Suite.OwnCategorySelectsTask` | eval.py:342-346 | every catalog task is selected by its own category |
| `Suite.MathCategorySelectsTwo` | eval.py:342-346 | the `math` filter over the catalog selects two tasks, both of category math |
| `Suite.CommandLineSelectionNonEmpty` | eval.py:342-349 | with no task list and either no category or one of the nine argparse categories, the selection is never empty, so the error exit is not taken |
| `Suite.UnusedCategorySelectsNone` | eval.py:342-349 | a non-empty category outside the nine selects no task, so the run short-circuits |
| `Suite.RunTasks` | eval.py:355-365 | one record per selected task, in task order, the i-th being `RunSingleEval` of that task as the council's i-th call; with `Executor.OneCouncilCall` each record depends on the council only through its reply to that task's request (`calls` is the list of those requests, built by the loop) |
| `Suite.RunEvalSuite` | eval.py:324-389 | an empty selection returns the error result and sends no request; otherwise one record and one request per selected task in order, a summary with `successful + failed == total_tasks` and the total time summed over all records, and metadata with the timestamp, tier, mode, filter and chairman |
| `Persistence.MetadataTier` | eval.py:400 | the tier is the metadata tier of a run, and `unknown` for an output without metadata |
| `Persistence.MetadataMode` | eval.py:401 | the mode is the metadata mode of a run, and `unknown` for an output without metadata |
| `Persistence.FileName` | eval.py:398-402 | the name starts with `eval_`, ends with `.json`, and its length is that of tier, mode and timestamp plus twelve |
| `Persistence.SplitAtUnderscore` | eval.py:402 | not in the source: the inverse of the `_` joins of line 402, used to state the round trip; it splits at the first underscore, giving back the string around it with an underscore-free head |
| `Persistence.SplitJoined` | eval.py:402 | not in the source: joining an underscore-free head to a tail with `_` and splitting again gives back both parts |
| `Persistence.ParseFileName` | eval.py:402 | not in the source: the inverse of `FileName`; whatever it reads back rebuilds the name exactly, with underscore-free tier and mode, and it rejects names too short to hold the fixed parts |
| `Persistence.FileNameRoundTrip` | eval.py:398-402 | the tier, mode and timestamp can be read back from a file name when tier and mode contain no underscore |
| `Persistence.FileNameInjective` | eval.py:398-402 | two saves share a file name only when tier, mode and timestamp all agree |
| `Persistence.NoMatchFileName` | eval.py:400-402 | an output without metadata is saved as `eval_unknown_unknown_<timestamp>.json` |
| `Persistence.SameSecondSameName` | eval.py:399-402 | two runs with the same tier and mode saved within one second get the same name, so the later write replaces the earlier |

## Left out

- The council entry points `run_council_quick`, `run_council_ranked` and `run_council_full` are not part of this model. Their code is not available, so they are the `Council` input.
- The configuration module (`COUNCIL_*`, `get_current_chairman`, `OPENROUTER_API_KEY`) is not part of this model. It becomes the `Config` input, and the credential check in `main` is omitted.
- `async`/`await` and `asyncio.run` are not modelled. The loop awaits each call before starting the next, so it is modelled as sequential calls.
- `datetime.now()` is not modelled: the clock readings are inputs. Elapsed times are whole hundredths of a second in each `Reply`, and the metadata and file-name timestamps are strings.
- Suite.Average: the average is the exact quotient as a real; the source's float division and `round(..., 2)` are not modelled. The `else 0` branch of `avg_time_seconds` cannot be reached after the empty-selection short-circuit.
- Sanitizer.SanitizeResult: only well-formed council outputs are modelled. In the source, a stage-1 entry without `model` or `content`, or a stage that is not a mapping, makes `sanitize_result` raise. That exception happens inside the `try` and is recorded as a failure; the model cannot express such outputs.
- Exceptions outside `Exception` are not modelled. `except Exception` (eval.py:280) lets `BaseException` subclasses such as `asyncio.CancelledError` and `KeyboardInterrupt` escape `run_single_eval` and abort the suite. The model's `CallResult` makes every council failure a record, so it does not capture an aborted run.
- Executor.RunSingleEval: elapsed times are natural numbers. `datetime.now()` (eval.py:254, 264, 281) is a wall clock that can be set back during a call, so the source's `elapsed_seconds` can be negative. The model does not capture that case.
- Suite.SelectTasks: explicit task lists hold well-formed `Task` values. A task dict without `category` makes the comprehension at eval.py:346 raise `KeyError` outside any `try`, and such lists are not modelled. A task missing another field makes `run_single_eval` fail on a lookup (eval.py:258-290). Some of those lookups are inside its `try` and some are not, and none of these cases is modelled.
- JSON numbers are integers, and floats inside a ranking aggregate are not modelled. The aggregate is copied as an opaque value.
- `mkdir`, `open` and `json.dump` in `save_eval_results` are file I/O and serialisation. Only the file name is modelled, and the written document and the returned path are not.
- `print_summary`, the progress `print` calls, `argparse` and `main` are console and command-line plumbing and are not modelled.
