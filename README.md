# Dataset validation report — Dafny model

`validate_dataset.py` runs as a CI step. It starts a remote validation job for a dataset and polls it until it finishes. It then fetches each enabled expectation with its validation history, renders a markdown report and posts it as a pull-request comment. This project models the three parts of that script that are logic rather than I/O, and proves what they promise:

- **Result-value dispatch** (`ValidationResult`): `process_validation_result` picks the displayed value of a validation run from its `result_type`. The value is a percentage (`100 - unexpected_percent`), a number (`observed_value`) or the placeholder `-`. Anything else raises. `round(x, 5)` and the conversion of a float to text stay abstract. A value records the number handed to `round`, and rendering takes a `show: real -> string` that stands for `str(round(x, 5))`.
- **Report building** (`Report`): the loop in `main` classifies each expectation's most recent run as error, pass or fail, and counts the passes. It builds one record and one table row per expectation. The overview table and the collapsible details block are then joined into one string. `format_run_time` is a caller-supplied `formatRunTime: string -> string`. The fetched dataset and expectations are inputs.
- **Polling** (`Poller`): `poll_task_status` runs against a `RemoteTask` object that hands out a scripted sequence of task snapshots, one per fetch. The loop stops at the first `SUCCESS` (returning the task) or `FAILURE`/`ERROR` (raising), and sleeps after any other status. A fetch past the end of the script yields nothing, which becomes a third outcome, `NoTerminalStatus`.
- `Text` holds `str(n)` for counts and `"\n".join`, each with its inverse. `Wrappers` holds `Option` and `Result`. A Python exception is an `Err` value carrying the kind of error.

How the code behaves at a few points the model makes explicit:
- The summary line reads `<icon> <passed> of <total> expectations passed`.
- A missing key raises `KeyError`; this is the `MissingKey` error. A JSON null, string, list or object handed to `round` or `-` raises `TypeError`; this is `NotANumber`. A JSON boolean is accepted as 1 or 0, as Python does. An unsupported result type raises `ValueError`; this is `NotImplemented`.
- A failed task raises a plain `Exception` naming its status and result; this is `TaskFailed(status, result)`.

Report generation is deterministic by construction: `Markdown` is a function of its inputs.

## Model

| member | source | states |
|---|---|---|
| `ValidationResult.ProcessValidationResult` | validate_dataset.py:71-86 | an unknown `result_type` raises "not implemented"; only `column_map_expectation` gives a percentage; the `-` placeholder comes exactly for `expectation` with `observed_value` missing and `observed_value_list` present |
| `ValidationResult.ReadNumber` | validate_dataset.py:73-78 | reading `result[key]` as a number succeeds exactly when the key holds a number or a boolean (read as 1 or 0); a missing key is a KeyError; null, a string, a list or an object is a TypeError |
| `ValidationResult.ProcessSucceedsIffDisplayable` | validate_dataset.py:71-86 | a value is returned exactly when a known result type has a number under its key; "not implemented" is raised exactly for unknown types and for `expectation` with neither observed key |
| `ValidationResult.ObservedValueTakesPrecedence` | validate_dataset.py:76-80 | for `expectation`, once `observed_value` is present the presence of `observed_value_list` does not change the result; a number gives `round(observed_value, 5)` |
| `ValidationResult.ValueByResultType` | validate_dataset.py:72-75 | `column_map_expectation` shows `round(100 - unexpected_percent, 5)` as a percentage; `column_aggregate_expectation` shows `round(observed_value, 5)` |
| `ValidationResult.ValueText` | validate_dataset.py:73-80 | the Result cell is `-` for the placeholder, the rounded number followed by `%` for a percentage (so the cell ends in `%`), and the rounded number alone otherwise |
| `Report.HasException` | validate_dataset.py:119 | an exception message counts exactly when it is neither null nor the empty string (Python truthiness) |
| `Report.Classify` | validate_dataset.py:119-126 | status is error exactly when the exception message is non-empty, whatever `success` says; otherwise pass exactly when `success` holds, fail exactly when it does not |
| `Report.PassCount` | validate_dataset.py:116-126 | the number of expectations whose latest run passed is at most the total, and equals the total only when every one passed |
| `Report.AllPassedCount` | validate_dataset.py:116-126 | when every latest run passed, the count equals the number of expectations |
| `Report.AllPassedIff` | validate_dataset.py:138-147 | passed equals total exactly when every expectation's latest run passed |
| `Report.ErrorPreventsFullPass` | validate_dataset.py:119-124 | an expectation with an exception message is not counted, so passed is below total |
| `Report.ColumnOf` | validate_dataset.py:133 | the Column cell is `kwargs["column"]` when present and empty otherwise, a missing `kwargs` counting as `{}` |
| `Report.RecordOf` | validate_dataset.py:128-135 | the record of an expectation exists exactly when its latest run's value can be processed, and then carries that value, the run's status, the column, the expectation type and the documentation; otherwise it is the processing error |
| `Report.Records` | validate_dataset.py:118-136 | on success there is one record per expectation, record i built from expectation i; on failure the error is that of the first expectation that cannot be processed, all before it being processable |
| `Report.RecordsKeepFirstError` | validate_dataset.py:131 | once processing has raised, later expectations do not change the outcome |
| `Report.CollectResults` | validate_dataset.py:115-136 | the loop returns exactly the records (or the first error) and, on success, the pass count, which is at most the total |
| `Report.PyStr` | validate_dataset.py:143 | a missing expectation type or documentation appears as `None` in the f-string, a present one as itself |
| `Report.RowText` | validate_dataset.py:143 | when no cell holds a `\|`, splitting a row on `\|` gives back exactly its cells: column, expectation type, icon, value and documentation, each padded by one space, between two empty ends |
| `Report.RowTextIsFString` | validate_dataset.py:143 | the row is the f-string `\| {column} \| {expectation_type} \| {success} \| {result_value} \| {documentation} \|` |
| `Report.TableRows` | validate_dataset.py:142-145 | `table_rows` has one row per record, row i rendered from record i |
| `Report.RowsFollowExpectations` | validate_dataset.py:128-145 | there is one row per expectation; row i is built from expectation i, its Column cell and status are that expectation's |
| `Report.SummaryIcon` | validate_dataset.py:147 | the overall icon is the pass icon exactly when passed equals total, the fail icon otherwise |
| `Report.SummaryText` | validate_dataset.py:148 | the summary starts with `Validation Results — `, the overall icon and a space, and holds no newline |
| `Report.SummaryTextDeterminesCounts` | validate_dataset.py:148 | two summaries are equal only when their pass counts and totals are equal, so the text determines both counts |
| `Report.SummaryLine` | validate_dataset.py:148 | the `<summary>` line holds no newline |
| `Report.DetailsBlock` | validate_dataset.py:141-149 | with at least one row and no newline inside any row, the block's lines are exactly `<details>`, the summary line, `<br/>`, the two header lines, the rows in order, and `</details>` |
| `Report.OverviewRow` | validate_dataset.py:158 | when no field holds a `\|`, splitting the overview row on `\|` gives back engine, datasource name, database, dataset name and run time between two empty ends |
| `Report.OverviewRowIsFString` | validate_dataset.py:158 | the overview row is the f-string `\|{engine}\|{datasource_name}\|{database}\|{dataset_name}\|{run_time}\|` |
| `Report.OverviewTable` | validate_dataset.py:157-159 | when the overview row holds no newline, the overview table has exactly three lines: the titles, the rule, and the row |
| `Report.Markdown` | validate_dataset.py:161 | when the overview row holds no newline, the comment's lines are the three overview lines, one blank line, then exactly the lines of the details block |
| `Report.BuildReport` | validate_dataset.py:115-161 | the report is produced exactly when every expectation's value can be processed; it is the overview table, a blank line and the details block built from the records, the pass count and the total; otherwise the first processing error is returned |
| `Report.ThreeWithOneError` | validate_dataset.py:116-148 | two passing expectations and one with an exception message give a count of 2 and the summary "Validation Results — ❌ 2 of 3 expectations passed" |
| `Text.NatToString` | validate_dataset.py:148 | a count is rendered as decimal digits without a leading zero |
| `Text.DigitsValueOfNatToString` | validate_dataset.py:148 | reading back a rendered count gives the count |
| `Text.NatToStringInjective` | validate_dataset.py:148 | different counts render to different text |
| `Text.NatToStringPrefixUnique` | validate_dataset.py:148 | a rendered count followed by text that starts with a non-digit can be parsed back uniquely: the count and the text after it are determined |
| `Text.Join` | validate_dataset.py:148-149 | `"\n".join(rows)` of at least one part, none holding the separator, holds exactly one separator fewer than there are parts |
| `Text.SplitJoin` | validate_dataset.py:148-149 | splitting `"\n".join(rows)` on newlines gives the rows back when none of them holds a newline |
| `Poller.FirstTerminal` | validate_dataset.py:53-59 | the index found is that of a SUCCESS/FAILURE/ERROR status with no terminal status before it; with none found, no status is terminal |
| `Poller.Stop` | validate_dataset.py:56-59 | a SUCCESS snapshot returns that very task; FAILURE and ERROR raise with the snapshot's status and result |
| `Poller.LaterStatusesIrrelevant` | validate_dataset.py:53-61 | snapshots after the first terminal one do not affect where polling stops or with what |
| `Poller.RemoteTask.GetTask` | validate_dataset.py:45-49 | each fetch returns the next scripted snapshot and advances the cursor by one |
| `Poller.PollTaskStatus` | validate_dataset.py:52-61 | polling stops at the first terminal status after as many sleeps as its index, fetching nothing after it, and returns the task or the failure; with no terminal status in the script, every snapshot is fetched and slept after |
| `Poller.PendingRunningSuccess` | validate_dataset.py:52-61 | PENDING, RUNNING, SUCCESS has its first terminal status at index 2, which returns the successful task |
| `Poller.PollPendingRunningSuccess` | validate_dataset.py:52-61 | polling a job reporting PENDING, RUNNING, SUCCESS returns the third snapshot after two sleeps and three fetches |
| `Poller.PollRunningError` | validate_dataset.py:52-61 | polling a job reporting RUNNING then ERROR raises with status ERROR and the second snapshot's result after one sleep and two fetches, never fetching the third |

## Left out

- HTTP calls `authenticate`, `get_dataset`, `validate_dataset`, `get_task` and `get_validations` (validate_dataset.py:20-68). They are network I/O. Their results are inputs: the dataset, the expectation list, and the snapshots of `RemoteTask`.
- `post_pr_comment` (validate_dataset.py:101-105) calls the GitHub client library, which is not part of this model. `BuildReport` returns the comment body instead.
- `format_run_time` (validate_dataset.py:89-98) depends on time-zone data and `strftime`. It is the parameter `formatRunTime`.
- `round(x, 5)` and Python's float-to-text conversion (validate_dataset.py:73, 75, 78, 143) are abstract. Values keep the number handed to `round`, and `show` renders it. The model does not distinguish int from float results.
- `time.sleep(5)` (validate_dataset.py:61) is counted as `sleeps`, not performed; its five-second length is not modelled.
- Poller.PollTaskStatus: polls a finite script, so a job that never reaches a terminal status ends as `NoTerminalStatus` where the source waits forever.
- Environment variables read at import time and in `main` (validate_dataset.py:10-15, 164-165) are not modelled.
- An empty expectation list, or an expectation with no history, makes the source crash on `[0]` (validate_dataset.py:119, 155). `BuildReport` requires a non-empty list and `CollectResults` a non-empty history for each expectation.
- Other crashes from malformed API JSON are not modelled. These include a missing `result`, `exception_info`, `exception_message`, `success` or `run_time` key, a `kwargs` of JSON null, and dataset keys that are not strings. So are non-boolean `success` values and non-string column names.
- The `kwargs` entry of each result dict (validate_dataset.py:134) is never displayed and is left out of `Record`.
