# Ray mutation harness: a Dafny model of its bookkeeping core

Ray drives the `cosmic-ray` mutation-testing tool over many generated
code-and-test samples. The repository's own logic is what happens between
the I/O calls, and that is what this project models:

* **Task materialisation** (`baseline_init`, `materialise.dfy`). Each sample
  gets a random 16-letter id. It is written out as a test module
  `test_<id>.py`: the import preamble, the code, a separator of 100 `#`,
  then each test followed by a blank line. A TOML configuration `<id>.toml`
  is written beside it.
* **Baseline filter and task registry** (`baseline_run` / `mutation_run`,
  `baseline.dfy`). Task ids are taken from the `.toml` names. Each task gets
  `cosmic-ray init` and, only if that succeeds, `cosmic-ray baseline`; it is
  admitted when both succeed. The admitted ids are written one per line to
  `data/correct_tasks`. `mutation_run` reads them back with `strip()` and
  starts one `cosmic-ray exec` per task.
* **Mutation-detail join** (`main` of generate_mutation_details.py,
  `mutation_details.dfy`). For every `task_<id>` directory that holds both
  the session store and `mod.py`, the mutation specs are left-joined with a
  job-id → work-result map in which the last row wins. A job with no work
  result gets status `"pending"` and diff `"No diff"`.

Supporting modules:

* `text.dfy` models the Python `str` operations used: `startswith`,
  `endswith`, `split`, `strip` and `str(int)`. It also holds a reader for
  decimal integers, added so that the configuration text can be read back
  in a round-trip proof; the source itself never parses an integer.
* `filtering.dfy` holds the shared "walk a list, keep some elements, append
  one value per kept element" pattern and its characterisation by the kept
  positions.
* `wrappers.dfy` defines `Option` and `Result`.

Inputs replace the outside world:

* The directory listing is a list of names (or of `DirEntry` records).
* The success of each subprocess is a boolean per task position.
* The random generator is the stream of indices `random.choices` draws.
* The sqlite tables are lists of rows. A NULL column is `None`.
* Outputs are values: the files written, the subprocess calls started, the
  registry text, and the records.

The model follows the code as written. In particular:

* `cosmic-ray baseline` runs without a timeout (main.py:93).
* `mutation_run` does not query `cr-report` before `exec`. That step is
  commented out (main.py:107-111).
* Tests are written as given, with no renaming pass.
* The admission rate divides by the number of listed tasks, so a listing
  with no `.toml` name (main.py:80) ends in a ZeroDivisionError. This
  happens after the registry has been written (main.py:100-103).

## Model

| member | source | states |
|---|---|---|
| Text.StartsWith | generate_mutation_details.py:9 | `s.startswith(p)` holds exactly when `s` is at least as long as `p` and agrees with it at every position of `p`. |
| Text.EndsWith | main.py:80 | `s.endswith(x)` holds exactly when `s` is at least as long as `x` and its last `len(x)` characters are those of `x`. |
| Text.Split | main.py:81 | `split(c)` has at least one field. The first field is the longest prefix without `c`, followed by `c` or by the end. There is one field exactly when `c` does not occur. |
| Text.SplitAfterFirst | generate_mutation_details.py:12 | The fields after the first separator are the split of the text after it. |
| Text.Strip | main.py:122 | `strip()` is a slice of the line with only whitespace cut from both ends, and it neither starts nor ends with whitespace (Python's `isspace` set). |
| Text.StripLine | main.py:122 | Stripping an id without whitespace plus its newline gives the id back. |
| Text.Repeat | main.py:68 | `'#' * 100` has 100 characters, all `#`. |
| Text.NatToString | main.py:73 | `str(n)` for n ≥ 0 is a non-empty run of decimal digits. It starts with '0' exactly when n is 0, and it has no leading zero. |
| Text.IntToString | main.py:73 | `str(timeout)` is in canonical form. It has no newline or '.', it starts with '-' exactly when the value is negative, and then come the digits of the magnitude with no leading zero (never `-0` or `007`). |
| Text.IntToStringRoundTrip | main.py:18 | The formatted timeout parses back to the same integer, negative values included. |
| Filtering.FilterMapSpec | main.py:79-81 | The append-if loop yields one value per kept element, in the order of the kept positions. |
| Materialise.AsciiLetter | main.py:44 | Each draw maps to a character of `string.ascii_letters`. |
| Materialise.AlphabeticUuid | main.py:43-44 | The id has exactly `length` characters, each an ASCII letter. |
| Materialise.EveryLetterIdIsDrawable | main.py:43-44 | Conversely, every string of ASCII letters is produced by some draw sequence. |
| Materialise.CodeImport | main.py:26-42 | The `code_import` preamble opens with a blank line and ends with a newline, so the sample's code starts on a line of its own. Its text is the import block of the source, verbatim. |
| Materialise.Separator | main.py:68 | The separator is `"\n\n"`, 100 `#` and `"\n\n"` (104 characters). |
| Materialise.TestBlock | main.py:65-67 | `test_cases` is empty exactly when there are no tests, and it has at least two characters (the blank line) per test. TestBlockLayout places each test. |
| Materialise.TestBlockLayout | main.py:65-67 | Test i sits in `test_cases` right after the tests before it, followed by a blank line. |
| Materialise.TestModuleText | main.py:62-69 | The test-module text starts with preamble ++ code ++ separator, and it is at least that long plus two characters per test. TestModuleLayout gives its full layout. |
| Materialise.TestModuleLayout | main.py:62-69 | The test module is preamble ++ code ++ separator ++ each test followed by `"\n\n"`, in listed order. This holds for any preamble. |
| Materialise.BuildTestCases | main.py:65-67 | The `+=` loop builds the concatenation of `test + "\n\n"` over the tests. |
| Materialise.WriteTestModule | main.py:62-69 | The text written to `test_<id>.py` is the test-module text with the `code_import` preamble of main.py:26-41. |
| Materialise.ConfigText | main.py:15-24 | `toml_template.format(...)` (main.py:73) starts with the `[cosmic-ray]` header and `module-path = "data/mods/test_<id>.py`. ConfigRoundTrip states what the whole text reads back as. |
| Materialise.ConfigRoundTrip | main.py:15-24 | For an id without `"` (every drawn id is one), the configuration reads back as module path `data/mods/test_<id>.py`, the given timeout and test command `pytest data/mods/test_<id>.py`: the same id in both paths. |
| Materialise.PrefixSlice | main.py:55 | `lines[:n]` has min(n, len) lines for n ≥ 0 and drops −n lines from the end for n < 0. It is always a prefix. |
| Materialise.TestModuleName | main.py:62 | `test_<id>.py` is 8 characters longer than the id: `test_`, then the id, then `.py`. |
| Materialise.ConfigName | main.py:72 | `<id>.toml` is the id followed by `.toml`. |
| Materialise.Materialised | main.py:57-73 | The files written for the processed samples are exactly two per sample. MaterialisedAt places each one. |
| Materialise.MaterialisedAt | main.py:57-73 | Sample i produces file 2i, `test_<id>.py` with the test-module text, and file 2i+1, `<id>.toml` with the configuration text. |
| Materialise.WriteTaskFiles | main.py:62-73 | One loop iteration writes the test module, then the configuration. |
| Materialise.BaselineInit | main.py:55-73 | At most `num_samples` samples are processed, in order. Sample i gets the id from draws 16i..16i+15, and the files written are exactly two per processed sample. |
| Baseline.ConfigPath | main.py:86 | The configuration every `cosmic-ray` call of a task names is `data/mods/` followed by the `<id>.toml` name `baseline_init` writes. |
| Baseline.StorePath | main.py:86 | The session store of a task sits beside its configuration: the same `data/mods/<id>` stem, with `.sqlite` in place of `.toml`. |
| Baseline.TaskId | main.py:81 | `name.split('.')[0]` is the prefix of the name before its first '.', or the whole name. |
| Baseline.TaskIds | main.py:79-81 | `total_tasks` never has more ids than the listing has names. |
| Baseline.TaskIdsSpec | main.py:79-81 | `total_tasks` has one id per `.toml` name, in listing order, and nothing for other names. |
| Baseline.CollectTasks | main.py:79-81 | The first loop of `baseline_run` computes the task ids of the listing. |
| Baseline.ConfigNameGivesId | main.py:80-81 | `<id>.toml` is selected and yields `id` when the id has no '.'. `test_<id>.py` is not selected. |
| Baseline.MaterialisedNames | main.py:62-72 | The files `baseline_init` writes are named `test_<id>.py`, `<id>.toml` for each id in turn. |
| Baseline.ListingGivesIds | main.py:79-81 | Listing those files in writing order gives back exactly the ids `baseline_init` drew. |
| Baseline.AdmissionSpec | main.py:83-97 | `correct_tasks` is the order-preserving subsequence of `total_tasks` at the positions where init and then baseline succeeded. Every such task is admitted. |
| Baseline.Admitted | main.py:83-97 | `correct_tasks` never has more ids than `total_tasks`. |
| Baseline.TaskCalls | main.py:85-97 | A task gets `init <toml> <sqlite>`, followed by `baseline <toml>` exactly when init succeeded. |
| Baseline.CallLog | main.py:83-97 | The loop starts at least one subprocess per task. CallLogAt states the order. |
| Baseline.CallLogAppend | main.py:83-97 | The calls for consecutive runs of tasks are the calls of the first run followed by those of the second. |
| Baseline.CallLogSnoc | main.py:83-97 | Adding a task to the end of the run adds that task's calls to the end of the log. |
| Baseline.CallLogAt | main.py:83-97 | Tasks are handled one at a time. Task i's block (`init`, then `baseline` only if init succeeded) comes after every call of the tasks before it and before every call of the tasks after it. |
| Baseline.InitCallsSpec | main.py:85-89 | The `init` calls of the run are one per task, in task order. |
| Baseline.BaselineCallsSpec | main.py:85-97 | The `baseline` calls of the run are those of the tasks whose init succeeded, in order: an init failure skips the baseline. |
| Baseline.FilterBaseline | main.py:83-97 | The second loop of `baseline_run` yields the admitted tasks and the subprocess calls in order. |
| Baseline.ConversionRate | main.py:103 | The rate is an error exactly when no task was listed. Otherwise, times the total it gives the admitted count, and it lies in [0, 1]. |
| Baseline.RegistryText | main.py:100-102 | The registry text is empty exactly when no task was admitted. Otherwise it ends with a newline. RegistryRoundTrip states what it reads back as. |
| Baseline.WriteRegistry | main.py:100-102 | The registry text is each admitted id followed by `'\n'`, in order. |
| Baseline.Translate | main.py:120-121 | Text-mode reading leaves no `'\r'`, and it leaves text without `'\r'` unchanged. |
| Baseline.TranslatePrefix | main.py:120-121 | Text before the first `'\r'` is copied as it is, whatever follows it. |
| Baseline.TranslateCrLf | main.py:120-121 | `"\r\n"` is read as a single `'\n'`, and the rest is translated in turn. |
| Baseline.TranslateLoneCr | main.py:120-121 | A `'\r'` not followed by `'\n'` is read as a `'\n'`, and the rest is translated in turn. |
| Baseline.ReadLines | main.py:121 | `readlines()` cuts the text after each `'\n'`: the lines spell the text, each is non-empty, and only the last may lack a final newline. |
| Baseline.ReadRegistry | main.py:119-122 | The read loop yields the stripped lines of the registry, in file order. |
| Baseline.ReadLinesOfRegistry | main.py:100-121 | When no id holds a newline, reading back the registry gives one line `id + "\n"` per written id. |
| Baseline.RegistryRoundTrip | main.py:100-122 | Writing ids and reading them back with `strip()` gives the same list, as long as no id holds whitespace. |
| Baseline.ExecCalls | main.py:113-116 | One `exec <toml> <sqlite>` per registered task. |
| Baseline.MutationRun | main.py:118-124 | `mutation_run` reads the registry and starts `exec` for every task in it. |
| Baseline.RegistryEntries | main.py:119-122 | There is one entry per line `readlines()` returns, and entry i is line i stripped. |
| Baseline.BaselineRun | main.py:75-103 | `baseline_run` yields the task ids, the admitted tasks, the calls, the registry text and the rate, in that dependency order. |
| Baseline.PipelineRoundTrip | main.py:79-122 | When no `.toml` name in the listing holds whitespace, `mutation_run` reads back exactly the tasks `baseline_run` admitted. The reported rate is then either the division error or a fraction in [0, 1]. |
| MutationDetails.TaskIdOf | generate_mutation_details.py:9-12 | For a `task_` name, `split("_")[1]` exists. It is the text after the prefix up to the next '_' or the end. |
| MutationDetails.WorkResults | generate_mutation_details.py:24-25 | The map has a key for each job id of the rows and for no other. |
| MutationDetails.WorkResultsLastWins | generate_mutation_details.py:25 | A job id maps to the outcome and diff of the last row carrying it. |
| MutationDetails.MutantOf | generate_mutation_details.py:31-43 | The operator and the four span integers are copied. A job in the map takes its outcome and diff as stored, NULL included. An absent job gets `"pending"` / `"No diff"`. |
| MutationDetails.MutantFromRows | generate_mutation_details.py:25-33 | In terms of the rows: with no work row a job is pending with no diff. Otherwise it takes the last matching row's outcome and diff. |
| MutationDetails.Mutants | generate_mutation_details.py:30-43 | There is one mutant per spec row, in row order. |
| MutationDetails.BuildMutants | generate_mutation_details.py:30-43 | The inner loop builds that list of mutants. |
| MutationDetails.RecordOf | generate_mutation_details.py:45-49 | A record carries the task id, the `mod.py` text as `f.read()` returns it (newlines already translated) and the joined mutants. |
| MutationDetails.Details | generate_mutation_details.py:8-49 | `results` never has more records than the listing has names. |
| MutationDetails.DetailsSpec | generate_mutation_details.py:8-49 | There is exactly one record per `task_` directory with both files present, in listing order. Other names and directories missing a file give none. |
| MutationDetails.GenerateDetails | generate_mutation_details.py:6-49 | The outer loop builds those records. |

## Left out

- The `cosmic-ray` subprocesses (main.py:86, 93, 114): each is an input boolean per task, or an output call record. Their effects on the session stores are not modelled.
- `process_map` (main.py:124): the `exec` calls are given as a list in registry order. Parallel dispatch, and hence the actual order of the calls, is not modelled.
- Directory creation and cleanup, and opening, reading and writing files (main.py:48-54, 62, 72, 100, 120; generate_mutation_details.py:13-17, 27-28, 51): files are values, and existence is a flag per directory entry.
- The order `os.listdir` returns: it is an input. `ListingGivesIds` assumes the files are listed in writing order.
- sqlite connections and queries (generate_mutation_details.py:19-24): the query results are input row lists. Column types are taken as text for job ids, operators, outcomes and diffs, and as integers for the span.
- `json.loads` of dataset lines (main.py:59) and `json.dumps` of the result records (generate_mutation_details.py:53): records are Dafny datatypes. A malformed dataset line, which aborts `baseline_init`, is not modelled.
- The distribution of `random.choices` (main.py:44): only the mapping from draws to letters is modelled. Equal ids drawn for two samples, where one sample's files overwrite the other's, are not treated separately.
- Baseline.ConversionRate: the rate is an exact rational. Python's float division and its printed form are not modelled.
- `tqdm` progress bars and `print` logging, including the printed error messages.
- Text.Split: only the one-character separators the source uses are modelled.
