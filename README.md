# cpp-task-manager, modelled in Dafny

`ctm` is a small command-line tool for competitive-programming contests. It has
three commands:

- `generate N` creates the C++ files `Task 1.cpp` … `Task N.cpp`.
- `generate-single K` creates one such file.
- `merge` collects the task files into one text file, by default
  `Solution.txt`. Each task appears under a dashed header line with its name.

The model follows ctm.py and utils.py. It represents the Python behaviour the
commands depend on explicitly:

- `str.find`, `endswith`, `replace`, slicing, `str(int)` and `"-" * n`;
- `str.format` with keyword fields and `{{`/`}}` escapes;
- `glob.glob` with literal characters and `[a-b]` classes;
- the `\d+` search of `get_first_number_from_string`.

Modules:

- `Wrappers`: `Option` and `Result`.
- `PyStr`: the string built-ins listed above, with their edge cases. `find`
  gives -1 when nothing is found, a negative slice start counts from the end,
  and a negative repeat count gives "".
- `Utils`: the `Task` record, and `FirstNumber`, which reads the first run of
  digits (`None` where the source raises `IndexError`).
- `StrFormat`: `Format`, the keyword subset of `str.format`. It returns
  `KeyError` or `ValueError` as a `FormatError`. It is tied to an independent
  definition: `Fill`, which works on a list of text and field pieces.
- `Glob`: the pattern matching of `glob.glob` over a directory listing.
- `Templates`: the constants of ctm.py lines 9-30 (templates, prefixes,
  payloads, and the left padding of 2).
- `Generator` and `GeneratorProperties`: `generate` and `generate-single` as
  planners. A planner takes the options and the set of existing paths, and
  returns either the reason the command stops or the (path, content) pairs it
  writes, in write order.
- `Discovery`: the three glob tiers `[1-9]`, `[1-9][0-9]` and
  `[1-9][0-9][0-9]` that `merge` searches with, and the offset at which a
  found name's number starts.
- `Merger`: `merge` in two forms.
  - `MergePlan` is a function that says what the command does.
  - `Merge` is a method whose loops follow the source's own loops and that is
    proved equal to `MergePlan`.
- `MergeProperties`: what `merge` guarantees, stated over `MergePlan`.
  - Early stops do not depend on the listing or the file contents.
  - The missing-task report is exact.
  - The merged text is the tasks' blocks joined by newlines.
  - `--left-padding-length` never changes the layout (the left padding is
    always 2); it matters only to the usage checks.
  - The task-name prefix follows the file template's placeholder.
  - `generate N` followed by `merge`, both with default options, merges tasks
    1 to N and reports none missing.

The file system is passed in as values. For `generate`, the existing paths are
a set. For `merge`, a `Directory` holds three things:

- the names a glob can list, in the order the listing gives them;
- the set of existing paths;
- a function that gives each file's contents.

Some of the modelled behaviour is surprising but matches the code, so the model
keeps it:

- `merge` decides whether to fill the task-name template's `{prefix}` by
  looking at the task-FILE template (ctm.py:312-314).
  - With a file template that lacks `{prefix}`, the default task-name template
    still contains `{prefix}`, so formatting it raises `KeyError` and `merge`
    never produces output (`PrefixUnfilled`, `NoPrefixDefaultNameNeverMerges`).
  - The two name-template checks give the same messages as the file-template
    checks. They are modelled as distinct errors.
- The left padding is always 2, whatever `--left-padding-length` says
  (ctm.py:325, `LeftPaddingIgnored`).
- A centered header uses `int(padding / 2)` dashes on each side, so it comes
  out one character short when the padding is odd (`HeaderCentered`).
- The output file's existence is checked before any task file is looked for
  (`EarlyStops`).
- The number of a found name is the first run of digits from the offset of
  `[1-9]` (ctm.py:353-358), and that run continues into the text after the
  number when that text starts with a digit. With the file template
  `{task_num}0.cpp`, `generate` writes `10.cpp` for task 1, and `merge` reads
  it as task 10 and reports tasks 1 to 9 missing. The lemmas about found
  numbers therefore assume that the text after the number does not start with
  a digit.
- The glob pattern is formatted a second time when the first formatting gave
  an empty string, or was not attempted (ctm.py:339-346). The retry uses the
  same arguments, so it never changes the pattern (`GlobPatternOnce`).

## Model

| member | source | states |
|---|---|---|
| PyStr.Find | ctm.py:293 | -1 exactly when the substring occurs nowhere; otherwise the lowest index at which it occurs |
| PyStr.WithExtension | ctm.py:327-328 | the extension is appended exactly when the name lacks it and appending is not switched off; otherwise the name is unchanged; without the switch the result always ends with the extension |
| PyStr.ReplaceNotFound | ctm.py:349-350 | `replace` leaves a text that does not contain the pattern unchanged |
| PyStr.Replace | ctm.py:349-350 | `str.replace`, every occurrence left to right; stated by `ReplaceNotFound` and `Discovery.ReplaceFramed` (also used at ctm.py:376) |
| PyStr.SliceFrom | ctm.py:358 | `name[start:]` is the suffix of the name from Python's normalised start: a start in range is kept, a negative start counts from the end and is clamped at 0, and a start past the end gives "" |
| PyStr.Dashes | ctm.py:407 | `"-" * n` is n dashes, and empty for n <= 0 |
| PyStr.IntToString | ctm.py:123 | `str(i)` for i >= 0 is a numeral without leading zeros whose value is i; for i < 0 it is '-' followed by such a numeral whose value is -i |
| PyStr.NatToStringCanonical | ctm.py:400 | `str(n)` is a numeral without leading zeros whose value is n, and it does not start with '0' when n > 0 |
| PyStr.CanonicalRoundTrip | utils.py:11 | printing the value of a numeral that has no leading zeros gives back the same numeral |
| PyStr.NatToStringWidth | ctm.py:347-351 | `str(n)` has 1, 2 or 3 digits exactly when n is below 10, in 10..99, or in 100..999 |
| Utils.RunLength | utils.py:10 | the digit run at the front of a text is maximal: all digits, followed by a non-digit or the end |
| Utils.FirstNumber | utils.py:9-11 | `get_first_number_from_string`; its meaning is stated by `FirstNumberNone` and `FirstNumberOfRun` |
| Utils.FirstNumberNone | utils.py:10-11 | there is no first number (the source raises `IndexError`) exactly when the text holds no digit |
| Utils.FirstNumberOfRun | utils.py:10-11 | the number read is the value of the leftmost maximal digit run: non-digits before it and whatever follows it do not matter |
| Utils.LeadingNumberRoundTrip | utils.py:10-11 | reading `str(n)` followed by a non-digit gives back n |
| StrFormat.FormatSource | ctm.py:98 | formatting the source text of a list of text and field pieces equals filling those pieces directly: each field is replaced by its argument, and the first field without an argument raises `KeyError` |
| StrFormat.Format | ctm.py:98 | `str.format` with keyword arguments; its meaning is stated by `FormatSource`, which ties it to `Fill` |
| StrFormat.FormatField | ctm.py:400 | a leading `{name}` is replaced by its argument, or raises `KeyError(name)` when there is none |
| StrFormat.FormatEscapedText | ctm.py:123 | a text whose braces are doubled formats to the text itself, whatever the arguments |
| StrFormat.FormatOneField | ctm.py:400 | a template of the form text, `{name}`, text formats to the texts around the argument |
| StrFormat.FormatTwoFields | ctm.py:98 | a template with two fields formats to both arguments in place, with the texts between them |
| StrFormat.FormatNonEmpty | ctm.py:182-187 | a non-empty template formatted with non-empty arguments never gives "" |
| Glob.Glob | ctm.py:348 | the glob keeps each listed name that matches, as often as it is listed, and no other name |
| Glob.GlobAppend | ctm.py:348 | the glob of two listings put together is the glob of the first followed by the glob of the second, so matches keep their listing order |
| Glob.GlobOne | ctm.py:348 | a single listed name is kept exactly when it matches |
| Glob.MatchesLiteral | ctm.py:348 | a pattern without '[' matches only itself |
| Glob.MatchesLiteralPrefix | ctm.py:348 | plain text at the front of a pattern must be matched character for character |
| Glob.Compile | ctm.py:348 | the pattern as one atom per character, `[a-b]` as a range; stated through `MatchesLiteral`, `MatchesLiteralPrefix` and `Discovery.MatchesTier` |
| Glob.Matches | ctm.py:348 | `fnmatch` for the modelled patterns; stated by `MatchesLiteral`, `MatchesLiteralPrefix` and `Discovery.MatchesTier` |
| Templates.PrefixOrDefault | ctm.py:94-96 | a given prefix is used as is, and a missing one becomes a non-empty default ("Task") |
| Templates.PayloadEscapes | ctm.py:9-19 | each payload constant is its program text with the braces doubled |
| Templates.PayloadFormats | ctm.py:123 | formatting a payload gives its program text, whatever the task number |
| Templates.ProgramIncludesIostream | ctm.py:114-119 | the program starts with `#include <iostream>` exactly when `--include-iostream` is set, and without it the program holds that line nowhere |
| Generator.Validate | ctm.py:78-89 | a template without `{task_num}` is refused; a prefix without a `{prefix}` placeholder is refused; otherwise the options pass, in both directions |
| Generator.PlannedNames | ctm.py:90-105 | the names `generate` plans: when the range formats, one name per task of 1..N (none for N < 1) |
| Generator.SingleName | ctm.py:176-187 | the name `generate-single` resolves; `GenerateAgreesWithSingle` ties it to `generate`'s names and `NameNonEmpty` to its fallback |
| Generator.FormatNames | ctm.py:97-105 | the comprehension over `range(lo, hi + 1)` gives one name per number, in order, each the formatting of the template for its number |
| Generator.FirstExisting | ctm.py:106-111 | no clash exactly when no planned name exists; a reported clash is the first planned name, in order, that exists |
| Generator.WithPayload | ctm.py:120-123 | one file per name, in order, each holding the payload formatted with its 1-based position |
| Generator.Generate | ctm.py:70-124 | both usage errors come before any disk check; `AlreadyExists` only without `--force`, naming the first planned file that exists; a successful run writes max(N, 0) files, none of which exists unless forced |
| Generator.GenerateSingle | ctm.py:156-201 | the same usage errors; `AlreadyExists` only without `--force`, naming the file the template resolves to; writes exactly one file, under that name, which does not exist unless forced |
| GeneratorProperties.NameNonEmpty | ctm.py:182-187 | a name formatted from a non-empty template is never "", so `generate-single`'s `if not task_file_name` fallback after the prefix branch fires only for an empty template |
| GeneratorProperties.GenerateAgreesWithSingle | ctm.py:94-105 | the i-th file of `generate` has the name `generate-single` gives task i + 1 |
| GeneratorProperties.GenerateContents | ctm.py:114-123 | every file `generate` writes holds the program text of the chosen payload |
| GeneratorProperties.GenerateSingleContents | ctm.py:193-200 | the file `generate-single` writes holds the program text of the chosen payload |
| GeneratorProperties.FormatNamesOk | ctm.py:97-100 | the comprehension yields a list when every number of the range formats |
| GeneratorProperties.WithPayloadOk | ctm.py:121-123 | formatting the payload never fails |
| GeneratorProperties.DefaultNameFormats | ctm.py:21-22 | the default template with the default prefix names task n `Task n.cpp` |
| GeneratorProperties.DefaultFileNames | ctm.py:97-100 | the n default names, `Task 1.cpp` to `Task n.cpp`, in order |
| GeneratorProperties.DefaultPlan | ctm.py:90-105 | with the default options, `generate n` plans exactly those names |
| GeneratorProperties.GenerateDefaults | ctm.py:70-124 | `generate n` with the defaults and none of the files present writes `Task i.cpp` holding the plain program, for i = 1..n in order |
| Discovery.NumberStartFramed | ctm.py:353 | for a pattern L + `[1-9]` + R with no other bracket, the number starts at offset \|L\| |
| Discovery.Discover | ctm.py:347-351 | the three tiers' globs, each in listing order: only listed names, at most three times the listing; exactly which are found is stated by `DiscoverCount` |
| Discovery.NumberStart | ctm.py:353 | `pattern.find('[1-9]')`; for the patterns merged, `NumberStartFramed` gives its value |
| Discovery.ReplaceFramed | ctm.py:349-350 | replacing `[1-9]` in such a pattern replaces exactly that class |
| Discovery.MatchesTier | ctm.py:347-351 | for L and R without '[', '*' or '?', the w-th tier matches a name exactly when the name is L, then w digits not starting with 0, then R |
| Discovery.TierPatterns | ctm.py:349-350 | the two replaced patterns are the two-digit and three-digit tiers |
| Discovery.DiscoverCount | ctm.py:347-351 | for such L and R, a name is found as often as it is listed when it is L + a positive numeral of at most three digits + R, and never otherwise |
| Discovery.NumeralTier | ctm.py:347-351 | L + `str(n)` + R is in tier w exactly when n >= 1 and `str(n)` has w digits |
| Discovery.DiscoverTaskFile | ctm.py:347-351 | every listed L + `str(n)` + R with 1 <= n <= 999 is found, as often as it is listed |
| Discovery.FoundNameNumber | ctm.py:353-358 | when R is empty or does not start with a digit, the number read from a found name at the number offset is its own n, with 1 <= n <= 999 and name == L + `str(n)` + R |
| Merger.Validate | ctm.py:293-325 | each of the five usage errors is returned exactly under its condition, tested in source order (the second prefix check looks at the file template); the options pass exactly when none applies |
| Merger.OutputName | ctm.py:327-328 | the output file name with `.txt` added as needed; stated by `WithExtension` |
| Merger.GlobPattern | ctm.py:332-346 | the glob pattern `merge` searches with; stated by `GlobPatternOnce` |
| Merger.GlobPatternOnce | ctm.py:332-346 | the glob pattern is the file template (with `.cpp` added as needed) formatted once with the prefix, defaulted to "Task" only when the template has `{prefix}` and none was given, and `[1-9]` for the number: the second formatting repeats the first |
| Merger.CompiledNameTemplate | ctm.py:389-396 | the name template with the prefix filled in, decided by the file template; stated by `PrefixFilled` and `PrefixUnfilled` |
| Merger.CollectTasks | ctm.py:355-360 | the tasks of the found names; stated by `CollectTasksOk` and `CollectTasksErr` |
| Merger.CollectTasksOk | ctm.py:355-360 | collection succeeds exactly when every found name holds a number; it then gives one task per name, in order, with that name and number |
| Merger.CollectTasksErr | ctm.py:357-358 | a failure names the first found name that holds no number |
| Merger.MaxOf | ctm.py:363 | `max` is one of the numbers and at least every other |
| Merger.MissingUpToExact | ctm.py:365-369 | a number is missing exactly when it lies in 1..max and no task has it; the list is strictly increasing |
| Merger.MissingUpTo | ctm.py:365-369 | the numbers 1..last no task has; stated by `MissingUpToExact` |
| Merger.MissingNamesFramed | ctm.py:374-377 | for a pattern L + `[1-9]` + R without other brackets, the report names missing task m by the file L + `str(m)` + R |
| Merger.TruncHalf | ctm.py:406 | `int(a / 2)` rounds toward zero for negative and non-negative a |
| Merger.HeaderPlain | ctm.py:413-414 | without padding the header is the task name alone |
| Merger.Header | ctm.py:402-414 | the header line of a task; stated by `HeaderPlain`, `HeaderCentered` and `HeaderLeftAligned` |
| Merger.HeaderCentered | ctm.py:405-408 | a centered header is the name between two equal runs of dashes; when the name fits, it is one short of the line length exactly when the padding is odd |
| Merger.HeaderLeftAligned | ctm.py:409-412 | a left-aligned header is two dashes, the name, then dashes up to the line length, or to \|name\| + 2 when longer |
| Merger.BottomPaddingShape | ctm.py:418-420 | the bottom padding is a line of max(line length, 0) dashes when padding is on, and empty otherwise |
| Merger.BottomPadding | ctm.py:418-420 | the bottom padding line; stated by `BottomPaddingShape` |
| Merger.Block | ctm.py:401-420 | the text of one task; stated by `TaskBlock` |
| Merger.TaskName | ctm.py:400 | a task's name from the compiled template; stated by `DefaultsTaskName` and `PrefixFieldFails` |
| Merger.ReadTasks | ctm.py:355-360 | the loop over the found names gives exactly the collected tasks, or stops at the first name without a number |
| Merger.FindMissing | ctm.py:365-369 | the loop over 1..last gives exactly the missing numbers |
| Merger.TaskBlock | ctm.py:401-420 | the text appended for one task is its header, a newline, the file's text and the bottom padding |
| Merger.RenderTasks | ctm.py:397-423 | the loop gives exactly the rendering of the tasks, or the first task-name formatting error |
| Merger.RenderStop | ctm.py:400 | a task whose name cannot be formatted, after tasks that rendered, ends the whole rendering with that error |
| Merger.Render | ctm.py:397-423 | the merged text of the tasks; stated by `RenderJoin` and `RenderFirstError` |
| Merger.MergePlan | ctm.py:293-425 | what `merge` does; stated by the `MergeProperties` lemmas and, step by step, by `Merge` |
| Merger.MergeFound | ctm.py:361-425 | what `merge` does once the tasks are found; stated by `SameMerge` and `MergedLayout` |
| Merger.Merge | ctm.py:293-425 | the command step by step yields exactly the outcome of the merge plan |
| MergeProperties.RenderJoin | ctm.py:397-423 | rendering succeeds exactly when every task name formats, and then gives the blocks in found order, separated by single newlines, with none after the last |
| MergeProperties.RenderFirstError | ctm.py:400 | a rendering error is the error of the first task whose name cannot be formatted |
| MergeProperties.EarlyStops | ctm.py:293-331 | a usage error or an existing output without `--force` stops the command before the task files are looked at; the outcome does not depend on the listing or the contents |
| MergeProperties.NothingToMerge | ctm.py:347-362 | for L and R without '[', '*' or '?', "no files to merge" exactly when no listed name has the shape L + a positive numeral of 1-3 digits + R |
| MergeProperties.FoundEmptyStops | ctm.py:355-362 | past the early checks and with a pattern, "There are no files to merge" is the outcome exactly when the three tiers find nothing |
| MergeProperties.FoundNothing | ctm.py:347-351 | the three tiers find nothing exactly when no listed name is a task file name |
| MergeProperties.MissingReport | ctm.py:363-379 | a missing-tasks stop happens only without `--ignore-missing-tasks`; it lists exactly the numbers in 1..max that were not found, in increasing order, each with its expected file name |
| MergeProperties.MissingReportFramed | ctm.py:370-377 | for a pattern L + `[1-9]` + R, each missing task m is reported by the file name L + `str(m)` + R |
| MergeProperties.MergedLayout | ctm.py:327-425 | a successful merge writes to the output name (which does not exist unless forced); it has one task per found name, in order, each numbered from its name; the text is the joined blocks of those tasks; the ignored numbers are exactly the missing ones, and none without `--ignore-missing-tasks` |
| MergeProperties.LayoutIgnoresLeftPadding | ctm.py:409-411 | a task's block is the same whatever `--left-padding-length` says |
| MergeProperties.LeftPaddingIgnored | ctm.py:320-325 | with padding on and no centering, setting `--left-padding-length` to any value gives the same outcome as leaving it unset |
| MergeProperties.SamePlan | ctm.py:293-425 | two option sets with the same checks, output, pattern, compiled name template and block layout merge identically |
| MergeProperties.SameMerge | ctm.py:361-425 | once the tasks are found, the outcome depends only on the missing-task switch, the compiled name template and the block layout |
| MergeProperties.PrefixFilled | ctm.py:389-396 | with `{prefix}` in the file template, a name template H + `{prefix}` + T (plain H, T) compiles to H + the prefix + T, the prefix being "Task" when none is given |
| MergeProperties.PrefixUnfilled | ctm.py:312-314 | without `{prefix}` in the file template, the name template is used as given; if it is H + `{prefix}` + T, every task name raises `KeyError('prefix')` and `merge` never writes output |
| MergeProperties.PrefixFieldFails | ctm.py:400 | a `{prefix}` field after plain text, formatted without a prefix argument, raises `KeyError('prefix')` |
| MergeProperties.DefaultTaskNameNeedsPrefix | ctm.py:27 | the default task-name template formatted with only a number raises `KeyError('prefix')` |
| MergeProperties.NoPrefixDefaultNameNeverMerges | ctm.py:312-314 | with a file template lacking `{prefix}` and the default task-name template, `merge` never writes output (an instance of `PrefixUnfilled`) |
| MergeProperties.DefaultsValid | ctm.py:293-325 | the default options pass every check |
| MergeProperties.DefaultsPattern | ctm.py:332-346 | with the defaults the glob pattern is `Task [1-9].cpp` |
| MergeProperties.DefaultsCompiled | ctm.py:389-396 | with the defaults the task-name template compiles to `Task #{task_num}` |
| MergeProperties.DefaultsTaskName | ctm.py:400 | the compiled default names task n `Task #n` |
| MergeProperties.FoundUpTo | ctm.py:347-358 | when R is empty or does not start with a digit: in a listing that holds the files L + `str(k)` + R of tasks 1..n, in any order and beside other files, and no other task-shaped name, every found name is the file of a task k in 1..n and reads as k |
| MergeProperties.FoundTasksUpTo | ctm.py:347-360 | in such a listing, with R not starting with a digit and n <= 999, collection succeeds and the found numbers are exactly 1..n |
| MergeProperties.MergeUpTo | ctm.py:347-425 | with valid options, an output that does not exist or is forced, a compiled name template under which every task name formats, and a pattern L + `[1-9]` + R whose R does not start with a digit, merging such a listing (1 <= n <= 999) succeeds, writes the output name and warns about no missing task |
| MergeProperties.NoneMissing | ctm.py:363-369 | numbers that are exactly 1..n have maximum n and nothing missing |
| MergeProperties.GenerateThenMerge | ctm.py:347-425 | in a directory holding the files `generate n` writes with the defaults (1 <= n <= 999), in any order, beside any files that are not other `Task <number>.cpp` names, `merge` with the defaults finds exactly tasks 1..n and writes `Solution.txt`, with nothing missing |

## Left out

- Command-line parsing (`click` options, types and defaults) is left out. The
  options arrive as values. `Merger.Defaults` and the default-argument lemmas
  stand for the declared defaults.
- The model has no `click.echo` messages or progress bars. Only the outcome is
  kept: which error stopped the command, or what is written.
- The commands' file reads, writes and `os.path.exists` calls are inputs: the
  existing-paths set, the directory listing and a contents function. The model
  does not write files, so it does not model a file changing while the command
  runs, or failing to open.
- `generate` writes its files one after another. The model returns them as an
  ordered list of (path, content) pairs, and a clash is checked against the
  paths that existed before the command started, as in the source.
- `glob.glob` is modelled only for literal characters and `[a-b]` classes over
  a given listing. The model leaves out these parts of it:
  - the other wildcards (`*`, `?`, negated classes);
  - the case folding of `os.path.normcase`, which `fnmatch` applies on
    Windows; the model matches case-sensitively;
  - directory separators and the special handling of hidden files;
  - the order in which the operating system lists entries, which is taken as
    given.
- Text-mode file access is outside the model. `Directory.read` stands for
  what text-mode `open(...).read()` returns (ctm.py:402, 416), that is the
  file decoded with the platform encoding and with universal newlines. The
  newline translation that text-mode `write` applies (ctm.py:122-123,
  199-200, 424-425) is not modelled: the model gives the text written.
- `\d` in Python matches every Unicode decimal digit; the model treats only
  '0'-'9' as digits.
- `str.format` is modelled for named fields and `{{`/`}}` escapes. The model
  leaves out these parts of it:
  - conversions and format specs (`{x!r}`, `{x:>4}`), indexing and attribute
    access;
  - the distinct exception for positional fields such as `{}` and `{0}`.
    Python raises `IndexError` for them, because no positional argument is
    passed. The model reports them as a missing key, which is also a
    `FormatFailed` outcome.
- Exceptions become outcomes:
  - `KeyError` and `ValueError` become `FormatFailed`;
  - the `IndexError` of a found name without a digit becomes `NoNumber`;
  - `click.UsageError` becomes `Usage`.
- `int(padding / 2)` goes through a float in Python. The model uses the exact
  truncated half, which agrees with the float computation for every padding
  of magnitude at most 2^53. Beyond that the rounded float quotient can differ from it.
- The lemmas about patterns L + `[1-9]` + R assume L and R hold no '[', '*'
  or '?', so that the model's glob and `fnmatch` both match them literally.
- MergeProperties.GenerateThenMerge: stated only for 1 <= N <= 999. A generated
  file numbered 1000 or more matches none of the three glob tiers, so `merge`
  does not find it and reports nothing about it.
- Generator.Generate: its contract does not state the file contents. The
  contents are given by the lemmas `GenerateContents` (program text) and
  `GenerateAgreesWithSingle` (names).
- utils.py `does_file_exist` is the membership test `in existing`. It has no
  member of its own.
- `cli`, the group that only dispatches to the commands, is not part of this
  model.
