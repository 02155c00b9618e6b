/**
  The `merge` command (ctm.py, lines 204-427): it checks its options, finds the
  task files with three glob tiers, reads each file's task number, refuses to
  go on when numbers are missing, and lays all files out one after another,
  each under a header line with the task's name.

  The file system is a `Directory` value: the names a glob may list (in the
  order the listing returns them), the paths that exist, and the contents of
  each file.
 */
module Merger {
  import opened Wrappers
  import opened PyStr
  import opened StrFormat
  import opened Utils
  import opened Templates
  import opened Discovery
  import Glob

  /** The command's arguments and options. An unset prefix is "". */
  datatype Options = Options(
    outputFileName: string,
    force: bool,
    ignoreInputFileExtensions: bool,
    ignoreOutputFileExtension: bool,
    ignoreMissingTasks: bool,
    noPadding: bool,
    centeredTaskNames: bool,
    noBottomPadding: bool,
    leftPaddingLength: Option<int>,
    lineLength: int,
    taskFileNameTemplate: string,
    taskFileNamePrefix: string,
    taskNameTemplate: string,
    taskNamePrefix: string)

  /** The options `merge` runs with when none is given. */
  const Defaults := Options("Solution.txt", false, false, false, false, false, false, false,
                            None, 100, DefaultTaskFileName, "", DefaultTaskName, "")

  datatype Directory = Directory(listing: seq<string>, existing: set<string>, read: string -> string)

  /** The usage errors, in the order the command tests for them. */
  datatype UsageError =
    | FileTemplateMissingTaskNum
    | FilePrefixWithoutPlaceholder
    | NameTemplateMissingTaskNum
    | NamePrefixWithoutPlaceholder
    | LeftPaddingConflict
    | NoFilesToMerge

  datatype Outcome =
    | Usage(error: UsageError)
    /** The output file exists and `--force` was not given: nothing is written. */
    | OutputExists(name: string)
    /** A template raised `KeyError` or `ValueError` when formatted. */
    | FormatFailed(cause: FormatError)
    /** A found name holds no digit after the number offset: `IndexError`. */
    | NoNumber(filename: string)
    /** Tasks are missing and `--ignore-missing-tasks` was not given: nothing is written. */
    | MissingTasks(missing: seq<nat>, expected: seq<string>)
    /** The text written to `output`, and the missing tasks that were warned about. */
    | Merged(output: string, data: string, ignored: seq<nat>)

  /** Option checks, ctm.py lines 293-325; the second prefix check looks at the FILE template. */
  function Validate(o: Options): (r: Option<UsageError>)
    ensures r == Some(FileTemplateMissingTaskNum) <==> !HasTaskNum(o.taskFileNameTemplate)
    ensures r == Some(FilePrefixWithoutPlaceholder) <==>
      HasTaskNum(o.taskFileNameTemplate) && !HasPrefix(o.taskFileNameTemplate) && o.taskFileNamePrefix != ""
    ensures r == Some(NameTemplateMissingTaskNum) <==>
      HasTaskNum(o.taskFileNameTemplate) && (HasPrefix(o.taskFileNameTemplate) || o.taskFileNamePrefix == "")
      && !HasTaskNum(o.taskNameTemplate)
    ensures r == Some(NamePrefixWithoutPlaceholder) <==>
      HasTaskNum(o.taskFileNameTemplate) && !HasPrefix(o.taskFileNameTemplate)
      && o.taskFileNamePrefix == "" && HasTaskNum(o.taskNameTemplate) && o.taskNamePrefix != ""
    ensures r == None <==>
      HasTaskNum(o.taskFileNameTemplate) && HasTaskNum(o.taskNameTemplate)
      && (HasPrefix(o.taskFileNameTemplate) || (o.taskFileNamePrefix == "" && o.taskNamePrefix == ""))
      && !((o.noPadding || o.centeredTaskNames) && o.leftPaddingLength.Some?)
    ensures r != Some(NoFilesToMerge)
  {
    var withPrefix := HasPrefix(o.taskFileNameTemplate);
    if !HasTaskNum(o.taskFileNameTemplate) then Some(FileTemplateMissingTaskNum)
    else if !withPrefix && o.taskFileNamePrefix != "" then Some(FilePrefixWithoutPlaceholder)
    else if !HasTaskNum(o.taskNameTemplate) then Some(NameTemplateMissingTaskNum)
    else if !withPrefix && o.taskNamePrefix != "" then Some(NamePrefixWithoutPlaceholder)
    else if (o.noPadding || o.centeredTaskNames) && o.leftPaddingLength.Some? then Some(LeftPaddingConflict)
    else None
  }

  /** The output path, ctm.py lines 327-328. */
  function OutputName(o: Options): string {
    WithExtension(o.outputFileName, ".txt", o.ignoreOutputFileExtension)
  }

  /**
    The glob pattern, ctm.py lines 332-346: the file template with ".cpp"
    added as needed, the prefix (or "Task" when the template has a prefix
    placeholder and none was given) and `[1-9]` for the number.
   */
  function GlobPattern(o: Options): Result<string, FormatError> {
    var t := WithExtension(o.taskFileNameTemplate, ".cpp", o.ignoreInputFileExtensions);
    var defaulted := HasPrefix(o.taskFileNameTemplate) && o.taskFileNamePrefix == "";
    var prefix := if defaulted then DefaultTaskFileNamePrefix else o.taskFileNamePrefix;
    var args := map["prefix" := prefix, "task_num" := NumberClass];
    var first := if defaulted then Format(t, args) else Ok("");
    match first
    case Err(e) => Err(e)
    case Ok(p) => if p == "" then Format(t, args) else Ok(p)
  }

  /** The retry formats with the same arguments, so one formatting decides the pattern. */
  lemma GlobPatternOnce(o: Options)
    ensures GlobPattern(o)
         == Format(WithExtension(o.taskFileNameTemplate, ".cpp", o.ignoreInputFileExtensions),
                   map["prefix" := (if HasPrefix(o.taskFileNameTemplate) && o.taskFileNamePrefix == ""
                                    then DefaultTaskFileNamePrefix else o.taskFileNamePrefix),
                       "task_num" := NumberClass])
  {
  }

  function Numbers(tasks: seq<Task>): (ns: seq<nat>)
    ensures |ns| == |tasks|
    ensures forall i :: 0 <= i < |tasks| ==> ns[i] == tasks[i].number
  {
    seq(|tasks|, i requires 0 <= i < |tasks| => tasks[i].number)
  }

  /** `get_first_number_from_string(name[start:])`; None where the source raises `IndexError`. */
  function NumberAt(name: string, start: int): Option<nat> {
    FirstNumber(SliceFrom(name, start))
  }

  /** The extraction `merge` applies to each found name, for a number offset `start`. */
  function NumberReader(start: int): string -> Option<nat> {
    name => NumberAt(name, start)
  }

  /**
    The tasks of the found names, ctm.py lines 355-360, in the order found;
    the first name without a number stops the command.
   */
  function CollectTasks(names: seq<string>, numberOf: string -> Option<nat>): Result<seq<Task>, string>
    decreases |names|
  {
    if names == [] then Ok([])
    else
      var n := |names| - 1;
      match CollectTasks(names[..n], numberOf)
      case Err(e) => Err(e)
      case Ok(tasks) =>
        match numberOf(names[n])
        case None => Err(names[n])
        case Some(k) => Ok(tasks + [Task(names[n], k)])
  }

  /**
    Collecting succeeds exactly when every name has a number, and then gives
    one task per name, in order, with that name's number.
   */
  lemma {:induction false} CollectTasksOk(names: seq<string>, numberOf: string -> Option<nat>)
    ensures CollectTasks(names, numberOf).Ok? <==> forall i :: 0 <= i < |names| ==> numberOf(names[i]).Some?
    ensures CollectTasks(names, numberOf).Ok? ==>
      var tasks := CollectTasks(names, numberOf).value;
      |tasks| == |names| && forall i :: 0 <= i < |names| ==>
        tasks[i].filename == names[i] && numberOf(names[i]) == Some(tasks[i].number)
    decreases |names|
  {
    if names != [] {
      var n := |names| - 1;
      var front := names[..n];
      CollectTasksOk(front, numberOf);
      assert forall i :: 0 <= i < n ==> front[i] == names[i];
      var last := numberOf(names[n]);
      if CollectTasks(front, numberOf).Err? {
        assert CollectTasks(names, numberOf).Err?;
      } else if last.None? {
        assert CollectTasks(names, numberOf) == Err(names[n]);
      } else {
        var tasks := CollectTasks(front, numberOf).value;
        var all := tasks + [Task(names[n], last.value)];
        assert CollectTasks(names, numberOf) == Ok(all);
        forall i | 0 <= i < |names| ensures all[i].filename == names[i] && numberOf(names[i]) == Some(all[i].number) {
          if i < n {
            assert all[i] == tasks[i];
          }
        }
      }
    }
  }

  /** A failure names the first name without a number. */
  lemma {:induction false} CollectTasksErr(names: seq<string>, numberOf: string -> Option<nat>)
    requires CollectTasks(names, numberOf).Err?
    ensures exists i :: (0 <= i < |names| && names[i] == CollectTasks(names, numberOf).error
      && numberOf(names[i]).None? && forall j :: 0 <= j < i ==> numberOf(names[j]).Some?)
    decreases |names|
  {
    var n := |names| - 1;
    assert forall i :: 0 <= i < n ==> names[..n][i] == names[i];
    if CollectTasks(names[..n], numberOf).Err? {
      CollectTasksErr(names[..n], numberOf);
      var i :| 0 <= i < n && names[..n][i] == CollectTasks(names[..n], numberOf).error
        && numberOf(names[..n][i]).None? && (forall j :: 0 <= j < i ==> numberOf(names[..n][j]).Some?);
      assert names[i] == CollectTasks(names, numberOf).error;
    } else {
      CollectTasksOk(names[..n], numberOf);
      assert names[n] == CollectTasks(names, numberOf).error;
    }
  }

  /** `max(task_numbers)`. */
  function MaxOf(ns: seq<nat>): (m: nat)
    requires ns != []
    ensures m in ns
    ensures forall i :: 0 <= i < |ns| ==> ns[i] <= m
  {
    if |ns| == 1 then ns[0]
    else
      var m := MaxOf(ns[1..]);
      assert forall i :: 1 <= i < |ns| ==> ns[i] == ns[1..][i - 1];
      if ns[0] >= m then ns[0] else m
  }

  /** The numbers from 1 to k that no found task has, ctm.py lines 365-369, in increasing order. */
  function MissingUpTo(ns: seq<nat>, k: nat): seq<nat> {
    if k == 0 then [] else MissingUpTo(ns, k - 1) + (if k in ns then [] else [k])
  }

  /** A number is reported missing exactly when it lies in 1..k and no task has it; the report is increasing. */
  lemma {:induction false} MissingUpToExact(ns: seq<nat>, k: nat)
    ensures forall m :: m in MissingUpTo(ns, k) <==> 1 <= m <= k && m !in ns
    ensures forall i, j :: 0 <= i < j < |MissingUpTo(ns, k)| ==> MissingUpTo(ns, k)[i] < MissingUpTo(ns, k)[j]
  {
    if k > 0 {
      MissingUpToExact(ns, k - 1);
      var front := MissingUpTo(ns, k - 1);
      var r := MissingUpTo(ns, k);
      assert r == front + (if k in ns then [] else [k]);
      forall i, j | 0 <= i < j < |r| ensures r[i] < r[j] {
        if j >= |front| {
          assert r[i] == front[i] && front[i] in front;
        }
      }
    }
  }

  /** The file names the error report shows for the missing tasks (ctm.py, lines 374-377). */
  function MissingNames(pattern: string, missing: seq<nat>): (r: seq<string>)
    ensures |r| == |missing|
    ensures forall i :: 0 <= i < |missing| ==> r[i] == Replace(pattern, NumberClass, NatToString(missing[i]))
  {
    seq(|missing|, i requires 0 <= i < |missing| => Replace(pattern, NumberClass, NatToString(missing[i])))
  }

  /**
    For a pattern L + "[1-9]" + R, the reported name of missing task m is
    L + str(m) + R: the file name that task would have.
   */
  lemma MissingNamesFramed(l: string, r: string, missing: seq<nat>)
    requires Glob.NoBracket(l) && Glob.NoBracket(r)
    ensures forall i :: 0 <= i < |missing| ==>
      MissingNames(l + NumberClass + r, missing)[i] == l + NatToString(missing[i]) + r
  {
    forall i | 0 <= i < |missing| {
      ReplaceFramed(l, r, NatToString(missing[i]));
    }
  }

  /**
    The name template with the prefix filled in, ctm.py lines 389-396. Whether
    to fill it is decided by the FILE template's prefix placeholder.
   */
  function CompiledNameTemplate(o: Options): Result<string, FormatError> {
    if HasPrefix(o.taskFileNameTemplate) then
      Format(o.taskNameTemplate,
             map["prefix" := PrefixOrDefault(o.taskNamePrefix), "task_num" := TaskNumPlaceholder])
    else Ok(o.taskNameTemplate)
  }

  /** A task's name, ctm.py line 400. */
  function TaskName(compiled: string, number: nat): Result<string, FormatError> {
    Format(compiled, map["task_num" := NatToString(number)])
  }

  /** `int(a / 2)`: the quotient rounded toward zero. */
  function TruncHalf(a: int): (h: int)
    ensures a >= 0 ==> 0 <= h && 2 * h <= a < 2 * h + 2
    ensures a < 0 ==> h <= 0 && 2 * h - 2 < a <= 2 * h
  {
    if a >= 0 then a / 2 else -((-a) / 2)
  }

  predicate AllDashes(s: string) {
    forall i :: 0 <= i < |s| ==> s[i] == '-'
  }

  /**
    The header line of a task, ctm.py lines 401-414: the name alone without
    padding; centered between two equal runs of dashes; or after two dashes
    (the left padding is always 2) and filled with dashes up to the line
    length.
   */
  function Header(name: string, o: Options): string {
    var padding := o.lineLength - |name|;
    if o.centeredTaskNames && !o.noPadding then
      var side := Dashes(TruncHalf(padding));
      side + name + side
    else if !o.noPadding then
      Dashes(DefaultLeftPaddingLength) + name + Dashes(padding - DefaultLeftPaddingLength)
    else name
  }

  lemma HeaderPlain(name: string, o: Options)
    requires o.noPadding
    ensures Header(name, o) == name
  {
  }

  /**
    A centered header puts the name between two equal runs of dashes; when
    the name fits, it falls short of the line length by one dash exactly when
    the padding is odd.
   */
  lemma HeaderCentered(name: string, o: Options)
    requires !o.noPadding && o.centeredTaskNames
    ensures var h := Header(name, o);
      var side := if o.lineLength - |name| > 0 then TruncHalf(o.lineLength - |name|) else 0;
      |h| == |name| + 2 * side && h[side..side + |name|] == name
      && AllDashes(h[..side]) && AllDashes(h[side + |name|..])
      && (|name| <= o.lineLength ==> |h| == o.lineLength - (o.lineLength - |name|) % 2)
  {
    var h := Header(name, o);
    var side := Dashes(TruncHalf(o.lineLength - |name|));
    assert h == side + name + side;
    assert h[..|side|] == side && h[|side|..|side| + |name|] == name && h[|side| + |name|..] == side;
  }

  /** A left-aligned header: two dashes, the name, then dashes up to the line length. */
  lemma HeaderLeftAligned(name: string, o: Options)
    requires !o.noPadding && !o.centeredTaskNames
    ensures var h := Header(name, o);
      |h| == (if o.lineLength > |name| + 2 then o.lineLength else |name| + 2)
      && h[..2] == "--" && h[2..2 + |name|] == name && AllDashes(h[2 + |name|..])
  {
    var h := Header(name, o);
    var left := Dashes(DefaultLeftPaddingLength);
    var right := Dashes(o.lineLength - |name| - DefaultLeftPaddingLength);
    assert h == left + name + right;
    assert h[..2] == left && h[2..2 + |name|] == name && h[2 + |name|..] == right;
  }

  /** The bottom padding line, ctm.py lines 418-420. */
  function BottomPadding(o: Options): string {
    if !o.noPadding && !o.noBottomPadding then Dashes(o.lineLength) + "\n" else ""
  }

  /** Without padding or with the bottom padding switched off there is none; otherwise a dashed line. */
  lemma BottomPaddingShape(o: Options)
    ensures o.noPadding || o.noBottomPadding ==> BottomPadding(o) == ""
    ensures !o.noPadding && !o.noBottomPadding ==>
      var b := BottomPadding(o);
      |b| == (if o.lineLength > 0 then o.lineLength else 0) + 1 && AllDashes(b[..|b| - 1]) && b[|b| - 1] == '\n'
  {
    if !o.noPadding && !o.noBottomPadding {
      var b := BottomPadding(o);
      assert b[..|b| - 1] == Dashes(o.lineLength);
    }
  }

  /** One task's part of the output: header, newline, the file's text, bottom padding. */
  function Block(name: string, content: string, o: Options): string {
    Header(name, o) + "\n" + content + BottomPadding(o)
  }

  /** The name of each task, ctm.py line 400, for the compiled name template. */
  function Namer(compiled: string): nat -> Result<string, FormatError> {
    (number: nat) => TaskName(compiled, number)
  }

  /** The block of each task, ctm.py lines 401-420, whose file text `read` gives. */
  function Layout(read: string -> string, o: Options): (string, Task) -> string {
    (name: string, task: Task) => Block(name, read(task.filename), o)
  }

  /**
    The merged text, ctm.py lines 397-423: the blocks of the tasks in the
    order they were found, a newline between consecutive ones; the first task
    whose name cannot be formatted stops the command.
   */
  function Render(tasks: seq<Task>, nameOf: nat -> Result<string, FormatError>, blockOf: (string, Task) -> string)
    : Result<string, FormatError>
    decreases |tasks|
  {
    if tasks == [] then Ok("")
    else
      var n := |tasks| - 1;
      match Render(tasks[..n], nameOf, blockOf)
      case Err(e) => Err(e)
      case Ok(acc) =>
        match nameOf(tasks[n].number)
        case Err(e) => Err(e)
        case Ok(name) => Ok(acc + (if n > 0 then "\n" else "") + blockOf(name, tasks[n]))
  }

  /** What `merge` does, in the order the command takes its steps. */
  function MergePlan(o: Options, d: Directory): Outcome {
    match Validate(o)
    case Some(e) => Usage(e)
    case None =>
      var output := OutputName(o);
      if output in d.existing && !o.force then OutputExists(output)
      else
        match GlobPattern(o)
        case Err(e) => FormatFailed(e)
        case Ok(pattern) =>
          match CollectTasks(Discover(d.listing, pattern), NumberReader(NumberStart(pattern)))
          case Err(name) => NoNumber(name)
          case Ok(tasks) => MergeFound(tasks, pattern, o, d.read, output)
  }

  /** What `merge` does once every found name has its number (ctm.py, lines 361-425). */
  function MergeFound(tasks: seq<Task>, pattern: string, o: Options, read: string -> string, output: string)
    : Outcome
  {
    if tasks == [] then Usage(NoFilesToMerge)
    else
      var numbers := Numbers(tasks);
      var missing := MissingUpTo(numbers, MaxOf(numbers));
      if missing != [] && !o.ignoreMissingTasks then
        MissingTasks(missing, MissingNames(pattern, missing))
      else
        match CompiledNameTemplate(o)
        case Err(e) => FormatFailed(e)
        case Ok(compiled) =>
          match Render(tasks, Namer(compiled), Layout(read, o))
          case Err(e) => FormatFailed(e)
          case Ok(data) => Merged(output, data, missing)
  }

  /** Once a prefix of the names fails, the whole list fails the same way. */
  lemma {:induction false} CollectPrefixErr(names: seq<string>, k: nat, numberOf: string -> Option<nat>)
    requires k <= |names| && CollectTasks(names[..k], numberOf).Err?
    ensures CollectTasks(names, numberOf) == CollectTasks(names[..k], numberOf)
    decreases |names|
  {
    if k < |names| {
      var n := |names| - 1;
      assert names[..n][..k] == names[..k];
      CollectPrefixErr(names[..n], k, numberOf);
    } else {
      assert names[..k] == names;
    }
  }

  /** Once the name of a prefix of the tasks fails, the whole rendering fails the same way. */
  lemma {:induction false} RenderPrefixErr(tasks: seq<Task>, k: nat, nameOf: nat -> Result<string, FormatError>,
                                           blockOf: (string, Task) -> string)
    requires k <= |tasks| && Render(tasks[..k], nameOf, blockOf).Err?
    ensures Render(tasks, nameOf, blockOf) == Render(tasks[..k], nameOf, blockOf)
    decreases |tasks|
  {
    if k < |tasks| {
      var n := |tasks| - 1;
      assert tasks[..n][..k] == tasks[..k];
      RenderPrefixErr(tasks[..n], k, nameOf, blockOf);
    } else {
      assert tasks[..k] == tasks;
    }
  }

  /** The loop of ctm.py lines 357-360 that reads the number of each found name. */
  method ReadTasks(found: seq<string>, start: int) returns (r: Result<seq<Task>, string>)
    ensures r == CollectTasks(found, NumberReader(start))
  {
    var tasks: seq<Task> := [];
    var i := 0;
    while i < |found|
      invariant 0 <= i <= |found|
      invariant CollectTasks(found[..i], NumberReader(start)) == Ok(tasks)
    {
      var number := NumberAt(found[i], start);
      assert found[..i + 1][..i] == found[..i];
      if number.None? {
        CollectPrefixErr(found, i + 1, NumberReader(start));
        return Err(found[i]);
      }
      tasks := tasks + [Task(found[i], number.value)];
      i := i + 1;
    }
    assert found[..i] == found;
    return Ok(tasks);
  }

  /** The loop of ctm.py lines 367-369 over the numbers 1 to `last`. */
  method FindMissing(numbers: seq<nat>, last: nat) returns (missing: seq<nat>)
    ensures missing == MissingUpTo(numbers, last)
  {
    missing := [];
    var k := 1;
    while k <= last
      invariant 1 <= k <= last + 1
      invariant missing == MissingUpTo(numbers, k - 1)
    {
      if k !in numbers {
        missing := missing + [k];
      }
      k := k + 1;
    }
  }

  /** A task whose name cannot be formatted, after a prefix that renders, stops the rendering with its error. */
  lemma RenderStop(tasks: seq<Task>, j: nat, nameOf: nat -> Result<string, FormatError>,
                   blockOf: (string, Task) -> string, done: string)
    requires j < |tasks| && Render(tasks[..j], nameOf, blockOf) == Ok(done) && nameOf(tasks[j].number).Err?
    ensures Render(tasks, nameOf, blockOf) == Err(nameOf(tasks[j].number).error)
  {
    assert tasks[..j + 1][..j] == tasks[..j];
    RenderPrefixErr(tasks, j + 1, nameOf, blockOf);
  }

  /**
    Rendering one more task appends a newline (after the first block) and its
    block; the text built so far keeps the separator of the next block.
   */
  lemma RenderStep(tasks: seq<Task>, j: nat, nameOf: nat -> Result<string, FormatError>,
                   blockOf: (string, Task) -> string, done: string, data: string, name: string, block: string)
    requires j < |tasks|
    requires Render(tasks[..j], nameOf, blockOf) == Ok(done)
    requires data == done + (if 0 < j < |tasks| then "\n" else "")
    requires nameOf(tasks[j].number) == Ok(name) && block == blockOf(name, tasks[j])
    ensures Render(tasks[..j + 1], nameOf, blockOf) == Ok(done + (if j > 0 then "\n" else "") + block)
    ensures data + block + (if j + 1 < |tasks| then "\n" else "")
         == done + (if j > 0 then "\n" else "") + block + (if 0 < j + 1 < |tasks| then "\n" else "")
  {
    assert tasks[..j + 1][..j] == tasks[..j];
  }

  /** The text ctm.py lines 401-420 append for one task. */
  method TaskBlock(name: string, content: string, o: Options) returns (block: string)
    ensures block == Block(name, content, o)
  {
    var padding := o.lineLength - |name|;
    if o.centeredTaskNames && !o.noPadding {
      var side := Dashes(TruncHalf(padding));
      block := side + name + side;
    } else if !o.noPadding {
      block := Dashes(DefaultLeftPaddingLength) + name + Dashes(padding - DefaultLeftPaddingLength);
    } else {
      block := name;
    }
    assert block == Header(name, o);
    block := block + "\n";
    block := block + content;
    if !o.noPadding && !o.noBottomPadding {
      Regroup(block, Dashes(o.lineLength), "\n");
      block := block + Dashes(o.lineLength);
      block := block + "\n";
    } else {
      assert block + "" == block;
    }
  }

  /** The loop of ctm.py lines 398-423 that appends each task's block to the merged text. */
  method RenderTasks(compiled: string, tasks: seq<Task>, read: string -> string, o: Options)
    returns (r: Result<string, FormatError>)
    ensures r == Render(tasks, Namer(compiled), Layout(read, o))
  {
    var data := "";
    ghost var done := "";
    var j := 0;
    while j < |tasks|
      invariant 0 <= j <= |tasks|
      invariant Render(tasks[..j], Namer(compiled), Layout(read, o)) == Ok(done)
      invariant data == done + (if 0 < j < |tasks| then "\n" else "")
    {
      var task := tasks[j];
      var named := TaskName(compiled, task.number);
      if named.Err? {
        RenderStop(tasks, j, Namer(compiled), Layout(read, o), done);
        return Err(named.error);
      }
      var name := named.value;
      var block := TaskBlock(name, read(task.filename), o);
      RenderStep(tasks, j, Namer(compiled), Layout(read, o), done, data, name, block);
      done := done + (if j > 0 then "\n" else "") + block;
      data := data + block;
      if j + 1 < |tasks| {
        data := data + "\n";
      }
      j := j + 1;
    }
    assert tasks[..j] == tasks;
    assert data == done + "" == done;
    return Ok(data);
  }

  /** The command itself, step by step as the source takes them. */
  method Merge(o: Options, d: Directory) returns (r: Outcome)
    ensures r == MergePlan(o, d)
  {
    var problem := Validate(o);
    if problem.Some? {
      return Usage(problem.value);
    }
    var output := OutputName(o);
    if output in d.existing && !o.force {
      return OutputExists(output);
    }
    var globbed := GlobPattern(o);
    if globbed.Err? {
      return FormatFailed(globbed.error);
    }
    var pattern := globbed.value;
    var found := Discover(d.listing, pattern);
    var read := ReadTasks(found, NumberStart(pattern));
    if read.Err? {
      return NoNumber(read.error);
    }
    var tasks := read.value;
    var numbers := Numbers(tasks);
    if numbers == [] {
      return Usage(NoFilesToMerge);
    }
    var missing := FindMissing(numbers, MaxOf(numbers));
    if missing != [] && !o.ignoreMissingTasks {
      return MissingTasks(missing, MissingNames(pattern, missing));
    }
    var compiled := CompiledNameTemplate(o);
    if compiled.Err? {
      return FormatFailed(compiled.error);
    }
    var rendered := RenderTasks(compiled.value, tasks, d.read, o);
    if rendered.Err? {
      return FormatFailed(rendered.error);
    }
    return Merged(output, rendered.value, missing);
  }
}
