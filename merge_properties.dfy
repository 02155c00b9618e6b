/**
  What `merge` promises, stated over `MergePlan`: when it stops and with
  which outcome, what the merged text is made of, the missing-task report,
  the ignored `--left-padding-length`, and that a directory written by
  `generate N` merges without missing tasks.
 */
module MergeProperties {
  import opened Wrappers
  import opened PyStr
  import opened StrFormat
  import opened Utils
  import opened Templates
  import opened Glob
  import opened Discovery
  import opened Merger
  import GeneratorProperties

  // ---------------------------------------------------------------------------
  // The merged text as blocks joined by newlines.

  /** `"\n".join(blocks)`: the blocks with one newline between consecutive ones and none at the end. */
  function Join(blocks: seq<string>): string
    decreases |blocks|
  {
    if blocks == [] then ""
    else if |blocks| == 1 then blocks[0]
    else blocks[0] + "\n" + Join(blocks[1..])
  }

  lemma {:induction false} JoinSnoc(bs: seq<string>, b: string)
    ensures Join(bs + [b]) == Join(bs) + (if bs == [] then "" else "\n") + b
    decreases |bs|
  {
    if bs == [] {
      assert bs + [b] == [b];
    } else if |bs| == 1 {
      assert (bs + [b])[1..] == [b];
    } else {
      assert (bs + [b])[1..] == bs[1..] + [b];
      JoinSnoc(bs[1..], b);
    }
  }

  /** The block of each task, under its name. */
  function Blocks(tasks: seq<Task>, nameOf: nat -> Result<string, FormatError>, blockOf: (string, Task) -> string)
    : (bs: seq<string>)
    requires forall i :: 0 <= i < |tasks| ==> nameOf(tasks[i].number).Ok?
    ensures |bs| == |tasks|
  {
    seq(|tasks|, i requires 0 <= i < |tasks| => blockOf(nameOf(tasks[i].number).value, tasks[i]))
  }

  /**
    Rendering succeeds exactly when every task's name can be formatted, and
    then gives the tasks' blocks, in order, joined by newlines.
   */
  lemma {:induction false} RenderJoin(tasks: seq<Task>, nameOf: nat -> Result<string, FormatError>,
                                      blockOf: (string, Task) -> string)
    ensures Render(tasks, nameOf, blockOf).Ok? <==> forall i :: 0 <= i < |tasks| ==> nameOf(tasks[i].number).Ok?
    ensures (forall i :: 0 <= i < |tasks| ==> nameOf(tasks[i].number).Ok?) ==>
      Render(tasks, nameOf, blockOf) == Ok(Join(Blocks(tasks, nameOf, blockOf)))
    decreases |tasks|
  {
    if tasks != [] {
      var n := |tasks| - 1;
      var front := tasks[..n];
      RenderJoin(front, nameOf, blockOf);
      assert forall i :: 0 <= i < n ==> front[i] == tasks[i];
      if forall i :: 0 <= i < |tasks| ==> nameOf(tasks[i].number).Ok? {
        var bs := Blocks(front, nameOf, blockOf);
        var b := blockOf(nameOf(tasks[n].number).value, tasks[n]);
        assert Blocks(tasks, nameOf, blockOf) == bs + [b];
        JoinSnoc(bs, b);
      } else if Render(front, nameOf, blockOf).Ok? {
        assert nameOf(tasks[n].number).Err?;
      }
    }
  }

  /** A failed rendering reports the error of the first task whose name cannot be formatted. */
  lemma {:induction false} RenderFirstError(tasks: seq<Task>, nameOf: nat -> Result<string, FormatError>,
                                            blockOf: (string, Task) -> string)
    requires Render(tasks, nameOf, blockOf).Err?
    ensures exists i :: (0 <= i < |tasks| && nameOf(tasks[i].number) == Err(Render(tasks, nameOf, blockOf).error)
      && forall j :: 0 <= j < i ==> nameOf(tasks[j].number).Ok?)
    decreases |tasks|
  {
    var n := |tasks| - 1;
    var front := tasks[..n];
    assert forall i :: 0 <= i < n ==> front[i] == tasks[i];
    if Render(front, nameOf, blockOf).Err? {
      RenderFirstError(front, nameOf, blockOf);
      var i :| 0 <= i < n && nameOf(front[i].number) == Err(Render(front, nameOf, blockOf).error)
        && (forall j :: 0 <= j < i ==> nameOf(front[j].number).Ok?);
      assert nameOf(tasks[i].number) == Err(Render(tasks, nameOf, blockOf).error);
    } else {
      RenderJoin(front, nameOf, blockOf);
      assert nameOf(tasks[n].number) == Err(Render(tasks, nameOf, blockOf).error);
    }
  }

  // ---------------------------------------------------------------------------
  // The outcomes of `merge`.

  /** The tasks `merge` reads from the directory for a glob pattern (ctm.py, lines 347-360). */
  function FoundTasks(pattern: string, d: Directory): Result<seq<Task>, string> {
    CollectTasks(Discover(d.listing, pattern), NumberReader(NumberStart(pattern)))
  }

  /**
    A usage error, and an output file that exists without `--force`, stop the
    command before any file is looked for: the outcome is the same whatever
    the listing and the files' contents.
   */
  lemma EarlyStops(o: Options, d: Directory, other: Directory)
    requires other.existing == d.existing
    ensures Validate(o).Some? ==> MergePlan(o, d) == Usage(Validate(o).value) == MergePlan(o, other)
    ensures MergePlan(o, d).OutputExists? <==> Validate(o).None? && OutputName(o) in d.existing && !o.force
    ensures MergePlan(o, d).OutputExists? ==> MergePlan(o, d) == OutputExists(OutputName(o)) == MergePlan(o, other)
  {
  }

  /**
    With a pattern L + "[1-9]" + R, "There are no files to merge" is the
    outcome exactly when no listed name is L, a number from 1 to 999, then R.
   */
  lemma NothingToMerge(o: Options, d: Directory, l: string, r: string)
    requires Validate(o).None? && (o.force || OutputName(o) !in d.existing)
    requires GlobPattern(o) == Ok(l + NumberClass + r) && Plain(l) && Plain(r)
    ensures MergePlan(o, d) == Usage(NoFilesToMerge) <==> forall x :: x in d.listing ==> !TaskFileName(l, r, x)
  {
    FoundEmptyStops(o, d, l + NumberClass + r);
    FoundNothing(d.listing, l, r);
  }

  /** Past the early checks, "There are no files to merge" is the outcome exactly when nothing is found. */
  lemma FoundEmptyStops(o: Options, d: Directory, p: string)
    requires Validate(o).None? && (o.force || OutputName(o) !in d.existing)
    requires GlobPattern(o) == Ok(p)
    ensures MergePlan(o, d) == Usage(NoFilesToMerge) <==> Discover(d.listing, p) == []
  {
    var found := Discover(d.listing, p);
    var c := CollectTasks(found, NumberReader(NumberStart(p)));
    CollectTasksOk(found, NumberReader(NumberStart(p)));
    if c.Ok? {
      assert MergePlan(o, d) == MergeFound(c.value, p, o, d.read, OutputName(o));
      MergeFoundEmpty(c.value, p, o, d.read, OutputName(o));
    } else {
      assert MergePlan(o, d) == NoNumber(c.error);
    }
  }

  lemma MergeFoundEmpty(tasks: seq<Task>, pattern: string, o: Options, read: string -> string, output: string)
    ensures MergeFound(tasks, pattern, o, read, output) == Usage(NoFilesToMerge) <==> tasks == []
  {
  }

  /** Nothing is found exactly when no listed name is a task file name. */
  lemma FoundNothing(listing: seq<string>, l: string, r: string)
    requires Plain(l) && Plain(r)
    ensures Discover(listing, l + NumberClass + r) == [] <==> forall x :: x in listing ==> !TaskFileName(l, r, x)
  {
    var found := Discover(listing, l + NumberClass + r);
    if found == [] {
      forall x | x in listing ensures !TaskFileName(l, r, x) {
        DiscoverCount(listing, l, r, x);
      }
    } else {
      DiscoverCount(listing, l, r, found[0]);
      assert found[0] in listing && TaskFileName(l, r, found[0]);
    }
  }

  /**
    The missing-task error: it is raised only without `--ignore-missing-tasks`,
    and reports, in increasing order, exactly the numbers from 1 to the
    largest found one that no found file has, each with the file name the
    pattern gives it.
   */
  lemma MissingReport(o: Options, d: Directory)
    requires MergePlan(o, d).MissingTasks?
    ensures GlobPattern(o).Ok? && FoundTasks(GlobPattern(o).value, d).Ok?
    ensures var r := MergePlan(o, d);
      var pattern := GlobPattern(o).value;
      var numbers := Numbers(FoundTasks(pattern, d).value);
      !o.ignoreMissingTasks && numbers != [] && r.missing != []
      && (forall m :: m in r.missing <==> 1 <= m <= MaxOf(numbers) && m !in numbers)
      && (forall i, j :: 0 <= i < j < |r.missing| ==> r.missing[i] < r.missing[j])
      && |r.expected| == |r.missing|
      && forall i :: 0 <= i < |r.missing| ==> r.expected[i] == Replace(pattern, NumberClass, NatToString(r.missing[i]))
  {
    var numbers := Numbers(FoundTasks(GlobPattern(o).value, d).value);
    MissingUpToExact(numbers, MaxOf(numbers));
  }

  /** With a pattern L + "[1-9]" + R, the error names missing task m by the file L + str(m) + R. */
  lemma MissingReportFramed(o: Options, d: Directory, l: string, r: string)
    requires MergePlan(o, d).MissingTasks?
    requires GlobPattern(o) == Ok(l + NumberClass + r) && NoBracket(l) && NoBracket(r)
    ensures var e := MergePlan(o, d);
      |e.expected| == |e.missing| && forall i :: 0 <= i < |e.missing| ==> e.expected[i] == l + NatToString(e.missing[i]) + r
  {
    MissingReport(o, d);
    MissingNamesFramed(l, r, MergePlan(o, d).missing);
  }

  /**
    A successful merge: the options were valid, the output either did not
    exist or `--force` was given, every found file became a task with the
    number read from its name, the text is the tasks' blocks in the order
    found joined by newlines, and the ignored tasks are exactly the missing
    ones, which are none without `--ignore-missing-tasks`.
   */
  lemma MergedLayout(o: Options, d: Directory)
    requires MergePlan(o, d).Merged?
    ensures GlobPattern(o).Ok? && FoundTasks(GlobPattern(o).value, d).Ok? && CompiledNameTemplate(o).Ok?
    ensures var r := MergePlan(o, d);
      var pattern := GlobPattern(o).value;
      var found := Discover(d.listing, pattern);
      var tasks := FoundTasks(pattern, d).value;
      var numbers := Numbers(tasks);
      var compiled := CompiledNameTemplate(o).value;
      Validate(o).None? && r.output == OutputName(o) && (o.force || r.output !in d.existing)
      && |tasks| == |found| && tasks != []
      && (forall i :: 0 <= i < |tasks| ==>
            tasks[i].filename == found[i] && NumberAt(found[i], NumberStart(pattern)) == Some(tasks[i].number))
      && (forall i :: 0 <= i < |tasks| ==> TaskName(compiled, tasks[i].number).Ok?)
      && r.data == Join(Blocks(tasks, Namer(compiled), Layout(d.read, o)))
      && (forall m :: m in r.ignored <==> 1 <= m <= MaxOf(numbers) && m !in numbers)
      && (!o.ignoreMissingTasks ==> r.ignored == [])
  {
    var pattern := GlobPattern(o).value;
    var found := Discover(d.listing, pattern);
    var tasks := FoundTasks(pattern, d).value;
    var numbers := Numbers(tasks);
    var compiled := CompiledNameTemplate(o).value;
    CollectTasksOk(found, NumberReader(NumberStart(pattern)));
    MissingUpToExact(numbers, MaxOf(numbers));
    RenderJoin(tasks, Namer(compiled), Layout(d.read, o));
  }

  // ---------------------------------------------------------------------------
  // `--left-padding-length` and the prefix of the task names.

  /** Rendering uses a task's block only through its value: equal layouts render equally. */
  lemma {:induction false} RenderSameLayout(tasks: seq<Task>, nameOf: nat -> Result<string, FormatError>,
                                            b1: (string, Task) -> string, b2: (string, Task) -> string)
    requires forall name, t :: b1(name, t) == b2(name, t)
    ensures Render(tasks, nameOf, b1) == Render(tasks, nameOf, b2)
    decreases |tasks|
  {
    if tasks != [] {
      RenderSameLayout(tasks[..|tasks| - 1], nameOf, b1, b2);
    }
  }

  /** The blocks do not depend on `--left-padding-length`: the left padding is always 2. */
  lemma LayoutIgnoresLeftPadding(read: string -> string, o: Options, x: Option<int>)
    ensures forall name, t :: Layout(read, o)(name, t) == Layout(read, o.(leftPaddingLength := x))(name, t)
  {
    var o2 := o.(leftPaddingLength := x);
    forall name: string, t: Task ensures Layout(read, o)(name, t) == Layout(read, o2)(name, t) {
      assert Header(name, o) == Header(name, o2);
      assert BottomPadding(o) == BottomPadding(o2);
      assert Block(name, read(t.filename), o) == Block(name, read(t.filename), o2);
      assert Layout(read, o)(name, t) == Block(name, read(t.filename), o);
      assert Layout(read, o2)(name, t) == Block(name, read(t.filename), o2);
    }
  }

  /**
    With left-aligned headers, a `--left-padding-length` passes validation
    and then changes nothing: the outcome is the one without it (ctm.py,
    lines 320-325).
   */
  lemma LeftPaddingIgnored(o: Options, d: Directory, k: int)
    requires !o.noPadding && !o.centeredTaskNames && o.leftPaddingLength.None?
    ensures MergePlan(o.(leftPaddingLength := Some(k)), d) == MergePlan(o, d)
  {
    var o1 := o.(leftPaddingLength := Some(k));
    assert Validate(o1) == Validate(o);
    assert OutputName(o1) == OutputName(o) && GlobPattern(o1) == GlobPattern(o);
    assert CompiledNameTemplate(o1) == CompiledNameTemplate(o);
    LayoutIgnoresLeftPadding(d.read, o, Some(k));
    SamePlan(o1, o, d);
  }

  /**
    The outcome depends on the options only through the validation result,
    the output name, `--force`, the glob pattern, `--ignore-missing-tasks`,
    the compiled name template and the blocks.
   */
  lemma SamePlan(o1: Options, o2: Options, d: Directory)
    requires Validate(o1) == Validate(o2) && OutputName(o1) == OutputName(o2) && o1.force == o2.force
    requires GlobPattern(o1) == GlobPattern(o2) && o1.ignoreMissingTasks == o2.ignoreMissingTasks
    requires CompiledNameTemplate(o1) == CompiledNameTemplate(o2)
    requires forall name, t :: Layout(d.read, o1)(name, t) == Layout(d.read, o2)(name, t)
    ensures MergePlan(o1, d) == MergePlan(o2, d)
  {
    var pattern := GlobPattern(o1);
    if pattern.Ok? && FoundTasks(pattern.value, d).Ok? {
      SameMerge(FoundTasks(pattern.value, d).value, pattern.value, o1, o2, d.read, OutputName(o1));
    }
  }

  /** Once the tasks are found, only the missing-task switch, the compiled name template and the layout matter. */
  lemma SameMerge(tasks: seq<Task>, pattern: string, o1: Options, o2: Options, read: string -> string,
                  output: string)
    requires o1.ignoreMissingTasks == o2.ignoreMissingTasks
    requires CompiledNameTemplate(o1) == CompiledNameTemplate(o2)
    requires forall name, t :: Layout(read, o1)(name, t) == Layout(read, o2)(name, t)
    ensures MergeFound(tasks, pattern, o1, read, output) == MergeFound(tasks, pattern, o2, read, output)
  {
    var compiled := CompiledNameTemplate(o1);
    if compiled.Ok? {
      RenderSameLayout(tasks, Namer(compiled.value), Layout(read, o1), Layout(read, o2));
    }
  }

  /**
    With `{prefix}` in the FILE template (ctm.py, lines 389-396), a name
    template H + "{prefix}" + T, with plain text H and T, becomes H + the
    prefix (or "Task" when none is given) + T.
   */
  lemma PrefixFilled(o: Options, head: string, tail: string)
    requires HasPrefix(o.taskFileNameTemplate)
    requires o.taskNameTemplate == head + PrefixPlaceholder + tail && NoBraces(head) && NoBraces(tail)
    ensures CompiledNameTemplate(o) == Ok(head + PrefixOrDefault(o.taskNamePrefix) + tail)
  {
    var args := map["prefix" := PrefixOrDefault(o.taskNamePrefix), "task_num" := TaskNumPlaceholder];
    assert PrefixPlaceholder == "{" + "prefix" + "}";
    FormatOneField(o.taskNameTemplate, head, "prefix", tail, args);
  }

  /**
    Without `{prefix}` in the FILE template (ctm.py, lines 312-314), the name
    template is used as given; if it has a `{prefix}` field, naming any task
    raises `KeyError: 'prefix'`, so `merge` never writes its output.
   */
  lemma PrefixUnfilled(o: Options, d: Directory, head: string, tail: string)
    requires !HasPrefix(o.taskFileNameTemplate)
    requires o.taskNameTemplate == head + PrefixPlaceholder + tail && NoBraces(head)
    ensures CompiledNameTemplate(o) == Ok(o.taskNameTemplate)
    ensures forall n: nat :: TaskName(o.taskNameTemplate, n) == Err(MissingKey("prefix"))
    ensures !MergePlan(o, d).Merged?
  {
    forall n: nat ensures TaskName(o.taskNameTemplate, n) == Err(MissingKey("prefix")) {
      PrefixFieldFails(head, tail, map["task_num" := NatToString(n)]);
    }
    if MergePlan(o, d).Merged? {
      MergedLayout(o, d);
      var tasks := FoundTasks(GlobPattern(o).value, d).value;
      PrefixFieldFails(head, tail, map["task_num" := NatToString(tasks[0].number)]);
      assert false;
    }
  }

  /** A `{prefix}` field after plain text, formatted without a prefix argument. */
  lemma PrefixFieldFails(head: string, tail: string, args: map<string, string>)
    requires NoBraces(head) && "prefix" !in args
    ensures Format(head + PrefixPlaceholder + tail, args) == Err(MissingKey("prefix"))
  {
    var field := "{" + "prefix" + "}";
    assert field == PrefixPlaceholder;
    FormatMissingAfterText(head, "prefix", tail, args);
  }

  /** The default task-name template as two fields around plain text. */
  lemma DefaultTaskNamePieces()
    ensures DefaultTaskName == "{" + "prefix" + "}" + " #" + "{" + "task_num" + "}" + ""
    ensures NoBraces("prefix") && NoBraces(" #") && NoBraces("task_num") && NoBraces("")
  {
  }

  /** The default task-name template, formatted with only the number, raises `KeyError: 'prefix'`. */
  lemma DefaultTaskNameNeedsPrefix(n: nat)
    ensures TaskName(DefaultTaskName, n) == Err(MissingKey("prefix"))
  {
    DefaultTaskNamePieces();
    FormatField(DefaultTaskName, "prefix", " #{task_num}", map["task_num" := NatToString(n)]);
    assert DefaultTaskNamePrefix + " #" + NatToString(n) + "" == DefaultTaskNamePrefix + " #" + NatToString(n);
  }

  /**
    So a file template without `{prefix}` together with the default task-name
    template never merges: the first task's name fails.
   */
  lemma NoPrefixDefaultNameNeverMerges(o: Options, d: Directory)
    requires !HasPrefix(o.taskFileNameTemplate) && o.taskNameTemplate == DefaultTaskName
    ensures !MergePlan(o, d).Merged?
  {
    assert DefaultTaskName == "" + PrefixPlaceholder + " #{task_num}";
    PrefixUnfilled(o, d, "", " #{task_num}");
  }

  // ---------------------------------------------------------------------------
  // `generate N` and then `merge`, both with every option at its default.

  /** The glob pattern of the default file-name template: "Task [1-9].cpp". */
  const DefaultPattern := DefaultPatternHead + NumberClass + DefaultPatternTail
  const DefaultPatternHead := "Task "
  const DefaultPatternTail := ".cpp"

  /** The default task-name template "{prefix} #{task_num}" has its number placeholder at offset 10. */
  lemma NameTemplateHasTaskNum()
    ensures HasTaskNum(DefaultTaskName)
  {
    assert OccursAt(DefaultTaskName, TaskNumPlaceholder, 10);
    FoundAt(DefaultTaskName, TaskNumPlaceholder, 10);
  }

  /** Options with both placeholders in the file template, `{task_num}` in the name template and no padding length are valid. */
  lemma ValidWhen(o: Options)
    requires HasTaskNum(o.taskFileNameTemplate) && HasPrefix(o.taskFileNameTemplate) && HasTaskNum(o.taskNameTemplate)
    requires o.leftPaddingLength.None?
    ensures Validate(o) == None
  {
  }

  /** The default options pass validation. */
  lemma DefaultsValid()
    ensures Validate(Defaults) == None
  {
    GeneratorProperties.DefaultTemplateHasTaskNum();
    GeneratorProperties.DefaultTemplateHasPrefix();
    NameTemplateHasTaskNum();
    ValidWhen(Defaults);
  }

  /** `merge` with the defaults globs for "Task [1-9].cpp". */
  lemma DefaultsPattern()
    ensures GlobPattern(Defaults) == Ok(DefaultPattern)
  {
    GeneratorProperties.DefaultTemplateEndsWithCpp();
    GeneratorProperties.DefaultTemplateHasPrefix();
    GeneratorProperties.DefaultTemplatePieces();
    var args := map["prefix" := DefaultTaskFileNamePrefix, "task_num" := NumberClass];
    FormatTwoFields(DefaultTaskFileName, "prefix", " ", "task_num", ".cpp", args);
    assert DefaultTaskFileNamePrefix + " " == DefaultPatternHead;
  }

  /** The default name template with its prefix filled in: "Task #{task_num}". */
  const DefaultHeaderTemplate := DefaultTaskNamePrefix + " #" + TaskNumPlaceholder

  /** `merge` with the defaults names its tasks with "Task #{task_num}". */
  lemma DefaultsCompiled()
    ensures CompiledNameTemplate(Defaults) == Ok(DefaultHeaderTemplate)
  {
    GeneratorProperties.DefaultTemplateHasPrefix();
    DefaultTaskNamePieces();
    var args := map["prefix" := DefaultTaskNamePrefix, "task_num" := TaskNumPlaceholder];
    FormatTwoFields(DefaultTaskName, "prefix", " #", "task_num", "", args);
    assert args["prefix"] + " #" + args["task_num"] + "" == DefaultHeaderTemplate;
  }

  /** The default task names: "Task #1", "Task #2", ... */
  lemma DefaultsTaskName(n: nat)
    ensures TaskName(DefaultHeaderTemplate, n) == Ok(DefaultTaskNamePrefix + " #" + NatToString(n))
  {
    FormatOneField(DefaultHeaderTemplate, DefaultTaskNamePrefix + " #", "task_num", "", map["task_num" := NatToString(n)]);
    assert DefaultTaskNamePrefix + " #" + NatToString(n) + "" == DefaultTaskNamePrefix + " #" + NatToString(n);
  }

  /** Two names L + str(a) + R and L + str(b) + R, with R not starting with a digit, are equal only for a == b. */
  lemma NumeralsEqual(l: string, a: nat, b: nat, r: string)
    requires l + NatToString(a) + r == l + NatToString(b) + r
    requires r == [] || !IsDigit(r[0])
    ensures a == b
  {
    assert (l + NatToString(a) + r)[|l|..] == NatToString(a) + r;
    assert (l + NatToString(b) + r)[|l|..] == NatToString(b) + r;
    LeadingNumberRoundTrip(a, r);
    LeadingNumberRoundTrip(b, r);
  }

  /** A sequence without members is empty. */
  lemma NoMembers(s: seq<nat>)
    ensures (forall m :: m !in s) ==> s == []
  {
    if s != [] {
      assert s[0] in s;
    }
  }

  /**
    The listing holds the files of tasks 1 to n, L + str(k) + R, in any order
    and alongside any other files, and every other listed name the tiers can
    find is one of them.
   */
  predicate TaskFilesUpTo(listing: seq<string>, l: string, r: string, n: nat) {
    (forall k: nat :: 1 <= k <= n ==> l + NatToString(k) + r in listing)
    && forall x :: x in listing && TaskFileName(l, r, x) ==> exists k: nat :: 1 <= k <= n && x == l + NatToString(k) + r
  }

  /** A found name is the file of a task whose number is in the listing's range. */
  lemma FoundUpTo(listing: seq<string>, l: string, r: string, n: nat, x: string)
    requires Plain(l) && Plain(r) && (r == [] || !IsDigit(r[0]))
    requires TaskFilesUpTo(listing, l, r, n)
    requires x in Discover(listing, l + NumberClass + r)
    ensures NumberAt(x, NumberStart(l + NumberClass + r)).Some?
    ensures var k := NumberAt(x, NumberStart(l + NumberClass + r)).value;
      1 <= k <= n && x == l + NatToString(k) + r
  {
    FoundNameNumber(listing, l, r, x);
    var k := NumberAt(x, NumberStart(l + NumberClass + r)).value;
    DiscoverCount(listing, l, r, x);
    assert x in listing && TaskFileName(l, r, x);
    var j: nat :| 1 <= j <= n && x == l + NatToString(j) + r;
    NumeralsEqual(l, k, j, r);
  }

  /**
    In such a listing, with n <= 999 and R not starting with a digit, every
    found name becomes a task and the found numbers are exactly 1 to n.
   */
  lemma FoundTasksUpTo(listing: seq<string>, l: string, r: string, n: nat)
    requires Plain(l) && Plain(r) && (r == [] || !IsDigit(r[0]))
    requires n <= 999 && TaskFilesUpTo(listing, l, r, n)
    ensures var p := l + NumberClass + r;
      CollectTasks(Discover(listing, p), NumberReader(NumberStart(p))).Ok?
    ensures var p := l + NumberClass + r;
      var tasks := CollectTasks(Discover(listing, p), NumberReader(NumberStart(p))).value;
      forall k :: k in Numbers(tasks) <==> 1 <= k <= n
  {
    var p := l + NumberClass + r;
    var found := Discover(listing, p);
    var numberOf := NumberReader(NumberStart(p));
    forall i | 0 <= i < |found| ensures numberOf(found[i]).Some? {
      FoundUpTo(listing, l, r, n, found[i]);
    }
    CollectTasksOk(found, numberOf);
    var tasks := CollectTasks(found, numberOf).value;
    var ns := Numbers(tasks);
    forall k | k in ns ensures 1 <= k <= n {
      var i :| 0 <= i < |ns| && ns[i] == k;
      FoundUpTo(listing, l, r, n, found[i]);
    }
    forall k | 1 <= k <= n ensures k in ns {
      var x := l + NatToString(k) + r;
      DiscoverTaskFile(listing, l, r, k);
      assert x in found;
      var i :| 0 <= i < |found| && found[i] == x;
      FoundUpTo(listing, l, r, n, x);
      NumeralsEqual(l, tasks[i].number, k, r);
      assert ns[i] == k;
    }
  }

  /**
    A merge over such a listing (1 <= n <= 999) whose options get that far
    and can name every task writes the merged text, finds exactly the tasks
    1 to n and has none missing.
   */
  lemma MergeUpTo(o: Options, d: Directory, l: string, r: string, n: nat)
    requires Validate(o).None? && (o.force || OutputName(o) !in d.existing)
    requires GlobPattern(o) == Ok(l + NumberClass + r)
    requires Plain(l) && Plain(r) && (r == [] || !IsDigit(r[0]))
    requires 1 <= n <= 999 && TaskFilesUpTo(d.listing, l, r, n)
    requires CompiledNameTemplate(o).Ok?
    requires forall k: nat :: TaskName(CompiledNameTemplate(o).value, k).Ok?
    ensures FoundTasks(l + NumberClass + r, d).Ok?
    ensures forall k :: k in Numbers(FoundTasks(l + NumberClass + r, d).value) <==> 1 <= k <= n
    ensures MergePlan(o, d).Merged? && MergePlan(o, d).output == OutputName(o) && MergePlan(o, d).ignored == []
  {
    FoundTasksUpTo(d.listing, l, r, n);
    var tasks := FoundTasks(l + NumberClass + r, d).value;
    NoneMissing(Numbers(tasks), n);
    RenderJoin(tasks, Namer(CompiledNameTemplate(o).value), Layout(d.read, o));
  }

  /** When the found numbers are exactly 1 to n, the largest is n and none is missing. */
  lemma NoneMissing(ns: seq<nat>, n: nat)
    requires 1 <= n && forall k :: k in ns <==> 1 <= k <= n
    ensures ns != [] && MaxOf(ns) == n && MissingUpTo(ns, n) == []
  {
    assert n in ns;
    MissingUpToExact(ns, n);
    NoMembers(MissingUpTo(ns, n));
  }

  /** The default output is "Solution.txt", not forced. */
  lemma DefaultsOutput()
    ensures OutputName(Defaults) == "Solution.txt" && !Defaults.force
  {
  }

  /** The default pattern is L + "[1-9]" + R with L = "Task " and R = ".cpp". */
  lemma DefaultPatternPieces()
    ensures DefaultPattern == DefaultPatternHead + NumberClass + DefaultPatternTail
    ensures Plain(DefaultPatternHead) && Plain(DefaultPatternTail) && !IsDigit(DefaultPatternTail[0])
  {
  }

  /** Every task has a name under the default name template. */
  lemma DefaultsNameAll()
    ensures CompiledNameTemplate(Defaults).Ok?
    ensures forall k: nat :: TaskName(CompiledNameTemplate(Defaults).value, k).Ok?
  {
    DefaultsCompiled();
    forall k: nat ensures TaskName(DefaultHeaderTemplate, k).Ok? {
      DefaultsTaskName(k);
    }
  }

  /**
    The round trip of the two commands: in a directory that holds the files
    `generate N` writes (1 <= N <= 999), in any order and beside any other
    files, of which none is another "Task <number>.cpp", and no
    "Solution.txt", `merge` with its defaults writes "Solution.txt", finds
    exactly the tasks 1 to N and reports none missing.
   */
  lemma GenerateThenMerge(n: nat, d: Directory)
    requires 1 <= n <= 999
    requires forall i :: 0 <= i < n ==> GeneratorProperties.DefaultFileNames(n)[i] in d.listing
    requires forall x :: x in d.listing && TaskFileName(DefaultPatternHead, DefaultPatternTail, x) ==>
      x in GeneratorProperties.DefaultFileNames(n)
    requires "Solution.txt" !in d.existing
    ensures FoundTasks(DefaultPattern, d).Ok?
    ensures forall k :: k in Numbers(FoundTasks(DefaultPattern, d).value) <==> 1 <= k <= n
    ensures MergePlan(Defaults, d).Merged?
    ensures MergePlan(Defaults, d).output == "Solution.txt" && MergePlan(Defaults, d).ignored == []
  {
    DefaultsValid();
    DefaultsOutput();
    DefaultPatternPieces();
    DefaultsPattern();
    DefaultsNameAll();
    DefaultFilesUpTo(n, d.listing);
    MergeUpTo(Defaults, d, DefaultPatternHead, DefaultPatternTail, n);
  }

  /** Such a directory holds the default files of tasks 1 to N and no other task file. */
  lemma DefaultFilesUpTo(n: nat, listing: seq<string>)
    requires forall i :: 0 <= i < n ==> GeneratorProperties.DefaultFileNames(n)[i] in listing
    requires forall x :: x in listing && TaskFileName(DefaultPatternHead, DefaultPatternTail, x) ==>
      x in GeneratorProperties.DefaultFileNames(n)
    ensures TaskFilesUpTo(listing, DefaultPatternHead, DefaultPatternTail, n)
  {
    var l, r := DefaultPatternHead, DefaultPatternTail;
    var names := GeneratorProperties.DefaultFileNames(n);
    forall k: nat | 1 <= k <= n ensures l + NatToString(k) + r in listing {
      assert names[k - 1] == l + NatToString(k) + r;
    }
    forall x | x in listing && TaskFileName(l, r, x) ensures exists k: nat :: 1 <= k <= n && x == l + NatToString(k) + r {
      var i :| 0 <= i < n && names[i] == x;
      assert x == l + NatToString(i + 1) + r;
    }
  }

}
