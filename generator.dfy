/**
  The `generate` and `generate-single` commands of ctm.py as planners: given
  the options and which paths already exist, they return either the reason the
  command stops or the files it writes, in write order, with their contents.
 */
module Generator {
  import opened Wrappers
  import opened PyStr
  import opened StrFormat
  import opened Templates

  datatype UsageError =
    | MissingTaskNumPlaceholder   // the template lacks "{task_num}"
    | PrefixWithoutPlaceholder    // a prefix was given but the template lacks "{prefix}"

  datatype Outcome =
    | Usage(error: UsageError)           // click.UsageError, raised before any check of the disk
    | FormatFailed(cause: FormatError)   // an exception raised by str.format
    | AlreadyExists(name: string)        // the first planned file that exists, without --force
    | Generated(files: seq<(string, string)>)  // (path, content) in write order

  /** The keyword arguments of the name formatting for one task number. */
  function NameArgs(withPrefix: bool, prefix: string, taskNum: int): map<string, string> {
    if withPrefix then map["prefix" := PrefixOrDefault(prefix), "task_num" := IntToString(taskNum)]
    else map["task_num" := IntToString(taskNum)]
  }

  /**
    The list comprehension over `range(lo, hi + 1)`: every name in order, or
    the error of the first number whose formatting raises.
   */
  function FormatNames(template: string, withPrefix: bool, prefix: string, lo: int, hi: int)
    : (r: Result<seq<string>, FormatError>)
    decreases hi - lo
    ensures r.Ok? ==> |r.value| == (if lo <= hi then hi - lo + 1 else 0)
    ensures r.Ok? ==> (forall i :: 0 <= i < |r.value| ==>
      Format(template, NameArgs(withPrefix, prefix, lo + i)) == Ok(r.value[i]))
  {
    if lo > hi then Ok([])
    else
      match Format(template, NameArgs(withPrefix, prefix, lo))
      case Err(e) => Err(e)
      case Ok(name) =>
        match FormatNames(template, withPrefix, prefix, lo + 1, hi)
        case Err(e) => Err(e)
        case Ok(names) =>
          assert forall i :: 0 < i <= |names| ==> ([name] + names)[i] == names[i - 1];
          Ok([name] + names)
  }

  /** The first name that exists, as the pre-write check loop of `generate` finds it. */
  function FirstExisting(names: seq<string>, existing: set<string>): (r: Option<string>)
    ensures r.None? <==> forall i :: 0 <= i < |names| ==> names[i] !in existing
    ensures r.Some? ==> r.value in existing && r.value in names
    ensures r.Some? ==> exists i :: 0 <= i < |names| && names[i] == r.value && forall j :: 0 <= j < i ==> names[j] !in existing
  {
    if names == [] then None
    else if names[0] in existing then Some(names[0])
    else
      var r := FirstExisting(names[1..], existing);
      assert r.Some? ==> exists i :: 0 < i < |names| && names[i] == r.value && forall j :: 0 <= j < i ==> names[j] !in existing
        by {
          if r.Some? {
            var k :| 0 <= k < |names[1..]| && names[1..][k] == r.value
              && forall j :: 0 <= j < k ==> names[1..][j] !in existing;
            assert forall j :: 0 < j < k + 1 ==> names[j] == names[1..][j - 1];
            assert names[k + 1] == r.value;
          }
        }
      r
  }

  /** The checks every command runs on a template and its prefix before anything else. */
  function Validate(template: string, prefix: string): (r: Option<UsageError>)
    ensures r == Some(MissingTaskNumPlaceholder) <==> !HasTaskNum(template)
    ensures r == Some(PrefixWithoutPlaceholder) <==> HasTaskNum(template) && !HasPrefix(template) && prefix != ""
    ensures r == None <==> HasTaskNum(template) && (HasPrefix(template) || prefix == "")
  {
    if !HasTaskNum(template) then Some(MissingTaskNumPlaceholder)
    else if !HasPrefix(template) && prefix != "" then Some(PrefixWithoutPlaceholder)
    else None
  }

  /** The names `generate` plans for tasks 1..numTasks (ctm.py, lines 90-105). */
  function PlannedNames(numTasks: int, ignoreFileExtension: bool, template: string, prefix: string)
    : (r: Result<seq<string>, FormatError>)
    ensures r.Ok? ==> |r.value| == (if numTasks >= 1 then numTasks else 0)
  {
    var t := WithExtension(template, ".cpp", ignoreFileExtension);
    var withPrefix := HasPrefix(template);
    var first := if withPrefix then FormatNames(t, true, prefix, 1, numTasks) else Ok([]);
    match first
    case Err(e) => Err(e)
    case Ok(names) => if names == [] then FormatNames(t, false, prefix, 1, numTasks) else Ok(names)
  }

  /** The name `generate-single` resolves for one task number (ctm.py, lines 176-187). */
  function SingleName(taskNum: int, ignoreFileExtension: bool, template: string, prefix: string)
    : Result<string, FormatError>
  {
    var t := WithExtension(template, ".cpp", ignoreFileExtension);
    var withPrefix := HasPrefix(template);
    var first := if withPrefix then Format(t, NameArgs(true, prefix, taskNum)) else Ok("");
    match first
    case Err(e) => Err(e)
    case Ok(name) => if name == "" then Format(t, NameArgs(false, prefix, taskNum)) else Ok(name)
  }

  /** Each planned file with the payload formatted for its position (ctm.py, lines 121-123). */
  function WithPayload(names: seq<string>, payload: string, firstNum: int)
    : (r: Result<seq<(string, string)>, FormatError>)
    ensures r.Ok? ==> |r.value| == |names|
    ensures r.Ok? ==> forall i :: 0 <= i < |names| ==> r.value[i].0 == names[i]
    ensures r.Ok? ==> (forall i :: 0 <= i < |names| ==>
      Format(payload, map["task_num" := IntToString(firstNum + i)]) == Ok(r.value[i].1))
  {
    if names == [] then Ok([])
    else
      match Format(payload, map["task_num" := IntToString(firstNum)])
      case Err(e) => Err(e)
      case Ok(content) =>
        match WithPayload(names[1..], payload, firstNum + 1)
        case Err(e) => Err(e)
        case Ok(rest) => Ok([(names[0], content)] + rest)
  }

  /** `ctm generate NUM_TASKS` (ctm.py, lines 70-124). */
  function Generate(numTasks: int, force: bool, ignoreFileExtension: bool, includeIostream: bool,
                    template: string, prefix: string, existing: set<string>): (r: Outcome)
    ensures !HasTaskNum(template) ==> r == Usage(MissingTaskNumPlaceholder)
    ensures HasTaskNum(template) && !HasPrefix(template) && prefix != "" ==> r == Usage(PrefixWithoutPlaceholder)
    ensures r.AlreadyExists? ==> !force && r.name in existing
    ensures r.AlreadyExists? ==>
      (PlannedNames(numTasks, ignoreFileExtension, template, prefix).Ok?
       && FirstExisting(PlannedNames(numTasks, ignoreFileExtension, template, prefix).value, existing) == Some(r.name))
    ensures r.Generated? ==> Validate(template, prefix).None?
    ensures r.Generated? ==> |r.files| == (if numTasks > 0 then numTasks else 0)
    ensures r.Generated? && !force ==> forall i :: 0 <= i < |r.files| ==> r.files[i].0 !in existing
  {
    match Validate(template, prefix)
    case Some(u) => Usage(u)
    case None =>
      match PlannedNames(numTasks, ignoreFileExtension, template, prefix)
      case Err(e) => FormatFailed(e)
      case Ok(names) =>
        var clash := if force then None else FirstExisting(names, existing);
        if clash.Some? then AlreadyExists(clash.value)
        else
          match WithPayload(names, Payload(includeIostream), 1)
          case Err(e) => FormatFailed(e)
          case Ok(files) => Generated(files)
  }

  /** `ctm generate-single TASK_NUM` (ctm.py, lines 156-201). */
  function GenerateSingle(taskNum: int, force: bool, ignoreFileExtension: bool, includeIostream: bool,
                          template: string, prefix: string, existing: set<string>): (r: Outcome)
    ensures !HasTaskNum(template) ==> r == Usage(MissingTaskNumPlaceholder)
    ensures HasTaskNum(template) && !HasPrefix(template) && prefix != "" ==> r == Usage(PrefixWithoutPlaceholder)
    ensures r.AlreadyExists? ==> !force && r.name in existing
    ensures r.AlreadyExists? ==> SingleName(taskNum, ignoreFileExtension, template, prefix) == Ok(r.name)
    ensures r.Generated? ==> Validate(template, prefix).None?
    ensures r.Generated? ==> |r.files| == 1
    ensures r.Generated? ==> SingleName(taskNum, ignoreFileExtension, template, prefix) == Ok(r.files[0].0)
    ensures r.Generated? && !force ==> r.files[0].0 !in existing
  {
    match Validate(template, prefix)
    case Some(u) => Usage(u)
    case None =>
      match SingleName(taskNum, ignoreFileExtension, template, prefix)
      case Err(e) => FormatFailed(e)
      case Ok(name) =>
        if name in existing && !force then AlreadyExists(name)
        else
          match Format(Payload(includeIostream), map["task_num" := IntToString(taskNum)])
          case Err(e) => FormatFailed(e)
          case Ok(content) => Generated([(name, content)])
  }
}

/** Properties of the generator stated over the planners above. */
module GeneratorProperties {
  import opened Wrappers
  import opened PyStr
  import opened StrFormat
  import opened Templates
  import opened Generator

  lemma IntToStringNonEmpty(i: int)
    ensures IntToString(i) != []
  {
    if i < 0 { NatToStringCanonical(-i); } else { NatToStringCanonical(i); }
  }

  /** A template holding "{task_num}" is not empty. */
  lemma HasTaskNumNonEmpty(template: string)
    requires HasTaskNum(template)
    ensures template != []
  {
    var k := Find(template, TaskNumPlaceholder);
    assert OccursAt(template, TaskNumPlaceholder, k);
  }

  /** The formatting of a name never yields the empty string. */
  lemma NameNonEmpty(t: string, withPrefix: bool, prefix: string, taskNum: int)
    requires t != []
    ensures Format(t, NameArgs(withPrefix, prefix, taskNum)).Ok? ==> Format(t, NameArgs(withPrefix, prefix, taskNum)).value != []
  {
    IntToStringNonEmpty(taskNum);
    FormatNonEmpty(t, NameArgs(withPrefix, prefix, taskNum));
  }

  /**
    `generate` names its i-th file exactly as `generate-single` names task i + 1:
    both take the prefix branch when the template has "{prefix}" and fall back
    to formatting without a prefix otherwise.
   */
  lemma GenerateAgreesWithSingle(numTasks: int, force: bool, ignoreFileExtension: bool, includeIostream: bool,
                                 template: string, prefix: string, existing: set<string>)
    requires Generate(numTasks, force, ignoreFileExtension, includeIostream, template, prefix, existing).Generated?
    ensures var files := Generate(numTasks, force, ignoreFileExtension, includeIostream, template, prefix, existing).files;
      forall i :: 0 <= i < |files| ==> SingleName(i + 1, ignoreFileExtension, template, prefix) == Ok(files[i].0)
  {
    var files := Generate(numTasks, force, ignoreFileExtension, includeIostream, template, prefix, existing).files;
    var t := WithExtension(template, ".cpp", ignoreFileExtension);
    var names := PlannedNames(numTasks, ignoreFileExtension, template, prefix).value;
    assert WithPayload(names, Payload(includeIostream), 1) == Ok(files);
    HasTaskNumNonEmpty(template);
    forall i | 0 <= i < |files|
      ensures SingleName(i + 1, ignoreFileExtension, template, prefix) == Ok(files[i].0)
    {
      assert files[i].0 == names[i];
      if HasPrefix(template) {
        var first := FormatNames(t, true, prefix, 1, numTasks);
        assert first.Ok? && first.value != [];
        assert names == first.value;
        NameNonEmpty(t, true, prefix, i + 1);
      }
    }
  }

  /** Every file `generate` writes holds the program text of the chosen payload. */
  lemma GenerateContents(numTasks: int, force: bool, ignoreFileExtension: bool, includeIostream: bool,
                         template: string, prefix: string, existing: set<string>)
    requires Generate(numTasks, force, ignoreFileExtension, includeIostream, template, prefix, existing).Generated?
    ensures var files := Generate(numTasks, force, ignoreFileExtension, includeIostream, template, prefix, existing).files;
      forall i :: 0 <= i < |files| ==> files[i].1 == Program(includeIostream)
  {
    var files := Generate(numTasks, force, ignoreFileExtension, includeIostream, template, prefix, existing).files;
    forall i | 0 <= i < |files| ensures files[i].1 == Program(includeIostream) {
      PayloadFormats(includeIostream, IntToString(1 + i));
    }
  }

  /** The file `generate-single` writes holds the program text of the chosen payload. */
  lemma GenerateSingleContents(taskNum: int, force: bool, ignoreFileExtension: bool, includeIostream: bool,
                               template: string, prefix: string, existing: set<string>)
    requires GenerateSingle(taskNum, force, ignoreFileExtension, includeIostream, template, prefix, existing).Generated?
    ensures GenerateSingle(taskNum, force, ignoreFileExtension, includeIostream, template, prefix, existing).files[0].1
         == Program(includeIostream)
  {
    PayloadFormats(includeIostream, IntToString(taskNum));
  }

  /** Names format without error for every number of the range, so the comprehension yields a list. */
  lemma {:induction false} FormatNamesOk(t: string, withPrefix: bool, prefix: string, lo: int, hi: int)
    requires forall i :: lo <= i <= hi ==> Format(t, NameArgs(withPrefix, prefix, i)).Ok?
    ensures FormatNames(t, withPrefix, prefix, lo, hi).Ok?
    decreases hi - lo
  {
    if lo <= hi {
      FormatNamesOk(t, withPrefix, prefix, lo + 1, hi);
    }
  }

  /** The payload formats for every position, so every planned file gets its content. */
  lemma {:induction false} WithPayloadOk(names: seq<string>, includeIostream: bool, firstNum: int)
    ensures WithPayload(names, Payload(includeIostream), firstNum).Ok?
    decreases |names|
  {
    if names != [] {
      PayloadFormats(includeIostream, IntToString(firstNum));
      WithPayloadOk(names[1..], includeIostream, firstNum + 1);
    }
  }

  /** The name the default template "{prefix} {task_num}.cpp" gives task `n`. */
  function DefaultFileName(n: nat): string {
    "Task " + NatToString(n) + ".cpp"
  }

  lemma DefaultTemplateHasTaskNum()
    ensures HasTaskNum(DefaultTaskFileName)
  {
    assert OccursAt(DefaultTaskFileName, TaskNumPlaceholder, 9);
    FoundAt(DefaultTaskFileName, TaskNumPlaceholder, 9);
  }

  lemma DefaultTemplateHasPrefix()
    ensures HasPrefix(DefaultTaskFileName)
  {
    assert OccursAt(DefaultTaskFileName, PrefixPlaceholder, 0);
    FoundAt(DefaultTaskFileName, PrefixPlaceholder, 0);
  }

  lemma DefaultTemplateEndsWithCpp()
    ensures EndsWith(DefaultTaskFileName, ".cpp")
  {
  }

  /** The default file-name template as two fields around plain text. */
  lemma DefaultTemplatePieces()
    ensures DefaultTaskFileName == "{" + "prefix" + "}" + " " + "{" + "task_num" + "}" + ".cpp"
    ensures NoBraces("prefix") && NoBraces(" ") && NoBraces("task_num") && NoBraces(".cpp")
  {
  }

  lemma DefaultNameFormats(n: nat)
    ensures Format(DefaultTaskFileName, NameArgs(true, "", n)) == Ok(DefaultFileName(n))
  {
    DefaultTemplatePieces();
    var args := NameArgs(true, "", n);
    assert "prefix" in args && "task_num" in args;
    FormatTwoFields(DefaultTaskFileName, "prefix", " ", "task_num", ".cpp", args);
    assert "Task" + " " == "Task ";
  }

  /** "Task 1.cpp" ... "Task n.cpp". */
  function DefaultFileNames(n: nat): (r: seq<string>)
    ensures |r| == n && forall i :: 0 <= i < n ==> r[i] == DefaultFileName(i + 1)
  {
    seq(n, i requires 0 <= i < n => DefaultFileName(i + 1))
  }

  /** With the default template and no prefix, `generate N` plans the names "Task 1.cpp" ... "Task N.cpp". */
  lemma DefaultPlan(n: nat)
    ensures PlannedNames(n, false, DefaultTaskFileName, "") == Ok(DefaultFileNames(n))
  {
    DefaultTemplateEndsWithCpp();
    DefaultTemplateHasPrefix();
    DefaultNamesFormat(n);
    PlannedWithPrefix(n, DefaultTaskFileName, DefaultFileNames(n));
  }

  lemma DefaultNamesFormat(n: nat)
    ensures forall i :: 0 <= i < n ==> Format(DefaultTaskFileName, NameArgs(true, "", i + 1)) == Ok(DefaultFileNames(n)[i])
  {
    forall i | 0 <= i < n ensures Format(DefaultTaskFileName, NameArgs(true, "", i + 1)) == Ok(DefaultFileNames(n)[i]) {
      DefaultNameFormats(i + 1);
    }
  }

  /** A template ending in ".cpp" with a prefix placeholder plans the names it formats to, in order. */
  lemma PlannedWithPrefix(n: nat, t: string, names: seq<string>)
    requires EndsWith(t, ".cpp") && HasPrefix(t) && |names| == n
    requires forall i :: 0 <= i < n ==> Format(t, NameArgs(true, "", i + 1)) == Ok(names[i])
    ensures PlannedNames(n, false, t, "") == Ok(names)
  {
    forall i | 1 <= i <= n ensures Format(t, NameArgs(true, "", i)).Ok? {
      assert Format(t, NameArgs(true, "", (i - 1) + 1)) == Ok(names[i - 1]);
    }
    FormatNamesOk(t, true, "", 1, n);
    var planned := FormatNames(t, true, "", 1, n).value;
    assert planned == names;
    if n > 0 {
      assert planned != [];
    }
  }

  /**
    `ctm generate N` with every option at its default writes exactly
    "Task 1.cpp" ... "Task N.cpp", in that order, each holding the plain
    program, when none of them exists yet.
   */
  lemma GenerateDefaults(n: nat, existing: set<string>)
    requires forall i :: 1 <= i <= n ==> DefaultFileName(i) !in existing
    ensures var r := Generate(n, false, false, false, DefaultTaskFileName, "", existing);
      r.Generated? && |r.files| == n
      && forall i :: 0 <= i < n ==> r.files[i] == (DefaultFileName(i + 1), TaskProgram)
  {
    DefaultTemplateHasTaskNum();
    DefaultTemplateHasPrefix();
    DefaultPlan(n);
    var names := DefaultFileNames(n);
    assert FirstExisting(names, existing).None?;
    WithPayloadOk(names, false, 1);
    var r := Generate(n, false, false, false, DefaultTaskFileName, "", existing);
    assert r.Generated?;
    GenerateContents(n, false, false, false, DefaultTaskFileName, "", existing);
  }
}
