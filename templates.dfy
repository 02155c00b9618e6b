/**
  The template constants and rules that `generate`, `generate-single` and
  `merge` share (ctm.py): the required `{task_num}` placeholder, the optional
  `{prefix}` placeholder with its default, and the fixed file payloads.
 */
module Templates {
  import opened Wrappers
  import opened PyStr
  import opened StrFormat

  const TaskNumPlaceholder := "{task_num}"
  const PrefixPlaceholder := "{prefix}"

  const DefaultTaskFileName := "{prefix} {task_num}.cpp"
  const DefaultTaskFileNamePrefix := "Task"
  const DefaultTaskName := "{prefix} #{task_num}"
  const DefaultTaskNamePrefix := DefaultTaskFileNamePrefix
  const DefaultLeftPaddingLength := 2

  /** The two payloads as written in the source, with `{{` and `}}` escapes. */
  const TaskPayload := "int main() {{\n\n}}\n"
  const TaskPayloadWithIostream := "#include <iostream>\n\nint main() {{\n\n}}\n"

  /** What the payloads denote once formatted. */
  const TaskProgram := "int main() {\n\n}\n"
  const TaskProgramWithIostream := "#include <iostream>\n\nint main() {\n\n}\n"

  /** `template.find("{task_num}") != -1`. */
  predicate HasTaskNum(template: string) {
    Find(template, TaskNumPlaceholder) != -1
  }

  /** `template.find("{prefix}") != -1`. */
  predicate HasPrefix(template: string) {
    Find(template, PrefixPlaceholder) != -1
  }

  /** A prefix that is not given (Python `None` or `""`, both falsy) falls back to "Task". */
  function PrefixOrDefault(prefix: string): (p: string)
    ensures p != []
    ensures prefix != [] ==> p == prefix
  {
    if prefix == "" then DefaultTaskFileNamePrefix else prefix
  }

  /** The payload chosen by `--include-iostream`. */
  function Payload(includeIostream: bool): string {
    if includeIostream then TaskPayloadWithIostream else TaskPayload
  }

  /** The text a payload denotes. */
  function Program(includeIostream: bool): string {
    if includeIostream then TaskProgramWithIostream else TaskProgram
  }

  /** A program text of the payload shape, escaped: its two braces are doubled. */
  lemma EscapeProgram(head: string)
    requires NoBraces(head)
    ensures Escape(head + "{" + "\n\n" + "}" + "\n") == head + "{{" + "\n\n" + "}}" + "\n"
  {
    var nl2, nl := "\n\n", "\n";
    assert NoBraces(nl2) && NoBraces(nl);
    EscapePlain(head);
    EscapePlain(nl2);
    EscapePlain(nl);
    assert Escape("{") == "{{" && Escape("}") == "}}";
    EscapeAppend(head + "{" + nl2 + "}", nl);
    EscapeAppend(head + "{" + nl2, "}");
    EscapeAppend(head + "{", nl2);
    EscapeAppend(head, "{");
  }

  /** The payload written in the source is the program text with its braces escaped. */
  lemma PayloadEscapes(includeIostream: bool)
    ensures Payload(includeIostream) == Escape(Program(includeIostream))
  {
    if includeIostream {
      var head := "#include <iostream>\n\nint main() ";
      assert NoBraces(head);
      assert TaskProgramWithIostream == head + "{" + "\n\n" + "}" + "\n";
      assert TaskPayloadWithIostream == head + "{{" + "\n\n" + "}}" + "\n";
      EscapeProgram(head);
    } else {
      var head := "int main() ";
      assert NoBraces(head);
      assert TaskProgram == head + "{" + "\n\n" + "}" + "\n";
      assert TaskPayload == head + "{{" + "\n\n" + "}}" + "\n";
      EscapeProgram(head);
    }
  }

  /** Formatting a payload never fails and yields the program text with single braces, whatever the task number. */
  lemma PayloadFormats(includeIostream: bool, taskNum: string)
    ensures Format(Payload(includeIostream), map["task_num" := taskNum]) == Ok(Program(includeIostream))
  {
    PayloadEscapes(includeIostream);
    FormatEscapedText(Payload(includeIostream), Program(includeIostream), map["task_num" := taskNum]);
  }

  /**
    Only the iostream payload starts with the library-inclusion line, and the
    plain program holds that line nowhere.
   */
  lemma ProgramIncludesIostream(includeIostream: bool)
    ensures includeIostream <==> OccursAt(Program(includeIostream), "#include <iostream>", 0)
    ensures !includeIostream ==> Find(Program(includeIostream), "#include <iostream>") == -1
  {
    if !includeIostream {
      assert TaskProgram[0] == 'i';
      assert forall i :: 0 <= i < |TaskProgram| ==> TaskProgram[i] != '#';
      NoLeadOccurs(TaskProgram, "#include <iostream>");
    }
  }

  /** A text without the first character of `sub` holds `sub` nowhere. */
  lemma NoLeadOccurs(s: string, sub: string)
    requires sub != [] && forall i :: 0 <= i < |s| ==> s[i] != sub[0]
    ensures forall i: nat :: !OccursAt(s, sub, i)
  {
    forall i: nat ensures !OccursAt(s, sub, i) {
      if i + |sub| <= |s| {
        assert s[i..i + |sub|][0] == s[i];
      }
    }
  }
}
