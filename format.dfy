/**
  The part of Python's `str.format` with keyword arguments that the tool uses:
  replacement fields `{name}`, the escapes `{{` and `}}`, and the errors raised
  for a missing keyword or an unbalanced brace, found from left to right.
 */
module StrFormat {
  import opened Wrappers

  datatype FormatError =
    | SingleOpenBrace          // a '{' at the very end
    | SingleCloseBrace         // a '}' that is neither doubled nor closes a field
    | UnclosedField            // a field with no '}' up to the end
    | OpenBraceInField         // a '{' inside a field name
    | MissingKey(name: string) // a field whose name is not among the arguments (KeyError)

  predicate NoBraces(s: string) {
    forall i :: 0 <= i < |s| ==> s[i] != '{' && s[i] != '}'
  }

  /** The number of leading characters of `s` that are not braces. */
  function FieldLength(s: string): (k: nat)
    ensures k <= |s| && NoBraces(s[..k])
    ensures k < |s| ==> s[k] == '{' || s[k] == '}'
    decreases |s|
  {
    if s != [] && s[0] != '{' && s[0] != '}' then
      var k := 1 + FieldLength(s[1..]);
      assert s[..k] == [s[0]] + s[1..][..k - 1];
      k
    else 0
  }

  function Prepend(p: string, r: Result<string, FormatError>): Result<string, FormatError> {
    match r
    case Ok(s) => Ok(p + s)
    case Err(e) => Err(e)
  }

  /** `t.format(**args)`. */
  function Format(t: string, args: map<string, string>): Result<string, FormatError>
    decreases |t|
  {
    if t == [] then Ok([])
    else if t[0] == '{' then
      if |t| == 1 then Err(SingleOpenBrace)
      else if t[1] == '{' then Prepend("{", Format(t[2..], args))
      else
        var k := FieldLength(t[1..]);
        if 1 + k == |t| then Err(UnclosedField)
        else if t[1 + k] == '{' then Err(OpenBraceInField)
        else
          var name := t[1..1 + k];
          if name in args then Prepend(args[name], Format(t[2 + k..], args))
          else Err(MissingKey(name))
    else if t[0] == '}' then
      if |t| >= 2 && t[1] == '}' then Prepend("}", Format(t[2..], args))
      else Err(SingleCloseBrace)
    else Prepend([t[0]], Format(t[1..], args))
  }

  // ---------------------------------------------------------------------------
  // A reference reading of templates: a template as a sequence of pieces.

  datatype Piece = Text(text: string) | Field(name: string)

  /** Literal text written into a template: every brace doubled. */
  function Escape(s: string): (r: string)
    ensures |r| >= |s|
  {
    if s == [] then []
    else (if s[0] == '{' || s[0] == '}' then [s[0], s[0]] else [s[0]]) + Escape(s[1..])
  }

  lemma {:induction false} EscapeAppend(a: string, b: string)
    ensures Escape(a + b) == Escape(a) + Escape(b)
    decreases |a|
  {
    if a == [] {
      assert a + b == b;
    } else {
      assert (a + b)[0] == a[0] && (a + b)[1..] == a[1..] + b;
      EscapeAppend(a[1..], b);
    }
  }

  /** Text without braces is written into a template unchanged. */
  lemma {:induction false} EscapePlain(s: string)
    requires NoBraces(s)
    ensures Escape(s) == s
    decreases |s|
  {
    if s != [] {
      EscapePlain(s[1..]);
    }
  }

  /** The template text that denotes the pieces. */
  function Source(ps: seq<Piece>): string {
    if ps == [] then []
    else
      (match ps[0]
       case Text(s) => Escape(s)
       case Field(n) => "{" + n + "}") + Source(ps[1..])
  }

  /** The pieces with every field replaced by its argument. */
  function Fill(ps: seq<Piece>, args: map<string, string>): Result<string, FormatError> {
    if ps == [] then Ok([])
    else
      match ps[0]
      case Text(s) => Prepend(s, Fill(ps[1..], args))
      case Field(n) => if n in args then Prepend(args[n], Fill(ps[1..], args)) else Err(MissingKey(n))
  }

  /** Pieces that a template can denote: field names hold no brace. */
  predicate WellFormed(ps: seq<Piece>) {
    forall i :: 0 <= i < |ps| ==> (ps[i].Field? ==> NoBraces(ps[i].name))
  }

  lemma {:induction false} FormatEscaped(s: string, rest: string, args: map<string, string>)
    ensures Format(Escape(s) + rest, args) == Prepend(s, Format(rest, args))
    decreases |s|
  {
    if s == [] {
      assert Escape(s) + rest == rest;
      PrependEmpty(Format(rest, args));
    } else {
      var head := if s[0] == '{' || s[0] == '}' then [s[0], s[0]] else [s[0]];
      assert Escape(s) + rest == head + (Escape(s[1..]) + rest);
      FormatEscapedChar(s[0], Escape(s[1..]) + rest, args);
      FormatEscaped(s[1..], rest, args);
      PrependTwice([s[0]], s[1..], Format(rest, args));
      assert [s[0]] + s[1..] == s;
    }
  }

  /** One escaped character of literal text is read back as that character. */
  lemma FormatEscapedChar(c: char, tail: string, args: map<string, string>)
    ensures Format((if c == '{' || c == '}' then [c, c] else [c]) + tail, args) == Prepend([c], Format(tail, args))
  {
    var t := (if c == '{' || c == '}' then [c, c] else [c]) + tail;
    if c == '{' || c == '}' {
      assert t[0] == c && t[1] == c && t[2..] == tail;
    } else {
      assert t[0] == c && t[1..] == tail;
    }
  }

  lemma PrependEmpty(r: Result<string, FormatError>)
    ensures Prepend("", r) == r
  {
    if r.Ok? {
      assert "" + r.value == r.value;
    }
  }

  lemma PrependTwice(a: string, b: string, r: Result<string, FormatError>)
    ensures Prepend(a, Prepend(b, r)) == Prepend(a + b, r)
  {
    if r.Ok? {
      assert a + (b + r.value) == (a + b) + r.value;
    }
  }

  /** A template starting with the field `{n}`: the argument `n` comes first, or a KeyError. */
  lemma FormatField(t: string, n: string, rest: string, args: map<string, string>)
    requires NoBraces(n)
    requires t == "{" + n + "}" + rest
    ensures Format(t, args) == if n in args then Prepend(args[n], Format(rest, args)) else Err(MissingKey(n))
  {
    FieldParts(t, n, rest);
  }

  /** How `Format` reads a template that starts with the field `{n}`. */
  lemma FieldParts(t: string, n: string, rest: string)
    requires NoBraces(n)
    requires t == "{" + n + "}" + rest
    ensures |t| >= 2 + |n| && t[0] == '{' && t[1] != '{' && FieldLength(t[1..]) == |n| && t[1 + |n|] == '}'
    ensures t[1..1 + |n|] == n && t[2 + |n|..] == rest
  {
    assert t[1..] == n + "}" + rest;
    FieldLengthOf(n, "}" + rest);
    assert t[1 + |n|] == '}';
    assert t[1..1 + |n|] == n;
    assert t[2 + |n|..] == rest;
  }

  lemma FieldLengthOf(n: string, rest: string)
    requires NoBraces(n)
    requires rest != [] && (rest[0] == '{' || rest[0] == '}')
    ensures FieldLength(n + rest) == |n|
  {
    var k := FieldLength(n + rest);
    assert (n + rest)[|n|] == rest[0];
  }

  /** Formatting escaped text gives the text back, whatever the arguments. */
  lemma FormatEscapedText(t: string, s: string, args: map<string, string>)
    requires t == Escape(s)
    ensures Format(t, args) == Ok(s)
  {
    FormatEscaped(s, [], args);
    assert Escape(s) + [] == Escape(s);
    assert s + [] == s;
  }

  /** A field followed by plain text. */
  lemma FormatFieldThenText(t: string, n: string, tail: string, args: map<string, string>)
    requires NoBraces(n) && NoBraces(tail)
    requires t == "{" + n + "}" + tail
    requires n in args
    ensures Format(t, args) == Ok(args[n] + tail)
  {
    EscapePlain(tail);
    FormatEscapedText(tail, tail, args);
    FormatField(t, n, tail, args);
  }

  /** Plain text in front of a template is copied to the front of the result. */
  lemma FormatAfterText(head: string, t: string, v: string, args: map<string, string>)
    requires NoBraces(head)
    requires Format(t, args) == Ok(v)
    ensures Format(head + t, args) == Ok(head + v)
  {
    EscapePlain(head);
    FormatEscaped(head, t, args);
  }

  /** A template `head{n}tail` with plain text around one field. */
  lemma FormatOneField(t: string, head: string, n: string, tail: string, args: map<string, string>)
    requires NoBraces(head) && NoBraces(n) && NoBraces(tail)
    requires t == head + "{" + n + "}" + tail
    requires n in args
    ensures Format(t, args) == Ok(head + args[n] + tail)
  {
    var field := "{" + n + "}" + tail;
    FieldAfterHead(head, n, tail);
    FormatFieldThenText(field, n, tail, args);
    FormatAfterText(head, field, args[n] + tail, args);
    Regroup(head, args[n], tail);
  }

  /** A field without an argument after plain text raises `KeyError` for that field. */
  lemma FormatMissingAfterText(head: string, n: string, tail: string, args: map<string, string>)
    requires NoBraces(head) && NoBraces(n) && n !in args
    ensures Format(head + ("{" + n + "}") + tail, args) == Err(MissingKey(n))
  {
    var field := "{" + n + "}" + tail;
    Regroup(head, "{" + n + "}", tail);
    EscapePlain(head);
    FormatEscaped(head, field, args);
    FormatField(field, n, tail, args);
  }

  lemma FieldAfterHead(head: string, n: string, tail: string)
    ensures head + "{" + n + "}" + tail == head + ("{" + n + "}" + tail)
  {
  }

  lemma Regroup(a: string, b: string, c: string)
    ensures a + (b + c) == a + b + c
  {
  }

  /** A template `{n1}mid{n2}tail` with two fields. */
  lemma FormatTwoFields(t: string, n1: string, mid: string, n2: string, tail: string, args: map<string, string>)
    requires NoBraces(n1) && NoBraces(mid) && NoBraces(n2) && NoBraces(tail)
    requires t == "{" + n1 + "}" + mid + "{" + n2 + "}" + tail
    requires n1 in args && n2 in args
    ensures Format(t, args) == Ok(args[n1] + mid + args[n2] + tail)
  {
    var rest := mid + "{" + n2 + "}" + tail;
    FormatOneField(rest, mid, n2, tail, args);
    SecondField(n1, mid, n2, tail);
    FormatField(t, n1, rest, args);
    Regroup(args[n1], mid + args[n2], tail);
    Regroup(args[n1], mid, args[n2]);
  }

  lemma SecondField(n1: string, mid: string, n2: string, tail: string)
    ensures "{" + n1 + "}" + mid + "{" + n2 + "}" + tail == "{" + n1 + "}" + (mid + "{" + n2 + "}" + tail)
  {
  }

  /** Round trip: formatting the template that denotes pieces fills in their fields. */
  lemma {:induction false} FormatSource(ps: seq<Piece>, args: map<string, string>)
    requires WellFormed(ps)
    ensures Format(Source(ps), args) == Fill(ps, args)
    decreases |ps|
  {
    if ps != [] {
      assert WellFormed(ps[1..]) by {
        forall i | 0 <= i < |ps[1..]| ensures (ps[1..][i].Field? ==> NoBraces(ps[1..][i].name)) {
          assert ps[1..][i] == ps[i + 1];
        }
      }
      FormatSource(ps[1..], args);
      match ps[0]
      case Text(s) => FormatEscaped(s, Source(ps[1..]), args);
      case Field(n) =>
        assert ps[0].Field? ==> NoBraces(ps[0].name);
        assert Source(ps) == "{" + n + "}" + Source(ps[1..]);
        FormatField(Source(ps), n, Source(ps[1..]), args);
    }
  }

  /** A non-empty template whose arguments are all non-empty never formats to the empty string. */
  lemma {:induction false} FormatNonEmpty(t: string, args: map<string, string>)
    requires t != []
    requires forall k :: k in args ==> args[k] != []
    ensures Format(t, args).Ok? ==> Format(t, args).value != []
  {
  }
}
