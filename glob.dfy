/**
  The part of `glob.glob` the merge relies on, over a directory listing given
  as a value: literal characters and the range classes `[a-b]`. Matches are
  returned in listing order.
 */
module Glob {

  datatype Atom = Lit(c: char) | Range(lo: char, hi: char)

  /** The pattern as a sequence of one-character atoms. */
  function Compile(p: string): seq<Atom>
    decreases |p|
  {
    if p == [] then []
    else if |p| >= 5 && p[0] == '[' && p[2] == '-' && p[4] == ']' then [Range(p[1], p[3])] + Compile(p[5..])
    else [Lit(p[0])] + Compile(p[1..])
  }

  predicate AtomMatches(a: Atom, c: char) {
    match a
    case Lit(x) => c == x
    case Range(lo, hi) => lo <= c <= hi
  }

  /** Each character matches its atom, one atom per character. */
  predicate MatchesAtoms(atoms: seq<Atom>, s: string)
    decreases |s|
  {
    if atoms == [] then s == []
    else s != [] && AtomMatches(atoms[0], s[0]) && MatchesAtoms(atoms[1..], s[1..])
  }

  /** `fnmatch(name, pattern)` for the patterns modelled here. */
  predicate Matches(pattern: string, name: string) {
    MatchesAtoms(Compile(pattern), name)
  }

  /** `glob.glob(pattern)` over `listing`: the matching entries, in listing order. */
  function Glob(listing: seq<string>, pattern: string): (r: seq<string>)
    ensures |r| <= |listing|
    ensures forall x :: x in r <==> x in listing && Matches(pattern, x)
    ensures forall x :: multiset(r)[x] == if Matches(pattern, x) then multiset(listing)[x] else 0
  {
    if listing == [] then []
    else
      var rest := Glob(listing[1..], pattern);
      assert listing == [listing[0]] + listing[1..];
      if Matches(pattern, listing[0]) then [listing[0]] + rest else rest
  }

  /** The glob of a listing is the globs of its parts, in order: matches keep their listing order. */
  lemma {:induction false} GlobAppend(a: seq<string>, b: seq<string>, pattern: string)
    ensures Glob(a + b, pattern) == Glob(a, pattern) + Glob(b, pattern)
    decreases |a|
  {
    if a == [] {
      assert a + b == b;
    } else {
      assert (a + b)[0] == a[0] && (a + b)[1..] == a[1..] + b;
      GlobAppend(a[1..], b, pattern);
    }
  }

  /** A single entry is kept exactly when it matches. */
  lemma GlobOne(x: string, pattern: string)
    ensures Glob([x], pattern) == if Matches(pattern, x) then [x] else []
  {
    assert [x][1..] == [];
  }

  predicate NoBracket(s: string) {
    forall i :: 0 <= i < |s| ==> s[i] != '['
  }

  /** No `*` or `?`: the wildcards `fnmatch` has and this model does not. */
  predicate NoWildcard(s: string) {
    forall i :: 0 <= i < |s| ==> s[i] != '*' && s[i] != '?'
  }

  /** Text without '[' in front of a pattern must be matched literally. */
  lemma {:induction false} MatchesLiteralPrefix(l: string, rest: string, name: string)
    requires NoBracket(l)
    ensures Matches(l + rest, name) <==> |l| <= |name| && name[..|l|] == l && Matches(rest, name[|l|..])
    decreases |l|
  {
    if l == [] {
      assert l + rest == rest;
      assert name[..0] == [] && name[0..] == name;
    } else {
      var p := l + rest;
      assert p[0] == l[0] && p[1..] == l[1..] + rest;
      assert Compile(p) == [Lit(l[0])] + Compile(l[1..] + rest);
      MatchesLiteralPrefix(l[1..], rest, if name == [] then [] else name[1..]);
      if name != [] && |l| <= |name| {
        assert name[..|l|] == [name[0]] + name[1..][..|l| - 1];
        assert name[1..][|l| - 1..] == name[|l|..];
        assert l == [l[0]] + l[1..];
      }
    }
  }

  /** A pattern starting with the class `[lo-hi]` takes one character in that range. */
  lemma MatchesRangePrefix(lo: char, hi: char, rest: string, name: string)
    ensures Matches([ '[', lo, '-', hi, ']' ] + rest, name)
        <==> name != [] && lo <= name[0] <= hi && Matches(rest, name[1..])
  {
    var p := [ '[', lo, '-', hi, ']' ] + rest;
    assert p[5..] == rest;
    assert Compile(p) == [Range(lo, hi)] + Compile(rest);
  }

  /** A pattern without '[' matches only itself. */
  lemma MatchesLiteral(l: string, name: string)
    requires NoBracket(l)
    ensures Matches(l, name) <==> name == l
  {
    MatchesLiteralPrefix(l, [], name);
    assert l + [] == l;
    if |l| <= |name| {
      assert Compile([]) == [];
      if Matches([], name[|l|..]) {
        assert name == name[..|l|] + name[|l|..];
      }
    }
  }
}
