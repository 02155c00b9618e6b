/**
  The handful of Python string operations the tool relies on: `str.find`,
  `str.endswith`, `str.replace`, slicing with a start index, `"-" * n`,
  `str(int)` and the decimal reading of a run of digits done by `int(...)`.
 */
module PyStr {

  /** An ASCII decimal digit. */
  predicate IsDigit(c: char) {
    '0' <= c <= '9'
  }

  predicate AllDigits(s: string) {
    forall i :: 0 <= i < |s| ==> IsDigit(s[i])
  }

  predicate NoDigits(s: string) {
    forall i :: 0 <= i < |s| ==> !IsDigit(s[i])
  }

  /** `sub` occurs in `s` starting at index `i`. */
  predicate OccursAt(s: string, sub: string, i: nat) {
    i + |sub| <= |s| && s[i..i + |sub|] == sub
  }

  /** `str.find`: the lowest index at which `sub` occurs in `s`, or -1. */
  function Find(s: string, sub: string): (r: int)
    ensures r == -1 <==> forall i: nat :: !OccursAt(s, sub, i)
    ensures r != -1 ==> 0 <= r && OccursAt(s, sub, r)
    ensures r != -1 ==> forall i: nat :: i < r ==> !OccursAt(s, sub, i)
  {
    FindFrom(s, sub, 0)
  }

  /** The scan behind `Find`, from index `lo` on. */
  function FindFrom(s: string, sub: string, lo: nat): (r: int)
    ensures r == -1 <==> forall i: nat :: lo <= i ==> !OccursAt(s, sub, i)
    ensures r != -1 ==> lo <= r && OccursAt(s, sub, r)
    ensures r != -1 ==> forall i: nat :: lo <= i < r ==> !OccursAt(s, sub, i)
    decreases |s| - lo
  {
    if lo + |sub| > |s| then -1
    else if OccursAt(s, sub, lo) then lo
    else FindFrom(s, sub, lo + 1)
  }

  /** An occurrence anywhere makes `find` succeed. */
  lemma FoundAt(s: string, sub: string, i: nat)
    requires OccursAt(s, sub, i)
    ensures Find(s, sub) != -1
  {
  }

  /** `s.endswith(suffix)`. */
  predicate EndsWith(s: string, suffix: string) {
    |suffix| <= |s| && s[|s| - |suffix|..] == suffix
  }

  /**
    The extension rule shared by all three commands: `ext` is appended exactly
    when the name does not already end with it and appending was not switched off.
   */
  function WithExtension(name: string, ext: string, ignore: bool): (r: string)
    ensures !ignore ==> EndsWith(r, ext)
    ensures !EndsWith(name, ext) && !ignore ==> r == name + ext
    ensures EndsWith(name, ext) || ignore ==> r == name
  {
    if !EndsWith(name, ext) && !ignore then name + ext else name
  }

  /** `s.replace(pat, rep)`: every non-overlapping occurrence, scanning from the left. */
  function Replace(s: string, pat: string, rep: string): string
    requires |pat| > 0
    decreases |s|
  {
    if OccursAt(s, pat, 0) then rep + Replace(s[|pat|..], pat, rep)
    else if |s| == 0 then []
    else [s[0]] + Replace(s[1..], pat, rep)
  }

  /** A text in which `find` does not see the pattern is left as it is. */
  lemma {:induction false} ReplaceNotFound(s: string, pat: string, rep: string)
    requires |pat| > 0 && Find(s, pat) == -1
    ensures Replace(s, pat, rep) == s
    decreases |s|
  {
    if s != [] {
      assert !OccursAt(s, pat, 0);
      forall i: nat ensures !OccursAt(s[1..], pat, i) {
        assert !OccursAt(s, pat, i + 1);
        if i + |pat| <= |s| - 1 {
          assert s[1..][i..i + |pat|] == s[i + 1..i + 1 + |pat|];
        }
      }
      ReplaceNotFound(s[1..], pat, rep);
      assert s == [s[0]] + s[1..];
    }
  }

  /**
    Python's reading of a slice start for a text of length `n`: a negative
    start counts from the end, and the result is clamped to `0..n`.
   */
  function SliceStart(n: nat, start: int): (k: nat)
    ensures k <= n
    ensures 0 <= start ==> k == (if start < n then start else n)
    ensures start < 0 ==> k == (if n + start > 0 then n + start else 0)
  {
    if start < 0 then (if n + start > 0 then n + start else 0)
    else if start < n then start else n
  }

  /** `s[start:]`: the suffix of `s` that starts at the normalised start index. */
  function SliceFrom(s: string, start: int): (r: string)
    ensures |r| == |s| - SliceStart(|s|, start)
    ensures r == s[|s| - |r|..]
  {
    if start >= 0 then (if start <= |s| then s[start..] else [])
    else if -start < |s| then s[|s| + start..]
    else s
  }

  /** `"-" * n`: `n` dashes, none when `n` is zero or negative. */
  function Dashes(n: int): (r: string)
    ensures |r| == if n > 0 then n else 0
    ensures forall i :: 0 <= i < |r| ==> r[i] == '-'
  {
    if n <= 0 then "" else Dashes(n - 1) + "-"
  }

  /** The character of a digit value. */
  function DigitChar(d: nat): (c: char)
    requires d < 10
    ensures IsDigit(c)
  {
    "0123456789"[d]
  }

  /** The value of a digit character. */
  function DigitValue(c: char): (d: nat)
    requires IsDigit(c)
    ensures d < 10 && DigitChar(d) == c
  {
    c as int - '0' as int
  }

  /** The decimal value of a string of digits, most significant digit first. */
  function DigitsValue(s: string): nat
    requires AllDigits(s)
  {
    if s == [] then 0 else DigitsValue(s[..|s| - 1]) * 10 + DigitValue(s[|s| - 1])
  }

  /** `str(n)` for a non-negative integer: no sign, no leading zero. */
  function NatToString(n: nat): string
  {
    if n < 10 then [DigitChar(n)] else NatToString(n / 10) + [DigitChar(n % 10)]
  }

  /** `str(i)` for any integer. */
  function IntToString(i: int): (r: string)
    ensures i >= 0 ==> Canonical(r) && DigitsValue(r) == i
    ensures i < 0 ==> |r| > 1 && r[0] == '-' && Canonical(r[1..]) && DigitsValue(r[1..]) == -i
  {
    if i < 0 then
      NatToStringCanonical(-i);
      assert ("-" + NatToString(-i))[1..] == NatToString(-i);
      "-" + NatToString(-i)
    else
      NatToStringCanonical(i);
      NatToString(i)
  }

  /** A digit string as `str` writes it: non-empty, no leading zero unless it is "0". */
  predicate Canonical(s: string) {
    |s| > 0 && AllDigits(s) && (s[0] == '0' ==> |s| == 1)
  }

  lemma {:induction false} NatToStringCanonical(n: nat)
    ensures Canonical(NatToString(n))
    ensures DigitsValue(NatToString(n)) == n
    ensures n > 0 ==> NatToString(n)[0] != '0'
    decreases n
  {
    if n >= 10 {
      NatToStringCanonical(n / 10);
      var s := NatToString(n);
      assert s[..|s| - 1] == NatToString(n / 10);
    }
  }

  /** `str` and `int` are inverse on canonical digit strings. */
  lemma {:induction false} CanonicalRoundTrip(s: string)
    requires Canonical(s)
    ensures NatToString(DigitsValue(s)) == s
    decreases |s|
  {
    if |s| > 1 {
      var p := s[..|s| - 1];
      assert p[0] == s[0];
      CanonicalRoundTrip(p);
      PositiveValue(p);
      AppendDigit(DigitsValue(p), s[|s| - 1]);
      assert s == p + [s[|s| - 1]];
    }
  }

  /** Appending a digit to the numeral of a positive number multiplies it by ten and adds the digit. */
  lemma AppendDigit(a: nat, c: char)
    requires a > 0 && IsDigit(c)
    ensures NatToString(a * 10 + DigitValue(c)) == NatToString(a) + [c]
  {
    var v := a * 10 + DigitValue(c);
    assert v / 10 == a && v % 10 == DigitValue(c);
  }

  /** A digit string not starting with '0' has a positive value. */
  lemma {:induction false} PositiveValue(s: string)
    requires AllDigits(s) && |s| > 0 && s[0] != '0'
    ensures DigitsValue(s) > 0
    decreases |s|
  {
    if |s| > 1 {
      PositiveValue(s[..|s| - 1]);
    }
  }

  /** The number of characters of `str(n)` for the widths the glob tiers cover. */
  lemma NatToStringWidth(n: nat)
    ensures |NatToString(n)| == 1 <==> n < 10
    ensures |NatToString(n)| == 2 <==> 10 <= n < 100
    ensures |NatToString(n)| == 3 <==> 100 <= n < 1000
  {
    if n >= 10 {
      if n >= 100 {
        if n >= 1000 {
          LongerWidth(n / 10);
        }
      }
    }
  }

  lemma {:induction false} LongerWidth(n: nat)
    requires n >= 100
    ensures |NatToString(n)| >= 3
    decreases n
  {
    if n >= 1000 {
      LongerWidth(n / 10);
    } else {
      assert NatToString(n) == NatToString(n / 10 / 10) + [DigitChar(n / 10 % 10)] + [DigitChar(n % 10)];
    }
  }
}
