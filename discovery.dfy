/**
  How `merge` finds its input files (ctm.py, lines 347-360): the glob pattern
  with the number as the class `[1-9]` is run three times, for one-, two- and
  three-digit numbers, and the number of each match is read at the offset of
  the first `[1-9]` in the pattern.
 */
module Discovery {
  import opened Wrappers
  import opened PyStr
  import opened Glob
  import opened Utils

  const NumberClass := "[1-9]"
  const DigitClass := "[0-9]"

  /** The two extra tiers exactly as the source spells them. */
  const TwoDigitClass := "[1-9][0-9]"
  const ThreeDigitClass := "[1-9][0-9][0-9]"

  /** The found names: matches of each tier, tiers in width order, each tier in listing order. */
  function Discover(listing: seq<string>, pattern: string): (r: seq<string>)
    ensures |r| <= 3 * |listing|
    ensures forall x :: x in r ==> x in listing
  {
    Glob.Glob(listing, pattern)
      + Glob.Glob(listing, Replace(pattern, NumberClass, TwoDigitClass))
      + Glob.Glob(listing, Replace(pattern, NumberClass, ThreeDigitClass))
  }

  /** `pattern.find("[1-9]")`: where the number starts in a found name. */
  function NumberStart(pattern: string): int {
    Find(pattern, NumberClass)
  }

  // ---------------------------------------------------------------------------
  // Patterns of the form L + "[1-9]" + R, with no other bracket in L and R.

  /**
    Text a glob matches only literally, in this model and in `fnmatch` alike:
    no class and no wildcard.
   */
  predicate Plain(s: string) {
    NoBracket(s) && NoWildcard(s)
  }

  /** `k` digit classes in a row. */
  function DigitClasses(k: nat): string {
    if k == 0 then "" else DigitClass + DigitClasses(k - 1)
  }

  /** The class text of tier `w`, a number of `w` digits with no leading zero. */
  function TierClass(w: nat): string
    requires 1 <= w
  {
    NumberClass + DigitClasses(w - 1)
  }

  lemma TierClasses()
    ensures TierClass(1) == NumberClass
    ensures TierClass(2) == TwoDigitClass
    ensures TierClass(3) == ThreeDigitClass
  {
    assert DigitClasses(1) == DigitClass + "";
    assert DigitClasses(2) == DigitClass + DigitClasses(1);
  }

  /** A numeral `str` prints for a positive number: digits, the first not '0'. */
  predicate PositiveNumeral(d: string) {
    |d| > 0 && AllDigits(d) && d[0] != '0'
  }

  /** `name` is L, then a positive numeral of `w` digits, then R. */
  predicate TierName(l: string, r: string, w: nat, name: string) {
    |name| == |l| + w + |r| && name[..|l|] == l && name[|l| + w..] == r
    && PositiveNumeral(name[|l|..|l| + w])
  }

  /** `name` is one that some tier can find. */
  predicate TaskFileName(l: string, r: string, name: string) {
    TierName(l, r, 1, name) || TierName(l, r, 2, name) || TierName(l, r, 3, name)
  }

  /** A text without '[' holds no class, so `find` gives -1 and `replace` leaves it alone. */
  lemma NoBracketNotFound(s: string, c: string)
    requires NoBracket(s) && c != [] && c[0] == '['
    ensures Find(s, c) == -1
  {
    forall i: nat ensures !OccursAt(s, c, i) {
      if i + |c| <= |s| {
        assert s[i..i + |c|][0] == s[i];
      }
    }
  }

  /** The number's offset in the pattern is the length of the literal text before it. */
  lemma NumberStartFramed(l: string, r: string)
    requires NoBracket(l) && NoBracket(r)
    ensures NumberStart(l + NumberClass + r) == |l|
  {
    var p := l + NumberClass + r;
    assert p[|l|..|l| + 5] == NumberClass;
    assert OccursAt(p, NumberClass, |l|);
    forall i: nat | i < |l| ensures !OccursAt(p, NumberClass, i) {
      assert p[i..i + 5][0] == p[i] == l[i];
    }
    var k := Find(p, NumberClass);
    assert k != -1 && !(k < |l|) && !(|l| < k);
  }

  /** Replacing the number class of the pattern puts the tier class in its place. */
  lemma ReplaceFramed(l: string, r: string, rep: string)
    requires NoBracket(l) && NoBracket(r)
    ensures Replace(l + NumberClass + r, NumberClass, rep) == l + rep + r
  {
    ReplaceClassFramed(l, NumberClass, r, rep);
  }

  lemma {:induction false} ReplaceClassFramed(l: string, c: string, r: string, rep: string)
    requires NoBracket(l) && NoBracket(r) && c != [] && c[0] == '['
    ensures Replace(l + c + r, c, rep) == l + rep + r
    decreases |l|
  {
    if l == [] {
      assert l + c + r == c + r;
      ReplaceAtStart(c, r, rep);
      assert l + rep + r == rep + r;
    } else {
      var p := l + c + r;
      assert p[0] == l[0];
      ReplaceSkip(p, c, rep);
      assert p[1..] == l[1..] + c + r;
      ReplaceClassFramed(l[1..], c, r, rep);
      assert l + rep + r == [l[0]] + (l[1..] + rep + r);
    }
  }

  lemma ReplaceAtStart(c: string, r: string, rep: string)
    requires NoBracket(r) && c != [] && c[0] == '['
    ensures Replace(c + r, c, rep) == rep + r
  {
    var p := c + r;
    assert p[..|c|] == c;
    assert p[|c|..] == r;
    NoBracketNotFound(r, c);
    ReplaceNotFound(r, c, rep);
  }

  lemma ReplaceSkip(p: string, c: string, rep: string)
    requires p != [] && p[0] != '[' && c != [] && c[0] == '['
    ensures Replace(p, c, rep) == [p[0]] + Replace(p[1..], c, rep)
  {
    if |c| <= |p| { assert p[..|c|][0] == p[0]; }
  }

  lemma AllDigitsCons(c: char, s: string)
    ensures AllDigits([c] + s) <==> IsDigit(c) && AllDigits(s)
  {
    var d := [c] + s;
    if IsDigit(c) && AllDigits(s) {
      forall i | 0 <= i < |d| ensures IsDigit(d[i]) {
        if i > 0 { assert d[i] == s[i - 1]; }
      }
    }
    if AllDigits(d) {
      forall i | 0 <= i < |s| ensures IsDigit(s[i]) {
        assert d[i + 1] == s[i];
      }
      assert d[0] == c;
    }
  }

  /** `k` digit classes followed by literal text match `k` digits followed by that text. */
  lemma {:induction false} MatchesDigitClasses(k: nat, r: string, u: string)
    requires Plain(r)
    ensures Matches(DigitClasses(k) + r, u) <==> |u| == k + |r| && AllDigits(u[..k]) && u[k..] == r
    decreases k
  {
    if k == 0 {
      assert DigitClasses(0) + r == r;
      MatchesLiteral(r, u);
      assert u[..0] == [] && u[0..] == u;
    } else {
      assert DigitClasses(k) + r == [ '[', '0', '-', '9', ']' ] + (DigitClasses(k - 1) + r);
      MatchesRangePrefix('0', '9', DigitClasses(k - 1) + r, u);
      if u != [] {
        MatchesDigitClasses(k - 1, r, u[1..]);
        if |u| == k + |r| {
          assert u[1..][k - 1..] == u[k..];
          assert u[..k] == [u[0]] + u[1..][..k - 1];
          AllDigitsCons(u[0], u[1..][..k - 1]);
        }
      }
    }
  }

  /** What tier `w` matches: L, then `w` digits without a leading zero, then R. */
  lemma MatchesTier(l: string, r: string, w: nat, name: string)
    requires Plain(l) && Plain(r) && 1 <= w
    ensures Matches(l + TierClass(w) + r, name) <==> TierName(l, r, w, name)
  {
    var tail := TierClass(w) + r;
    assert l + TierClass(w) + r == l + tail;
    MatchesLiteralPrefix(l, tail, name);
    if |l| <= |name| {
      var t := name[|l|..];
      assert tail == [ '[', '1', '-', '9', ']' ] + (DigitClasses(w - 1) + r);
      MatchesRangePrefix('1', '9', DigitClasses(w - 1) + r, t);
      if t != [] {
        MatchesDigitClasses(w - 1, r, t[1..]);
        if |name| == |l| + w + |r| {
          var d := name[|l|..|l| + w];
          assert d == [t[0]] + t[1..][..w - 1];
          assert t[1..][w - 1..] == name[|l| + w..];
          AllDigitsCons(t[0], t[1..][..w - 1]);
        }
      }
    }
  }

  /** The three tier patterns of a pattern L + "[1-9]" + R. */
  lemma TierPatterns(l: string, r: string)
    requires NoBracket(l) && NoBracket(r)
    ensures l + NumberClass + r == l + TierClass(1) + r
    ensures Replace(l + NumberClass + r, NumberClass, TwoDigitClass) == l + TierClass(2) + r
    ensures Replace(l + NumberClass + r, NumberClass, ThreeDigitClass) == l + TierClass(3) + r
  {
    TierClasses();
    ReplaceFramed(l, r, TwoDigitClass);
    ReplaceFramed(l, r, ThreeDigitClass);
  }

  /**
    Discovery finds exactly the task files, each as often as the listing holds
    it: no file is found twice, since the tiers match names of different lengths.
   */
  lemma DiscoverCount(listing: seq<string>, l: string, r: string, x: string)
    requires Plain(l) && Plain(r)
    ensures multiset(Discover(listing, l + NumberClass + r))[x]
         == if TaskFileName(l, r, x) then multiset(listing)[x] else 0
  {
    var p := l + NumberClass + r;
    TierPatterns(l, r);
    MatchesTier(l, r, 1, x);
    MatchesTier(l, r, 2, x);
    MatchesTier(l, r, 3, x);
    var g1 := Glob.Glob(listing, p);
    var g2 := Glob.Glob(listing, Replace(p, NumberClass, TwoDigitClass));
    var g3 := Glob.Glob(listing, Replace(p, NumberClass, ThreeDigitClass));
    assert multiset(g1 + g2 + g3) == multiset(g1) + multiset(g2) + multiset(g3);
  }

  /** The printed number n sits in a task file name exactly when tier-sized and positive. */
  lemma NumeralTier(l: string, r: string, n: nat, w: nat)
    ensures TierName(l, r, w, l + NatToString(n) + r) <==> 1 <= n && |NatToString(n)| == w
  {
    var s := NatToString(n);
    var x := l + s + r;
    NatToStringCanonical(n);
    if |s| == w {
      assert x[..|l|] == l && x[|l| + w..] == r && x[|l|..|l| + w] == s;
      if n == 0 {
        assert s == "0";
      }
    }
  }

  /** Every file named for a task from 1 to 999 is found, as often as it is listed. */
  lemma DiscoverTaskFile(listing: seq<string>, l: string, r: string, n: nat)
    requires Plain(l) && Plain(r)
    requires 1 <= n <= 999
    ensures multiset(Discover(listing, l + NumberClass + r))[l + NatToString(n) + r]
         == multiset(listing)[l + NatToString(n) + r]
  {
    DiscoverCount(listing, l, r, l + NatToString(n) + r);
    NatToStringWidth(n);
    NumeralTier(l, r, n, |NatToString(n)|);
  }

  /** A tier name from offset |L| on is its numeral followed by R. */
  lemma TierSlice(l: string, r: string, w: nat, x: string)
    requires TierName(l, r, w, x)
    ensures SliceFrom(x, |l|) == [] + x[|l|..|l| + w] + r
    ensures x == l + x[|l|..|l| + w] + r
  {
    var d := x[|l|..|l| + w];
    var t := x[|l|..];
    assert t[..w] == d && t[w..] == r;
    assert t == t[..w] + t[w..];
    assert x == x[..|l|] + t;
  }

  /** Reading the number of a tier name at the end of L gives its numeral's value. */
  lemma TierNameNumber(l: string, r: string, w: nat, x: string)
    requires 1 <= w <= 3 && TierName(l, r, w, x)
    requires r == [] || !IsDigit(r[0])
    ensures FirstNumber(SliceFrom(x, |l|)).Some?
    ensures var n := FirstNumber(SliceFrom(x, |l|)).value;
      1 <= n <= 999 && x == l + NatToString(n) + r
  {
    var d := x[|l|..|l| + w];
    TierSlice(l, r, w, x);
    assert NoDigits([]);
    FirstNumberOfRun([], d, r);
    var n := DigitsValue(d);
    assert Canonical(d);
    CanonicalRoundTrip(d);
    PositiveValue(d);
    NatToStringWidth(n);
  }

  /**
    Every found name is the name of one task from 1 to 999, and reading the
    first number at the pattern's number offset gives that task, provided R
    does not start with a digit.
   */
  lemma FoundNameNumber(listing: seq<string>, l: string, r: string, x: string)
    requires Plain(l) && Plain(r)
    requires r == [] || !IsDigit(r[0])
    requires x in Discover(listing, l + NumberClass + r)
    ensures FirstNumber(SliceFrom(x, NumberStart(l + NumberClass + r))).Some?
    ensures var n := FirstNumber(SliceFrom(x, NumberStart(l + NumberClass + r))).value;
      1 <= n <= 999 && x == l + NatToString(n) + r
  {
    DiscoverCount(listing, l, r, x);
    NumberStartFramed(l, r);
    if TierName(l, r, 1, x) {
      TierNameNumber(l, r, 1, x);
    } else if TierName(l, r, 2, x) {
      TierNameNumber(l, r, 2, x);
    } else {
      TierNameNumber(l, r, 3, x);
    }
  }
}
