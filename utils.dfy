/** The helpers of utils.py: the `Task` record and the first-number extraction. */
module Utils {
  import opened Wrappers
  import opened PyStr

  /** One discovered input file: its path and the task number read from it. */
  datatype Task = Task(filename: string, number: nat)

  /** The length of the run of digits at the start of `s`. */
  function RunLength(s: string): (k: nat)
    ensures k <= |s| && AllDigits(s[..k])
    ensures k < |s| ==> !IsDigit(s[k])
    decreases |s|
  {
    if s != [] && IsDigit(s[0]) then
      var k := 1 + RunLength(s[1..]);
      assert s[..k] == [s[0]] + s[1..][..k - 1];
      k
    else 0
  }

  /**
    `get_first_number_from_string`: the value of the leftmost maximal run of
    decimal digits, `None` where the source's `number[0]` would raise because
    the string holds no digit at all.
   */
  function FirstNumber(s: string): Option<nat>
    decreases |s|
  {
    if s == [] then None
    else if IsDigit(s[0]) then Some(DigitsValue(s[..RunLength(s)]))
    else FirstNumber(s[1..])
  }

  /** The extraction fails exactly when the string holds no digit. */
  lemma {:induction false} FirstNumberNone(s: string)
    ensures FirstNumber(s) == None <==> NoDigits(s)
    decreases |s|
  {
    if s != [] && !IsDigit(s[0]) {
      FirstNumberNone(s[1..]);
      assert NoDigits(s) <==> NoDigits(s[1..]) by {
        if NoDigits(s[1..]) {
          forall i | 0 <= i < |s| ensures !IsDigit(s[i]) {
            if i > 0 { assert s[i] == s[1..][i - 1]; }
          }
        }
      }
    }
  }

  /** The whole run is read when it is the end of the string or a non-digit follows it. */
  lemma {:induction false} RunLengthOfRun(run: string, post: string)
    requires |run| > 0 && AllDigits(run)
    requires post == [] || !IsDigit(post[0])
    ensures RunLength(run + post) == |run|
    decreases |run|
  {
    if |run| > 1 {
      RunLengthOfRun(run[1..], post);
      assert (run + post)[1..] == run[1..] + post;
    } else {
      assert (run + post)[1..] == post;
    }
  }

  /**
    The result is the value of the first run of digits: what comes before it
    holds no digit, and what comes after it does not matter.
   */
  lemma {:induction false} FirstNumberOfRun(pre: string, run: string, post: string)
    requires NoDigits(pre)
    requires |run| > 0 && AllDigits(run)
    requires post == [] || !IsDigit(post[0])
    ensures FirstNumber(pre + run + post) == Some(DigitsValue(run))
    decreases |pre|
  {
    if pre == [] {
      assert pre + run + post == run + post;
      RunLengthOfRun(run, post);
      assert (run + post)[..|run|] == run;
    } else {
      assert (pre + run + post)[1..] == pre[1..] + run + post;
      FirstNumberOfRun(pre[1..], run, post);
    }
  }

  /**
    A number written by `str` at the start of the string, followed by a
    non-digit or by nothing, is read back unchanged.
   */
  lemma LeadingNumberRoundTrip(n: nat, post: string)
    requires post == [] || !IsDigit(post[0])
    ensures FirstNumber(NatToString(n) + post) == Some(n)
  {
    NatToStringCanonical(n);
    assert [] + NatToString(n) + post == NatToString(n) + post;
    FirstNumberOfRun([], NatToString(n), post);
  }
}
