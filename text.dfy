/** String helpers the alert bot relies on: substring search and decimal rendering. */
module Text {

  /** `pat` sits in `s` starting at index `i`. */
  ghost predicate OccursAt(s: string, pat: string, i: int)
  {
    0 <= i && i + |pat| <= |s| && s[i..i + |pat|] == pat
  }

  /** The meaning of `pat in s` on strings: some index where `pat` starts. */
  ghost predicate Occurs(s: string, pat: string)
  {
    exists i :: OccursAt(s, pat, i)
  }

  /** When `pat` does not start at index 0, it occurs in `s` exactly when it occurs in `s[1..]`. */
  lemma OccursShift(s: string, pat: string)
    requires |s| >= |pat| && s[..|pat|] != pat
    ensures Occurs(s, pat) <==> Occurs(s[1..], pat)
  {
    if Occurs(s, pat) {
      var i :| OccursAt(s, pat, i);
      assert i != 0;
      assert s[1..][i - 1..i - 1 + |pat|] == s[i..i + |pat|];
      assert OccursAt(s[1..], pat, i - 1);
    }
    if Occurs(s[1..], pat) {
      var j :| OccursAt(s[1..], pat, j);
      assert s[j + 1..j + 1 + |pat|] == s[1..][j..j + |pat|];
      assert OccursAt(s, pat, j + 1);
    }
  }

  /** Substring search, scanning `s` from the left: true exactly when `pat` occurs in `s`. */
  function Contains(s: string, pat: string): (r: bool)
    ensures r <==> Occurs(s, pat)
    decreases |s|
  {
    if |s| < |pat| then
      assert forall i :: !OccursAt(s, pat, i);
      false
    else if s[..|pat|] == pat then
      assert OccursAt(s, pat, 0);
      true
    else
      OccursShift(s, pat);
      Contains(s[1..], pat)
  }

  /** A string lacking the first character of a pattern does not contain the pattern. */
  lemma AbsentFirstCharNotContained(s: string, pat: string)
    requires |pat| > 0 && pat[0] !in s
    ensures !Contains(s, pat)
  {
  }

  predicate IsDigit(c: char)
  {
    '0' <= c <= '9'
  }

  function DigitChar(d: nat): (c: char)
    requires d < 10
    ensures IsDigit(c) && c as int - '0' as int == d
  {
    ('0' as int + d) as char
  }

  /** Decimal text of a natural number, without leading zeros (Python's `str` on an int). */
  function DecimalText(n: nat): (r: string)
    ensures |r| > 0
    ensures forall i :: 0 <= i < |r| ==> IsDigit(r[i])
    ensures n < 10 <==> |r| == 1
    decreases n
  {
    if n < 10 then [DigitChar(n)] else DecimalText(n / 10) + [DigitChar(n % 10)]
  }

  /**
   * A string made of a prefix, an underscore and a digit string splits in one way only:
   * the digits hold no underscore, so the last underscore marks the boundary.
   */
  lemma SplitBeforeDigits(a1: string, t1: string, a2: string, t2: string)
    requires forall i :: 0 <= i < |t1| ==> IsDigit(t1[i])
    requires forall i :: 0 <= i < |t2| ==> IsDigit(t2[i])
    requires a1 + "_" + t1 == a2 + "_" + t2
    ensures a1 == a2 && t1 == t2
  {
    var k := a1 + "_" + t1;
    assert k[|a1|] == '_' && k[|a2|] == '_';
    assert forall j :: |a1| < j < |k| ==> k[j] == t1[j - |a1| - 1];
    assert forall j :: |a2| < j < |k| ==> k[j] == t2[j - |a2| - 1];
    assert |a1| == |a2|;
    assert a1 == k[..|a1|] == a2;
    assert t1 == k[|a1| + 1..] == t2;
  }

  /** Reference reading of a digit string as a number, most significant digit first. */
  function DecimalValue(s: string): nat
    requires forall i :: 0 <= i < |s| ==> IsDigit(s[i])
  {
    if s == [] then 0
    else
      assert IsDigit(s[|s| - 1]);
      DecimalValue(s[..|s| - 1]) * 10 + (s[|s| - 1] as int - '0' as int)
  }

  /** Reading the rendered text gives the number back, so different numbers have different texts. */
  lemma {:induction false} DecimalRoundTrip(n: nat)
    ensures DecimalValue(DecimalText(n)) == n
    decreases n
  {
    var r := DecimalText(n);
    if n >= 10 {
      DecimalRoundTrip(n / 10);
      assert r[..|r| - 1] == DecimalText(n / 10);
    }
  }

  lemma DecimalTextInjective(m: nat, n: nat)
    requires DecimalText(m) == DecimalText(n)
    ensures m == n
  {
    DecimalRoundTrip(m);
    DecimalRoundTrip(n);
  }
}
