/** The string formatting the tools and the relay rely on: `str.join`, the
    decimal rendering that f-strings apply to an `int`, and substring search. */
module Text {

  /** `sep.join(lines)`. */
  function Join(sep: string, lines: seq<string>): (r: string)
    ensures |lines| == 1 ==> r == lines[0]
    ensures |lines| == 0 ==> r == ""
  {
    if |lines| == 0 then ""
    else if |lines| == 1 then lines[0]
    else lines[0] + sep + Join(sep, lines[1..])
  }

  predicate IsDigit(c: char) {
    '0' <= c <= '9'
  }

  function DigitChar(d: nat): (c: char)
    requires d < 10
    ensures IsDigit(c)
  {
    "0123456789"[d]
  }

  function DigitValue(c: char): (d: nat)
    requires IsDigit(c)
    ensures d < 10
  {
    (c as int) - ('0' as int)
  }

  lemma DigitRoundTrip(d: nat)
    requires d < 10
    ensures DigitValue(DigitChar(d)) == d
  {
  }

  /** The decimal rendering of a natural number: no sign, no leading zero. */
  function NatToString(n: nat): (s: string)
    ensures |s| > 0
    ensures forall i :: 0 <= i < |s| ==> IsDigit(s[i])
    ensures |s| > 1 ==> s[0] != '0'
    decreases n
  {
    if n < 10 then [DigitChar(n)]
    else NatToString(n / 10) + [DigitChar(n % 10)]
  }

  /** The value of a non-empty string of decimal digits: the reading of `NatToString`. */
  function ParseNat(s: string): (n: nat)
    requires forall i :: 0 <= i < |s| ==> IsDigit(s[i])
    decreases |s|
  {
    if |s| == 0 then 0
    else 10 * ParseNat(s[..|s| - 1]) + DigitValue(s[|s| - 1])
  }

  /** Rendering a number in decimal loses nothing: reading it back gives the number. */
  lemma {:induction false} NatToStringRoundTrip(n: nat)
    ensures ParseNat(NatToString(n)) == n
    decreases n
  {
    var s := NatToString(n);
    if n < 10 {
      DigitRoundTrip(n);
    } else {
      var p := NatToString(n / 10);
      assert s[..|s| - 1] == p;
      DigitRoundTrip(n % 10);
      NatToStringRoundTrip(n / 10);
    }
  }

  /** `str(n)` for a Python `int`. */
  function IntToString(n: int): (s: string)
    ensures |s| > 0
    ensures n >= 0 ==> s == NatToString(n)
    ensures n < 0 ==> s[0] == '-' && s[1..] == NatToString(-n)
  {
    if n >= 0 then NatToString(n) else "-" + NatToString(-n)
  }

  /** `sub` occurs in `s` starting at index `i`. */
  predicate OccursAt(s: string, sub: string, i: int) {
    0 <= i && i + |sub| <= |s| && s[i..i + |sub|] == sub
  }

  /** `sub in s`. */
  predicate Contains(s: string, sub: string) {
    exists i | 0 <= i <= |s| :: OccursAt(s, sub, i)
  }

  /** A string contains every piece it was concatenated from. */
  lemma ContainsMiddle(pre: string, sub: string, post: string)
    ensures Contains(pre + sub + post, sub)
  {
    var s := pre + sub + post;
    assert OccursAt(s, sub, |pre|);
  }

  /** Putting text in front of a string keeps what it contains. */
  lemma ContainsAfterPrefix(pre: string, s: string, sub: string)
    requires Contains(s, sub)
    ensures Contains(pre + s, sub)
  {
    var i :| 0 <= i <= |s| && OccursAt(s, sub, i);
    assert (pre + s)[|pre| + i..|pre| + i + |sub|] == s[i..i + |sub|];
    assert OccursAt(pre + s, sub, |pre| + i);
  }

  /** A string built from five pieces contains its second and fourth pieces. */
  lemma ContainsPieces(p: string, a: string, q: string, b: string, t: string)
    ensures Contains(p + a + q + b + t, a) && Contains(p + a + q + b + t, b)
  {
    var s := p + a + q + b + t;
    assert s[|p|..|p| + |a|] == a;
    assert OccursAt(s, a, |p|);
    assert s[|p + a + q|..|p + a + q| + |b|] == b;
    assert OccursAt(s, b, |p + a + q|);
  }

  lemma ContainsSelf(s: string)
    ensures Contains(s, s)
  {
    assert s[0..|s|] == s;
    assert OccursAt(s, s, 0);
  }

  lemma ContainsPrefix(a: string, b: string)
    ensures Contains(a + b, a)
  {
    assert (a + b)[0..|a|] == a;
    assert OccursAt(a + b, a, 0);
  }

  /** Every line of a joined list occurs in the result. */
  lemma {:induction false} JoinContainsLine(sep: string, lines: seq<string>, k: nat)
    requires k < |lines|
    ensures Contains(Join(sep, lines), lines[k])
    decreases |lines|
  {
    if |lines| == 1 {
      ContainsSelf(lines[0]);
    } else {
      var tail := Join(sep, lines[1..]);
      assert Join(sep, lines) == lines[0] + (sep + tail);
      if k == 0 {
        ContainsPrefix(lines[0], sep + tail);
      } else {
        JoinContainsLine(sep, lines[1..], k - 1);
        assert lines[1..][k - 1] == lines[k];
        ContainsAfterPrefix(lines[0] + sep, tail, lines[k]);
        assert lines[0] + sep + tail == Join(sep, lines);
      }
    }
  }
}
