/**
 * The few JavaScript built-ins the controller leans on, restricted to the
 * values it hands them: the decimal rendering of an integral Number (what
 * `replace` inserts for a number), a strict decimal reading that inverts it,
 * and `String.prototype.replace` with a string pattern, which replaces only
 * the first occurrence.
 */
module JsStrings {
  import opened Wrappers

  predicate IsDigit(c: char) {
    '0' <= c <= '9'
  }

  predicate AllDigits(s: string) {
    forall i :: 0 <= i < |s| ==> IsDigit(s[i])
  }

  function DigitChar(d: nat): (c: char)
    requires d < 10
    ensures IsDigit(c)
  {
    (('0' as int) + d) as char
  }

  function DigitValue(c: char): (d: nat)
    requires IsDigit(c)
    ensures d < 10
  {
    (c as int) - ('0' as int)
  }

  /** Decimal rendering of a non-negative integer, without leading zeros. */
  function NatToString(n: nat): (s: string)
    ensures |s| >= 1 && AllDigits(s)
    ensures s[0] == '0' ==> n == 0 && s == "0"
  {
    if n < 10 then [DigitChar(n)] else NatToString(n / 10) + [DigitChar(n % 10)]
  }

  /** `String(n)` for an integral Number `n`: a minus sign, then the digits. */
  function IntToString(i: int): (s: string)
    ensures |s| >= 1
    ensures forall k :: 0 <= k < |s| ==> s[k] == '-' || IsDigit(s[k])
    ensures (s[0] == '-') <==> i < 0
  {
    if i < 0 then "-" + NatToString(-i) else NatToString(i)
  }

  /** The value of a string of decimal digits, most significant first. */
  function DigitsValue(s: string): nat
    requires AllDigits(s)
  {
    if s == [] then 0 else DigitsValue(s[..|s| - 1]) * 10 + DigitValue(s[|s| - 1])
  }

  /** Reads an optionally signed decimal integer; `None` for any other text. */
  function ParseDecimal(s: string): Option<int> {
    if |s| >= 1 && s[0] == '-' then
      if |s| >= 2 && AllDigits(s[1..]) then Some(0 - DigitsValue(s[1..])) else None
    else if |s| >= 1 && AllDigits(s) then Some(DigitsValue(s))
    else None
  }

  lemma {:induction false} NatToStringRoundTrip(n: nat)
    ensures DigitsValue(NatToString(n)) == n
  {
    if n >= 10 {
      var s := NatToString(n);
      assert s[..|s| - 1] == NatToString(n / 10);
      NatToStringRoundTrip(n / 10);
    }
  }

  /** Reading back what `IntToString` renders gives the number again. */
  lemma IntToStringRoundTrip(i: int)
    ensures ParseDecimal(IntToString(i)) == Some(i)
  {
    var s := IntToString(i);
    if i < 0 {
      assert s[1..] == NatToString(-i);
      NatToStringRoundTrip(-i);
    } else {
      NatToStringRoundTrip(i);
    }
  }

  /** The rendering is injective: different numbers never share a text. */
  lemma IntToStringInjective(i: int, j: int)
    requires IntToString(i) == IntToString(j)
    ensures i == j
  {
    IntToStringRoundTrip(i);
    IntToStringRoundTrip(j);
  }

  /**
   * `s.replace(pat, rep)` for a string `pat`: the leftmost occurrence of
   * `pat` is replaced by `rep`; without an occurrence `s` is returned as is.
   * An empty `pat` matches at the start.
   */
  function ReplaceFirst(s: string, pat: string, rep: string): string
    decreases |s|
  {
    if |pat| > |s| then s
    else if s[..|pat|] == pat then rep + s[|pat|..]
    else [s[0]] + ReplaceFirst(s[1..], pat, rep)
  }

  /**
   * When the first character of `pat` does not occur before an occurrence of
   * `pat`, that occurrence is the one replaced.
   */
  lemma {:induction false} ReplaceFirstAt(pre: string, pat: string, rep: string, post: string)
    requires |pat| > 0 && pat[0] !in pre
    ensures ReplaceFirst(pre + pat + post, pat, rep) == pre + rep + post
  {
    var s := pre + pat + post;
    assert |pat| <= |s|;
    if pre == [] {
      assert s == pat + post;
      assert s[..|pat|] == pat && s[|pat|..] == post;
    } else {
      assert s[..|pat|][0] == pre[0] != pat[0];
      assert s[1..] == pre[1..] + pat + post;
      ReplaceFirstAt(pre[1..], pat, rep, post);
      assert ReplaceFirst(s, pat, rep) == [pre[0]] + (pre[1..] + rep + post);
      assert [pre[0]] + (pre[1..] + rep + post) == pre + rep + post;
    }
  }

  /** `pat` occurs in `s` starting at index `k`. */
  predicate OccursAt(s: string, pat: string, k: int) {
    0 <= k && k + |pat| <= |s| && s[k..k + |pat|] == pat
  }

  /** An occurrence in the tail of `s` is an occurrence in `s`, one index later. */
  lemma OccursInTail(s: string, pat: string, k: int)
    requires |s| > 0
    ensures OccursAt(s[1..], pat, k) ==> OccursAt(s, pat, k + 1)
  {
    if OccursAt(s[1..], pat, k) {
      assert s[k + 1..k + 1 + |pat|] == s[1..][k..k + |pat|];
    }
  }

  /** A string in which `pat` occurs nowhere is left unchanged. */
  lemma {:induction false} ReplaceFirstAbsent(s: string, pat: string, rep: string)
    requires forall k :: !OccursAt(s, pat, k)
    ensures ReplaceFirst(s, pat, rep) == s
  {
    if |pat| <= |s| {
      assert !OccursAt(s, pat, 0);
      assert s[..|pat|] != pat;
      forall k | true
        ensures !OccursAt(s[1..], pat, k)
      {
        OccursInTail(s, pat, k);
        assert !OccursAt(s, pat, k + 1);
      }
      ReplaceFirstAbsent(s[1..], pat, rep);
    }
  }

  /** In `a + sep + b`, the first character of `sep` first appears at index `|a|`. */
  lemma FirstSeparator(a: string, sep: string, b: string)
    requires |sep| > 0 && sep[0] !in a
    ensures (a + sep + b)[|a|] == sep[0]
    ensures forall i :: 0 <= i < |a| ==> (a + sep + b)[i] != sep[0]
  {
    forall i | 0 <= i < |a|
      ensures (a + sep + b)[i] != sep[0]
    {
      assert (a + sep + b)[i] == a[i];
    }
  }

  /**
   * A separator whose first character occurs in neither left part splits a
   * concatenation in one way only.
   */
  lemma SplitUnique(a: string, sep: string, b: string, c: string, d: string)
    requires |sep| > 0 && sep[0] !in a && sep[0] !in c
    requires a + sep + b == c + sep + d
    ensures a == c && b == d
  {
    var s := a + sep + b;
    FirstSeparator(a, sep, b);
    FirstSeparator(c, sep, d);
    assert |a| == |c|;
    assert a == s[..|a|] == c;
    assert b == s[|a| + |sep|..] == d;
  }
}
