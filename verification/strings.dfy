/**
 * The few pieces of Python's `str` behaviour the pipeline relies on:
 * `isspace`, `strip`, `startswith`, `endswith`, `in`, `find`, `rfind`,
 * `replace`, `join`, head slicing `s[:m]` and `str()` of an integer.
 */
module Strings {

  /** Python's `str.isspace` for one character (the Unicode whitespace set). */
  predicate IsSpace(c: char) {
    || ('\t' <= c <= '\r')
    || ('\U{1C}' <= c <= '\U{1F}')
    || c == ' ' || c == '\U{85}' || c == '\U{A0}' || c == '\U{1680}'
    || ('\U{2000}' <= c <= '\U{200A}')
    || c == '\U{2028}' || c == '\U{2029}' || c == '\U{202F}' || c == '\U{205F}'
    || c == '\U{3000}'
  }

  /** No whitespace at either end: what `strip()` leaves behind. */
  predicate Stripped(s: string) {
    s == [] || (!IsSpace(s[0]) && !IsSpace(s[|s| - 1]))
  }

  /** The number of whitespace characters `lstrip()` removes. */
  function LeadingSpaces(s: string): (k: nat)
    ensures k <= |s|
    ensures forall i :: 0 <= i < k ==> IsSpace(s[i])
    ensures k < |s| ==> !IsSpace(s[k])
  {
    if s != [] && IsSpace(s[0]) then 1 + LeadingSpaces(s[1..]) else 0
  }

  /** The length `rstrip()` keeps. */
  function TrailingCut(s: string): (k: nat)
    ensures k <= |s|
    ensures forall i :: k <= i < |s| ==> IsSpace(s[i])
    ensures 0 < k ==> !IsSpace(s[k - 1])
  {
    if s != [] && IsSpace(s[|s| - 1]) then TrailingCut(s[..|s| - 1]) else |s|
  }

  /** `s.strip()`: the longest infix of `s` with no whitespace at either end. */
  function Strip(s: string): (r: string)
    ensures Stripped(r)
    ensures |r| <= |s|
    ensures var a := LeadingSpaces(s);
            && a + |r| <= |s| && r == s[a..a + |r|]
            && (forall i :: 0 <= i < a ==> IsSpace(s[i]))
            && (forall i :: a + |r| <= i < |s| ==> IsSpace(s[i]))
  {
    var a := LeadingSpaces(s);
    var b := TrailingCut(s[a..]);
    StripKeepsNoSpaceAtEnds(s, a, b);
    StripDropsOnlySpaceAtEnd(s, a, b);
    s[a..a + b]
  }

  lemma StripKeepsNoSpaceAtEnds(s: string, a: nat, b: nat)
    requires a + b <= |s|
    requires a < |s| ==> !IsSpace(s[a])
    requires 0 < b ==> !IsSpace(s[a..][b - 1])
    ensures Stripped(s[a..a + b])
  {
    if 0 < b {
      assert s[a..a + b][0] == s[a] && s[a..a + b][b - 1] == s[a..][b - 1];
    }
  }

  lemma StripDropsOnlySpaceAtEnd(s: string, a: nat, b: nat)
    requires a + b <= |s|
    requires forall i :: b <= i < |s[a..]| ==> IsSpace(s[a..][i])
    ensures forall i :: a + b <= i < |s| ==> IsSpace(s[i])
  {
    forall i | a + b <= i < |s|
      ensures IsSpace(s[i])
    {
      assert s[i] == s[a..][i - a];
    }
  }

  /** A stripped string is its own strip. */
  lemma {:induction false} StripStripped(s: string)
    requires Stripped(s)
    ensures Strip(s) == s
  {
    if s != [] {
      assert LeadingSpaces(s) == 0;
      assert TrailingCut(s) == |s|;
    }
  }

  /** Only whitespace, or nothing: what `not s.strip()` tests. */
  predicate Blank(s: string) {
    forall i :: 0 <= i < |s| ==> IsSpace(s[i])
  }

  /** The strip of a string is empty exactly when the string is all whitespace. */
  lemma StripEmptyIffAllSpace(s: string)
    ensures Strip(s) == [] <==> Blank(s)
  {
    if Strip(s) != [] {
      var a := LeadingSpaces(s);
      assert s[a] == Strip(s)[0];
    }
  }

  /** `s.startswith(p)` */
  predicate StartsWith(s: string, p: string) {
    |p| <= |s| && s[..|p|] == p
  }

  /** `s.endswith(p)` */
  predicate EndsWith(s: string, p: string) {
    |p| <= |s| && s[|s| - |p|..] == p
  }

  /** `p in s` */
  predicate Contains(s: string, p: string)
    decreases |s|
  {
    StartsWith(s, p) || (s != [] && Contains(s[1..], p))
  }

  /** `s.find(c)` for one character: the first index of `c`, or -1. */
  function Find(s: string, c: char): (r: int)
    ensures -1 <= r < |s|
    ensures r == -1 <==> c !in s
    ensures r >= 0 ==> s[r] == c && c !in s[..r]
  {
    if s == [] then -1
    else if s[0] == c then 0
    else
      var k := Find(s[1..], c);
      assert s[1..][..k + 1] == s[1..k + 2] by {}
      if k < 0 then -1 else k + 1
  }

  /** `s.rfind(c)` for one character: the last index of `c`, or -1. */
  function RFind(s: string, c: char): (r: int)
    ensures -1 <= r < |s|
    ensures r == -1 <==> c !in s
    ensures r >= 0 ==> s[r] == c
    ensures forall i :: r < i < |s| ==> s[i] != c
  {
    if s == [] then -1
    else if s[|s| - 1] == c then |s| - 1
    else
      var k := RFind(s[..|s| - 1], c);
      assert forall i :: 0 <= i < |s| - 1 ==> s[..|s| - 1][i] == s[i];
      k
  }

  /**
   * `s.replace(pat, rep)`: every non-overlapping occurrence of `pat`,
   * scanning left to right, is replaced.
   */
  function ReplaceAll(s: string, pat: string, rep: string): (r: string)
    requires pat != [] && rep != []
    ensures s == [] <==> r == []
    ensures s != [] ==> r[0] == s[0] || r[0] == rep[0]
    ensures s != [] ==> r[|r| - 1] == s[|s| - 1] || r[|r| - 1] == rep[|rep| - 1]
    decreases |s|
  {
    if s == [] then []
    else if StartsWith(s, pat) then rep + ReplaceAll(s[|pat|..], pat, rep)
    else [s[0]] + ReplaceAll(s[1..], pat, rep)
  }

  /** Text before the first character of the pattern is copied unchanged. */
  lemma {:induction false} ReplaceAllPlainPrefix(p: string, t: string, pat: string, rep: string)
    requires pat != [] && rep != [] && pat[0] !in p
    ensures ReplaceAll(p + t, pat, rep) == p + ReplaceAll(t, pat, rep)
    decreases |p|
  {
    if p == [] {
      assert p + t == t;
    } else {
      var s := p + t;
      assert s[0] == p[0] != pat[0];
      assert !StartsWith(s, pat);
      assert s[1..] == p[1..] + t;
      ReplaceAllPlainPrefix(p[1..], t, pat, rep);
      assert [p[0]] + (p[1..] + ReplaceAll(t, pat, rep)) == ([p[0]] + p[1..]) + ReplaceAll(t, pat, rep);
      assert [p[0]] + p[1..] == p;
    }
  }

  /** The pattern alone becomes the replacement. */
  lemma ReplaceAllWhole(pat: string, rep: string)
    requires pat != [] && rep != []
    ensures ReplaceAll(pat, pat, rep) == rep
  {
    assert StartsWith(pat, pat);
    assert pat[|pat|..] == [];
    assert rep + [] == rep;
  }

  /** `sep.join(parts)` */
  function Join(sep: string, parts: seq<string>): string {
    if parts == [] then []
    else if |parts| == 1 then parts[0]
    else parts[0] + sep + Join(sep, parts[1..])
  }

  /**
   * Python's head slice `s[:m]`: a negative `m` counts from the end and
   * an `m` past the end keeps everything.
   */
  function Head<T>(s: seq<T>, m: int): (r: seq<T>)
    ensures 0 <= m ==> r == s[..if m < |s| then m else |s|]
    ensures m < 0 ==> r == s[..if -m < |s| then |s| + m else 0]
  {
    if m >= |s| then s
    else if m >= 0 then s[..m]
    else if -m < |s| then s[..|s| + m]
    else []
  }

  function DigitChar(d: nat): (c: char)
    requires d < 10
    ensures '0' <= c <= '9'
    ensures c as int - '0' as int == d
  {
    "0123456789"[d]
  }

  function NatToString(n: nat): (r: string)
    ensures r != []
    ensures forall i :: 0 <= i < |r| ==> '0' <= r[i] <= '9'
  {
    if n < 10 then [DigitChar(n)] else NatToString(n / 10) + [DigitChar(n % 10)]
  }

  /** The number a string of decimal digits spells. */
  function DigitsValue(r: string): nat
    requires forall i :: 0 <= i < |r| ==> '0' <= r[i] <= '9'
  {
    if r == [] then 0 else 10 * DigitsValue(r[..|r| - 1]) + (r[|r| - 1] as int - '0' as int)
  }

  /** The digits of `n` spell `n`, so different numbers get different digits. */
  lemma {:induction false} NatToStringValue(n: nat)
    ensures DigitsValue(NatToString(n)) == n
  {
    var r := NatToString(n);
    if n >= 10 {
      NatToStringValue(n / 10);
      assert r[..|r| - 1] == NatToString(n / 10);
    }
  }

  /** `str(i)` for an integer: decimal digits, with a leading '-' when negative. */
  function IntToString(i: int): (r: string)
    ensures r != [] && Stripped(r)
    ensures r[0] == '-' <==> i < 0
    ensures i < 0 ==> r[1..] == NatToString(-i)
    ensures i >= 0 ==> r == NatToString(i)
  {
    var r := if i < 0 then "-" + NatToString(-i) else NatToString(i);
    r
  }

  lemma NatToStringInjective(x: nat, y: nat)
    requires NatToString(x) == NatToString(y)
    ensures x == y
  {
    NatToStringValue(x);
    NatToStringValue(y);
  }

  /** Different integers print differently: `str` is injective on `int`. */
  lemma IntToStringInjective(a: int, b: int)
    ensures IntToString(a) == IntToString(b) ==> a == b
  {
    var ra, rb := IntToString(a), IntToString(b);
    if ra == rb {
      if a < 0 {
        assert b < 0;
        assert NatToString(-a) == ra[1..] && NatToString(-b) == rb[1..];
        NatToStringInjective(-a, -b);
      } else {
        assert b >= 0;
        NatToStringInjective(a, b);
      }
    }
  }

  lemma IntToStringZero()
    ensures IntToString(0) == "0"
  {
  }
}
