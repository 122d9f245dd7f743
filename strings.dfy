/**
 * The Python string operations the recorder, summariser and prompt tools rely on:
 * `strip`, `lower`, `title`, `replace`, `find`/`rfind`, `in`, `split`, `join`, `int`
 * and `str` on integers. Character classes are the ASCII ones.
 */
module Strings {
  import opened Wrappers

  /** Characters `str.isspace` accepts in the ASCII/Latin-1 range. */
  predicate IsSpace(c: char) {
    ('\t' <= c <= '\r') || (28 <= c as int <= 32) || c as int == 0x85 || c as int == 0xA0
  }

  predicate IsDigit(c: char) { '0' <= c <= '9' }

  predicate IsLetter(c: char) { ('a' <= c <= 'z') || ('A' <= c <= 'Z') }

  /** `str.isalnum` restricted to ASCII letters and digits. */
  predicate IsAlnum(c: char) { IsLetter(c) || IsDigit(c) }

  /** No character of `s` is whitespace. */
  predicate NoSpace(s: string) {
    forall p :: 0 <= p < |s| ==> !IsSpace(s[p])
  }

  predicate NoSpaceAtEnds(s: string) {
    |s| > 0 ==> !IsSpace(s[0]) && !IsSpace(s[|s| - 1])
  }

  /** `str.lstrip()`: the suffix left after dropping every leading whitespace character. */
  function LStrip(s: string): (r: string)
    ensures |r| <= |s| && r == s[|s| - |r|..]
    ensures |r| > 0 ==> !IsSpace(r[0])
    ensures forall k :: 0 <= k < |s| - |r| ==> IsSpace(s[k])
  {
    if |s| > 0 && IsSpace(s[0]) then LStrip(s[1..]) else s
  }

  /** `str.rstrip()`: the prefix left after dropping every trailing whitespace character. */
  function RStrip(s: string): (r: string)
    ensures |r| <= |s| && r == s[..|r|]
    ensures |r| > 0 ==> !IsSpace(r[|r| - 1])
    ensures forall k :: |r| <= k < |s| ==> IsSpace(s[k])
  {
    if |s| > 0 && IsSpace(s[|s| - 1]) then RStrip(s[..|s| - 1]) else s
  }

  /** `str.strip()`. */
  function Strip(s: string): (r: string)
    ensures NoSpaceAtEnds(r)
    ensures |r| <= |s|
  {
    RStrip(LStrip(s))
  }

  /** A string without whitespace at either end is its own `strip()`. */
  lemma StripKeeps(s: string)
    requires NoSpaceAtEnds(s)
    ensures Strip(s) == s
  {
    if |s| > 0 {
      assert LStrip(s) == s;
    }
  }

  /** A slice that starts and ends with a non-whitespace character is its own `strip()`. */
  lemma StripSliceKeeps(s: string, a: int, b: int)
    requires 0 <= a < b <= |s| && !IsSpace(s[a]) && !IsSpace(s[b - 1])
    ensures Strip(s[a..b]) == s[a..b]
  {
    StripKeeps(s[a..b]);
  }

  /** `strip()` is idempotent. */
  lemma StripIdempotent(s: string)
    ensures Strip(Strip(s)) == Strip(s)
  {
    StripKeeps(Strip(s));
  }

  /** Every character `strip()` removes is whitespace, and what is kept is a contiguous slice. */
  lemma StripIsSlice(s: string)
    ensures exists i, j :: 0 <= i <= j <= |s| && Strip(s) == s[i..j]
  {
    var l := LStrip(s);
    var i := |s| - |l|;
    var r := RStrip(l);
    assert r == l[..|r|];
    assert s[i..i + |r|] == r;
  }

  /** `str.isspace`-based emptiness test: `s.strip() == ""`. */
  predicate IsBlank(s: string) { forall k :: 0 <= k < |s| ==> IsSpace(s[k]) }

  lemma StripEmptyIffBlank(s: string)
    ensures Strip(s) == "" <==> IsBlank(s)
  {
    if Strip(s) == "" {
      var l := LStrip(s);
      assert |l| == 0;
    } else {
      var r := Strip(s);
      StripIsSlice(s);
      var i, j :| 0 <= i <= j <= |s| && r == s[i..j];
      assert !IsSpace(s[i]);
    }
  }

  function LowerChar(c: char): char {
    if 'A' <= c <= 'Z' then (c as int + 32) as char else c
  }

  function UpperChar(c: char): char {
    if 'a' <= c <= 'z' then (c as int - 32) as char else c
  }

  /** `str.lower()` on ASCII letters. */
  function Lower(s: string): (r: string)
    ensures |r| == |s| && forall i :: 0 <= i < |s| ==> r[i] == LowerChar(s[i])
  {
    seq(|s|, i requires 0 <= i < |s| => LowerChar(s[i]))
  }

  /** `str.title()`: a letter after a letter is lower-cased, any other letter upper-cased. */
  function Title(s: string): (r: string)
    ensures |r| == |s|
  {
    TitleAfter(s, false)
  }

  function TitleAfter(s: string, afterLetter: bool): (r: string)
    ensures |r| == |s|
    ensures forall i :: 0 <= i < |s| && !IsLetter(s[i]) ==> r[i] == s[i]
  {
    if s == [] then []
    else
      var c := if afterLetter then LowerChar(s[0]) else UpperChar(s[0]);
      [c] + TitleAfter(s[1..], IsLetter(s[0]))
  }

  /** `s.startswith(p)`. */
  predicate StartsWith(s: string, p: string) {
    |p| <= |s| && s[..|p|] == p
  }

  /** Python's `p in s` for strings: `p` occurs as a contiguous substring. */
  predicate Contains(s: string, p: string)
    decreases |s|
  {
    StartsWith(s, p) || (|s| > 0 && Contains(s[1..], p))
  }

  /** `p` occurs in `s` starting at index `i`. */
  predicate OccursAt(s: string, p: string, i: int) {
    0 <= i <= |s| - |p| && s[i..i + |p|] == p
  }

  /** `Contains` agrees with the existence of a matching slice. */
  lemma {:induction false} ContainsAt(s: string, p: string)
    ensures Contains(s, p) <==> exists i :: OccursAt(s, p, i)
    decreases |s|
  {
    if StartsWith(s, p) {
      assert OccursAt(s, p, 0);
    } else if |s| > 0 {
      ContainsAt(s[1..], p);
      if Contains(s[1..], p) {
        var i :| OccursAt(s[1..], p, i);
        assert s[i + 1..i + 1 + |p|] == s[1..][i..i + |p|];
        assert OccursAt(s, p, i + 1);
      } else {
        forall i | OccursAt(s, p, i) ensures false {
          if i > 0 {
            forall k | 0 <= k < |p| ensures s[1..][i - 1..i - 1 + |p|][k] == p[k] {
              assert s[i..i + |p|][k] == p[k];
            }
            assert OccursAt(s[1..], p, i - 1);
          }
        }
      }
    } else {
      assert !OccursAt(s, p, 0);
    }
  }

  /** `s.find(c)` for one character: the first index of `c`, or -1. */
  function Find(s: string, c: char): (i: int)
    ensures i == -1 || 0 <= i < |s|
    ensures i == -1 <==> c !in s
    ensures i >= 0 ==> s[i] == c && forall k :: 0 <= k < i ==> s[k] != c
  {
    FindFrom(s, c, 0)
  }

  /** The first index at or after `from` holding `c`, or -1. */
  function FindFrom(s: string, c: char, from: nat): (i: int)
    requires from <= |s|
    ensures i == -1 || from <= i < |s|
    ensures i == -1 ==> forall k :: from <= k < |s| ==> s[k] != c
    ensures i >= 0 ==> s[i] == c && forall k :: from <= k < i ==> s[k] != c
    decreases |s| - from
  {
    if from == |s| then -1
    else if s[from] == c then from
    else FindFrom(s, c, from + 1)
  }

  /** `s.rfind(c)` for one character: the last index of `c`, or -1. */
  function RFind(s: string, c: char): (i: int)
    ensures i == -1 || 0 <= i < |s|
    ensures i == -1 <==> c !in s
    ensures i >= 0 ==> s[i] == c && forall k :: i < k < |s| ==> s[k] != c
  {
    RFindBefore(s, c, |s|)
  }

  /** The last index before `upto` holding `c`, or -1. */
  function RFindBefore(s: string, c: char, upto: nat): (i: int)
    requires upto <= |s|
    ensures i == -1 || 0 <= i < upto
    ensures i == -1 ==> forall k :: 0 <= k < upto ==> s[k] != c
    ensures i >= 0 ==> s[i] == c && forall k :: i < k < upto ==> s[k] != c
    decreases upto
  {
    if upto == 0 then -1
    else if s[upto - 1] == c then upto - 1
    else RFindBefore(s, c, upto - 1)
  }

  /** The first occurrence of `c` is at `i` when `s[i]` is `c` and nothing before it is. */
  lemma FindAt(s: string, c: char, i: int)
    requires 0 <= i < |s| && s[i] == c && c !in s[..i]
    ensures Find(s, c) == i
  {
    assert c in s;
  }

  /** The last occurrence of `c` is at `i` when `s[i]` is `c` and nothing after it is. */
  lemma RFindAt(s: string, c: char, i: int)
    requires 0 <= i < |s| && s[i] == c && c !in s[i + 1..]
    ensures RFind(s, c) == i
  {
    assert c in s;
  }

  /**
   * `s.replace(pat, rep)`: every non-overlapping occurrence of `pat`, scanned left to
   * right, is replaced by `rep`.
   */
  function ReplaceAll(s: string, pat: string, rep: string): (r: string)
    requires |pat| > 0
    ensures !Contains(s, pat) ==> r == s
    ensures rep == [] ==> |r| <= |s|
    decreases |s|
  {
    if |s| < |pat| then s
    else if s[..|pat|] == pat then rep + ReplaceAll(s[|pat|..], pat, rep)
    else [s[0]] + ReplaceAll(s[1..], pat, rep)
  }

  /** A first character that cannot start `pat` is copied and the scan moves on by one. */
  lemma ReplaceStep(s: string, pat: string, rep: string)
    requires |pat| > 0 && |s| > 0 && s[0] != pat[0]
    ensures ReplaceAll(s, pat, rep) == [s[0]] + ReplaceAll(s[1..], pat, rep)
  {
    if |s| >= |pat| {
      assert s[..|pat|][0] != pat[0];
    }
  }

  /** An occurrence of `pat` at the front is replaced and the scan resumes after it. */
  lemma ReplaceFront(pat: string, rest: string, rep: string)
    requires |pat| > 0
    ensures ReplaceAll(pat + rest, pat, rep) == rep + ReplaceAll(rest, pat, rep)
  {
    assert (pat + rest)[..|pat|] == pat;
    assert (pat + rest)[|pat|..] == rest;
  }

  /** Text that cannot start an occurrence of `pat` passes through `replace` unchanged. */
  lemma {:induction false} ReplaceSkips(pre: string, tail: string, pat: string, rep: string)
    requires |pat| > 0 && pat[0] !in pre
    ensures ReplaceAll(pre + tail, pat, rep) == pre + ReplaceAll(tail, pat, rep)
    decreases |pre|
  {
    if pre == [] {
      assert pre + tail == tail;
    } else {
      var s, rest := pre + tail, pre[1..];
      assert s[0] == pre[0] && s[1..] == rest + tail && pat[0] !in rest;
      ReplaceStep(s, pat, rep);
      ReplaceSkips(rest, tail, pat, rep);
      assert pre + ReplaceAll(tail, pat, rep) == [pre[0]] + (rest + ReplaceAll(tail, pat, rep));
    }
  }

  /** `s.split(sep)` for a one-character separator (never empty: `"".split("\n") == [""]`). */
  function Split(s: string, sep: char): (parts: seq<string>)
    ensures |parts| > 0
    ensures forall k :: 0 <= k < |parts| ==> sep !in parts[k]
    decreases |s|
  {
    var i := Find(s, sep);
    if i == -1 then [s] else [s[..i]] + Split(s[i + 1..], sep)
  }

  /** `sep.join(parts)`. */
  function Join(sep: string, parts: seq<string>): string {
    if parts == [] then ""
    else if |parts| == 1 then parts[0]
    else parts[0] + sep + Join(sep, parts[1..])
  }

  /** Splitting on a character and joining with it gives back the original text. */
  lemma {:induction false} JoinSplit(s: string, sep: char)
    ensures Join([sep], Split(s, sep)) == s
    decreases |s|
  {
    var i := Find(s, sep);
    if i != -1 {
      var rest := Split(s[i + 1..], sep);
      JoinSplit(s[i + 1..], sep);
      assert s == s[..i] + [sep] + s[i + 1..];
    }
  }

  /** An occurrence inside `b` is an occurrence inside `a + b + c`, shifted by `|a|`. */
  lemma OccursInside(a: string, b: string, c: string, p: string, k: int)
    requires OccursAt(b, p, k)
    ensures OccursAt(a + b + c, p, |a| + k)
  {
    var t := a + b + c;
    assert t[|a| + k..|a| + k + |p|] == b[k..k + |p|];
  }

  /** Every part occurs in the joined text. */
  lemma {:induction false} JoinContains(sep: string, parts: seq<string>, i: int)
    requires 0 <= i < |parts|
    ensures Contains(Join(sep, parts), parts[i])
    decreases |parts|
  {
    var p := parts[i];
    assert OccursAt(p, p, 0);
    if |parts| == 1 {
      ContainsAt(Join(sep, parts), p);
    } else if i == 0 {
      OccursInside([], p, sep + Join(sep, parts[1..]), p, 0);
      assert [] + p + (sep + Join(sep, parts[1..])) == Join(sep, parts);
      ContainsAt(Join(sep, parts), p);
    } else {
      var rest := Join(sep, parts[1..]);
      JoinContains(sep, parts[1..], i - 1);
      ContainsAt(rest, p);
      var k :| OccursAt(rest, p, k);
      OccursInside(parts[0] + sep, rest, [], p, k);
      assert parts[0] + sep + rest + [] == Join(sep, parts);
      ContainsAt(Join(sep, parts), p);
    }
  }

  /** A text found in `b` is found in `a + b + c`. */
  lemma ContainsInside(a: string, b: string, c: string, p: string)
    requires Contains(b, p)
    ensures Contains(a + b + c, p)
  {
    ContainsAt(b, p);
    var k :| OccursAt(b, p, k);
    OccursInside(a, b, c, p, k);
    ContainsAt(a + b + c, p);
  }

  /** The first whitespace-free run of `s` after any leading whitespace (a token of `str.split()`). */
  function TokenLength(s: string): (n: nat)
    ensures n <= |s|
    ensures forall k :: 0 <= k < n ==> !IsSpace(s[k])
    ensures n < |s| ==> IsSpace(s[n])
    ensures |s| > 0 && !IsSpace(s[0]) ==> n > 0
  {
    if s == [] || IsSpace(s[0]) then 0 else 1 + TokenLength(s[1..])
  }

  /** `s.split()` with no argument: the maximal whitespace-free runs, in order. */
  function SplitWhitespace(s: string): (tokens: seq<string>)
    ensures forall k :: 0 <= k < |tokens| ==> |tokens[k]| > 0 && NoSpace(tokens[k])
    decreases |s|
  {
    if s == [] then []
    else if IsSpace(s[0]) then SplitWhitespace(s[1..])
    else
      var n := TokenLength(s);
      var token := s[..n];
      assert NoSpace(token);
      [token] + SplitWhitespace(s[n..])
  }

  /** `s.split()` has no tokens exactly when `s` is all whitespace. */
  lemma {:induction false} SplitWhitespaceNone(s: string)
    ensures SplitWhitespace(s) == [] <==> LStrip(s) == []
    decreases |s|
  {
    if s != [] && IsSpace(s[0]) {
      SplitWhitespaceNone(s[1..]);
    }
  }

  /** `s.split()` is empty exactly when `s.strip()` is. */
  lemma SplitWhitespaceEmpty(s: string)
    ensures SplitWhitespace(s) == [] <==> Strip(s) == []
  {
    SplitWhitespaceNone(s);
    var l := LStrip(s);
    if l != [] {
      assert RStrip(l) != [] by { assert !IsSpace(l[0]); }
    }
  }

  function DigitChar(d: nat): char
    requires d < 10
  {
    ('0' as int + d) as char
  }

  function DigitValue(c: char): nat
    requires IsDigit(c)
  {
    c as int - '0' as int
  }

  /** `str(n)` for a natural number. */
  function NatToString(n: nat): (s: string)
    ensures |s| > 0 && forall k :: 0 <= k < |s| ==> IsDigit(s[k])
  {
    if n < 10 then [DigitChar(n)] else NatToString(n / 10) + [DigitChar(n % 10)]
  }

  /** `str(i)` for an integer. */
  function IntToString(i: int): string {
    if i < 0 then "-" + NatToString(-i) else NatToString(i)
  }

  predicate AllDigits(s: string) { forall k :: 0 <= k < |s| ==> IsDigit(s[k]) }

  function DigitsValue(s: string): nat
    requires AllDigits(s)
  {
    if s == [] then 0 else 10 * DigitsValue(s[..|s| - 1]) + DigitValue(s[|s| - 1])
  }

  /** `int(s)` for a string of decimal digits; anything else raises `ValueError` (`None`). */
  function ParseNat(s: string): Option<nat> {
    if |s| > 0 && AllDigits(s) then Some(DigitsValue(s)) else None
  }

  /** `int(str(n)) == n`. */
  lemma {:induction false} ParseNatToString(n: nat)
    ensures ParseNat(NatToString(n)) == Some(n)
  {
    var s := NatToString(n);
    if n >= 10 {
      ParseNatToString(n / 10);
      assert s[..|s| - 1] == NatToString(n / 10);
      assert DigitValue(s[|s| - 1]) == n % 10;
      assert DigitsValue(s) == 10 * (n / 10) + n % 10;
    } else {
      assert DigitsValue(s) == 10 * DigitsValue([]) + DigitValue(s[0]);
    }
  }

  /** `int(s)` for an optionally signed string of decimal digits; anything else is `ValueError` (`None`). */
  function ParseInt(s: string): (r: Option<int>)
    ensures r.Some? && r.value < 0 ==> |s| > 0 && s[0] == '-'
  {
    if |s| > 0 && s[0] == '-' then
      match ParseNat(s[1..])
      case Some(n) => Some(-(n as int))
      case None => None
    else if |s| > 0 && s[0] == '+' then
      match ParseNat(s[1..])
      case Some(n) => Some(n)
      case None => None
    else
      match ParseNat(s)
      case Some(n) => Some(n)
      case None => None
  }

  /** `int(str(i)) == i`. */
  lemma ParseIntToString(i: int)
    ensures ParseInt(IntToString(i)) == Some(i)
  {
    if i < 0 {
      ParseNatToString(-i);
      assert IntToString(i)[1..] == NatToString(-i);
    } else {
      ParseNatToString(i);
    }
  }
}
