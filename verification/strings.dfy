/**
 * The JavaScript string and array built-ins the core relies on (`trim`,
 * `toLowerCase`, `includes`, `split`, `join`, `indexOf`, `lastIndexOf`,
 * `findIndex`, `replace(/…/g, '')`, `parseFloat` and number-to-text), each
 * stated with the contract the core depends on.
 */
module Strings {
  import opened Wrappers
  import opened Types

  /** The characters `String.prototype.trim` removes (the common ones; see README). */
  predicate IsWhitespace(c: char) {
    c == ' ' || c == '\t' || c == '\n' || c == '\r' || c == '\U{000B}' || c == '\U{000C}'
    || c == '\U{00A0}' || c == '\U{FEFF}'
  }

  predicate AllWhitespace(s: string) {
    forall i :: 0 <= i < |s| ==> IsWhitespace(s[i])
  }

  /** `s` without its leading whitespace: the longest suffix that does not start with whitespace. */
  function TrimStart(s: string): (r: string)
    ensures |r| <= |s| && r == s[|s| - |r|..]
    ensures r == [] || !IsWhitespace(r[0])
    ensures AllWhitespace(s[..|s| - |r|])
  {
    if s != [] && IsWhitespace(s[0]) then TrimStart(s[1..]) else s
  }

  /** `s` without its trailing whitespace: the longest prefix that does not end with whitespace. */
  function TrimEnd(s: string): (r: string)
    ensures |r| <= |s| && r == s[..|r|]
    ensures r == [] || !IsWhitespace(r[|r| - 1])
    ensures AllWhitespace(s[|r|..])
  {
    if s != [] && IsWhitespace(s[|s| - 1]) then TrimEnd(s[..|s| - 1]) else s
  }

  /** `String.prototype.trim`: empty exactly when the whole string is whitespace. */
  function Trim(s: string): (r: string)
    ensures |r| <= |s|
    ensures r == [] <==> AllWhitespace(s)
  {
    TrimEmptyIff(s);
    TrimEnd(TrimStart(s))
  }

  lemma TrimEmptyIff(s: string)
    ensures TrimEnd(TrimStart(s)) == [] <==> AllWhitespace(s)
  {
    var t := TrimStart(s);
    var m := |s| - |t|;
    var r := TrimEnd(t);
    if r == [] {
      assert AllWhitespace(t) by { assert t[|r|..] == t; }
      assert t == [];
      assert s[..m] == s;
    }
  }

  /** A character outside the basic plane, which UTF-16 stores as a surrogate pair. */
  predicate IsAstral(c: char) {
    c as int > 0xFFFF
  }

  /**
   * `String.prototype.length`: the number of UTF-16 code units, one per character of
   * the basic plane and two per character outside it.
   */
  function Utf16Length(s: string): (n: nat)
    ensures |s| <= n <= 2 * |s|
  {
    if s == [] then 0 else Utf16Length(s[..|s| - 1]) + (if IsAstral(s[|s| - 1]) then 2 else 1)
  }

  /** The code-unit length is the character count exactly when no character is astral. */
  lemma {:induction false} Utf16LengthOfBasic(s: string)
    ensures Utf16Length(s) == |s| <==> forall i :: 0 <= i < |s| ==> !IsAstral(s[i])
  {
    if s != [] {
      var init := s[..|s| - 1];
      Utf16LengthOfBasic(init);
      assert forall i :: 0 <= i < |init| ==> init[i] == s[i];
    }
  }

  /** ASCII lower-casing of one character. */
  function LowerChar(c: char): char {
    if 'A' <= c <= 'Z' then (c as int - 'A' as int + 'a' as int) as char else c
  }

  /** `String.prototype.toLowerCase` on ASCII letters: position-wise lower-casing. */
  function ToLower(s: string): (r: string)
    ensures |r| == |s|
    ensures forall i :: 0 <= i < |s| ==> r[i] == LowerChar(s[i])
  {
    seq(|s|, i requires 0 <= i < |s| => LowerChar(s[i]))
  }

  predicate StartsWith(s: string, p: string) {
    |p| <= |s| && s[..|p|] == p
  }

  /** `String.prototype.includes`: `p` occurs in `s` at some position. */
  predicate Contains(s: string, p: string)
    decreases |s|
  {
    StartsWith(s, p) || (s != [] && Contains(s[1..], p))
  }

  /** `Contains` holds exactly when `p` starts at some index of `s`. */
  lemma {:induction false} ContainsAt(s: string, p: string, k: nat)
    requires k + |p| <= |s| && s[k..k + |p|] == p
    ensures Contains(s, p)
    decreases k
  {
    if k > 0 {
      assert s[1..][k - 1..k - 1 + |p|] == s[k..k + |p|];
      ContainsAt(s[1..], p, k - 1);
    }
  }

  /** No occurrence of `p` in `s` when `s` lacks `p`'s first character. */
  lemma {:induction false} NotContainsWithoutFirstChar(s: string, p: string)
    requires p != [] && p[0] !in s
    ensures !Contains(s, p)
    decreases |s|
  {
    if s != [] {
      assert s[0] != p[0];
      NotContainsWithoutFirstChar(s[1..], p);
    }
  }

  /**
   * `String.prototype.split` with a one-character separator: the pieces hold no
   * separator, and the first piece is the prefix of `s` before the first separator.
   */
  function SplitOn(s: string, c: char): (r: seq<string>)
    ensures |r| >= 1
    ensures forall k :: 0 <= k < |r| ==> c !in r[k]
    ensures StartsWith(s, r[0]) && (|r[0]| < |s| ==> s[|r[0]|] == c)
    ensures |r| == 1 <==> c !in s
  {
    if s == [] then [""]
    else
      var rest := SplitOn(s[1..], c);
      if s[0] == c then [""] + rest
      else
        assert s[1..][..|rest[0]|] == rest[0];
        assert s[..|rest[0]| + 1] == [s[0]] + rest[0];
        [[s[0]] + rest[0]] + rest[1..]
  }

  /** Splitting after a separator-free prefix yields that prefix first. */
  lemma {:induction false} SplitOnAfter(a: string, c: char, b: string)
    requires c !in a
    ensures SplitOn(a + [c] + b, c) == [a] + SplitOn(b, c)
  {
    var s := a + [c] + b;
    if a == [] {
      assert s == [c] + b && s[1..] == b;
    } else {
      assert s[1..] == a[1..] + [c] + b;
      SplitOnAfter(a[1..], c, b);
      assert [s[0]] + a[1..] == a;
    }
  }

  /** A text without the separator splits into itself. */
  lemma {:induction false} SplitOnAbsent(s: string, c: char)
    requires c !in s
    ensures SplitOn(s, c) == [s]
  {
    if s != [] {
      SplitOnAbsent(s[1..], c);
      assert [s[0]] + s[1..] == s;
    }
  }

  /** `Array.prototype.join`. */
  function Join(pieces: seq<string>, sep: string): string {
    if |pieces| == 0 then ""
    else if |pieces| == 1 then pieces[0]
    else pieces[0] + sep + Join(pieces[1..], sep)
  }

  /** Splitting at a character and joining with it gives the text back. */
  lemma {:induction false} SplitOnJoin(s: string, c: char)
    ensures Join(SplitOn(s, c), [c]) == s
  {
    if s != [] {
      SplitOnJoin(s[1..], c);
      var rest := SplitOn(s[1..], c);
      if s[0] != c {
        if |rest| == 1 {
          assert Join(rest, [c]) == rest[0];
        } else {
          assert Join(rest, [c]) == rest[0] + [c] + Join(rest[1..], [c]);
        }
      }
    }
  }

  /** The concatenation of a list of texts. */
  function Concat(parts: seq<string>): string {
    if parts == [] then "" else Concat(parts[..|parts| - 1]) + parts[|parts| - 1]
  }

  /** `Array.prototype.indexOf` (and `String.prototype.indexOf` of one character); `None` is -1. */
  function FirstIndex<T(==)>(xs: seq<T>, x: T): (r: Option<nat>)
    ensures r.None? <==> x !in xs
    ensures r.Some? ==> r.value < |xs| && xs[r.value] == x && x !in xs[..r.value]
  {
    if xs == [] then None
    else if xs[0] == x then Some(0)
    else
      var r := FirstIndex(xs[1..], x);
      if r.None? then None
      else
        assert xs[..r.value + 1] == [xs[0]] + xs[1..][..r.value];
        Some(r.value + 1)
  }

  /** `String.prototype.lastIndexOf` of one character; `None` is -1. */
  function LastIndex<T(==)>(xs: seq<T>, x: T): (r: Option<nat>)
    ensures r.None? <==> x !in xs
    ensures r.Some? ==> r.value < |xs| && xs[r.value] == x && x !in xs[r.value + 1..]
  {
    if xs == [] then None
    else if xs[|xs| - 1] == x then Some(|xs| - 1)
    else
      var r := LastIndex(xs[..|xs| - 1], x);
      if r.None? then
        assert xs == xs[..|xs| - 1] + [xs[|xs| - 1]];
        None
      else
        assert xs[r.value + 1..] == xs[..|xs| - 1][r.value + 1..] + [xs[|xs| - 1]];
        r
  }

  /** The first occurrence follows a prefix that lacks the element. */
  lemma FirstIndexAfter<T>(pre: seq<T>, x: T, rest: seq<T>)
    requires x !in pre && rest != [] && rest[0] == x
    ensures FirstIndex(pre + rest, x) == Some(|pre|)
  {
    assert (pre + rest)[|pre|] == x;
  }

  /** The last occurrence precedes a suffix that lacks the element. */
  lemma LastIndexBefore<T>(init: seq<T>, x: T, post: seq<T>)
    requires x !in post && init != [] && init[|init| - 1] == x
    ensures LastIndex(init + post, x) == Some(|init| - 1)
  {
    assert (init + post)[|init| - 1] == x;
  }

  /** `Array.prototype.findIndex`; `None` is -1. */
  function FindIndex<T>(xs: seq<T>, p: T -> bool): (r: Option<nat>)
    ensures r.None? <==> forall i :: 0 <= i < |xs| ==> !p(xs[i])
    ensures r.Some? ==> r.value < |xs| && p(xs[r.value]) && forall i :: 0 <= i < r.value ==> !p(xs[i])
  {
    if xs == [] then None
    else if p(xs[0]) then Some(0)
    else
      var r := FindIndex(xs[1..], p);
      if r.None? then
        assert forall i :: 1 <= i < |xs| ==> xs[i] == xs[1..][i - 1];
        None
      else
        assert forall i :: 1 <= i < |xs| ==> xs[i] == xs[1..][i - 1];
        Some(r.value + 1)
  }

  /** `s.replace(/pat/g, '')` for a literal pattern: occurrences removed left to right, without overlap. */
  function RemoveAll(s: string, pat: string): (r: string)
    ensures |r| <= |s|
    decreases |s|
  {
    if pat == [] || |s| < |pat| then s
    else if s[..|pat|] == pat then RemoveAll(s[|pat|..], pat)
    else [s[0]] + RemoveAll(s[1..], pat)
  }

  /** A text with no occurrence of `pat` is left alone. */
  lemma {:induction false} RemoveAllAbsent(s: string, pat: string)
    requires !Contains(s, pat)
    ensures RemoveAll(s, pat) == s
    decreases |s|
  {
    if pat != [] && |s| >= |pat| {
      RemoveAllAbsent(s[1..], pat);
      assert s == [s[0]] + s[1..];
    }
  }

  /** Removal works piecewise across a boundary where no occurrence can straddle. */
  lemma {:induction false} RemoveAllPrefix(s: string, rest: string, pat: string)
    requires pat != [] && pat[0] !in s
    ensures RemoveAll(s + rest, pat) == s + RemoveAll(rest, pat)
    decreases |s|
  {
    if s != [] {
      var u := s + rest;
      assert u[1..] == s[1..] + rest;
      RemoveAllPrefix(s[1..], rest, pat);
      if |u| < |pat| {
        assert RemoveAll(u, pat) == u;
        assert RemoveAll(rest, pat) == rest;
      } else {
        assert u[..|pat|][0] == s[0];
        assert u[..|pat|] != pat;
        calc {
          RemoveAll(u, pat);
          [s[0]] + RemoveAll(u[1..], pat);
          [s[0]] + (s[1..] + RemoveAll(rest, pat));
          { assert s == [s[0]] + s[1..]; }
          s + RemoveAll(rest, pat);
        }
      }
    } else {
      assert s + rest == rest;
    }
  }

  predicate IsDigit(c: char) {
    '0' <= c <= '9'
  }

  predicate AllDigits(s: string) {
    forall i :: 0 <= i < |s| ==> IsDigit(s[i])
  }

  function DigitChar(d: nat): (c: char)
    requires d < 10
    ensures IsDigit(c)
  {
    (d + '0' as int) as char
  }

  function DigitValue(c: char): (d: nat)
    requires IsDigit(c)
    ensures d < 10 && DigitChar(d) == c
  {
    c as int - '0' as int
  }

  /** JavaScript's decimal rendering of a non-negative integer: digits only, no leading zero. */
  function NatToString(n: nat): (r: string)
    ensures r != [] && AllDigits(r)
    ensures |r| > 1 ==> r[0] != '0'
  {
    if n < 10 then [DigitChar(n)] else NatToString(n / 10) + [DigitChar(n % 10)]
  }

  /** JavaScript's rendering of a number in a template string. */
  function NumberText(x: Number): string {
    match x
    case NaN => "NaN"
    case Num(v) => if v < 0 then "-" + NatToString(-v) else NatToString(v)
  }

  /** The value of a run of decimal digits. */
  function DigitsValue(d: string): nat
    requires AllDigits(d)
  {
    if d == [] then 0 else DigitsValue(d[..|d| - 1]) * 10 + DigitValue(d[|d| - 1])
  }

  /** The length of the run of digits at the start of `s`. */
  function LeadingDigitCount(s: string): (k: nat)
    ensures k <= |s| && AllDigits(s[..k])
    ensures k < |s| ==> !IsDigit(s[k])
  {
    if s != [] && IsDigit(s[0]) then
      var k := LeadingDigitCount(s[1..]);
      assert s[..k + 1] == [s[0]] + s[1..][..k];
      k + 1
    else 0
  }

  /**
   * `parseFloat` restricted to unsigned integers: leading whitespace is skipped and the
   * leading run of digits is read; NaN when there is none.
   */
  function ParseFloat(s: string): (r: Number)
    ensures r.NaN? <==> TrimStart(s) == [] || !IsDigit(TrimStart(s)[0])
    ensures r.Num? ==> r.value >= 0
  {
    var t := TrimStart(s);
    var k := LeadingDigitCount(t);
    if k == 0 then NaN else Num(DigitsValue(t[..k]))
  }

  /** Rendering a natural and reading its digits back gives the natural. */
  lemma {:induction false} DigitsValueOfNatToString(n: nat)
    ensures DigitsValue(NatToString(n)) == n
  {
    if n >= 10 {
      DigitsValueOfNatToString(n / 10);
      var r := NatToString(n);
      assert r[..|r| - 1] == NatToString(n / 10);
    }
  }

  /** A digit run followed by a non-digit is read in full. */
  lemma {:induction false} LeadingDigitCountOfDigits(d: string, rest: string)
    requires AllDigits(d)
    requires rest == [] || !IsDigit(rest[0])
    ensures LeadingDigitCount(d + rest) == |d|
  {
    if d != [] {
      assert (d + rest)[1..] == d[1..] + rest;
      LeadingDigitCountOfDigits(d[1..], rest);
    }
  }

  /**
   * `parseFloat` reads back the rendering of a natural, whatever non-digit text follows it.
   */
  lemma ParseFloatOfNatToString(n: nat, rest: string)
    requires rest == [] || !IsDigit(rest[0])
    ensures ParseFloat(NatToString(n) + rest) == Num(n)
  {
    var d := NatToString(n);
    assert !IsWhitespace((d + rest)[0]);
    assert TrimStart(d + rest) == d + rest;
    LeadingDigitCountOfDigits(d, rest);
    assert (d + rest)[..|d|] == d;
    DigitsValueOfNatToString(n);
  }
}
