/**
 * The string operations the application uses, on `string` = `seq<char>`.
 * Case mapping covers ASCII letters only (JavaScript maps all of Unicode).
 */
module Text {
  import opened Wrappers

  // ---------------------------------------------------------------------------
  // Case mapping
  // ---------------------------------------------------------------------------

  function LowerChar(c: char): char {
    if 'A' <= c <= 'Z' then (c as int + 32) as char else c
  }

  function UpperChar(c: char): char {
    if 'a' <= c <= 'z' then (c as int - 32) as char else c
  }

  /** `s.toLowerCase()` */
  function Lower(s: string): string {
    seq(|s|, i requires 0 <= i < |s| => LowerChar(s[i]))
  }

  /** Lower-casing twice is lower-casing once. */
  lemma LowerIdempotent(s: string)
    ensures Lower(Lower(s)) == Lower(s)
  {
    assert forall i :: 0 <= i < |s| ==> Lower(Lower(s))[i] == Lower(s)[i];
  }

  /** `s.charAt(0).toUpperCase() + s.slice(1)`; `charAt(0)` of "" is "". */
  function Capitalize(s: string): (r: string)
    ensures |r| == |s|
    ensures |s| > 0 ==> r[0] == UpperChar(s[0]) && r[1..] == s[1..]
  {
    if s == "" then "" else [UpperChar(s[0])] + s[1..]
  }

  // ---------------------------------------------------------------------------
  // Searching
  // ---------------------------------------------------------------------------

  /** `s.startsWith(p)` */
  predicate StartsWith(s: string, p: string) {
    |p| <= |s| && s[..|p|] == p
  }

  /** `s.includes(sub)`: `sub` occurs at some position of `s`. */
  predicate Contains(s: string, sub: string) {
    exists i | 0 <= i <= |s| :: StartsWith(s[i..], sub)
  }

  /** The empty string occurs in every string (so an empty search matches everything). */
  lemma ContainsEmpty(s: string)
    ensures Contains(s, "")
  {
    assert StartsWith(s[0..], "");
  }

  /** Nothing longer than `s` occurs in `s`. */
  lemma ContainsNotLonger(s: string, sub: string)
    requires |sub| > |s|
    ensures !Contains(s, sub)
  {
  }

  /** A string occurs wherever it is placed between two others. */
  lemma ContainsMiddle(a: string, sub: string, b: string)
    ensures Contains(a + sub + b, sub)
  {
    assert (a + sub + b)[|a|..][..|sub|] == sub;
  }

  /** What occurs in `a` still occurs once something is appended. */
  lemma ContainsAppend(a: string, b: string, sub: string)
    requires Contains(a, sub)
    ensures Contains(a + b, sub)
  {
    var i :| 0 <= i <= |a| && StartsWith(a[i..], sub);
    assert (a + b)[i..][..|sub|] == a[i..][..|sub|];
  }

  /** Position of the first `c` in `s`, if any. */
  function IndexOf(s: string, c: char): (r: Option<nat>)
    ensures r.Some? ==> r.value < |s| && s[r.value] == c && c !in s[..r.value]
    ensures r.None? <==> c !in s
  {
    if |s| == 0 then None
    else if s[0] == c then Some(0)
    else match IndexOf(s[1..], c)
      case None => None
      case Some(i) => Some(i + 1)
  }

  // ---------------------------------------------------------------------------
  // Splitting and joining on one separator character
  // ---------------------------------------------------------------------------

  /** `s.split(sep)` for a one-character separator: always at least one part. */
  function Split(s: string, sep: char): (parts: seq<string>)
    ensures |parts| >= 1
    ensures forall k :: 0 <= k < |parts| ==> sep !in parts[k]
    decreases |s|
  {
    match IndexOf(s, sep)
    case None => [s]
    case Some(i) => [s[..i]] + Split(s[i + 1..], sep)
  }

  /** `parts.join(sep)` */
  function Join(parts: seq<string>, sep: char): string
    decreases |parts|
  {
    if |parts| == 0 then ""
    else if |parts| == 1 then parts[0]
    else parts[0] + [sep] + Join(parts[1..], sep)
  }

  /** Splitting loses nothing: joining the parts back gives the original text. */
  lemma {:induction false} JoinSplit(s: string, sep: char)
    ensures Join(Split(s, sep), sep) == s
    decreases |s|
  {
    match IndexOf(s, sep)
    case None =>
    case Some(i) =>
      var rest := Split(s[i + 1..], sep);
      JoinSplit(s[i + 1..], sep);
      assert Split(s, sep) == [s[..i]] + rest;
      assert s == s[..i] + [sep] + s[i + 1..];
  }

  /** `s.split(c)[0]`: the text before the first `c`, or all of `s`. */
  function BeforeFirst(s: string, c: char): (r: string)
    ensures c !in r
    ensures StartsWith(s, r)
    ensures r == s <==> c !in s
  {
    match IndexOf(s, c)
    case None => s
    case Some(i) => s[..i]
  }

  /** `BeforeFirst` is the first part of `Split`. */
  lemma BeforeFirstIsFirstPart(s: string, c: char)
    ensures Split(s, c)[0] == BeforeFirst(s, c)
  {
  }

  /** `s.substring(0, n)` */
  function Take(s: string, n: nat): (r: string)
    ensures |r| == if |s| <= n then |s| else n
    ensures StartsWith(s, r)
  {
    if |s| <= n then s else s[..n]
  }

  /** `s.replace(from, to)` with a one-character pattern: only the first occurrence changes. */
  function ReplaceFirst(s: string, from: char, to: char): (r: string)
    ensures |r| == |s|
    ensures from !in s ==> r == s
    ensures from in s ==> exists i :: 0 <= i < |s| && s[i] == from && r == s[..i] + [to] + s[i + 1..] && from !in s[..i]
  {
    match IndexOf(s, from)
    case None => s
    case Some(i) => s[..i] + [to] + s[i + 1..]
  }

  /** Character by character: only the first occurrence of `from` becomes `to`. */
  lemma ReplaceFirstPointwise(s: string, from: char, to: char)
    ensures forall i :: 0 <= i < |s| ==>
      ReplaceFirst(s, from, to)[i] == if s[i] == from && from !in s[..i] then to else s[i]
  {
    match IndexOf(s, from)
    case None =>
    case Some(j) =>
      forall i | 0 <= i < |s|
        ensures ReplaceFirst(s, from, to)[i] == if s[i] == from && from !in s[..i] then to else s[i]
      {
        if i < j {
          assert s[i] in s[..j];
        } else if i > j {
          assert s[..i][j] == from;
        }
      }
  }

  // ---------------------------------------------------------------------------
  // Trimming
  // ---------------------------------------------------------------------------

  /** The characters `String.prototype.trim` removes (white space and line terminators). */
  predicate IsSpace(c: char) {
    || c == ' ' || c == '\t' || c == '\n' || c == '\r'
    || c == '\U{000B}' || c == '\U{000C}' || c == '\U{00A0}' || c == '\U{1680}'
    || ('\U{2000}' <= c <= '\U{200A}')
    || c == '\U{2028}' || c == '\U{2029}' || c == '\U{202F}' || c == '\U{205F}'
    || c == '\U{3000}' || c == '\U{FEFF}'
  }

  predicate Blank(s: string) {
    forall i :: 0 <= i < |s| ==> IsSpace(s[i])
  }

  lemma BlankCons(c: char, t: string)
    requires IsSpace(c) && Blank(t)
    ensures Blank([c] + t)
  {
    var u := [c] + t;
    forall i | 0 <= i < |u| ensures IsSpace(u[i]) {
      if i > 0 { assert u[i] == t[i - 1]; }
    }
  }

  lemma BlankSnoc(t: string, c: char)
    requires Blank(t) && IsSpace(c)
    ensures Blank(t + [c])
  {
    var u := t + [c];
    forall i | 0 <= i < |u| ensures IsSpace(u[i]) {
      if i < |t| { assert u[i] == t[i]; }
    }
  }

  function TrimStart(s: string): (r: string)
    ensures |r| <= |s| && r == s[|s| - |r|..]
    ensures Blank(s[..|s| - |r|])
    ensures |r| > 0 ==> !IsSpace(r[0])
    ensures r == "" <==> Blank(s)
  {
    if |s| > 0 && IsSpace(s[0]) then
      var r := TrimStart(s[1..]);
      assert Blank(s[..|s| - |r|]) by {
        var t := s[1..];
        assert s[..|s| - |r|] == [s[0]] + t[..|t| - |r|];
        BlankCons(s[0], t[..|t| - |r|]);
      }
      assert Blank(s[1..]) ==> Blank(s) by {
        if Blank(s[1..]) {
          forall i | 0 <= i < |s| ensures IsSpace(s[i]) {
            if i > 0 { assert s[i] == s[1..][i - 1]; }
          }
        }
      }
      r
    else
      s
  }

  function TrimEnd(s: string): (r: string)
    ensures |r| <= |s| && r == s[..|r|]
    ensures Blank(s[|r|..])
    ensures |r| > 0 ==> !IsSpace(r[|r| - 1])
    ensures r == "" <==> Blank(s)
  {
    if |s| > 0 && IsSpace(s[|s| - 1]) then
      var r := TrimEnd(s[..|s| - 1]);
      assert Blank(s[|r|..]) by {
        var t := s[..|s| - 1];
        assert s[|r|..] == t[|r|..] + [s[|s| - 1]];
        BlankSnoc(t[|r|..], s[|s| - 1]);
      }
      assert Blank(s[..|s| - 1]) ==> Blank(s) by {
        if Blank(s[..|s| - 1]) {
          forall i | 0 <= i < |s| ensures IsSpace(s[i]) {
            if i < |s| - 1 { assert s[i] == s[..|s| - 1][i]; }
          }
        }
      }
      r
    else
      s
  }

  /** A prefix of a suffix is a slice. */
  lemma PrefixOfSuffix(s: string, i: nat, k: nat)
    requires i + k <= |s|
    ensures s[i..][..k] == s[i..i + k]
  {
  }

  /**
   * `s.trim()`: the slice of `s` left after cutting white space from both
   * ends; it has no white space at either end, so nothing more could be cut,
   * and it is empty exactly for blank input.
   */
  function Trim(s: string): (r: string)
    ensures exists i, j :: 0 <= i <= j <= |s| && r == s[i..j] && Blank(s[..i]) && Blank(s[j..])
    ensures |r| > 0 ==> !IsSpace(r[0]) && !IsSpace(r[|r| - 1])
    ensures r == "" <==> Blank(s)
  {
    var a := TrimStart(s);
    var r := TrimEnd(a);
    var i := |s| - |a|;
    assert a == s[i..];
    PrefixOfSuffix(s, i, |r|);
    assert a[|r|..] == s[i + |r|..];
    assert |a| > 0 ==> !IsSpace(a[0]);
    assert Blank(a) ==> a == "";
    r
  }

  /** A nullable text column inside a template literal: the text, or 'null'. */
  function Interpolated(v: Option<string>): string {
    if v.Some? then v.value else "null"
  }

  // ---------------------------------------------------------------------------
  // Decimal numbers (template-literal interpolation `${n}`)
  // ---------------------------------------------------------------------------

  predicate IsDigit(c: char) {
    '0' <= c <= '9'
  }

  function DigitChar(d: nat): (c: char)
    requires d < 10
    ensures IsDigit(c) && c as int - '0' as int == d
  {
    (d + '0' as int) as char
  }

  /** The decimal rendering of a natural number, without leading zeros. */
  function NatToString(n: nat): (r: string)
    ensures |r| >= 1
    ensures forall i :: 0 <= i < |r| ==> IsDigit(r[i])
    decreases n
  {
    if n < 10 then [DigitChar(n)] else NatToString(n / 10) + [DigitChar(n % 10)]
  }

  /** `${i}` for an integer. */
  function IntToString(i: int): string {
    if i < 0 then "-" + NatToString(-i) else NatToString(i)
  }

  /** The value of a string of decimal digits. */
  function ParseNat(s: string): nat
    requires forall i :: 0 <= i < |s| ==> IsDigit(s[i])
    decreases |s|
  {
    if s == [] then 0
    else
      assert IsDigit(s[|s| - 1]);
      ParseNat(s[..|s| - 1]) * 10 + (s[|s| - 1] as int - '0' as int)
  }

  /** Rendering a number and reading it back gives the number: the rendering is unambiguous. */
  lemma {:induction false} ParseNatToString(n: nat)
    ensures ParseNat(NatToString(n)) == n
    decreases n
  {
    if n >= 10 {
      var r := NatToString(n);
      var head := NatToString(n / 10);
      assert r == head + [DigitChar(n % 10)];
      assert r[..|r| - 1] == head;
      ParseNatToString(n / 10);
    }
  }

  /** Different numbers render differently. */
  lemma NatToStringInjective(m: nat, n: nat)
    requires NatToString(m) == NatToString(n)
    ensures m == n
  {
    ParseNatToString(m);
    ParseNatToString(n);
  }
}
