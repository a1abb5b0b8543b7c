/** String primitives of the JavaScript runtime that the core relies on:
    ASCII case mapping, `trim`, `startsWith`, `includes`, `join`, the first
    comma split and `String(n)` for integers. Case mapping is ASCII-only;
    `trim` removes exactly the characters ECMAScript calls white space or
    line terminators. */
module Text {

  /** Characters removed by `String.prototype.trim` and matched by `\s`. */
  predicate IsWs(c: char) {
    var n := c as int;
    n == 0x09 || n == 0x0A || n == 0x0B || n == 0x0C || n == 0x0D || n == 0x20
    || n == 0xA0 || n == 0x1680 || (0x2000 <= n <= 0x200A) || n == 0x2028
    || n == 0x2029 || n == 0x202F || n == 0x205F || n == 0x3000 || n == 0xFEFF
  }

  function LowerChar(c: char): char {
    if 'A' <= c <= 'Z' then (c as int + 32) as char else c
  }

  function UpperChar(c: char): char {
    if 'a' <= c <= 'z' then (c as int - 32) as char else c
  }

  /** `toLowerCase`, restricted to ASCII letters. */
  function Lower(s: string): (r: string)
    ensures |r| == |s|
    ensures forall i :: 0 <= i < |s| ==> r[i] == LowerChar(s[i])
  {
    if |s| == 0 then "" else [LowerChar(s[0])] + Lower(s[1..])
  }

  /** `toUpperCase`, restricted to ASCII letters. */
  function Upper(s: string): (r: string)
    ensures |r| == |s|
    ensures forall i :: 0 <= i < |s| ==> r[i] == UpperChar(s[i])
  {
    if |s| == 0 then "" else [UpperChar(s[0])] + Upper(s[1..])
  }

  /** `t` is the lowercase of `s` when each of its characters is. */
  lemma LowerEach(s: string, t: string)
    requires |s| == |t| && forall i :: 0 <= i < |s| ==> t[i] == LowerChar(s[i])
    ensures Lower(s) == t
  {
  }

  /** `t` is the uppercase of `s` when each of its characters is. */
  lemma UpperEach(s: string, t: string)
    requires |s| == |t| && forall i :: 0 <= i < |s| ==> t[i] == UpperChar(s[i])
    ensures Upper(s) == t
  {
  }

  predicate IsLowerCase(s: string) {
    forall i :: 0 <= i < |s| ==> !('A' <= s[i] <= 'Z')
  }

  lemma LowerOfLowerCase(s: string)
    requires IsLowerCase(s)
    ensures Lower(s) == s
  {
  }

  lemma LowerIsLowerCase(s: string)
    ensures IsLowerCase(Lower(s))
  {
  }

  lemma LowerConcat(a: string, b: string)
    ensures Lower(a + b) == Lower(a) + Lower(b)
  {
  }

  predicate StartsWith(s: string, p: string) {
    |p| <= |s| && s[..|p|] == p
  }

  /** `p` occurs in `s` starting at index `i`. */
  predicate OccursAt(s: string, p: string, i: int) {
    0 <= i && i + |p| <= |s| && s[i..i + |p|] == p
  }

  /** `s.includes(p)`, computed by scanning left to right. */
  predicate Contains(s: string, p: string)
    decreases |s|
  {
    StartsWith(s, p) || (|s| > 0 && Contains(s[1..], p))
  }

  /** `Contains` means `p` occurs at some position of `s`. */
  lemma {:induction false} ContainsIff(s: string, p: string)
    ensures Contains(s, p) <==> exists i :: OccursAt(s, p, i)
    decreases |s|
  {
    if StartsWith(s, p) {
      assert OccursAt(s, p, 0);
    }
    if |s| > 0 {
      ContainsIff(s[1..], p);
      if exists i :: OccursAt(s, p, i) {
        var i :| OccursAt(s, p, i);
        if i > 0 {
          assert s[1..][i - 1..i - 1 + |p|] == s[i..i + |p|];
          assert OccursAt(s[1..], p, i - 1);
        }
      }
      if exists i :: OccursAt(s[1..], p, i) {
        var i :| OccursAt(s[1..], p, i);
        assert s[i + 1..i + 1 + |p|] == s[1..][i..i + |p|];
        assert OccursAt(s, p, i + 1);
      }
    } else {
      if exists i :: OccursAt(s, p, i) {
        var i :| OccursAt(s, p, i);
        assert |p| == 0 && StartsWith(s, p);
      }
    }
  }

  /** Every slice of `s` occurs in `s`. */
  lemma SliceContained(s: string, a: nat, b: nat)
    requires a <= b <= |s|
    ensures Contains(s, s[a..b])
  {
    assert OccursAt(s, s[a..b], a);
    ContainsIff(s, s[a..b]);
  }

  /** A pattern longer than the text does not occur in it. */
  lemma {:induction false} TooLongNotContained(s: string, p: string)
    requires |p| > |s|
    ensures !Contains(s, p)
    decreases |s|
  {
    if |s| > 0 {
      TooLongNotContained(s[1..], p);
    }
  }

  lemma ContainsEmpty(s: string)
    ensures Contains(s, "")
  {
  }

  lemma ContainsSelf(s: string)
    ensures Contains(s, s)
  {
  }

  /** `startsWith` implies `includes`. */
  lemma StartsWithContains(s: string, p: string)
    requires StartsWith(s, p)
    ensures Contains(s, p)
  {
  }

  // ---- trim ----

  function TrimStart(s: string): (r: string)
    ensures |r| <= |s| && r == s[|s| - |r|..]
    ensures |r| > 0 ==> !IsWs(r[0])
    ensures forall i :: 0 <= i < |s| - |r| ==> IsWs(s[i])
    decreases |s|
  {
    if |s| > 0 && IsWs(s[0]) then TrimStart(s[1..]) else s
  }

  function TrimEnd(s: string): (r: string)
    ensures |r| <= |s| && r == s[..|r|]
    ensures |r| > 0 ==> !IsWs(r[|r| - 1])
    ensures forall i :: |r| <= i < |s| ==> IsWs(s[i])
    decreases |s|
  {
    if |s| > 0 && IsWs(s[|s| - 1]) then TrimEnd(s[..|s| - 1]) else s
  }

  /** `r` is `s` with the first `a` characters and everything after
      `a + |r|` dropped, and every dropped character is white space. */
  predicate StrippedFrom(s: string, r: string, a: int) {
    0 <= a <= |s| - |r| && r == s[a..a + |r|]
    && (forall i :: 0 <= i < a ==> IsWs(s[i]))
    && (forall i :: a + |r| <= i < |s| ==> IsWs(s[i]))
  }

  /** `String.prototype.trim`: `s` without its leading and trailing white
      space, and nothing else removed. */
  function Trim(s: string): (r: string)
    ensures |r| <= |s|
    ensures |r| > 0 ==> !IsWs(r[0]) && !IsWs(r[|r| - 1])
    ensures StrippedFrom(s, r, |s| - |TrimStart(s)|)
  {
    var t := TrimStart(s);
    var r := TrimEnd(t);
    StrippedBothEnds(s, t, r);
    r
  }

  /** Dropping white space from the front of `s` to get `t`, then from the
      back of `t` to get `r`, strips `r` from `s`. */
  lemma StrippedBothEnds(s: string, t: string, r: string)
    requires |t| <= |s| && t == s[|s| - |t|..] && forall i :: 0 <= i < |s| - |t| ==> IsWs(s[i])
    requires |r| <= |t| && r == t[..|r|] && forall i :: |r| <= i < |t| ==> IsWs(t[i])
    ensures StrippedFrom(s, r, |s| - |t|)
  {
    var a := |s| - |t|;
    assert r == s[a..a + |r|];
    forall i | a + |r| <= i < |s| ensures IsWs(s[i]) {
      assert s[i] == t[i - a];
    }
  }

  lemma TrimStartNoWs(s: string)
    requires |s| == 0 || !IsWs(s[0])
    ensures TrimStart(s) == s
  {
  }

  lemma TrimEndNoWs(s: string)
    requires |s| == 0 || !IsWs(s[|s| - 1])
    ensures TrimEnd(s) == s
  {
  }

  /** Trimming twice is trimming once. */
  lemma TrimIdempotent(s: string)
    ensures Trim(Trim(s)) == Trim(s)
  {
    var r := Trim(s);
    TrimStartNoWs(r);
    TrimEndNoWs(r);
  }

  /** The trimmed text is empty exactly when the input is all white space. */
  lemma TrimEmptyIff(s: string)
    ensures Trim(s) == "" <==> forall i :: 0 <= i < |s| ==> IsWs(s[i])
  {
  }

  // ---- split, join ----

  /** The text before the first `sep` (all of `s` when there is none):
      `s.split(sep)[0]`. */
  function BeforeFirst(s: string, sep: char): (r: string)
    ensures |r| <= |s| && r == s[..|r|]
    ensures sep !in r
    ensures |r| < |s| ==> s[|r|] == sep
  {
    if |s| == 0 then ""
    else if s[0] == sep then ""
    else [s[0]] + BeforeFirst(s[1..], sep)
  }

  /** `parts.join(sep)`. */
  function Join(parts: seq<string>, sep: string): string {
    if |parts| == 0 then ""
    else if |parts| == 1 then parts[0]
    else parts[0] + sep + Join(parts[1..], sep)
  }

  /** Concatenation of all parts (`parts.join('')`). */
  function Concat(parts: seq<string>): (r: string)
    ensures |parts| == 0 ==> r == ""
  {
    if |parts| == 0 then "" else parts[0] + Concat(parts[1..])
  }

  lemma {:induction false} JoinEmptySep(parts: seq<string>)
    ensures Join(parts, "") == Concat(parts)
  {
    if |parts| > 1 {
      JoinEmptySep(parts[1..]);
    }
  }

  // ---- JavaScript string length ----

  /** The number of UTF-16 code units `c` occupies: two for a character
      outside the Basic Multilingual Plane (a surrogate pair), one otherwise. */
  function CodeUnits(c: char): (n: nat)
    ensures n == 1 || n == 2
  {
    if c as int > 0xFFFF then 2 else 1
  }

  /** `s.length` in JavaScript, which counts UTF-16 code units. */
  function Utf16Length(s: string): (n: nat)
    ensures |s| <= n <= 2 * |s|
    ensures (forall i :: 0 <= i < |s| ==> s[i] as int <= 0xFFFF) ==> n == |s|
  {
    if |s| == 0 then 0 else CodeUnits(s[0]) + Utf16Length(s[1..])
  }

  /** A character outside the Basic Multilingual Plane counts twice. */
  lemma AstralCountsTwice(c: char, s: string)
    requires c as int > 0xFFFF
    ensures Utf16Length([c] + s) == 2 + Utf16Length(s)
  {
    assert ([c] + s)[1..] == s;
  }

  // ---- String(n) ----

  predicate IsDigit(c: char) {
    '0' <= c <= '9'
  }

  function DigitChar(d: nat): (c: char)
    requires d < 10
    ensures IsDigit(c)
  {
    ('0' as int + d) as char
  }

  function NatToString(n: nat): (r: string)
    ensures |r| > 0
    ensures forall i :: 0 <= i < |r| ==> IsDigit(r[i])
  {
    if n < 10 then [DigitChar(n)] else NatToString(n / 10) + [DigitChar(n % 10)]
  }

  /** The number a string of decimal digits denotes, most significant
      digit first. */
  function DigitsValue(s: string): int {
    if |s| == 0 then 0
    else DigitsValue(s[..|s| - 1]) * 10 + (s[|s| - 1] as int - '0' as int)
  }

  /** The integer an optionally "-"-signed decimal numeral denotes. */
  function IntValue(s: string): int {
    if |s| > 0 && s[0] == '-' then -DigitsValue(s[1..]) else DigitsValue(s)
  }

  /** Reading the digits back gives the number that was rendered. */
  lemma {:induction false} NatToStringValue(n: nat)
    ensures DigitsValue(NatToString(n)) == n
  {
    if n >= 10 {
      NatToStringValue(n / 10);
      var r := NatToString(n);
      assert r[..|r| - 1] == NatToString(n / 10);
    }
  }

  /** `String(n)` for an integer `n`. */
  function IntToString(n: int): (r: string)
    ensures |r| > 0
    ensures n >= 0 ==> forall i :: 0 <= i < |r| ==> IsDigit(r[i])
    ensures n < 0 ==> r[0] == '-' && |r| >= 2 && forall i :: 1 <= i < |r| ==> IsDigit(r[i])
    ensures IntValue(r) == n
  {
    if n < 0 then
      NatToStringValue(-n);
      assert ("-" + NatToString(-n))[1..] == NatToString(-n);
      "-" + NatToString(-n)
    else
      NatToStringValue(n);
      NatToString(n)
  }

  /** A rendered integer can never be mistaken for the "-" sentinel. */
  lemma IntToStringNotDash(n: int)
    ensures IntToString(n) != "-"
  {
    var r := IntToString(n);
    if n < 0 {
      assert |r| >= 2;
    } else {
      assert IsDigit(r[0]);
    }
  }
}
