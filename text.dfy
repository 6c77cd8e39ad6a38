/** String helpers with JavaScript's meaning: the `\s` class and `trim`,
    `toLowerCase` on ASCII letters, `startsWith`, `includes`, and the decimal
    rendering of a natural number by a template literal. */
module Text {

  /** JavaScript's `\s` (and the set `String.prototype.trim` removes):
      white space and line terminators. */
  predicate IsSpace(c: char)
  {
    c == ' ' || c == '\t' || c == '\n' || c == '\U{000B}' || c == '\U{000C}' || c == '\r'
    || c == '\U{00A0}' || c == '\U{1680}' || ('\U{2000}' <= c <= '\U{200A}')
    || c == '\U{2028}' || c == '\U{2029}' || c == '\U{202F}' || c == '\U{205F}'
    || c == '\U{3000}' || c == '\U{FEFF}'
  }

  predicate HasNoSpace(s: string)
  {
    forall i :: 0 <= i < |s| ==> !IsSpace(s[i])
  }

  function TrimStart(s: string): (r: string)
    ensures |r| <= |s| && r == s[|s| - |r|..]
    ensures r == [] || !IsSpace(r[0])
    ensures forall i :: 0 <= i < |s| - |r| ==> IsSpace(s[i])
  {
    if s == [] || !IsSpace(s[0]) then s else TrimStart(s[1..])
  }

  function TrimEnd(s: string): (r: string)
    ensures |r| <= |s| && r == s[..|r|]
    ensures r == [] || !IsSpace(r[|r| - 1])
    ensures forall i :: |r| <= i < |s| ==> IsSpace(s[i])
  {
    if s == [] || !IsSpace(s[|s| - 1]) then s else TrimEnd(s[..|s| - 1])
  }

  /** `s.trim()` */
  function Trim(s: string): string
  {
    TrimEnd(TrimStart(s))
  }

  /** `!s.trim()`: the string is empty once white space is removed. */
  predicate IsBlank(s: string)
  {
    forall i :: 0 <= i < |s| ==> IsSpace(s[i])
  }

  lemma {:induction false} TrimEmptyIffBlank(s: string)
    ensures Trim(s) == [] <==> IsBlank(s)
  {
    var t := TrimStart(s);
    if t == [] {
      assert forall i :: 0 <= i < |s| ==> IsSpace(s[i]);
    } else {
      assert !IsSpace(t[0]) && t[0] == s[|s| - |t|];
      assert TrimEnd(t) != [] by { assert TrimEnd(t)[..1] == t[..1]; }
    }
  }

  predicate IsUpperAscii(c: char) { 'A' <= c <= 'Z' }

  function LowerChar(c: char): (r: char)
    ensures !IsUpperAscii(r)
    ensures IsUpperAscii(c) ==> r as int == c as int + 32
    ensures !IsUpperAscii(c) ==> r == c
  {
    if IsUpperAscii(c) then (c as int + 32) as char else c
  }

  /** `s.toLowerCase()` restricted to ASCII letters. */
  function ToLower(s: string): (r: string)
    ensures |r| == |s|
    ensures forall i :: 0 <= i < |s| ==> r[i] == LowerChar(s[i])
  {
    if s == [] then [] else [LowerChar(s[0])] + ToLower(s[1..])
  }

  /** `s.startsWith(p)` */
  predicate StartsWith(s: string, p: string)
  {
    |p| <= |s| && s[..|p|] == p
  }

  /** `s.includes(p)` */
  predicate Contains(s: string, p: string)
  {
    StartsWith(s, p) || (s != [] && Contains(s[1..], p))
  }

  function DigitChar(d: nat): (c: char)
    requires d < 10
    ensures '0' <= c <= '9'
  {
    ('0' as int + d) as char
  }

  /** The decimal rendering of `n`, as `${n}` produces it. */
  function NatToString(n: nat): (r: string)
    ensures |r| >= 1
    ensures forall i :: 0 <= i < |r| ==> '0' <= r[i] <= '9'
    ensures |r| == 1 <==> n < 10
    decreases n
  {
    if n < 10 then [DigitChar(n)] else NatToString(n / 10) + [DigitChar(n % 10)]
  }

  /** Different numbers render differently. */
  lemma {:induction false} NatToStringInjective(a: nat, b: nat)
    requires NatToString(a) == NatToString(b)
    ensures a == b
    decreases a
  {
    var ra, rb := NatToString(a), NatToString(b);
    if a >= 10 && b >= 10 {
      assert ra[|ra| - 1] == DigitChar(a % 10) && rb[|rb| - 1] == DigitChar(b % 10);
      assert ra[..|ra| - 1] == NatToString(a / 10);
      assert rb[..|rb| - 1] == NatToString(b / 10);
      NatToStringInjective(a / 10, b / 10);
    }
  }
}
