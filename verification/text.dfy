/** ASCII text helpers: the parts of JavaScript's string semantics the components rely on. */
module Text {

  /** JavaScript whitespace (`\s`, and what `trim` removes), restricted to ASCII. */
  predicate IsSpace(c: char)
  {
    c == ' ' || c == '\t' || c == '\n' || c == '\r' || c == '\U{000B}' || c == '\U{000C}'
  }

  predicate IsUpperLetter(c: char) { 'A' <= c <= 'Z' }

  predicate IsLowerLetter(c: char) { 'a' <= c <= 'z' }

  predicate IsLetter(c: char) { IsUpperLetter(c) || IsLowerLetter(c) }

  predicate IsDigit(c: char) { '0' <= c <= '9' }

  /** The regular-expression class `\w`. */
  predicate IsWordChar(c: char) { IsLetter(c) || IsDigit(c) || c == '_' }

  function ToLower(c: char): (d: char)
    ensures !IsUpperLetter(d)
    ensures IsLetter(d) <==> IsLetter(c)
    ensures IsWordChar(d) == IsWordChar(c) && IsSpace(d) == IsSpace(c)
    ensures !IsUpperLetter(c) ==> d == c
    ensures IsUpperLetter(c) ==> IsLowerLetter(d) && d as int - 'a' as int == c as int - 'A' as int
  {
    if IsUpperLetter(c) then (c as int + 32) as char else c
  }

  function ToUpper(c: char): (d: char)
    ensures !IsLowerLetter(d)
    ensures IsLetter(d) <==> IsLetter(c)
    ensures IsWordChar(d) == IsWordChar(c) && IsSpace(d) == IsSpace(c)
    ensures ToLower(d) == ToLower(c)
  {
    if IsLowerLetter(c) then (c as int - 32) as char else c
  }

  /** `toLowerCase()` on ASCII text. */
  function LowerStr(s: string): (r: string)
    ensures |r| == |s|
    ensures forall i :: 0 <= i < |s| ==> r[i] == ToLower(s[i])
  {
    seq(|s|, i requires 0 <= i < |s| => ToLower(s[i]))
  }

  /** `s.includes(part)`: `part` occurs somewhere in `s` (the empty text occurs everywhere). */
  predicate Contains(s: string, part: string)
  {
    exists i | 0 <= i <= |s| :: part <= s[i..]
  }

  function DigitChar(d: int): (c: char)
    requires 0 <= d < 10
    ensures IsDigit(c)
  {
    ('0' as int + d) as char
  }

  function DigitValue(c: char): nat
    requires IsDigit(c)
  {
    c as int - '0' as int
  }

  /** The decimal text of a natural number, without leading zeros. */
  function NatToString(n: nat): (s: string)
    ensures |s| >= 1
    ensures forall i :: 0 <= i < |s| ==> IsDigit(s[i])
    ensures s[0] == '0' ==> n == 0 && s == "0"
  {
    if n < 10 then [DigitChar(n)] else NatToString(n / 10) + [DigitChar(n % 10)]
  }

  /** `n.toString()` for an integer `n`. */
  function IntToString(n: int): (s: string)
    ensures |s| >= 1
    ensures s[0] == '-' <==> n < 0
    ensures forall i :: 0 < i < |s| ==> IsDigit(s[i])
  {
    if n < 0 then "-" + NatToString(-n) else NatToString(n)
  }

  /** The value of a text made of decimal digits. */
  function DigitsValue(s: string): nat
    requires forall i :: 0 <= i < |s| ==> IsDigit(s[i])
  {
    if s == [] then 0 else DigitsValue(s[..|s| - 1]) * 10 + DigitValue(s[|s| - 1])
  }

  lemma {:induction false} DigitsValueOfNatToString(n: nat)
    ensures DigitsValue(NatToString(n)) == n
  {
    if n >= 10 {
      var s := NatToString(n);
      assert s[..|s| - 1] == NatToString(n / 10);
      DigitsValueOfNatToString(n / 10);
    }
  }

  /** Default `Array.prototype.sort` order on ASCII text: code unit by code unit, a proper prefix first. */
  predicate StrLess(a: string, b: string)
  {
    if a == [] then b != []
    else b != [] && (a[0] < b[0] || (a[0] == b[0] && StrLess(a[1..], b[1..])))
  }

  lemma {:induction false} StrLessIrreflexive(a: string)
    ensures !StrLess(a, a)
  {
    if a != [] {
      StrLessIrreflexive(a[1..]);
    }
  }

  lemma {:induction false} StrLessTransitive(a: string, b: string, c: string)
    requires StrLess(a, b) && StrLess(b, c)
    ensures StrLess(a, c)
  {
    if a != [] && a[0] == b[0] && b[0] == c[0] {
      StrLessTransitive(a[1..], b[1..], c[1..]);
    }
  }

  lemma {:induction false} StrLessTotal(a: string, b: string)
    requires a != b
    ensures StrLess(a, b) || StrLess(b, a)
  {
    if a != [] && b != [] && a[0] == b[0] {
      assert a == [a[0]] + a[1..] && b == [b[0]] + b[1..];
      StrLessTotal(a[1..], b[1..]);
    }
  }
}
