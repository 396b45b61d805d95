/** Character and string predicates shared by the validators of the
    authentication screens. JavaScript's regular-expression classes are
    exact for `\s` (the white space and line terminators of ECMAScript) and
    `\d` (the ten decimal digits); `toUpperCase` is taken on ASCII and
    changes only `a`..`z`. */
module Text {

  /** `\s`: tab, vertical tab, form feed, the space separators, the byte
      order mark, and the four line terminators. */
  predicate IsSpace(c: char) {
    || c == '\t' || c == '\n' || c == '\U{B}' || c == '\U{C}' || c == '\r' || c == ' '
    || c == '\U{A0}' || c == '\U{1680}' || '\U{2000}' <= c <= '\U{200A}'
    || c == '\U{2028}' || c == '\U{2029}' || c == '\U{202F}' || c == '\U{205F}'
    || c == '\U{3000}' || c == '\U{FEFF}'
  }

  /** `\d` */
  predicate IsDigit(c: char) {
    '0' <= c <= '9'
  }

  /** `^\d*$`: every character is a decimal digit (the empty string included). */
  predicate AllDigits(s: string) {
    forall i :: 0 <= i < |s| ==> IsDigit(s[i])
  }

  /** `^\d{10}$`: the phone rule of the login and the first signup screen. */
  predicate IsTenDigits(s: string) {
    |s| == 10 && AllDigits(s)
  }

  /** The minimum password length shared by every screen. */
  const MinPasswordLength := 8

  /** `password.length < 8` is the failing case of every screen's password rule. */
  predicate LongEnough(s: string) {
    |s| >= MinPasswordLength
  }

  predicate IsLower(c: char) {
    'a' <= c <= 'z'
  }

  predicate IsUpper(c: char) {
    'A' <= c <= 'Z'
  }

  /** `[0-9A-Z]` */
  predicate IsCodeChar(c: char) {
    IsDigit(c) || IsUpper(c)
  }

  /** `^[0-9A-Z]{6,}$`: the verification-code pattern. */
  predicate IsCode(s: string) {
    |s| >= 6 && forall i :: 0 <= i < |s| ==> IsCodeChar(s[i])
  }

  /** `toUpperCase` on one character, restricted to ASCII letters. */
  function UpperChar(c: char): (u: char)
    ensures !IsLower(u)
    ensures IsLower(c) ==> IsUpper(u) && u as int == c as int - 32
    ensures !IsLower(c) ==> u == c
  {
    if IsLower(c) then (c as int - 32) as char else c
  }

  /** `toUpperCase` on a string, character by character. */
  function ToUpper(s: string): (r: string)
    ensures |r| == |s|
  {
    if s == [] then [] else [UpperChar(s[0])] + ToUpper(s[1..])
  }

  /** Upper-casing works position by position. */
  lemma {:induction false} ToUpperAt(s: string, i: int)
    requires 0 <= i < |s|
    ensures ToUpper(s)[i] == UpperChar(s[i])
  {
    if i > 0 {
      ToUpperAt(s[1..], i - 1);
    }
  }

  /** An upper-cased string holds no lower-case letter. */
  lemma ToUpperHasNoLower(s: string)
    ensures forall i :: 0 <= i < |s| ==> !IsLower(ToUpper(s)[i])
  {
    forall i | 0 <= i < |s|
      ensures !IsLower(ToUpper(s)[i])
    {
      ToUpperAt(s, i);
    }
  }

  /** A string with no lower-case letter is its own upper-casing. */
  lemma {:induction false} ToUpperFixesUpper(s: string)
    requires forall i :: 0 <= i < |s| ==> !IsLower(s[i])
    ensures ToUpper(s) == s
  {
    if s != [] {
      ToUpperFixesUpper(s[1..]);
    }
  }

  /** Upper-casing twice is upper-casing once. */
  lemma ToUpperIdempotent(s: string)
    ensures ToUpper(ToUpper(s)) == ToUpper(s)
  {
    ToUpperHasNoLower(s);
    ToUpperFixesUpper(ToUpper(s));
  }

  /** Upper-casing keeps every digit and upper-case letter, so a code stays a code. */
  lemma ToUpperKeepsCode(s: string)
    requires IsCode(s)
    ensures ToUpper(s) == s
  {
    ToUpperFixesUpper(s);
  }
}
