/** The few .NET primitives the services rely on: 32-bit integer addition,
    `char.IsWhiteSpace`, `string.IsNullOrWhiteSpace`, `string.Length` and
    the ASCII part of the regular-expression class `\d`. */
module Primitives {

  const Int32Modulus: int := 0x1_0000_0000

  /** C#'s `int`. */
  newtype int32 = x: int | -0x8000_0000 <= x < 0x8000_0000

  /** `a + b` on two `int`s in C#'s default unchecked context: the
      mathematical sum brought back into range modulo 2^32. */
  function WrapAdd(a: int32, b: int32): (r: int32)
    ensures (r as int - (a as int + b as int)) % Int32Modulus == 0
    ensures -0x8000_0000 <= a as int + b as int < 0x8000_0000 ==> r as int == a as int + b as int
  {
    var s := a as int + b as int;
    if s >= 0x8000_0000 then (s - Int32Modulus) as int32
    else if s < -0x8000_0000 then (s + Int32Modulus) as int32
    else s as int32
  }

  /** `char.IsWhiteSpace`: the Unicode space, line and paragraph separators
      together with U+0009..U+000D and U+0085. */
  predicate IsWhiteSpace(c: char)
  {
    || ('\t' <= c <= '\r')
    || c == ' ' || c == '\U{0085}' || c == '\U{00A0}' || c == '\U{1680}'
    || ('\U{2000}' <= c <= '\U{200A}')
    || c == '\U{2028}' || c == '\U{2029}' || c == '\U{202F}' || c == '\U{205F}' || c == '\U{3000}'
  }

  /** `string.IsNullOrWhiteSpace`; a null string is modelled by "" (the
      check cannot tell them apart). */
  predicate IsBlank(s: string)
  {
    forall i :: 0 <= i < |s| ==> IsWhiteSpace(s[i])
  }

  predicate IsDigit(c: char)
  {
    '0' <= c <= '9'
  }

  predicate AllDigits(s: string)
  {
    forall i :: 0 <= i < |s| ==> IsDigit(s[i])
  }

  /** A string that holds a digit is not blank. */
  lemma DigitsAreNotBlank(s: string)
    requires |s| > 0 && AllDigits(s)
    ensures !IsBlank(s)
  {
    assert IsDigit(s[0]);
  }

  /** `string.Length`: .NET strings are UTF-16, so a character outside the
      Basic Multilingual Plane takes two code units (a surrogate pair) and
      every other character one. */
  function Utf16Length(s: string): (n: nat)
    ensures |s| <= n <= 2 * |s|
  {
    if |s| == 0 then 0
    else (if s[0] as int >= 0x1_0000 then 2 else 1) + Utf16Length(s[1..])
  }

  /** On text within the Basic Multilingual Plane the UTF-16 length is the
      number of characters. */
  lemma {:induction false} Utf16LengthOfBmp(s: string)
    requires forall i :: 0 <= i < |s| ==> s[i] as int < 0x1_0000
    ensures Utf16Length(s) == |s|
  {
    if |s| > 0 {
      assert forall i :: 0 <= i < |s[1..]| ==> s[1..][i] == s[i + 1];
      Utf16LengthOfBmp(s[1..]);
    }
  }
}
