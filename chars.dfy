/** ASCII character classes as JavaScript regular expressions (without the `u` flag) read them. */
module Chars {

  /** `\d` and `[0-9]`. */
  predicate IsDigit(c: char) {
    '0' <= c <= '9'
  }

  /** `[a-z]`. */
  predicate IsLower(c: char) {
    'a' <= c <= 'z'
  }

  /** `[A-Z]`. */
  predicate IsUpper(c: char) {
    'A' <= c <= 'Z'
  }

  predicate AllDigits(s: string) {
    forall i :: 0 <= i < |s| ==> IsDigit(s[i])
  }

  function DigitValue(c: char): (v: nat)
    requires IsDigit(c)
    ensures v <= 9
  {
    (c as int) - ('0' as int)
  }

  /** The decimal digit character for 0..9. */
  function DigitChar(d: nat): (c: char)
    requires d <= 9
    ensures IsDigit(c) && DigitValue(c) == d
  {
    (('0' as int) + d) as char
  }
}
