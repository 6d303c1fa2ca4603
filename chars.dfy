/** The character classes that the sign-up regular expressions and JavaScript's
    `parseInt` are defined over. */
module Chars {

  /** `\d` (a regular expression without the `u` flag) and a radix-10 digit of `parseInt`. */
  predicate IsDigit(c: char) { '0' <= c <= '9' }

  /** `[A-Za-z]` */
  predicate IsLetter(c: char) { 'A' <= c <= 'Z' || 'a' <= c <= 'z' }

  /** `[A-Za-z\d]` */
  predicate IsAlnum(c: char) { IsLetter(c) || IsDigit(c) }

  /** `[A-Za-z0-9_]` */
  predicate IsWordChar(c: char) { IsAlnum(c) || c == '_' }

  /** LineTerminator of ECMAScript: the characters that `.` in a regular expression does not match. */
  predicate IsLineTerminator(c: char) {
    c == '\n' || c == '\r' || c == '\U{2028}' || c == '\U{2029}'
  }

  /** StrWhiteSpaceChar of ECMAScript (WhiteSpace and LineTerminator): what `parseInt` skips
      before the number. WhiteSpace is TAB, VT, FF, ZWNBSP and the Unicode "Zs" category. */
  predicate IsStrWhiteSpace(c: char) {
    || c == '\t' || c == '\U{B}' || c == '\U{C}' || c == '\U{FEFF}'
    || c == ' ' || c == '\U{A0}' || c == '\U{1680}' || '\U{2000}' <= c <= '\U{200A}'
    || c == '\U{202F}' || c == '\U{205F}' || c == '\U{3000}'
    || IsLineTerminator(c)
  }

  function DigitValue(c: char): (d: nat)
    requires IsDigit(c)
    ensures d < 10
  {
    (c as int) - ('0' as int)
  }

  function DigitChar(d: nat): (c: char)
    requires d < 10
    ensures IsDigit(c) && DigitValue(c) == d
  {
    (d + '0' as int) as char
  }
}
