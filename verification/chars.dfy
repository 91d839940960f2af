/**
 Character classes of the UK postcode pattern. The pattern is matched
 case-sensitively and its classes are plain ASCII ranges, so a lower-case
 letter is never an upper-case letter here.
 */
module Chars {

  /** The class `[A-Z]`. */
  predicate IsUpper(c: char) {
    'A' <= c <= 'Z'
  }

  /** The class `[0-9]`. */
  predicate IsDigit(c: char) {
    '0' <= c <= '9'
  }

  /** The class `[A-Z0-9]`. */
  predicate IsUpperOrDigit(c: char) {
    IsUpper(c) || IsDigit(c)
  }

  /** The only two separators the pattern admits: a space, and a hyphen in one alternative. */
  predicate IsSeparator(c: char) {
    c == ' ' || c == '-'
  }

  /** Every character that can occur in an accepted postcode. */
  predicate IsPostcodeChar(c: char) {
    IsUpperOrDigit(c) || IsSeparator(c)
  }

  /** `[A-Z]{n}` for n = |s|. */
  predicate AllUpper(s: string) {
    forall i :: 0 <= i < |s| ==> IsUpper(s[i])
  }

  /** `[0-9]{n}` for n = |s|. */
  predicate AllDigits(s: string) {
    forall i :: 0 <= i < |s| ==> IsDigit(s[i])
  }

  /** No character of `s` is a space or a hyphen. */
  predicate SeparatorFree(s: string) {
    forall i :: 0 <= i < |s| ==> !IsSeparator(s[i])
  }
}
