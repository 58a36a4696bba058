/** Character classes of the C locale, one `char` for one byte. */
module Ascii {

  predicate IsChar(c: char) {
    c as int <= 127
  }

  predicate IsControl(c: char) {
    c as int <= 31 || c as int == 127
  }

  predicate IsSpecial(c: char) {
    c in {'(', ')', '<', '>', '@', ',', ';', ':', '\\', '"',
          '/', '[', ']', '?', '=', '{', '}', ' ', '\t'}
  }

  /** The bytes a method or a header name may hold: the negation of the test the parsers make. */
  predicate IsToken(c: char) {
    IsChar(c) && !IsControl(c) && !IsSpecial(c)
  }

  predicate IsDigit(c: char) {
    '0' <= c <= '9'
  }

  predicate IsAlpha(c: char) {
    'a' <= c <= 'z' || 'A' <= c <= 'Z'
  }

  predicate IsAlnum(c: char) {
    IsAlpha(c) || IsDigit(c)
  }

  predicate IsSpace(c: char) {
    c == ' ' || 9 <= c as int <= 13
  }

  function ToLower(c: char): char {
    if 'A' <= c <= 'Z' then (c as int + 32) as char else c
  }

  /** `strcasecmp(a, b) == 0` for strings without a NUL. */
  predicate EqualIgnoreCase(a: string, b: string) {
    |a| == |b| && forall i :: 0 <= i < |a| ==> ToLower(a[i]) == ToLower(b[i])
  }
}
