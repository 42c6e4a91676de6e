/**
 * The <ctype.h> and <string.h> facts the calculator relies on, in the "C" locale.
 * A character outside ASCII belongs to none of the classes.
 */
module CType {

  /** isspace: blank, tab, newline, vertical tab, form feed, carriage return. */
  predicate IsSpace(c: char) {
    c == ' ' || '\t' <= c <= '\r'
  }

  predicate IsDigit(c: char) {
    '0' <= c <= '9'
  }

  predicate IsAlpha(c: char) {
    'a' <= c <= 'z' || 'A' <= c <= 'Z'
  }

  predicate IsAlnum(c: char) {
    IsAlpha(c) || IsDigit(c)
  }

  predicate IsXDigit(c: char) {
    IsDigit(c) || 'a' <= c <= 'f' || 'A' <= c <= 'F'
  }

  /** The value of a hexadecimal digit character (0 for anything else). */
  function DigitValue(c: char): (v: nat)
    ensures IsXDigit(c) ==> v < 16
    ensures IsDigit(c) <==> IsXDigit(c) && v < 10
  {
    if IsDigit(c) then c as int - '0' as int
    else if 'a' <= c <= 'f' then c as int - 'a' as int + 10
    else if 'A' <= c <= 'F' then c as int - 'A' as int + 10
    else 0
  }

  /** char_in(c, s): c is one of the characters of the C string s (its terminator excluded). */
  predicate CharIn(c: char, s: string) {
    c in s
  }

  /** The C string stored in a buffer: everything before the first NUL. */
  function CStr(s: string): (r: string)
    ensures |r| <= |s| && r == s[..|r|]
    ensures '\0' !in r
    ensures |r| < |s| ==> s[|r|] == '\0'
  {
    if s == [] || s[0] == '\0' then []
    else [s[0]] + CStr(s[1..])
  }
}
