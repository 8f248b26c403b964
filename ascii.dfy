/**
  The character classes the health check relies on, restricted to ASCII:
  the `\s` and `\d` classes of Python's `re` on str patterns, and the case
  folding of `str.lower()` and of `re.IGNORECASE`.
 */
module Ascii {

  /** `\s`: space, the controls \t \n \v \f \r (9 to 13) and the separators 0x1C to 0x1F,
      all of which Python counts as whitespace in a str. */
  predicate IsSpace(c: char)
    ensures IsSpace(c) ==> c != '=' && !IsDigit(c) && Lower(c) == c && Lower(c) != 'm'
  {
    c == ' ' || 9 <= c as int <= 13 || 28 <= c as int <= 31
  }

  /** `\d`: an ASCII decimal digit. */
  predicate IsDigit(c: char)
    ensures IsDigit(c) ==> c != '=' && Lower(c) == c && Lower(c) != 'm'
  {
    '0' <= c <= '9'
  }

  /** Lower-cases A to Z and leaves every other character alone. */
  function Lower(c: char): char {
    if 'A' <= c <= 'Z' then (c as int - 'A' as int + 'a' as int) as char else c
  }

  /** `str.lower()` on ASCII text. */
  function LowerString(s: string): (r: string)
    ensures |r| == |s|
    ensures forall i :: 0 <= i < |s| ==> r[i] == Lower(s[i])
  {
    seq(|s|, i requires 0 <= i < |s| => Lower(s[i]))
  }

  /** Folding keeps a character's class: no letter becomes a digit or a space. */
  lemma LowerKeepsClasses(c: char)
    ensures IsSpace(Lower(c)) == IsSpace(c) && IsDigit(Lower(c)) == IsDigit(c)
    ensures Lower(Lower(c)) == Lower(c)
  {
  }
}
