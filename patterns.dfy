/**
 * The few regular-expression features the command-line checks use, written
 * out as predicates: `\d` is an ASCII digit, `\w` an ASCII word character,
 * and a pattern anchored as `^body$` is matched the way Python's `re.match`
 * matches it.
 */
module Patterns {
  import opened Numerals

  /** `\w` restricted to ASCII: a letter, a digit or an underscore. */
  predicate IsWordChar(c: char) {
    'a' <= c <= 'z' || 'A' <= c <= 'Z' || IsDigit(c) || c == '_'
  }

  /**
   * `re.match("^body$", s)`: `body` matches the whole of `s`, or the whole of
   * `s` except one final newline, which Python's `$` also lets through.
   */
  predicate MatchesAnchored(s: string, body: string -> bool) {
    body(s) || (|s| > 0 && s[|s| - 1] == '\n' && body(s[..|s| - 1]))
  }

  /** The part of a matched string that `body` matched: `s` without the final newline `$` allowed. */
  function MatchedPart(s: string, body: string -> bool): (m: string)
    requires MatchesAnchored(s, body)
    ensures body(m) && (m == s || m + "\n" == s)
  {
    if body(s) then s else s[..|s| - 1]
  }

}
