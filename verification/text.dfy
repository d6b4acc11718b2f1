/**
 * The parts of JavaScript's string handling the components rely on:
 * `String.prototype.trim` and the truthiness test `!s.trim()`.
 */
module Text {

  /**
   * ECMAScript's WhiteSpace and LineTerminator code points, the set that
   * `trim` strips: tab, vertical tab, form feed, space, no-break space,
   * the byte-order mark, every space separator (category Zs), line feed,
   * carriage return, line separator and paragraph separator.
   */
  predicate IsWhitespace(c: char) {
    || c == '\U{9}' || c == '\U{B}' || c == '\U{C}' || c == ' '
    || c == '\U{A0}' || c == '\U{FEFF}'
    || c == '\U{1680}' || ('\U{2000}' <= c <= '\U{200A}') || c == '\U{202F}'
    || c == '\U{205F}' || c == '\U{3000}'
    || c == '\n' || c == '\r' || c == '\U{2028}' || c == '\U{2029}'
  }

  /** A string that `trim` turns into the empty (falsy) string. */
  predicate IsBlank(s: string) {
    forall i :: 0 <= i < |s| ==> IsWhitespace(s[i])
  }

  /** The number of whitespace characters at the start of `s`. */
  function LeadingSpace(s: string): (k: nat)
    ensures k <= |s|
    ensures IsBlank(s[..k])
    ensures k < |s| ==> !IsWhitespace(s[k])
  {
    if s == [] || !IsWhitespace(s[0]) then 0
    else
      var k := 1 + LeadingSpace(s[1..]);
      assert forall i :: 1 <= i < k ==> s[i] == s[1..][i - 1];
      k
  }

  /** The number of whitespace characters at the end of `s`. */
  function TrailingSpace(s: string): (k: nat)
    ensures k <= |s|
    ensures IsBlank(s[|s| - k..])
    ensures k < |s| ==> !IsWhitespace(s[|s| - 1 - k])
  {
    if s == [] || !IsWhitespace(s[|s| - 1]) then 0
    else
      var k := 1 + TrailingSpace(s[..|s| - 1]);
      assert forall i :: |s| - k <= i < |s| - 1 ==> s[i] == s[..|s| - 1][i];
      k
  }

  lemma BlankConcat(x: string, y: string)
    requires IsBlank(x) && IsBlank(y)
    ensures IsBlank(x + y)
  {
    forall i | 0 <= i < |x + y| ensures IsWhitespace((x + y)[i]) {
      if i >= |x| {
        assert (x + y)[i] == y[i - |x|];
      }
    }
  }

  /**
   * `s.trim()`: the result is the slice of `s` left after removing the
   * leading and trailing whitespace; it is empty exactly when `s` is blank,
   * and otherwise starts and ends with a non-whitespace character.
   */
  function Trim(s: string): (r: string)
    ensures |r| <= |s|
    ensures r == [] <==> IsBlank(s)
    ensures r != [] ==> !IsWhitespace(r[0]) && !IsWhitespace(r[|r| - 1])
    ensures exists i :: 0 <= i <= |s| - |r| && s[i..i + |r|] == r
                        && IsBlank(s[..i]) && IsBlank(s[i + |r|..])
  {
    var a := LeadingSpace(s);
    var rest := s[a..];
    var b := TrailingSpace(rest);
    var r := rest[..|rest| - b];
    assert s[a..a + |r|] == r;
    assert s[a + |r|..] == rest[|rest| - b..];
    assert r == [] ==> IsBlank(s) by {
      if r == [] {
        assert rest[|rest| - b..] == rest;
        BlankConcat(s[..a], rest);
        assert s[..a] + rest == s;
      }
    }
    assert r != [] ==> r[|r| - 1] == rest[|rest| - 1 - b];
    r
  }
}
