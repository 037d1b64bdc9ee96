/**
 * Strings as the pages see them. The only string operation whose result drives control
 * flow is `String.prototype.trim`, used as a blank-input guard (`!s.trim()`).
 */
module Text {

  /**
   * The code points `trim` strips: ECMAScript's WhiteSpace (tab, vertical tab, form feed,
   * space, no-break space, byte-order mark and every other Unicode "Zs" space) and
   * LineTerminator (line feed, carriage return, line and paragraph separators).
   */
  predicate IsJsSpace(c: char) {
    || c == '\t' || c == '\U{000B}' || c == '\U{000C}' || c == ' '
    || c == '\U{00A0}' || c == '\U{FEFF}'
    || c == '\n' || c == '\r' || c == '\U{2028}' || c == '\U{2029}'
    || c == '\U{1680}' || ('\U{2000}' <= c <= '\U{200A}')
    || c == '\U{202F}' || c == '\U{205F}' || c == '\U{3000}'
  }

  /**
   * JavaScript's `!s.trim()`: every character of `s` is one that `trim` strips (the empty
   * string included), so the trimmed string is empty and falsy. `BlankIffTrimEmpty` proves
   * this is the same as `Trim(s) == ""`.
   */
  predicate IsBlank(s: string) {
    forall i :: 0 <= i < |s| ==> IsJsSpace(s[i])
  }

  /** Drops leading whitespace: the result is the suffix of `s` starting at its first non-space. */
  function TrimStart(s: string): (r: string)
    ensures |r| <= |s| && r == s[|s| - |r|..]
    ensures r != [] ==> !IsJsSpace(r[0])
    ensures IsBlank(s[..|s| - |r|])
  {
    if s != [] && IsJsSpace(s[0]) then TrimStart(s[1..]) else s
  }

  /** Drops trailing whitespace: the result is the prefix of `s` ending at its last non-space. */
  function TrimEnd(s: string): (r: string)
    ensures |r| <= |s| && r == s[..|r|]
    ensures r != [] ==> !IsJsSpace(r[|r| - 1])
    ensures IsBlank(s[|r|..])
  {
    if s != [] && IsJsSpace(s[|s| - 1]) then TrimEnd(s[..|s| - 1]) else s
  }

  /**
   * `s.trim()`: `s` without its leading and trailing whitespace. The result is the stretch
   * of `s` between a whitespace-only prefix and a whitespace-only suffix, and it neither
   * starts nor ends with whitespace.
   */
  function Trim(s: string): (r: string)
    ensures |r| <= |TrimStart(s)| <= |s|
    ensures var k := |s| - |TrimStart(s)|;
      && r == s[k..k + |r|] && IsBlank(s[..k]) && IsBlank(s[k + |r|..])
    ensures r != [] ==> !IsJsSpace(r[0]) && !IsJsSpace(r[|r| - 1])
  {
    var t := TrimStart(s);
    var r := TrimEnd(t);
    NestedSlices(s, t, r);
    r
  }

  /** A prefix `r` of a suffix `t` of `s` is a slice of `s`, and what `r` leaves of `t` is the rest of `s`. */
  lemma NestedSlices(s: string, t: string, r: string)
    requires |t| <= |s| && t == s[|s| - |t|..]
    requires |r| <= |t| && r == t[..|r|]
    ensures var k := |s| - |t|; r == s[k..k + |r|] && t[|r|..] == s[k + |r|..]
  {
  }

  /** `s.trim()` is empty exactly when `s` is whitespace only, which is how `IsBlank` reads the guard. */
  lemma BlankIffTrimEmpty(s: string)
    ensures Trim(s) == "" <==> IsBlank(s)
  {
  }

  /** `s` starts with `p`. */
  predicate StartsWith(s: string, p: string) {
    |p| <= |s| && s[..|p|] == p
  }

  /** `s` ends with `p`. */
  predicate EndsWith(s: string, p: string) {
    |p| <= |s| && s[|s| - |p|..] == p
  }
}
