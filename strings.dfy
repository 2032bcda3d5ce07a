/**
  The two pieces of JavaScript string behaviour the chat page relies on:
  `String.prototype.trim` (used by the blank-draft guard) and a substring
  search (what the keyword regular expression of the booking link does).
  Characters are Dafny `char`s; the page only ever sees text from a
  textarea or a JSON reply, so no byte encoding is involved.
 */
module JsStrings {

  /** ECMAScript WhiteSpace and LineTerminator code points: exactly what `trim` removes. */
  predicate IsWhiteSpace(c: char) {
    // TAB, LF, VT, FF, CR, SPACE
    c == '\t' || c == '\n' || c == '\U{000B}' || c == '\U{000C}' || c == '\r' || c == ' ' ||
    // NO-BREAK SPACE, OGHAM SPACE MARK, EN QUAD .. HAIR SPACE
    c == '\U{00A0}' || c == '\U{1680}' || ('\U{2000}' <= c <= '\U{200A}') ||
    // LINE SEPARATOR, PARAGRAPH SEPARATOR, NARROW NO-BREAK SPACE, MEDIUM MATHEMATICAL SPACE
    c == '\U{2028}' || c == '\U{2029}' || c == '\U{202F}' || c == '\U{205F}' ||
    // IDEOGRAPHIC SPACE (the full-width space of Japanese input), BYTE ORDER MARK
    c == '\U{3000}' || c == '\U{FEFF}'
  }

  predicate AllWhiteSpace(s: string) {
    forall i :: 0 <= i < |s| ==> IsWhiteSpace(s[i])
  }

  /** `trimStart`: drops the leading white space. */
  function TrimStart(s: string): string {
    if s != [] && IsWhiteSpace(s[0]) then TrimStart(s[1..]) else s
  }

  /** `trimEnd`: drops the trailing white space. */
  function TrimEnd(s: string): string {
    if s != [] && IsWhiteSpace(s[|s| - 1]) then TrimEnd(s[..|s| - 1]) else s
  }

  /** `s.trim()`. */
  function Trim(s: string): string {
    TrimEnd(TrimStart(s))
  }

  /** `!s.trim()` in JavaScript: the trimmed string is empty, hence falsy. */
  predicate IsBlank(s: string) {
    Trim(s) == ""
  }

  /** What `trimStart` leaves is a suffix of `s`, everything it dropped is white space, and it starts with a non-blank character. */
  lemma {:induction false} TrimStartSpec(s: string)
    ensures |TrimStart(s)| <= |s| && TrimStart(s) == s[|s| - |TrimStart(s)|..]
    ensures forall i :: 0 <= i < |s| - |TrimStart(s)| ==> IsWhiteSpace(s[i])
    ensures TrimStart(s) != [] ==> !IsWhiteSpace(TrimStart(s)[0])
  {
    if s != [] && IsWhiteSpace(s[0]) {
      TrimStartSpec(s[1..]);
      assert forall i :: 1 <= i < |s| ==> s[i] == s[1..][i - 1];
    }
  }

  /** What `trimEnd` leaves is a prefix of `s`, everything it dropped is white space, and it ends with a non-blank character. */
  lemma {:induction false} TrimEndSpec(s: string)
    ensures TrimEnd(s) <= s
    ensures forall i :: |TrimEnd(s)| <= i < |s| ==> IsWhiteSpace(s[i])
    ensures TrimEnd(s) != [] ==> !IsWhiteSpace(TrimEnd(s)[|TrimEnd(s)| - 1])
  {
    if s != [] && IsWhiteSpace(s[|s| - 1]) {
      TrimEndSpec(s[..|s| - 1]);
    }
  }

  /** `s.trim()` is an infix of `s` that neither starts nor ends with white space, and only white space was cut from either end. */
  lemma TrimSpec(s: string)
    ensures exists a: nat :: a + |Trim(s)| <= |s| && OccursAt(s, Trim(s), a) && AllWhiteSpace(s[..a]) && AllWhiteSpace(s[a + |Trim(s)|..])
    ensures Trim(s) != [] ==> !IsWhiteSpace(Trim(s)[0]) && !IsWhiteSpace(Trim(s)[|Trim(s)| - 1])
  {
    var t := TrimStart(s);
    var r := TrimEnd(t);
    TrimStartSpec(s);
    TrimEndSpec(t);
    var a := |s| - |t|;
    PrefixOfSuffix(s, a, r);
    var tail := s[a + |r|..];
    forall i | 0 <= i < |tail| ensures IsWhiteSpace(tail[i]) {
      assert tail[i] == t[|r| + i];
    }
    if r != [] {
      assert r[0] == t[0];
    }
  }

  lemma PrefixOfSuffix(s: string, a: nat, r: string)
    requires a <= |s| && r <= s[a..]
    ensures OccursAt(s, r, a)
  {
  }

  /** A draft is blank exactly when every one of its characters is white space. */
  lemma BlankIffAllWhiteSpace(s: string)
    ensures IsBlank(s) <==> AllWhiteSpace(s)
  {
    var t := TrimStart(s);
    TrimStartSpec(s);
    TrimEndSpec(t);
    if IsBlank(s) {
      assert t == [];
    } else if t != [] {
      assert t[0] == s[|s| - |t|];
    }
  }

  /** `pat` occurs in `text` starting at index `i`. */
  predicate OccursAt(text: string, pat: string, i: nat) {
    i + |pat| <= |text| && text[i..i + |pat|] == pat
  }

  predicate Contains(text: string, pat: string) {
    exists i: nat :: i <= |text| && OccursAt(text, pat, i)
  }

  /** A string made only of ASCII characters contains no pattern that has a non-ASCII character. */
  lemma AsciiExcludes(text: string, pat: string, k: nat)
    requires forall i :: 0 <= i < |text| ==> text[i] < '\U{0080}'
    requires k < |pat| && pat[k] >= '\U{0080}'
    ensures !Contains(text, pat)
  {
  }
}
