/** The JavaScript string notions the forms rely on: the whitespace set shared
    by `String.prototype.trim` and the regular-expression class `\s`, `trim`
    itself, and "blank" (trims to the empty string, which is falsy). */
module JsText {

  /** WhiteSpace and LineTerminator code points of ECMAScript: the characters
      `trim` strips and `\s` matches (so `\S` is their complement). */
  predicate IsWhitespace(c: char) {
    || c == '\t' || c == '\n' || c == '\U{000B}' || c == '\U{000C}' || c == '\r'
    || c == ' ' || c == '\U{00A0}' || c == '\U{1680}'
    || ('\U{2000}' <= c <= '\U{200A}')
    || c == '\U{2028}' || c == '\U{2029}' || c == '\U{202F}' || c == '\U{205F}'
    || c == '\U{3000}' || c == '\U{FEFF}'
  }

  /** Every character is whitespace (the empty string included). */
  ghost predicate IsBlank(s: string) {
    forall i :: 0 <= i < |s| ==> IsWhitespace(s[i])
  }

  /** Drops leading whitespace. */
  function TrimStart(s: string): string {
    if |s| > 0 && IsWhitespace(s[0]) then TrimStart(s[1..]) else s
  }

  /** Drops trailing whitespace. */
  function TrimEnd(s: string): string {
    if |s| > 0 && IsWhitespace(s[|s| - 1]) then TrimEnd(s[..|s| - 1]) else s
  }

  /** `TrimStart` keeps the suffix of `s` that starts at its first
      non-whitespace character. */
  lemma {:induction false} TrimStartSpec(s: string)
    ensures |TrimStart(s)| <= |s| && TrimStart(s) == s[|s| - |TrimStart(s)|..]
    ensures forall i :: 0 <= i < |s| - |TrimStart(s)| ==> IsWhitespace(s[i])
    ensures TrimStart(s) == [] || !IsWhitespace(TrimStart(s)[0])
  {
    if |s| > 0 && IsWhitespace(s[0]) {
      TrimStartSpec(s[1..]);
    }
  }

  /** `TrimEnd` keeps the prefix of `s` that ends at its last non-whitespace
      character. */
  lemma {:induction false} TrimEndSpec(s: string)
    ensures |TrimEnd(s)| <= |s| && TrimEnd(s) == s[..|TrimEnd(s)|]
    ensures forall i :: |TrimEnd(s)| <= i < |s| ==> IsWhitespace(s[i])
    ensures TrimEnd(s) == [] || !IsWhitespace(TrimEnd(s)[|TrimEnd(s)| - 1])
  {
    if |s| > 0 && IsWhitespace(s[|s| - 1]) {
      TrimEndSpec(s[..|s| - 1]);
    }
  }

  /** `s.trim()`. */
  function Trim(s: string): string {
    TrimEnd(TrimStart(s))
  }

  /** `!s.trim()` holds exactly for blank strings. */
  lemma {:induction false} TrimEmptyIffBlank(s: string)
    ensures Trim(s) == "" <==> IsBlank(s)
  {
    var t := TrimStart(s);
    TrimStartSpec(s);
    TrimEndSpec(t);
    if Trim(s) == "" {
      // a non-empty TrimStart would start with a character TrimEnd keeps
      assert t == [];
    } else {
      var r := Trim(s);
      assert !IsWhitespace(r[0]);
      assert r[0] == t[0] == s[|s| - |t|];
    }
  }

  /** Trimming is idempotent and keeps non-blank content at both ends. */
  lemma TrimIdempotent(s: string)
    ensures Trim(Trim(s)) == Trim(s)
    ensures Trim(s) != "" ==> !IsWhitespace(Trim(s)[0]) && !IsWhitespace(Trim(s)[|Trim(s)| - 1])
  {
    var t := TrimStart(s);
    var r := Trim(s);
    TrimStartSpec(s);
    TrimEndSpec(t);
    TrimStartSpec(r);
    TrimEndSpec(r);
    if r != [] {
      assert r[0] == t[0];
    }
  }
}
