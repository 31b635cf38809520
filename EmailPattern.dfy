/** The email check shared by the three forms: an unanchored test of the
    regular expression `\S+@\S+\.\S+` against the untrimmed field value.
    `EmailShaped` says what a match is; `MatchesEmail` decides it. */
module EmailPattern {
  import opened JsText

  /** The part of a match after the '@' at `p`: a '.' at `q` with at least one
      non-whitespace character between them and one right after it. */
  ghost predicate DotPart(s: string, p: int, q: int) {
    && 0 <= p
    && p + 2 <= q && q + 1 < |s|
    && s[q] == '.' && !IsWhitespace(s[q + 1])
    && forall k :: p < k < q ==> !IsWhitespace(s[k])
  }

  /** A match of `\S+@\S+\.\S+` whose '@' is at `p` and whose '.' is at `q`
      (the shortest one: one non-whitespace character on each outer side). */
  ghost predicate EmailAt(s: string, p: int, q: int) {
    && 1 <= p < |s|
    && s[p] == '@' && !IsWhitespace(s[p - 1])
    && DotPart(s, p, q)
  }

  /** `/\S+@\S+\.\S+/.test(s)`: some substring of `s` matches the pattern. */
  ghost predicate EmailShaped(s: string) {
    exists p, q :: EmailAt(s, p, q)
  }

  /** Looks for the '.' of a match whose '@' is at `p`, from position `j` on,
      given that every character strictly between `p` and `j` is not
      whitespace. */
  function DotAfter(s: string, p: nat, j: nat): (r: bool)
    requires p < j <= |s|
    requires forall k :: p < k < j ==> !IsWhitespace(s[k])
    ensures r <==> exists q :: j <= q && DotPart(s, p, q)
    decreases |s| - j
  {
    if j + 1 >= |s| then false
    else if IsWhitespace(s[j]) then
      assert forall q :: j < q ==> !DotPart(s, p, q) by {
        forall q | j < q ensures !DotPart(s, p, q) { assert p < j < q; }
      }
      false
    else if s[j] == '.' && p + 2 <= j && !IsWhitespace(s[j + 1]) then
      assert DotPart(s, p, j);
      true
    else
      DotAfter(s, p, j + 1)
  }

  /** Looks for a match whose '@' is at position `i` or later. */
  function AtFrom(s: string, i: nat): (r: bool)
    requires i <= |s|
    ensures r <==> exists p, q :: i <= p && EmailAt(s, p, q)
    decreases |s| - i
  {
    if i == |s| then false
    else if 1 <= i && s[i] == '@' && !IsWhitespace(s[i - 1]) && DotAfter(s, i, i + 1) then
      assert exists q :: EmailAt(s, i, q) by {
        var q :| i + 1 <= q && DotPart(s, i, q);
        assert EmailAt(s, i, q);
      }
      true
    else
      var rest := AtFrom(s, i + 1);
      assert forall q :: !EmailAt(s, i, q);
      rest
  }

  /** The executable form of the check used by every form's validation. */
  function MatchesEmail(s: string): (r: bool)
    ensures r <==> EmailShaped(s)
  {
    AtFrom(s, 0)
  }

  /** A match needs an '@' preceded by a non-whitespace character. */
  lemma {:induction false} MatchNeedsAt(s: string)
    requires MatchesEmail(s)
    ensures exists p :: 1 <= p < |s| && s[p] == '@'
    ensures |s| >= 5
  {
    var p, q :| EmailAt(s, p, q);
  }

  /** Values the pattern accepts, surrounding spaces included. This is about
      the value `validateForm` is given: a `type="email"` input strips such
      spaces before the handler sees them, so a user cannot produce the
      second one by typing. */
  lemma {:induction false} EmailAccepted()
    ensures MatchesEmail("ann@example.org")
    ensures MatchesEmail(" a@b.c ")
  {
    assert EmailAt("ann@example.org", 3, 11);
    assert EmailAt(" a@b.c ", 2, 4);
  }

  /** The empty value and a value with no dot after the '@' do not match. */
  lemma {:induction false} EmailRejected()
    ensures !MatchesEmail("")
    ensures !MatchesEmail("ann@example")
  {
  }

  /** A space right before the '@' spoils the only '@' of the value. */
  lemma {:induction false} EmailSpaceBeforeAt()
    ensures !MatchesEmail("ann @example.org")
  {
  }
}
