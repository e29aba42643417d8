/**
 * Email normalisation as registration and login apply it: lower-case, then
 * strip surrounding whitespace.
 */
module Emails {

  /** The characters Python's `str.strip()` removes by default. */
  predicate IsSpace(c: char) {
    || ('\t' <= c <= '\r')
    || ('\U{1C}' <= c <= ' ')
    || c == '\U{85}' || c == '\U{A0}' || c == '\U{1680}'
    || ('\U{2000}' <= c <= '\U{200A}')
    || c == '\U{2028}' || c == '\U{2029}' || c == '\U{202F}' || c == '\U{205F}' || c == '\U{3000}'
  }

  predicate IsUpper(c: char) {
    'A' <= c <= 'Z'
  }

  function LowerChar(c: char): (d: char)
    ensures !IsUpper(d)
    ensures IsSpace(d) <==> IsSpace(c)
    ensures !IsUpper(c) ==> d == c
  {
    if IsUpper(c) then (c as int + 32) as char else c
  }

  /** Lower-casing, character by character. */
  function Lower(s: string): (r: string)
    ensures |r| == |s|
    ensures forall i | 0 <= i < |s| :: r[i] == LowerChar(s[i])
  {
    seq(|s|, i requires 0 <= i < |s| => LowerChar(s[i]))
  }

  /** The number of whitespace characters at the front of `s`. */
  function LeadingSpaces(s: string): (n: nat)
    ensures n <= |s|
    ensures forall i | 0 <= i < n :: IsSpace(s[i])
    ensures n < |s| ==> !IsSpace(s[n])
  {
    if |s| > 0 && IsSpace(s[0]) then 1 + LeadingSpaces(s[1..]) else 0
  }

  /** The number of whitespace characters at the back of `s`. */
  function TrailingSpaces(s: string): (n: nat)
    ensures n <= |s|
    ensures forall i | |s| - n <= i < |s| :: IsSpace(s[i])
    ensures n < |s| ==> !IsSpace(s[|s| - 1 - n])
  {
    if |s| > 0 && IsSpace(s[|s| - 1]) then 1 + TrailingSpaces(s[..|s| - 1]) else 0
  }

  /** `s` with its leading and trailing whitespace removed. */
  function Strip(s: string): (r: string)
    ensures |r| > 0 ==> !IsSpace(r[0]) && !IsSpace(r[|r| - 1])
    ensures (forall i | 0 <= i < |s| :: IsSpace(s[i])) ==> r == []
    // what was removed is the leading whitespace and a run of whitespace at the back
    ensures var a := LeadingSpaces(s);
              && a + |r| <= |s|
              && r == s[a..a + |r|]
              && (forall i | a + |r| <= i < |s| :: IsSpace(s[i]))
  {
    var t := s[LeadingSpaces(s)..];
    t[..|t| - TrailingSpaces(t)]
  }

  /** The email as it is stored and looked up. */
  function Normalize(email: string): (r: string)
    ensures forall i | 0 <= i < |r| :: !IsUpper(r[i])
    ensures |r| > 0 ==> !IsSpace(r[0]) && !IsSpace(r[|r| - 1])
  {
    Strip(Lower(email))
  }

  predicate IsNormalized(email: string) {
    Normalize(email) == email
  }

  /** Normalising twice is normalising once, so stored emails are fixed points. */
  lemma {:induction false} NormalizeIdempotent(email: string)
    ensures IsNormalized(Normalize(email))
  {
    var r := Normalize(email);
    assert Lower(r) == r;
    if |r| > 0 {
      assert LeadingSpaces(r) == 0;
      assert TrailingSpaces(r) == 0;
    }
  }

  /** An email that differs from another only in case is the same account. */
  lemma CaseDuplicate()
    ensures Normalize("A@x.com") == Normalize("a@x.com") == "a@x.com"
  {
    assert Lower("A@x.com") == "a@x.com";
    assert Lower("a@x.com") == "a@x.com";
    assert LeadingSpaces("a@x.com") == 0;
    assert TrailingSpaces("a@x.com") == 0;
  }
}
