/**
 * The string primitives the chatbot's rules are built on: Python's
 * `str.lower()` (restricted to ASCII letters), the substring test `w in s`,
 * `any(w in s for w in words)`, and `str.strip()` (restricted to the ASCII
 * whitespace characters).
 */
module TextOps {

  // ---------------------------------------------------------------------
  // Lower-casing
  // ---------------------------------------------------------------------

  predicate IsUpper(c: char) { 'A' <= c <= 'Z' }

  function LowerChar(c: char): (d: char)
    ensures !IsUpper(d)
    ensures !IsUpper(c) ==> d == c
    ensures IsUpper(c) ==> d as int - c as int == 32
  {
    if IsUpper(c) then (c as int + 32) as char else c
  }

  /** A string with no upper-case ASCII letter in it. */
  predicate IsLowered(s: string) {
    forall i :: 0 <= i < |s| ==> !IsUpper(s[i])
  }

  /** Python's `s.lower()` on the ASCII letters; every other character is kept. */
  function Lower(s: string): (r: string)
    ensures |r| == |s|
    ensures forall i :: 0 <= i < |s| ==> r[i] == LowerChar(s[i])
    ensures IsLowered(r)
  {
    if s == [] then [] else [LowerChar(s[0])] + Lower(s[1..])
  }

  /** Lower-casing a string that is already lower-case changes nothing. */
  lemma {:induction false} LowerOfLowered(s: string)
    requires IsLowered(s)
    ensures Lower(s) == s
  {
    var r := Lower(s);
    assert forall i :: 0 <= i < |s| ==> r[i] == s[i];
  }

  /** `lower` is idempotent. */
  lemma LowerIdempotent(s: string)
    ensures Lower(Lower(s)) == Lower(s)
  {
    LowerOfLowered(Lower(s));
  }

  // ---------------------------------------------------------------------
  // Substrings: Python's `w in s` on two strings
  // ---------------------------------------------------------------------

  /** `w` occurs in `s` starting at position `k`. */
  predicate OccursAt(w: string, s: string, k: nat) {
    k + |w| <= |s| && s[k..k + |w|] == w
  }

  /** The meaning of `w in s`: some position of `s` starts an occurrence of `w`. */
  ghost predicate IsSubstring(w: string, s: string) {
    exists k: nat :: OccursAt(w, s, k)
  }

  lemma OccursAtTail(w: string, s: string, k: nat)
    requires |s| > 0
    ensures OccursAt(w, s[1..], k) <==> OccursAt(w, s, k + 1)
  {
    if k + 1 + |w| <= |s| {
      assert s[1..][k..k + |w|] == s[k + 1..k + 1 + |w|];
    }
  }

  /** The executable substring test, scanning the start positions from the left. */
  function Contains(s: string, w: string): (r: bool)
    ensures r <==> IsSubstring(w, s)
    decreases |s|
  {
    if OccursAt(w, s, 0) then true
    else if s == [] then false
    else
      var rest := Contains(s[1..], w);
      assert rest <==> IsSubstring(w, s) by {
        if rest {
          var k: nat :| OccursAt(w, s[1..], k);
          OccursAtTail(w, s, k);
        } else if IsSubstring(w, s) {
          var k: nat :| OccursAt(w, s, k);
          assert k > 0;
          OccursAtTail(w, s, k - 1);
        }
      }
      rest
  }

  /** The meaning of `any(w in s for w in words)`. */
  ghost predicate SomeOccurs(words: seq<string>, s: string) {
    exists i :: 0 <= i < |words| && IsSubstring(words[i], s)
  }

  function ContainsAny(s: string, words: seq<string>): (r: bool)
    ensures r <==> SomeOccurs(words, s)
  {
    if words == [] then false
    else
      var rest := ContainsAny(s, words[1..]);
      assert rest <==> exists i :: 1 <= i < |words| && IsSubstring(words[i], s) by {
        if rest {
          var i :| 0 <= i < |words[1..]| && IsSubstring(words[1..][i], s);
          assert words[i + 1] == words[1..][i];
        }
        if exists i :: 1 <= i < |words| && IsSubstring(words[i], s) {
          var i :| 1 <= i < |words| && IsSubstring(words[i], s);
          assert words[1..][i - 1] == words[i];
        }
      }
      Contains(s, words[0]) || rest
  }

  /** A lower-case keyword found in `s` is also found in `Lower(s)`. */
  lemma OccursInLower(w: string, s: string, k: nat)
    requires IsLowered(w) && OccursAt(w, s, k)
    ensures IsSubstring(w, Lower(s))
  {
    var r := Lower(s);
    assert forall i :: 0 <= i < |w| ==> r[k + i] == LowerChar(w[i]) == w[i];
    assert r[k..k + |w|] == w;
    assert OccursAt(w, r, k);
  }

  /** The `n`th keyword, being lower-case and found in `s`, makes the scan of `Lower(s)` succeed. */
  lemma SomeInLower(words: seq<string>, s: string, n: nat, k: nat)
    requires n < |words| && IsLowered(words[n]) && OccursAt(words[n], s, k)
    ensures ContainsAny(Lower(s), words)
  {
    OccursInLower(words[n], s, k);
  }

  /** No keyword longer than `s` can be found in its lower-cased form. */
  lemma TooShortForAny(words: seq<string>, s: string)
    requires forall i :: 0 <= i < |words| ==> |s| < |words[i]|
    ensures !ContainsAny(Lower(s), words)
  {
  }

  // ---------------------------------------------------------------------
  // Stripping: Python's `s.strip()`
  // ---------------------------------------------------------------------

  /** The ASCII characters Python's `str.isspace` accepts. */
  predicate IsSpace(c: char) {
    c == ' ' || '\U{0009}' <= c <= '\U{000D}' || '\U{001C}' <= c <= '\U{001F}'
  }

  predicate AllSpace(t: string) {
    forall i :: 0 <= i < |t| ==> IsSpace(t[i])
  }

  /** Neither end of `t` is a space. */
  predicate IsTrimmed(t: string) {
    t == [] || (!IsSpace(t[0]) && !IsSpace(t[|t| - 1]))
  }

  /** The length of the run of spaces that `s` starts with. */
  function LeadingSpaces(s: string): (n: nat)
    ensures n <= |s| && AllSpace(s[..n])
    ensures n < |s| ==> !IsSpace(s[n])
  {
    if s != [] && IsSpace(s[0]) then
      var m := LeadingSpaces(s[1..]);
      assert s[1..][..m] == s[1..m + 1];
      m + 1
    else 0
  }

  /** The length of the run of spaces that `s` ends with. */
  function TrailingSpaces(s: string): (n: nat)
    ensures n <= |s| && AllSpace(s[|s| - n..])
    ensures n < |s| ==> !IsSpace(s[|s| - 1 - n])
  {
    if s != [] && IsSpace(s[|s| - 1]) then
      var m := TrailingSpaces(s[..|s| - 1]);
      assert s[..|s| - 1][|s| - 1 - m..] == s[|s| - 1 - m..|s| - 1];
      m + 1
    else 0
  }

  /**
   * `s.strip()`: what lies between the leading run of spaces and the
   * trailing run of spaces; neither end of the result is a space.
   */
  function Strip(s: string): (r: string)
    ensures IsTrimmed(r)
    ensures var a := LeadingSpaces(s);
            a + |r| <= |s| && r == s[a..a + |r|] && AllSpace(s[a + |r|..])
  {
    var a := LeadingSpaces(s);
    var t := s[a..];
    var n := TrailingSpaces(t);
    var r := t[..|t| - n];
    assert r != [] ==> r[0] == s[a] && r[|r| - 1] == t[|t| - 1 - n];
    assert r == s[a..a + |r|];
    assert s[a + |r|..] == t[|t| - n..];
    r
  }

  /** A string that is already trimmed is its own strip. */
  lemma StripOfTrimmed(s: string)
    requires IsTrimmed(s)
    ensures Strip(s) == s
  {
  }

  lemma StripIdempotent(s: string)
    ensures Strip(Strip(s)) == Strip(s)
  {
    StripOfTrimmed(Strip(s));
  }
}
