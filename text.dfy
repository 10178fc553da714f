/**
 * The two string primitives the lookup workflow relies on:
 * `String.prototype.trim` (used to reject blank city names) and
 * `String.prototype.toLowerCase` (used to compare city names ignoring case).
 */
module Text {
  import opened Sequences

  /** The code points ECMAScript counts as WhiteSpace or LineTerminator, which `trim` strips. */
  predicate IsWhiteSpace(c: char) {
    c == '\t' || c == '\n' || c == '\U{B}' || c == '\U{C}' || c == '\r' || c == ' '
    || c == '\U{A0}' || c == '\U{1680}' || ('\U{2000}' <= c <= '\U{200A}')
    || c == '\U{2028}' || c == '\U{2029}' || c == '\U{202F}' || c == '\U{205F}'
    || c == '\U{3000}' || c == '\U{FEFF}'
  }

  /** A string made of white space only (the empty string included). */
  predicate IsBlank(s: string) {
    forall i :: 0 <= i < |s| ==> IsWhiteSpace(s[i])
  }

  /** `trimStart`: the suffix of `s` left after dropping its leading white space. */
  function TrimStart(s: string): (r: string)
    ensures |r| <= |s| && r == s[|s| - |r|..]
    ensures forall i :: 0 <= i < |s| - |r| ==> IsWhiteSpace(s[i])
    ensures r != [] ==> !IsWhiteSpace(r[0])
  {
    if s != [] && IsWhiteSpace(s[0]) then TrimStart(s[1..]) else s
  }

  /** `trimEnd`: the prefix of `s` left after dropping its trailing white space. */
  function TrimEnd(s: string): (r: string)
    ensures |r| <= |s| && r == s[..|r|]
    ensures forall i :: |r| <= i < |s| ==> IsWhiteSpace(s[i])
    ensures r != [] ==> !IsWhiteSpace(r[|r| - 1])
  {
    if s != [] && IsWhiteSpace(s[|s| - 1]) then TrimEnd(s[..|s| - 1]) else s
  }

  /** `trim`: both ends stripped. */
  function Trim(s: string): (r: string)
    ensures |r| <= |s|
    ensures r != [] ==> !IsWhiteSpace(r[0]) && !IsWhiteSpace(r[|r| - 1])
  {
    TrimEnd(TrimStart(s))
  }

  /** What `trim` leaves is a contiguous part of `s`, with only white space cut off before and after it. */
  lemma TrimInfix(s: string)
    ensures exists a ::
      0 <= a && a + |Trim(s)| <= |s| && Trim(s) == s[a..a + |Trim(s)|]
      && IsBlank(s[..a]) && IsBlank(s[a + |Trim(s)|..])
  {
    BlankCuts(s, TrimStart(s), Trim(s));
  }

  /**
   * A suffix `t` of `s` after white space, and a prefix `r` of `t` before white space:
   * `r` sits in `s` between two blank pieces.
   */
  lemma BlankCuts(s: string, t: string, r: string)
    requires |t| <= |s| && t == s[|s| - |t|..]
    requires forall i :: 0 <= i < |s| - |t| ==> IsWhiteSpace(s[i])
    requires |r| <= |t| && r == t[..|r|]
    requires forall i :: |r| <= i < |t| ==> IsWhiteSpace(t[i])
    ensures var a := |s| - |t|;
      a + |r| <= |s| && r == s[a..a + |r|] && IsBlank(s[..a]) && IsBlank(s[a + |r|..])
  {
    var a := |s| - |t|;
    SuffixCut(s, a, |r|);
    BlankUpTo(s, a);
    BlankFrom(t, |r|);
  }

  /** A prefix made of white space is blank. */
  lemma BlankUpTo(s: string, n: nat)
    requires n <= |s| && forall i :: 0 <= i < n ==> IsWhiteSpace(s[i])
    ensures IsBlank(s[..n])
  {
  }

  /** A suffix made of white space is blank. */
  lemma BlankFrom(s: string, n: nat)
    requires n <= |s| && forall i :: n <= i < |s| ==> IsWhiteSpace(s[i])
    ensures IsBlank(s[n..])
  {
    forall i | 0 <= i < |s| - n ensures IsWhiteSpace(s[n..][i]) {
      assert s[n..][i] == s[n + i];
    }
  }

  /** `!s.trim()` holds exactly when `s` is blank: trimming leaves nothing iff every character is white space. */
  lemma TrimEmptyIffBlank(s: string)
    ensures Trim(s) == [] <==> IsBlank(s)
  {
  }

  /** The page's blank-name check `!s.trim()`, stated as what it means. */
  function TrimsToEmpty(s: string): (b: bool)
    ensures b <==> IsBlank(s)
  {
    TrimEmptyIffBlank(s);
    Trim(s) == []
  }

  /** ASCII `toLowerCase` on one character: 'A'..'Z' become 'a'..'z', everything else is kept. */
  function LowerChar(c: char): char {
    if 'A' <= c <= 'Z' then (c as int + 32) as char else c
  }

  /** `toLowerCase` on a string, character by character. */
  function Lower(s: string): (r: string)
    ensures |r| == |s|
    ensures forall i :: 0 <= i < |r| ==> !('A' <= r[i] <= 'Z')
    ensures forall i :: 0 <= i < |s| && !('A' <= s[i] <= 'Z') ==> r[i] == s[i]
    ensures forall i :: 0 <= i < |s| && 'A' <= s[i] <= 'Z' ==> r[i] as int == s[i] as int + 32
  {
    seq(|s|, i requires 0 <= i < |s| => LowerChar(s[i]))
  }

  /** The comparison `a.toLowerCase() === b.toLowerCase()`. */
  function SameIgnoringCase(a: string, b: string): (same: bool)
    ensures same ==> |a| == |b|
    ensures a == b ==> same
  {
    Lower(a) == Lower(b)
  }

  /** Two names are the same ignoring case exactly when they agree letter by letter after lower-casing. */
  lemma SameIgnoringCaseCharwise(a: string, b: string)
    ensures SameIgnoringCase(a, b) <==>
      |a| == |b| && forall i :: 0 <= i < |a| ==> LowerChar(a[i]) == LowerChar(b[i])
  {
    if |a| == |b| && forall i :: 0 <= i < |a| ==> LowerChar(a[i]) == LowerChar(b[i]) {
      assert forall i :: 0 <= i < |a| ==> Lower(a)[i] == Lower(b)[i];
    }
    if SameIgnoringCase(a, b) {
      forall i | 0 <= i < |a|
        ensures LowerChar(a[i]) == LowerChar(b[i])
      {
        assert Lower(a)[i] == Lower(b)[i];
      }
    }
  }
}
