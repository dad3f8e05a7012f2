/** The string rewrites of server/article-generator.js: the body-line
    cleaning before layout (lines 145-151) and the plain text read aloud
    (line 43). Each global `replace` scans left to right and resumes after
    each match, as JavaScript's does. */
module Cleaning {
  import opened Strings

  predicate IsNotStar(c: char) { c != '*' }

  predicate IsHash(c: char) { c == '#' }

  predicate IsAscii(c: char) { c as int < 128 }

  /** No two `*` stand side by side in `s`. */
  predicate NoDoubleStar(s: string) {
    forall k :: 0 <= k < |s| - 1 ==> !(s[k] == '*' && s[k + 1] == '*')
  }

  // Line 146: `.replace(/\*\*([^*]+)\*\*/g, '$1')`, bold text without its markers.
  // At a `**`, the star-free run after it must be non-empty and be followed
  // by another `**`; otherwise the first `*` is kept and the scan moves on.
  function StripBold(s: string): (r: string)
    ensures |r| <= |s|
    ensures '*' !in s ==> r == s
    decreases |s|
  {
    if s == [] then []
    else if StartsWith(s, "**") then
      var n := Span(s[2..], IsNotStar);
      if n >= 1 && 4 + n <= |s| && s[3 + n] == '*' then
        s[2..2 + n] + StripBold(s[4 + n..])
      else
        [s[0]] + StripBold(s[1..])
    else
      [s[0]] + StripBold(s[1..])
  }

  /** `**x**` with `x` non-empty and free of `*` becomes `x`, and the scan
      continues after the closing marker. */
  lemma StripBoldPair(x: string, rest: string)
    requires x != [] && '*' !in x
    ensures StripBold("**" + x + "**" + rest) == x + StripBold(rest)
  {
    var u := "**" + rest;
    var s := "**" + x + "**" + rest;
    assert s == "**" + (x + u);
    assert s[2..] == x + u;
    SpanStopsAtStar(x, u);
    assert s[2..2 + |x|] == x;
    assert s[4 + |x|..] == rest;
    assert s[3 + |x|] == '*';
  }

  lemma {:induction false} SpanStopsAtStar(x: string, t: string)
    requires '*' !in x && t != [] && t[0] == '*'
    ensures Span(x + t, IsNotStar) == |x|
  {
    if x != [] {
      SpanStopsAtStar(x[1..], t);
      assert (x + t)[1..] == x[1..] + t;
    }
  }

  /** Line 147: `.replace(/[^\x00-\x7F]/g, ' ')`, every non-ASCII character
      replaced by one space. */
  function ReplaceNonAscii(s: string): (r: string)
    ensures |r| == |s|
    ensures forall k :: 0 <= k < |r| ==> IsAscii(r[k])
    ensures forall k :: 0 <= k < |s| ==> r[k] == (if IsAscii(s[k]) then s[k] else ' ')
  {
    if s == [] then [] else [if IsAscii(s[0]) then s[0] else ' '] + ReplaceNonAscii(s[1..])
  }

  /** Lines 145-147: the cleaned body line. */
  function CleanLine(line: string): (r: string)
    ensures |r| <= |line|
    ensures forall k :: 0 <= k < |r| ==> IsAscii(r[k])
    ensures '*' !in line ==> |r| == |line|
  {
    ReplaceNonAscii(StripBold(line))
  }

  /** Line 150: `/^[*-]\s+/`, a list item. */
  predicate IsListItem(s: string) {
    |s| >= 2 && (s[0] == '*' || s[0] == '-') && IsWhitespace(s[1])
  }

  /** Line 151: `.replace(/^[*-]\s+/, '• ')`. */
  function Bulleted(s: string): (r: string)
    requires IsListItem(s)
    ensures 2 <= |r| <= |s| && r[..2] == "• " && r[2..] == s[|s| - (|r| - 2)..]
    ensures AllWhitespace(s[1..|s| - (|r| - 2)])
    ensures |r| > 2 ==> !IsWhitespace(r[2])
  {
    var n := WhitespaceSpan(s[1..]);
    assert s[1..][..n] == s[1..1 + n];
    "• " + s[1 + n..]
  }

  /** Line 43, first part: `.replace(/#{1,6}\s+/g, '')`. At each position
      the run of `#` is taken up to six long; a match needs whitespace right
      after it, and takes the whole whitespace run with it. */
  function StripHeadingMarks(s: string): (r: string)
    ensures |r| <= |s|
    ensures '#' !in s ==> r == s
    decreases |s|
  {
    if s == [] then []
    else
      var h := Span(s, IsHash);
      var k := if h > 6 then 6 else h;
      if 1 <= k < |s| && IsWhitespace(s[k]) then
        StripHeadingMarks(s[k + WhitespaceSpan(s[k..])..])
      else
        [s[0]] + StripHeadingMarks(s[1..])
  }

  // Line 43, second part: `.replace(/\*\*/g, '')`.
  function RemoveDoubleStars(s: string): (r: string)
    ensures |r| <= |s|
    ensures NoDoubleStar(r)
    ensures s != [] && s[0] != '*' ==> r != [] && r[0] == s[0]
    ensures '*' !in s ==> r == s
    decreases |s|
  {
    if s == [] then []
    else if StartsWith(s, "**") then RemoveDoubleStars(s[2..])
    else [s[0]] + RemoveDoubleStars(s[1..])
  }

  /** Line 43: the text sent to speech synthesis. */
  function PlainText(text: string): (r: string)
    ensures |r| <= |text|
    ensures NoDoubleStar(r)
    ensures '#' !in text && '*' !in text ==> r == text
  {
    RemoveDoubleStars(StripHeadingMarks(text))
  }
}
