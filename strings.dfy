/** JavaScript string operations the article generator relies on:
    `split('\n')`, `join('\n')`, `trim()`, `includes`, `startsWith`,
    and the character classes of its regular expressions. */
module Strings {

  /** The code points JavaScript's `\s` matches and `String.prototype.trim`
      removes: WhiteSpace and LineTerminator. */
  predicate IsWhitespace(c: char) {
    c == '\t' || c == '\n' || c == '\U{B}' || c == '\U{C}' || c == '\r' || c == ' '
    || c == '\U{A0}' || c == '\U{1680}' || ('\U{2000}' <= c <= '\U{200A}')
    || c == '\U{2028}' || c == '\U{2029}' || c == '\U{202F}' || c == '\U{205F}'
    || c == '\U{3000}' || c == '\U{FEFF}'
  }

  /** The characters a regular-expression `.` does not match. */
  predicate IsLineTerminator(c: char) {
    c == '\n' || c == '\r' || c == '\U{2028}' || c == '\U{2029}'
  }

  /** `\d` */
  predicate IsDigit(c: char) { '0' <= c <= '9' }

  /** `[a-z]` */
  predicate IsLower(c: char) { 'a' <= c <= 'z' }

  /** `[A-Z]` */
  predicate IsUpper(c: char) { 'A' <= c <= 'Z' }

  /** `\w` */
  predicate IsWordChar(c: char) { IsDigit(c) || IsLower(c) || IsUpper(c) || c == '_' }

  predicate AllWhitespace(s: string) {
    forall k :: 0 <= k < |s| ==> IsWhitespace(s[k])
  }

  /** The length of the longest prefix of `s` whose characters all satisfy `p`:
      how far a greedy `[...]*` advances. */
  function Span(s: string, p: char -> bool): (n: nat)
    ensures n <= |s|
    ensures forall k :: 0 <= k < n ==> p(s[k])
    ensures n < |s| ==> !p(s[n])
  {
    if s == [] || !p(s[0]) then 0 else 1 + Span(s[1..], p)
  }

  function WhitespaceSpan(s: string): (n: nat)
    ensures n <= |s| && AllWhitespace(s[..n])
    ensures n < |s| ==> !IsWhitespace(s[n])
  {
    Span(s, IsWhitespace)
  }

  predicate StartsWith(s: string, prefix: string) {
    |prefix| <= |s| && s[..|prefix|] == prefix
  }

  /** `s.includes(sub)` */
  predicate Contains(s: string, sub: string) {
    exists i :: 0 <= i <= |s| && StartsWith(s[i..], sub)
  }

  /** The number of whitespace characters at the end of `s`. */
  function TrailingWhitespace(s: string): (n: nat)
    ensures n <= |s|
    ensures forall k :: |s| - n <= k < |s| ==> IsWhitespace(s[k])
    ensures n < |s| ==> !IsWhitespace(s[|s| - n - 1])
  {
    if s != [] && IsWhitespace(s[|s| - 1]) then
      TrailingWhitespace(s[..|s| - 1]) + 1
    else
      0
  }

  /** `s.trim()`: `s` without its leading and trailing whitespace. */
  function Trim(s: string): (r: string)
    ensures |r| <= |s|
    ensures r == [] <==> AllWhitespace(s)
    ensures r != [] ==> !IsWhitespace(r[0]) && !IsWhitespace(r[|r| - 1])
  {
    var i := WhitespaceSpan(s);
    if i == |s| then
      assert s[..i] == s;
      []
    else
      var n := TrailingWhitespace(s);
      assert !AllWhitespace(s) by { assert !IsWhitespace(s[i]); }
      s[i..|s| - n]
  }

  /** `s.trim()` is the middle of `s`: what it removes on either side is
      whitespace, and it keeps every other character in place. */
  lemma TrimRemovesOnlyWhitespace(s: string)
    ensures var r := Trim(s);
      var i := WhitespaceSpan(s);
      && i + |r| <= |s|
      && r == s[i..i + |r|]
      && AllWhitespace(s[..i])
      && AllWhitespace(s[i + |r|..])
  {
    var i := WhitespaceSpan(s);
    if i < |s| {
      var n := TrailingWhitespace(s);
      assert s[i + |Trim(s)|..] == s[|s| - n..];
    }
  }

  /** The first character of `s` that is not whitespace is `c`. */
  predicate FirstNonBlankIs(s: string, c: char) {
    var n := WhitespaceSpan(s);
    n < |s| && s[n] == c
  }

  /** For a character `c` that is not whitespace, `s.trim().startsWith(c)`
      holds exactly when `c` is the first non-whitespace character of `s`. */
  lemma TrimStartsWith(s: string, c: char)
    requires !IsWhitespace(c)
    ensures StartsWith(Trim(s), [c]) <==> FirstNonBlankIs(s, c)
  {
    var i := WhitespaceSpan(s);
    if i < |s| {
      assert Trim(s)[0] == s[i];
    }
  }

  /** `s.split(sep)`: the pieces between occurrences of `sep`; never empty,
      and `""` splits into `[""]`. */
  function Split(s: string, sep: char): (r: seq<string>)
    ensures |r| >= 1
    ensures forall k :: 0 <= k < |r| ==> sep !in r[k]
  {
    if s == [] then [[]]
    else
      var rest := Split(s[1..], sep);
      if s[0] == sep then [[]] + rest
      else [[s[0]] + rest[0]] + rest[1..]
  }

  /** `pieces.join(sep)`; an empty array joins to `""`. */
  function Join(pieces: seq<string>, sep: char): (r: string)
  {
    if pieces == [] then []
    else if |pieces| == 1 then pieces[0]
    else pieces[0] + [sep] + Join(pieces[1..], sep)
  }

  /** Splitting and re-joining on the same separator gives back the text. */
  lemma {:induction false} JoinSplit(s: string, sep: char)
    ensures Join(Split(s, sep), sep) == s
  {
    if s != [] {
      JoinSplit(s[1..], sep);
      var rest := Split(s[1..], sep);
      if s[0] == sep {
        assert Split(s, sep) == [[]] + rest;
      } else {
        var r := Split(s, sep);
        assert r == [[s[0]] + rest[0]] + rest[1..];
        if |rest| == 1 {
          assert Join(r, sep) == [s[0]] + rest[0];
        } else {
          assert r[1..] == rest[1..];
          assert Join(r, sep) == [s[0]] + rest[0] + [sep] + Join(rest[1..], sep);
          assert Join(rest, sep) == rest[0] + [sep] + Join(rest[1..], sep);
        }
      }
    }
  }

  /** Joining separator-free pieces and splitting again gives back the pieces. */
  lemma {:induction false} SplitJoin(pieces: seq<string>, sep: char)
    requires |pieces| >= 1
    requires forall k :: 0 <= k < |pieces| ==> sep !in pieces[k]
    ensures Split(Join(pieces, sep), sep) == pieces
  {
    if |pieces| == 1 {
      SplitPiece(pieces[0], sep);
    } else {
      SplitJoin(pieces[1..], sep);
      SplitPieceThen(pieces[0], sep, Join(pieces[1..], sep));
    }
  }

  lemma {:induction false} SplitPiece(p: string, sep: char)
    requires sep !in p
    ensures Split(p, sep) == [p]
  {
    if p != [] {
      SplitPiece(p[1..], sep);
      assert [p[0]] + p[1..] == p;
    }
  }

  lemma {:induction false} SplitPieceThen(p: string, sep: char, rest: string)
    requires sep !in p
    ensures Split(p + [sep] + rest, sep) == [p] + Split(rest, sep)
  {
    if p == [] {
      assert p + [sep] + rest == [sep] + rest;
      assert ([sep] + rest)[1..] == rest;
    } else {
      SplitPieceThen(p[1..], sep, rest);
      var s := p + [sep] + rest;
      assert s[0] == p[0] && s[1..] == p[1..] + [sep] + rest;
      var r := Split(s[1..], sep);
      assert r == [p[1..]] + Split(rest, sep);
      assert Split(s, sep) == [[p[0]] + r[0]] + r[1..];
      assert [p[0]] + p[1..] == p;
    }
  }
}
