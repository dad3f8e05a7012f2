/** `parseMarkdown` (server/article-generator.js, lines 56-79): the first
    `# ` title, every `## ` subtitle in document order, and the text itself.
    The two multiline patterns `/^#\s+(.+)$/m` and `/^##\s+(.+)$/gm` are
    applied one line at a time, a line being the text between two `\n`. */
module Markdown {
  import opened Strings

  datatype Option<T> = None | Some(value: T)

  datatype ParsedArticle = ParsedArticle(title: string, subtitles: seq<string>, content: string)

  /** `^<marker>\s+(.+)$` on one line: the captured heading text. The
      whitespace run is greedy, and gives back its last character when
      nothing else is left for `.+`. */
  function HeadingText(line: string, marker: string): (r: Option<string>)
    ensures r.Some? <==>
      StartsWith(line, marker) && |line| >= |marker| + 2 && IsWhitespace(line[|marker|])
  {
    if !StartsWith(line, marker) then None
    else
      var rest := line[|marker|..];
      var n := WhitespaceSpan(rest);
      if n == 0 then None
      else if n < |rest| then Some(rest[n..])
      else if n >= 2 then Some(rest[n - 1..])
      else None
  }

  /** The captured text is a non-empty tail of the line, separated from the
      marker by whitespace only, and starts with a non-blank character unless
      it is the one character the whitespace run gave back. */
  lemma HeadingTextShape(line: string, marker: string)
    requires HeadingText(line, marker).Some?
    ensures var t := HeadingText(line, marker).value;
      && t != []
      && |marker| < |line| - |t|
      && line[|line| - |t|..] == t
      && AllWhitespace(line[|marker|..|line| - |t|])
      && (|t| == 1 || !IsWhitespace(t[0]))
  {
    var rest := line[|marker|..];
    var n := WhitespaceSpan(rest);
    if n < |rest| {
      assert line[|marker|..|marker| + n] == rest[..n];
    } else {
      assert line[|marker|..|line| - 1] == rest[..n - 1];
    }
  }

  /** Some line of `lines` is a `# ` title line. */
  predicate HasTitleLine(lines: seq<string>) {
    exists k :: 0 <= k < |lines| && HeadingText(lines[k], "#").Some?
  }

  /** The text of the first `# ` line, or `""` when there is none (lines 62-66). */
  function FirstTitle(lines: seq<string>): (t: string)
    ensures t == [] <==> !HasTitleLine(lines)
  {
    if lines == [] then []
    else match HeadingText(lines[0], "#")
      case Some(t) => t
      case None =>
        assert forall k :: 1 <= k < |lines| ==> lines[k] == lines[1..][k - 1];
        FirstTitle(lines[1..])
  }

  /** The position of the first `# ` title line, or `|lines|` when there is none. */
  function TitleLineIndex(lines: seq<string>): (i: nat)
    ensures i <= |lines|
    ensures i < |lines| ==> HeadingText(lines[i], "#").Some?
    ensures forall k :: 0 <= k < i ==> HeadingText(lines[k], "#").None?
  {
    if lines == [] || HeadingText(lines[0], "#").Some? then 0
    else
      var j := TitleLineIndex(lines[1..]);
      assert forall k :: 1 <= k < 1 + j ==> lines[k] == lines[1..][k - 1];
      1 + j
  }

  /** The title is the heading text of the first `# ` line, and `""` when there is none. */
  lemma {:induction false} FirstTitleIsFirstMatch(lines: seq<string>)
    ensures var i := TitleLineIndex(lines);
      FirstTitle(lines) == if i < |lines| then HeadingText(lines[i], "#").value else []
  {
    if lines != [] && HeadingText(lines[0], "#").None? {
      FirstTitleIsFirstMatch(lines[1..]);
      var j := TitleLineIndex(lines[1..]);
      if j < |lines[1..]| {
        assert lines[1 + j] == lines[1..][j];
      }
    }
  }

  /** The text of every `## ` line, in order (lines 68-72). */
  function Subtitles(lines: seq<string>): (s: seq<string>)
    ensures |s| <= |lines|
    ensures forall k :: 0 <= k < |s| ==> s[k] != []
  {
    if lines == [] then []
    else
      (match HeadingText(lines[0], "##") case Some(t) => [t] case None => [])
      + Subtitles(lines[1..])
  }

  /** Line 60 keeps `content` as the text itself; lines 63-72 read the headings. */
  function ParseMarkdown(markdown: string): (p: ParsedArticle)
    ensures p.content == markdown
    ensures p.title == [] <==> !HasTitleLine(Split(markdown, '\n'))
  {
    var lines := Split(markdown, '\n');
    ParsedArticle(FirstTitle(lines), Subtitles(lines), markdown)
  }

  /** Subtitles of consecutive parts of a document come in document order. */
  lemma {:induction false} SubtitlesAppend(a: seq<string>, b: seq<string>)
    ensures Subtitles(a + b) == Subtitles(a) + Subtitles(b)
  {
    if a != [] {
      SubtitlesAppend(a[1..], b);
      assert (a + b)[0] == a[0] && (a + b)[1..] == a[1..] + b;
    } else {
      assert a + b == b;
    }
  }

  /** A text is a subtitle exactly when some `## ` line carries it. */
  lemma {:induction false} SubtitlesExactly(lines: seq<string>, t: string)
    ensures t in Subtitles(lines) <==> exists i :: 0 <= i < |lines| && HeadingText(lines[i], "##") == Some(t)
  {
    if lines != [] {
      SubtitlesExactly(lines[1..], t);
      if exists i :: 0 <= i < |lines| && HeadingText(lines[i], "##") == Some(t) {
        var i :| 0 <= i < |lines| && HeadingText(lines[i], "##") == Some(t);
        if i > 0 {
          assert lines[1..][i - 1] == lines[i];
        }
      }
      if exists i :: 0 <= i < |lines[1..]| && HeadingText(lines[1..][i], "##") == Some(t) {
        var i :| 0 <= i < |lines[1..]| && HeadingText(lines[1..][i], "##") == Some(t);
        assert lines[i + 1] == lines[1..][i];
      }
    }
  }

  /** A `# ` title line is never a `## ` subtitle line and vice versa. */
  lemma TitleAndSubtitleLinesDiffer(line: string)
    ensures HeadingText(line, "#").Some? ==> HeadingText(line, "##").None?
  {
  }
}
