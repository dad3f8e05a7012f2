/** `generatePDF` (server/article-generator.js, lines 82-182): a fixed
    header, then the extracted article laid out line by line with a
    vertical cursor that starts a new page when the next block would cross
    the bottom margin. The jsPDF document is represented by its page count
    and the text runs placed on it; `splitTextToSize(text, 180)` is the
    parameter `wrap` and the page height the parameter `pageHeight`. */
module Layout {
  import opened Strings
  import opened Cleaning
  import opened Markdown
  import opened Extraction

  datatype Cursor = Cursor(page: nat, y: int)

  datatype Style = TitleStyle | DateStyle | SubheadingStyle | BodyStyle

  /** One `doc.text(text, x, y)` call. */
  datatype Run = Run(page: nat, x: int, y: int, text: string, style: Style)

  datatype Document = Document(pages: nat, runs: seq<Run>)

  const DefaultTitle := "Daily English Reading"
  const CentreX := 105
  const TitleY := 20
  const DateY := 30
  const BodyStartY := 40
  const TopMargin := 20
  const BottomMargin := 20
  const SubheadingMargin := 30
  const BlankAdvance := 5
  const SubheadingAdvance := 10
  const RowHeight := 7
  const TextIndent := 15
  const BulletIndent := 20

  /** Position `(page, y)` comes strictly before the cursor `c`. */
  predicate Before(page: nat, y: int, c: Cursor) {
    page < c.page || (page == c.page && y < c.y)
  }

  /** Cursor `c` is not past position `(page, y)`. */
  predicate NotPast(c: Cursor, page: nat, y: int) {
    c.page < page || (c.page == page && c.y <= y)
  }

  /** Each run lies strictly below the one before it, or on a later page. */
  predicate InReadingOrder(runs: seq<Run>) {
    forall k :: 0 < k < |runs| ==> Before(runs[k - 1].page, runs[k - 1].y, Cursor(runs[k].page, runs[k].y))
  }

  /** Every run lies between cursor `lo` (inclusive) and cursor `hi` (exclusive). */
  predicate Between(runs: seq<Run>, lo: Cursor, hi: Cursor) {
    forall k :: 0 <= k < |runs| ==> NotPast(lo, runs[k].page, runs[k].y) && Before(runs[k].page, runs[k].y, hi)
  }

  /** Line 124: `/^#\s+/` on the trimmed line. */
  predicate IsTitleLine(line: string) {
    |line| >= 2 && line[0] == '#' && IsWhitespace(line[1])
  }

  /** Line 127: `/^##\s+/` on the trimmed line. */
  predicate IsSubheadingLine(line: string) {
    StartsWith(line, "##") && |line| >= 3 && IsWhitespace(line[2])
  }

  /** Line 134: `line.replace(/^##\s+/, '')`. */
  function SubheadingText(line: string): (t: string)
    requires IsSubheadingLine(line)
    ensures |t| <= |line| - 3 && t == line[|line| - |t|..]
    ensures AllWhitespace(line[2..|line| - |t|])
    ensures t == [] || !IsWhitespace(t[0])
  {
    var n := WhitespaceSpan(line[2..]);
    assert line[2..][..n] == line[2..2 + n];
    line[2 + n..]
  }

  function PlacedRows(rows: seq<string>, page: nat, x: int, y: int): seq<Run> {
    seq(|rows|, k requires 0 <= k < |rows| => Run(page, x, y + RowHeight * k, rows[k], BodyStyle))
  }

  /** Lines 152-162 and 167-177: a block of wrapped rows, on a new page
      when it would cross the bottom margin. */
  function PlaceBlock(c: Cursor, x: int, rows: seq<string>, pageHeight: int): (Cursor, seq<Run>) {
    var start := if c.y + RowHeight * |rows| > pageHeight - BottomMargin then Cursor(c.page + 1, TopMargin) else c;
    (Cursor(start.page, start.y + RowHeight * |rows|), PlacedRows(rows, start.page, x, start.y))
  }

  /** A new page is started exactly when the block would cross the bottom
      margin, and otherwise the block fits above it; the rows sit on one page
      at consecutive baselines, the last one just above the new cursor. */
  lemma PlaceBlockShape(c: Cursor, x: int, rows: seq<string>, pageHeight: int)
    ensures var r := PlaceBlock(c, x, rows, pageHeight);
      && (r.0.page == c.page || r.0.page == c.page + 1)
      && (r.0.page == c.page + 1 <==> c.y + RowHeight * |rows| > pageHeight - BottomMargin)
      && (r.0.page == c.page ==> r.0.y == c.y + RowHeight * |rows| <= pageHeight - BottomMargin)
      && (r.0.page == c.page + 1 ==> r.0.y == TopMargin + RowHeight * |rows|)
      && |r.1| == |rows|
      && forall k :: 0 <= k < |rows| ==>
           r.1[k] == Run(r.0.page, x, r.0.y - RowHeight * (|rows| - k), rows[k], BodyStyle)
  {
  }

  /** One iteration of the loop at lines 114-178 on one line of the article. */
  function LayoutLine(c: Cursor, raw: string, pageHeight: int, wrap: string -> seq<string>): (Cursor, seq<Run>) {
    var line := Trim(raw);
    if line == [] then
      (Cursor(c.page, c.y + BlankAdvance), [])
    else if IsTitleLine(line) then
      (c, [])
    else if IsSubheadingLine(line) then
      var start := if c.y > pageHeight - SubheadingMargin then Cursor(c.page + 1, TopMargin) else c;
      (Cursor(start.page, start.y + SubheadingAdvance), [Run(start.page, TextIndent, start.y, SubheadingText(line), SubheadingStyle)])
    else
      LayoutText(c, line, pageHeight, wrap)
  }

  /** Lines 145-177: an ordinary trimmed line, cleaned, turned into a bullet
      when it is a list item, wrapped and placed as one block. */
  function LayoutText(c: Cursor, line: string, pageHeight: int, wrap: string -> seq<string>): (Cursor, seq<Run>) {
    var plain := CleanLine(line);
    if IsListItem(plain) then PlaceBlock(c, BulletIndent, BlockOf(line, wrap), pageHeight)
    else PlaceBlock(c, TextIndent, BlockOf(line, wrap), pageHeight)
  }

  /** Lines 145-152 and 167: the rows an ordinary trimmed line is wrapped
      into, after cleaning and, for a list item, the bullet. */
  function BlockOf(line: string, wrap: string -> seq<string>): seq<string> {
    var plain := CleanLine(line);
    if IsListItem(plain) then wrap(Bulleted(plain)) else wrap(plain)
  }

  /** One line never moves the cursor back and adds at most one page; what
      it draws is in reading order, between the old and the new cursor. */
  lemma LayoutLineInOrder(c: Cursor, raw: string, pageHeight: int, wrap: string -> seq<string>)
    ensures var r := LayoutLine(c, raw, pageHeight, wrap);
      && NotPast(c, r.0.page, r.0.y) && r.0.page <= c.page + 1
      && InReadingOrder(r.1) && Between(r.1, c, r.0)
  {
    var line := Trim(raw);
    if line != [] && !IsTitleLine(line) && !IsSubheadingLine(line) {
      LayoutTextInOrder(c, line, pageHeight, wrap);
    }
  }

  lemma LayoutTextInOrder(c: Cursor, line: string, pageHeight: int, wrap: string -> seq<string>)
    ensures var r := LayoutText(c, line, pageHeight, wrap);
      && NotPast(c, r.0.page, r.0.y) && r.0.page <= c.page + 1
      && InReadingOrder(r.1) && Between(r.1, c, r.0)
  {
    var plain := CleanLine(line);
    var text := if IsListItem(plain) then Bulleted(plain) else plain;
    var x := if IsListItem(plain) then BulletIndent else TextIndent;
    PlaceBlockShape(c, x, wrap(text), pageHeight);
  }

  /** The effect of each kind of line on the cursor: a blank line moves
      down 5 on the same page, a `# ` line changes nothing, a `## ` line
      starts a new page exactly when the cursor is below `pageHeight - 30`
      and then moves down 10, and any other line places its wrapped rows as
      one block at x = 20 when it is a list item and x = 15 otherwise. */
  lemma LineCursorStep(c: Cursor, raw: string, pageHeight: int, wrap: string -> seq<string>)
    ensures var line := Trim(raw);
      var r := LayoutLine(c, raw, pageHeight, wrap);
      && (line == [] ==> r == (Cursor(c.page, c.y + BlankAdvance), []))
      && (IsTitleLine(line) ==> r == (c, []))
      && (IsSubheadingLine(line) ==>
            && |r.1| == 1 && r.1[0].style == SubheadingStyle && r.1[0].x == TextIndent
            && r.1[0].text == SubheadingText(line)
            && (r.0.page == c.page + 1 <==> c.y > pageHeight - SubheadingMargin)
            && (r.0.page == c.page + 1 ==> r.1[0].y == TopMargin)
            && (r.0.page == c.page ==> r.1[0].y == c.y)
            && (r.0.page == c.page || r.0.page == c.page + 1)
            && r.1[0].page == r.0.page && r.0.y == r.1[0].y + SubheadingAdvance)
      && (line != [] && !IsTitleLine(line) && !IsSubheadingLine(line) ==>
            var plain := CleanLine(line);
            var text := if IsListItem(plain) then Bulleted(plain) else plain;
            var x := if IsListItem(plain) then BulletIndent else TextIndent;
            r == PlaceBlock(c, x, wrap(text), pageHeight))
  {
  }

  /** The loop at lines 114-178 over the first lines of the article, from cursor `c`. */
  function LayoutLines(c: Cursor, lines: seq<string>, pageHeight: int, wrap: string -> seq<string>): (Cursor, seq<Run>)
  {
    if lines == [] then (c, [])
    else
      var before := LayoutLines(c, lines[..|lines| - 1], pageHeight, wrap);
      var last := LayoutLine(before.0, lines[|lines| - 1], pageHeight, wrap);
      (last.0, before.1 + last.1)
  }

  /** Lines 91-95: the parsed title, or the fixed fallback when there is none. */
  function DocumentTitle(p: ParsedArticle): (t: string)
    ensures t != []
    ensures p.title != [] ==> t == p.title
    ensures p.title == [] ==> t == DefaultTitle
  {
    if p.title != [] then p.title else DefaultTitle
  }

  /** The whole of `generatePDF`: header runs on page 1, then the body. */
  function PdfDocument(text: string, today: string, pageHeight: int, wrap: string -> seq<string>): Document {
    var header := [
      Run(1, CentreX, TitleY, DocumentTitle(ParseMarkdown(text)), TitleStyle),
      Run(1, CentreX, DateY, "Date: " + today, DateStyle)
    ];
    var body := LayoutLines(Cursor(1, BodyStartY), Split(ArticleText(text), '\n'), pageHeight, wrap);
    Document(body.0.page, header + body.1)
  }

  /** The inner loops at lines 159-162 and 174-177. */
  method DrawRows(rows: seq<string>, x: int, page: nat, y0: int, runs0: seq<Run>) returns (y: int, runs: seq<Run>)
    ensures y == y0 + RowHeight * |rows|
    ensures runs == runs0 + PlacedRows(rows, page, x, y0)
  {
    y, runs := y0, runs0;
    for j := 0 to |rows|
      invariant y == y0 + RowHeight * j
      invariant runs == runs0 + PlacedRows(rows, page, x, y0)[..j]
    {
      runs := runs + [Run(page, x, y, rows[j], BodyStyle)];
      y := y + RowHeight;
    }
  }

  /** One pass of the loop body at lines 115-177: the line is trimmed, then
      skipped, drawn as a subheading, or cleaned, wrapped and drawn row by row. */
  method PlaceLine(page0: nat, y0: int, raw: string, pageHeight: int, wrap: string -> seq<string>, runs0: seq<Run>)
    returns (page: nat, y: int, runs: seq<Run>)
    ensures var r := LayoutLine(Cursor(page0, y0), raw, pageHeight, wrap);
      Cursor(page, y) == r.0 && runs == runs0 + r.1
  {
    page, y, runs := page0, y0, runs0;
    var line := Trim(raw);
    if line == [] {
      y := y + BlankAdvance;
      return;
    }
    if IsTitleLine(line) {
      return;
    }
    if IsSubheadingLine(line) {
      if y > pageHeight - SubheadingMargin {
        page := page + 1;
        y := TopMargin;
      }
      runs := runs + [Run(page, TextIndent, y, SubheadingText(line), SubheadingStyle)];
      y := y + SubheadingAdvance;
      return;
    }
    page, y, runs := PlaceText(page, y, line, pageHeight, wrap, runs);
  }

  /** Lines 145-177 on an ordinary trimmed line: cleaned, wrapped, a new
      page when the block would cross the bottom margin, then one row at a time. */
  method PlaceText(page0: nat, y0: int, line: string, pageHeight: int, wrap: string -> seq<string>, runs0: seq<Run>)
    returns (page: nat, y: int, runs: seq<Run>)
    ensures var r := LayoutText(Cursor(page0, y0), line, pageHeight, wrap);
      Cursor(page, y) == r.0 && runs == runs0 + r.1
  {
    page, y := page0, y0;
    var plainLine := CleanLine(line);
    var x := TextIndent;
    if IsListItem(plainLine) {
      plainLine := Bulleted(plainLine);
      x := BulletIndent;
    }
    var wrappedText := wrap(plainLine);
    if y + RowHeight * |wrappedText| > pageHeight - BottomMargin {
      page := page + 1;
      y := TopMargin;
    }
    y, runs := DrawRows(wrappedText, x, page, y, runs0);
  }

  /** The loop at lines 114-178: every line of the article in turn, from
      the cursor at y = 40 on page 1, appended after the runs already drawn. */
  method LayoutBody(lines: seq<string>, pageHeight: int, wrap: string -> seq<string>, header: seq<Run>)
    returns (page: nat, runs: seq<Run>)
    ensures var body := LayoutLines(Cursor(1, BodyStartY), lines, pageHeight, wrap);
      page == body.0.page && runs == header + body.1
  {
    runs := header;
    page := 1;
    var y := BodyStartY;
    for i := 0 to |lines|
      invariant Cursor(page, y) == LayoutLines(Cursor(1, BodyStartY), lines[..i], pageHeight, wrap).0
      invariant runs == header + LayoutLines(Cursor(1, BodyStartY), lines[..i], pageHeight, wrap).1
    {
      LayoutLinesStep(Cursor(1, BodyStartY), lines, i, pageHeight, wrap);
      ghost var before := LayoutLines(Cursor(1, BodyStartY), lines[..i], pageHeight, wrap).1;
      ghost var last := LayoutLine(Cursor(page, y), lines[i], pageHeight, wrap).1;
      page, y, runs := PlaceLine(page, y, lines[i], pageHeight, wrap, runs);
      AppendAssociates(header, before, last);
    }
    assert lines[..|lines|] == lines;
  }

  /** `generatePDF`: the header, the article extracted from `text`, and the
      layout loop. `today` stands for the date the source reads from the clock. */
  method GeneratePdf(text: string, today: string, pageHeight: int, wrap: string -> seq<string>) returns (doc: Document)
    ensures doc == PdfDocument(text, today, pageHeight, wrap)
    ensures doc.pages >= 1 && InReadingOrder(doc.runs)
    ensures forall k :: 0 <= k < |doc.runs| ==> 1 <= doc.runs[k].page <= doc.pages
  {
    var parsedContent := ParseMarkdown(text);
    var title := DefaultTitle;
    if parsedContent.title != [] {
      title := parsedContent.title;
    }
    var header := [Run(1, CentreX, TitleY, title, TitleStyle), Run(1, CentreX, DateY, "Date: " + today, DateStyle)];
    var articleContent := ExtractArticleContent(text);
    var lines := Split(articleContent, '\n');
    var page, runs := LayoutBody(lines, pageHeight, wrap, header);
    doc := Document(page, runs);
    DocumentInReadingOrder(text, today, pageHeight, wrap);
  }

  /** Laying out one more line continues from where the previous lines left off. */
  lemma LayoutLinesStep(c: Cursor, lines: seq<string>, i: nat, pageHeight: int, wrap: string -> seq<string>)
    requires i < |lines|
    ensures var before := LayoutLines(c, lines[..i], pageHeight, wrap);
      var last := LayoutLine(before.0, lines[i], pageHeight, wrap);
      LayoutLines(c, lines[..i + 1], pageHeight, wrap) == (last.0, before.1 + last.1)
  {
    assert lines[..i + 1][..i] == lines[..i];
  }

  lemma AppendAssociates(a: seq<Run>, b: seq<Run>, c: seq<Run>)
    ensures a + b + c == a + (b + c)
  {
  }

  /** Appending runs that start at or after the cursor the first runs end
      before keeps reading order. */
  lemma OrderAppend(a: seq<Run>, b: seq<Run>, lo: Cursor, mid: Cursor, hi: Cursor)
    requires InReadingOrder(a) && Between(a, lo, mid)
    requires InReadingOrder(b) && Between(b, mid, hi)
    requires NotPast(lo, mid.page, mid.y) && NotPast(mid, hi.page, hi.y)
    ensures InReadingOrder(a + b) && Between(a + b, lo, hi)
  {
    forall k | 0 < k < |a + b|
      ensures Before((a + b)[k - 1].page, (a + b)[k - 1].y, Cursor((a + b)[k].page, (a + b)[k].y))
    {
      if k < |a| {
        assert (a + b)[k - 1] == a[k - 1] && (a + b)[k] == a[k];
      } else if k == |a| {
        assert (a + b)[k - 1] == a[k - 1] && (a + b)[k] == b[0];
      } else {
        assert (a + b)[k - 1] == b[k - 1 - |a|] && (a + b)[k] == b[k - |a|];
      }
    }
  }

  /** The body comes out in reading order, between the start cursor and the
      final one, and each line adds at most one page. */
  lemma {:induction false} LayoutInReadingOrder(c: Cursor, lines: seq<string>, pageHeight: int, wrap: string -> seq<string>)
    ensures var r := LayoutLines(c, lines, pageHeight, wrap);
      && InReadingOrder(r.1) && Between(r.1, c, r.0)
      && NotPast(c, r.0.page, r.0.y) && r.0.page <= c.page + |lines|
  {
    if lines != [] {
      var init := lines[..|lines| - 1];
      LayoutInReadingOrder(c, init, pageHeight, wrap);
      var before := LayoutLines(c, init, pageHeight, wrap);
      var last := LayoutLine(before.0, lines[|lines| - 1], pageHeight, wrap);
      LayoutLineInOrder(before.0, lines[|lines| - 1], pageHeight, wrap);
      OrderAppend(before.1, last.1, c, before.0, last.0);
    }
  }

  /** The whole document is in reading order and the page count covers every run. */
  lemma DocumentInReadingOrder(text: string, today: string, pageHeight: int, wrap: string -> seq<string>)
    ensures var doc := PdfDocument(text, today, pageHeight, wrap);
      && doc.pages >= 1 && InReadingOrder(doc.runs)
      && forall k :: 0 <= k < |doc.runs| ==> 1 <= doc.runs[k].page <= doc.pages
  {
    var start := Cursor(1, BodyStartY);
    var body := LayoutLines(start, Split(ArticleText(text), '\n'), pageHeight, wrap);
    LayoutInReadingOrder(start, Split(ArticleText(text), '\n'), pageHeight, wrap);
    var header := [
      Run(1, CentreX, TitleY, DocumentTitle(ParseMarkdown(text)), TitleStyle),
      Run(1, CentreX, DateY, "Date: " + today, DateStyle)
    ];
    OrderAppend(header, body.1, Cursor(1, TitleY), start, body.0);
  }

  /** No subheading in `runs` lies lower than 30 above the bottom edge. */
  predicate SubheadingsClear(runs: seq<Run>, pageHeight: int) {
    forall k :: 0 <= k < |runs| && runs[k].style == SubheadingStyle ==> runs[k].y <= pageHeight - SubheadingMargin
  }

  /** Every body row in `runs` ends above the bottom margin. */
  predicate RowsClear(runs: seq<Run>, pageHeight: int) {
    forall k :: 0 <= k < |runs| && runs[k].style == BodyStyle ==> runs[k].y + RowHeight <= pageHeight - BottomMargin
  }

  /** The rows that line `raw` of the article wraps into fit on an empty
      page. */
  predicate LineFits(raw: string, pageHeight: int, wrap: string -> seq<string>) {
    RowHeight * |BlockOf(Trim(raw), wrap)| <= pageHeight - TopMargin - BottomMargin
  }

  lemma ClearAppend(a: seq<Run>, b: seq<Run>, pageHeight: int)
    ensures SubheadingsClear(a, pageHeight) && SubheadingsClear(b, pageHeight) ==> SubheadingsClear(a + b, pageHeight)
    ensures RowsClear(a, pageHeight) && RowsClear(b, pageHeight) ==> RowsClear(a + b, pageHeight)
  {
  }

  /** A subheading is drawn at or above 30 from the bottom edge, when a
      fresh page leaves that much room. */
  lemma LineSubheadingClearsBottom(c: Cursor, raw: string, pageHeight: int, wrap: string -> seq<string>)
    requires pageHeight >= TopMargin + SubheadingMargin
    ensures SubheadingsClear(LayoutLine(c, raw, pageHeight, wrap).1, pageHeight)
  {
    var line := Trim(raw);
    if line != [] && !IsTitleLine(line) && !IsSubheadingLine(line) {
      var plain := CleanLine(line);
      var text := if IsListItem(plain) then Bulleted(plain) else plain;
      var x := if IsListItem(plain) then BulletIndent else TextIndent;
      PlaceBlockShape(c, x, wrap(text), pageHeight);
    }
  }

  /** A wrapped row is drawn with its full height above the bottom margin,
      when the line's own block fits on an empty page. */
  lemma LineRowsClearBottom(c: Cursor, raw: string, pageHeight: int, wrap: string -> seq<string>)
    requires LineFits(raw, pageHeight, wrap)
    ensures RowsClear(LayoutLine(c, raw, pageHeight, wrap).1, pageHeight)
  {
    var line := Trim(raw);
    if line != [] && !IsTitleLine(line) && !IsSubheadingLine(line) {
      var plain := CleanLine(line);
      var text := if IsListItem(plain) then Bulleted(plain) else plain;
      var x := if IsListItem(plain) then BulletIndent else TextIndent;
      PlaceBlockShape(c, x, wrap(text), pageHeight);
    }
  }

  /** When `pageHeight` leaves room for a heading on a fresh page, no
      subheading is placed lower than 30 above the bottom edge. */
  lemma {:induction false} SubheadingsClearBottom(c: Cursor, lines: seq<string>, pageHeight: int, wrap: string -> seq<string>)
    requires pageHeight >= TopMargin + SubheadingMargin
    ensures SubheadingsClear(LayoutLines(c, lines, pageHeight, wrap).1, pageHeight)
  {
    if lines != [] {
      var init := lines[..|lines| - 1];
      SubheadingsClearBottom(c, init, pageHeight, wrap);
      var before := LayoutLines(c, init, pageHeight, wrap);
      LineSubheadingClearsBottom(before.0, lines[|lines| - 1], pageHeight, wrap);
      ClearAppend(before.1, LayoutLine(before.0, lines[|lines| - 1], pageHeight, wrap).1, pageHeight);
    }
  }

  /** When the wrapped block of each line of the article fits on an empty
      page, every body row lies above the bottom margin. */
  lemma {:induction false} RowsClearBottom(c: Cursor, lines: seq<string>, pageHeight: int, wrap: string -> seq<string>)
    requires forall i :: 0 <= i < |lines| ==> LineFits(lines[i], pageHeight, wrap)
    ensures RowsClear(LayoutLines(c, lines, pageHeight, wrap).1, pageHeight)
  {
    if lines != [] {
      var init := lines[..|lines| - 1];
      RowsClearBottom(c, init, pageHeight, wrap);
      var before := LayoutLines(c, init, pageHeight, wrap);
      LineRowsClearBottom(before.0, lines[|lines| - 1], pageHeight, wrap);
      ClearAppend(before.1, LayoutLine(before.0, lines[|lines| - 1], pageHeight, wrap).1, pageHeight);
    }
  }
}
