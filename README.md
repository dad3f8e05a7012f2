# everydayEnglish article processing, modelled in Dafny

everydayEnglish generates a daily English reading article in Markdown. It then
turns the article into a PDF and an audio file. This project models the text
processing in `server/article-generator.js`:

- **Vocabulary-section stripper** (`extractArticleContent`): a loop over the
  lines of the article with two flags, `isVocabularySection` and
  `foundTableHeader`. It drops every line from a vocabulary heading, label or
  table onwards, until a blank line ends the section.
- **Page layout** (`generatePDF`): a centred title with a fixed fallback, a
  date line, and then the extracted article laid out line by line. A vertical
  cursor moves down the page, and a new page starts when a subheading or a
  block of wrapped rows would cross the bottom margin.
- **`parseMarkdown`**: the first `# ` title, every `## ` subtitle, and the
  content unchanged.
- **The line cleaning before layout**: bold markers removed, non-ASCII
  characters replaced by spaces, and list markers turned into bullets.
- **The plain-text transform** applied before speech synthesis.

The modules, in dependency order:

- `Strings` (strings.dfy) covers JavaScript's `trim`, `\s`, `split` and `join`
  on `seq<char>`.
- `Patterns` (patterns.dfy) gives the nine vocabulary trigger patterns, one
  predicate each.
- `Extraction` (extraction.dfy) holds the stripper. The method runs the
  source's loop and is proved equal to a specification by recursive
  functions. Every lemma about that specification holds for any trigger
  predicate, so it stays valid whatever the pattern list contains. The
  exception is the worked example (`ExampleLinesClassified`,
  `ArticleLinesExample`), which uses the nine patterns.
- `Markdown` (markdown.dfy) models `parseMarkdown`.
- `Cleaning` (cleaning.dfy) covers the line cleaning and the audio plain
  text.
- `Layout` (layout.dfy) models `generatePDF`. The jsPDF document is
  represented by its page count and the sequence of text runs drawn on it,
  each with a page, x, y, text and style.

The extractor keeps a `# ` title line. Only vocabulary headings trigger it,
and the layout loop skips the line (server/article-generator.js:124).

## Model

| member | source | states |
|---|---|---|
| Strings.Trim | server/article-generator.js:115 | the trimmed line is empty exactly when the line is all JavaScript whitespace; otherwise it starts and ends with a non-whitespace character |
| Strings.TrimRemovesOnlyWhitespace | server/article-generator.js:115 | the trimmed line is the line's middle: everything before it and after it is whitespace, and it is a contiguous part of the line starting at the first non-whitespace character |
| Strings.Split | server/article-generator.js:186 | `split('\n')` yields at least one piece, and no piece contains the separator |
| Strings.Join | server/article-generator.js:233 | `pieces.join(sep)`: the pieces with the separator between consecutive ones, and `""` for no pieces |
| Strings.JoinSplit | server/article-generator.js:186-233 | joining the split lines with the same separator gives back the original text |
| Strings.TrimStartsWith | server/article-generator.js:216 | for a non-whitespace character, the trimmed line starts with it exactly when it is the first non-whitespace character of the line |
| Strings.SplitJoin | server/article-generator.js:110 | splitting a join of separator-free pieces (at least one) gives back exactly those pieces |
| Patterns.IsVocabularyHeading | server/article-generator.js:196 | holds exactly when `/^##?\s+(Vocabulary\|New Words\|Word List\|Glossary\|生词表\|单词表\|词汇表)/i` matches the line: one or two `#`, whitespace, then one of the keywords in any ASCII case |
| Patterns.IsNewWordsLabel | server/article-generator.js:197 | holds exactly when `/^(\*\*)?生词(\*\*)?[：:]/i` matches the line |
| Patterns.IsVocabularyLabel | server/article-generator.js:198 | holds exactly when `/^(\*\*)?词汇(\*\*)?[：:]/i` matches the line |
| Patterns.IsNumberedDefinition | server/article-generator.js:199 | holds exactly when `/^\d+\.\s+\w+\s+\([a-z]+\.\)/` matches the line |
| Patterns.IsCapitalisedLabel | server/article-generator.js:200 | holds exactly when `/^[A-Z][a-z]+:/` matches the line |
| Patterns.IsSubVocabularyHeading | server/article-generator.js:201 | holds exactly when `/^###?\s+Vocabulary/` matches the line, case-sensitively |
| Patterns.IsChineseMeaningHeader | server/article-generator.js:202 | holds exactly when the trimmed line is `\| Word \| Chinese Meaning \|` |
| Patterns.IsWordTableHeader | server/article-generator.js:203 | holds exactly when `/^\|\s*Word\s*\|\s*.*\s*\|$/` matches the line |
| Patterns.IsTableSeparator | server/article-generator.js:204 | holds exactly when the line contains `\|` and `--` |
| Patterns.IsVocabularyTrigger | server/article-generator.js:195-205 | holds exactly when one of the nine tests matches the line |
| Patterns.PlainLineIsNoTrigger | server/article-generator.js:195-205 | a line that starts with none of `#`, `*`, `生`, `词`, a digit or an upper-case letter, and contains no `\|`, matches none of the nine trigger patterns |
| Patterns.NumberedDefinitionChars | server/article-generator.js:199 | the line `1. word (n.)`, given character by character, matches the numbered-definition pattern and contains no `\|` |
| Patterns.NumberedDefinitionExample | server/article-generator.js:199 | the example `1. word (n.)` named beside the pattern matches it and so is a trigger |
| Patterns.CapitalisedLabelExample | server/article-generator.js:200 | the example `Vocabulary:` named beside the pattern matches it and so is a trigger |
| Patterns.SubVocabularyHeadingExample | server/article-generator.js:201 | the heading `### Vocabulary` named beside the pattern matches it, is a trigger and contains no `\|` |
| Patterns.ChineseMeaningHeaderExample | server/article-generator.js:202 | the line `\| Word \| Chinese Meaning \|` is the exact table header the test compares against, and so is a trigger |
| Patterns.TitleLineIsNoTrigger | server/article-generator.js:195-205 | a `# Title` line matches none of the nine patterns |
| Patterns.BlankLineIsNoTrigger | server/article-generator.js:195-205 | a blank or whitespace-only line matches none of the nine patterns |
| Extraction.Step | server/article-generator.js:192-230 | one iteration's flag update: a trigger sets `isVocabularySection` and, when the line contains `\|`, `foundTableHeader`; a table row after a table sets the section; a blank line in the section with no table seen and no later `\|` ends it; otherwise the flags stay |
| Extraction.SomeLineContains | server/article-generator.js:227 | true exactly when some later line contains the character |
| Extraction.ArticleText | server/article-generator.js:185-234 | the returned article: the text split at `\n`, the kept lines joined with `\n` |
| Extraction.ExtractArticleContent | server/article-generator.js:185-234 | the loop returns the specified article text (the kept lines joined with `\n`); if no line is a trigger, it returns its input unchanged |
| Extraction.LoopStep | server/article-generator.js:192-230 | one iteration, in the source's own tests: the flags and kept lines after line `i` follow from those before it through the trigger, late-table-row and blank-line branches |
| Extraction.TableFoundInsideSection | server/article-generator.js:206-211 | before every line, `foundTableHeader` implies `isVocabularySection` |
| Extraction.LateTableRowUnreachable | server/article-generator.js:216-219 | the branch for a table row met outside the section never fires |
| Extraction.TableFoundPersists | server/article-generator.js:209-211 | once a table marker has been seen, both flags stay set for every later line |
| Extraction.TableTriggerDropsRest | server/article-generator.js:206-212 | after a trigger line containing `\|`, no later line is kept, so the article is what was kept before it |
| Extraction.SectionEndsOnlyAtBlank | server/article-generator.js:222-230 | inside the section no line is kept, and the section ends at a line exactly when that line is no trigger, is whitespace only, no table was seen and no later line contains `\|` |
| Extraction.CopyingResumes | server/article-generator.js:222-223 | right after the section ends, the next line is kept exactly when it is not a trigger |
| Extraction.ArticleIsSubsequence | server/article-generator.js:191-233 | the article lines are the input lines at strictly increasing positions; every position is a kept line, and every kept line is among them |
| Extraction.NoTriggerInArticle | server/article-generator.js:195-213 | no article line matches a trigger pattern |
| Extraction.NoTriggerKeepsAll | server/article-generator.js:191-231 | without trigger lines, the flags never change and every line is kept |
| Extraction.NoTriggerKeepsText | server/article-generator.js:185-234 | without trigger lines, the article is the input text itself |
| Extraction.SectionDroppedAtBlank | server/article-generator.js:191-231 | for six lines where a heading and a definition open the section and a blank line follows with no later `\|`, the article is the two lines before the section and the line after the blank |
| Extraction.ArticleLinesExample | server/article-generator.js:191-231 | for `# Title`, `a day.`, `### Vocabulary`, `1. word (n.)`, a blank line and `the end.`, the article keeps the title line, `a day.` and `the end.` |
| Markdown.HeadingText | server/article-generator.js:63 | `^<marker>\s+(.+)$` matches a line exactly when the line starts with the marker, has whitespace right after it, and is at least two characters longer than the marker |
| Markdown.HeadingTextShape | server/article-generator.js:63 | the captured heading is a non-empty tail of the line, separated from the marker by whitespace only; it starts with a non-blank character unless it is one character long |
| Markdown.FirstTitle | server/article-generator.js:63-66 | the title is empty exactly when no line is a `# ` title line |
| Markdown.TitleLineIndex | server/article-generator.js:63 | the position of a `# ` title line with no `# ` line before it, or the line count when there is none |
| Markdown.FirstTitleIsFirstMatch | server/article-generator.js:63-66 | the title is the heading text of the first `# ` line, and empty when there is none |
| Markdown.Subtitles | server/article-generator.js:69-72 | at most one subtitle per line, and none is empty |
| Markdown.SubtitlesAppend | server/article-generator.js:69-72 | the subtitles of two consecutive parts of a text are those of the first part followed by those of the second (document order) |
| Markdown.SubtitlesExactly | server/article-generator.js:69-72 | a text is among the subtitles exactly when some line is a `## ` heading with that text |
| Markdown.ParseMarkdown | server/article-generator.js:56-79 | `content` is the input unchanged, and `title` is empty exactly when no line is a `# ` title line |
| Markdown.TitleAndSubtitleLinesDiffer | server/article-generator.js:63-69 | a `# ` title line is never a `## ` subtitle line |
| Cleaning.StripBold | server/article-generator.js:146 | the result is no longer than the line, and a line without `*` is unchanged |
| Cleaning.StripBoldPair | server/article-generator.js:146 | `**x**` with `x` non-empty and free of `*` becomes `x`, and the scan continues after the closing marker |
| Cleaning.ReplaceNonAscii | server/article-generator.js:147 | length is preserved, the result is all ASCII, and each non-ASCII character becomes a space while the others are kept |
| Cleaning.CleanLine | server/article-generator.js:145-147 | the cleaned line is all ASCII, no longer than the line, and of equal length when the line has no `*` |
| Cleaning.IsListItem | server/article-generator.js:150 | holds exactly when `/^[*-]\s+/` matches the cleaned line |
| Cleaning.Bulleted | server/article-generator.js:151 | the result is `• ` followed by the rest of the item, the marker and the whitespace run after it removed; what follows the bullet does not start with whitespace |
| Cleaning.StripHeadingMarks | server/article-generator.js:43 | the result is no longer than the text, and a text without `#` is unchanged |
| Cleaning.RemoveDoubleStars | server/article-generator.js:43 | no `**` is left, the first character survives when it is not `*`, and a text without `*` is unchanged |
| Cleaning.PlainText | server/article-generator.js:43 | the spoken text has no `**` and is no longer than the article; a text without `#` or `*` is unchanged |
| Layout.IsTitleLine | server/article-generator.js:124 | holds exactly when `/^#\s+/` matches the trimmed line |
| Layout.IsSubheadingLine | server/article-generator.js:127 | holds exactly when `/^##\s+/` matches the trimmed line |
| Layout.SubheadingText | server/article-generator.js:134 | the subheading text is the tail of the line after `##` and the whole whitespace run that follows it: everything skipped after `##` is whitespace, and the text does not start with whitespace |
| Layout.PlaceBlock | server/article-generator.js:152-177 | a block of wrapped rows: on a new page at y 20 when the rows would cross the bottom margin, drawn 7 apart, the cursor left below the last row |
| Layout.PlaceBlockShape | server/article-generator.js:152-177 | a new page starts exactly when the block would cross the bottom margin; on the same page the block then fits. The rows sit on one page at baselines 7 apart, ending just above the new cursor, and the cursor grows by 7 per row from the (possibly reset) start |
| Layout.LayoutLine | server/article-generator.js:115-177 | one pass of the loop body on a line: blank, `# `, `## ` or ordinary |
| Layout.LayoutText | server/article-generator.js:145-177 | an ordinary line: cleaned, placed at x 20 as a bullet when a list item and at x 15 otherwise |
| Layout.BlockOf | server/article-generator.js:145-167 | the rows an ordinary line is wrapped into, after cleaning and, for a list item, the bullet |
| Layout.LayoutLines | server/article-generator.js:114-178 | the line loop over the article's lines, from a given cursor |
| Layout.LayoutLineInOrder | server/article-generator.js:115-177 | one line never moves the cursor backwards and adds at most one page; its runs are in reading order, between the old and the new cursor |
| Layout.LayoutTextInOrder | server/article-generator.js:145-177 | an ordinary line placed as a block never moves the cursor back, adds at most one page, and draws its rows in reading order between the old and the new cursor |
| Layout.LineCursorStep | server/article-generator.js:118-177 | a blank line moves down 5 on the same page; a `# ` line changes nothing; a `## ` line starts a new page at y 20 exactly when y > height - 30, draws at x 15 and moves down 10; any other line is placed as one block at x 20 (list item) or x 15 |
| Layout.DocumentTitle | server/article-generator.js:91-95 | the drawn title is never empty; it is the parsed title whenever there is one, and `Daily English Reading` otherwise |
| Layout.PdfDocument | server/article-generator.js:82-182 | the document: the title and date header on page 1, then the layout of the extracted article's lines from y 40 |
| Layout.DrawRows | server/article-generator.js:159-162 | the row loop draws each row 7 below the previous one and leaves the cursor 7 per row further down |
| Layout.PlaceLine | server/article-generator.js:115-177 | one pass of the loop body moves the cursor and appends runs exactly as the line layout specifies |
| Layout.PlaceText | server/article-generator.js:145-177 | cleaning, bulleting, wrapping, the page-break test and the row loop for an ordinary line move the cursor and append runs exactly as the text layout specifies |
| Layout.LayoutBody | server/article-generator.js:110-178 | the line loop, started at y 40 on page 1, ends with the page count and runs of the specified layout |
| Layout.GeneratePdf | server/article-generator.js:82-182 | the document is the header followed by the layout of the extracted article; it has at least one page, its runs are in reading order, and every run lies on a page between 1 and the page count |
| Layout.LayoutInReadingOrder | server/article-generator.js:114-178 | the body runs come in reading order, between the start cursor and the final one; the cursor never moves backwards, and each line adds at most one page |
| Layout.DocumentInReadingOrder | server/article-generator.js:89-178 | the header and body together are in reading order, and every run's page is between 1 and the page count |
| Layout.LineSubheadingClearsBottom | server/article-generator.js:127-136 | with a page height of at least 50, a subheading is drawn at most height - 30 down the page |
| Layout.SubheadingsClearBottom | server/article-generator.js:127-136 | with a page height of at least 50, no subheading of the whole layout lies below height - 30 |
| Layout.LineRowsClearBottom | server/article-generator.js:150-177 | when this line, trimmed, cleaned, bulleted if a list item and wrapped, fits on an empty page, each of its rows ends above the bottom margin |
| Layout.RowsClearBottom | server/article-generator.js:150-177 | when the wrapped block of each line of the article fits on an empty page, no row of the whole layout crosses the bottom margin |

## Left out

- The OpenAI calls in `generateArticleContent` and `generateAudio` (lines 13-53) are network calls. Only the string transform at line 43 is modelled.
- `generateArticle` (lines 237-281) is file-system writes, the clock and JSON output. It is not part of this model.
- jsPDF fonts, font sizes, alignment and `save` are not modelled. Each `doc.text` call becomes a run with its page, position, text and a style tag standing for the font settings.
- `splitTextToSize(text, 180)` wraps by font metrics. It is the parameter `wrap`. The definitions assume nothing about it; only Layout.LineRowsClearBottom and Layout.RowsClearBottom take a hypothesis on it, about the document's own lines: the rows each line is wrapped into (Layout.BlockOf) fit on an empty page.
- The page height `doc.internal.pageSize.height` is the integer parameter `pageHeight`. jsPDF's real value is fractional in millimetres.
- The date from `new Date().toISOString()` is the string parameter `today`.
- server/index.js (HTTP routes, directory listing, scheduling) and public/js (browser UI) are not part of this model.
- Characters are Unicode scalar values. JavaScript strings are UTF-16 code units, so a character outside the Basic Multilingual Plane counts as one character here. It would be two code units there, and line 147 would turn it into two spaces.
- Markdown.HeadingText: the multiline patterns at lines 63 and 69 are applied to each `\n`-separated line. In JavaScript, `\s+` can also run across a newline, and `\r`, U+2028 and U+2029 also end a line for `^`, `$` and `.`. A heading whose text starts on the following line is therefore not captured by the model.
- Patterns.IsVocabularyHeading: `/i` is modelled as ASCII case folding. This matches JavaScript for these keywords.
- Cleaning.StripBold: states a length bound and identity on a line without `*`. Its exact output is given by the definition, and for bold pairs by Cleaning.StripBoldPair.
- Cleaning.StripHeadingMarks: states a length bound and identity on text without `#`. It does not state that every `#{1,6}\s+` run is gone; the definition gives the exact output.
- Cleaning.RemoveDoubleStars: states that no `**` remains, a length bound, and identity on text without `*`. It does not state that every other character survives in order; the definition gives the exact output.
