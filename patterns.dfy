/** The nine line patterns that mark the start of a vocabulary section
    (server/article-generator.js, lines 196-204), one predicate each.
    Every pattern is anchored at the start of the line and its quantifiers
    are greedy; each predicate follows the one way the pattern can match. */
module Patterns {
  import opened Strings

  /** ASCII upper-casing, the case folding `/i` applies: it never maps a
      non-ASCII character to an ASCII one. */
  function UpperAscii(c: char): char {
    if IsLower(c) then (c as int - 32) as char else c
  }

  /** `s` begins with `p`, letters compared without regard to case. */
  predicate StartsWithIgnoringCase(s: string, p: string) {
    |p| <= |s| && forall k :: 0 <= k < |p| ==> UpperAscii(s[k]) == UpperAscii(p[k])
  }

  const VocabularyKeywords: seq<string> :=
    ["Vocabulary", "New Words", "Word List", "Glossary", "生词表", "单词表", "词汇表"]

  /** Line 196: `/^##?\s+(Vocabulary|New Words|Word List|Glossary|生词表|单词表|词汇表)/i`. */
  predicate IsVocabularyHeading(line: string) {
    |line| >= 1 && line[0] == '#' &&
    var rest := if |line| >= 2 && line[1] == '#' then line[2..] else line[1..];
    var n := WhitespaceSpan(rest);
    n >= 1 && exists k :: 0 <= k < |VocabularyKeywords| && StartsWithIgnoringCase(rest[n..], VocabularyKeywords[k])
  }

  /** `(\*\*)?`: drops a leading `**` when there is one. */
  function SkipBoldMarker(s: string): (r: string)
    ensures StartsWith(s, "**") ==> r == s[2..]
    ensures !StartsWith(s, "**") ==> r == s
  {
    if StartsWith(s, "**") then s[2..] else s
  }

  /** `/^(\*\*)?<label>(\*\*)?[：:]/i`: a label such as `**生词**：`, with or
      without bold markers, followed by a full-width or ASCII colon. */
  predicate IsLabelLine(line: string, name: string) {
    var t := SkipBoldMarker(line);
    StartsWith(t, name) &&
    var u := SkipBoldMarker(t[|name|..]);
    |u| >= 1 && (u[0] == '：' || u[0] == ':')
  }

  /** Line 197: `/^(\*\*)?生词(\*\*)?[：:]/i` ("new words:"). */
  predicate IsNewWordsLabel(line: string) {
    IsLabelLine(line, "生词")
  }

  /** Line 198: `/^(\*\*)?词汇(\*\*)?[：:]/i` ("vocabulary:"). */
  predicate IsVocabularyLabel(line: string) {
    IsLabelLine(line, "词汇")
  }

  /** Line 199: `/^\d+\.\s+\w+\s+\([a-z]+\.\)/`, a numbered definition
      such as `1. arduous (adj.)`. */
  predicate IsNumberedDefinition(line: string) {
    var d := Span(line, IsDigit);
    d >= 1 && d < |line| && line[d] == '.' &&
    var a := line[d + 1..];
    var w1 := WhitespaceSpan(a);
    w1 >= 1 &&
    var b := a[w1..];
    var w := Span(b, IsWordChar);
    w >= 1 &&
    var c := b[w..];
    var w2 := WhitespaceSpan(c);
    w2 >= 1 &&
    var e := c[w2..];
    |e| >= 1 && e[0] == '(' &&
    var l := Span(e[1..], IsLower);
    l >= 1 && StartsWith(e[1 + l..], ".)")
  }

  /** Line 200: `/^[A-Z][a-z]+:/`, a capitalised label such as `Word:`. */
  predicate IsCapitalisedLabel(line: string) {
    |line| >= 1 && IsUpper(line[0]) &&
    var l := Span(line[1..], IsLower);
    l >= 1 && 1 + l < |line| && line[1 + l] == ':'
  }

  /** Line 201: `/^###?\s+Vocabulary/`, case-sensitive. */
  predicate IsSubVocabularyHeading(line: string) {
    StartsWith(line, "##") &&
    var rest := if |line| >= 3 && line[2] == '#' then line[3..] else line[2..];
    var n := WhitespaceSpan(rest);
    n >= 1 && StartsWith(rest[n..], "Vocabulary")
  }

  /** Line 202: `line.trim() === '| Word | Chinese Meaning |'`. */
  predicate IsChineseMeaningHeader(line: string) {
    Trim(line) == "| Word | Chinese Meaning |"
  }

  /** `\s*.*\s*`: whitespace, then text with no line terminator, then whitespace. */
  predicate IsPaddedText(m: string) {
    exists i, j :: 0 <= i <= j <= |m| && AllWhitespace(m[..i]) && AllWhitespace(m[j..])
      && (forall k :: i <= k < j ==> !IsLineTerminator(m[k]))
  }

  /** Line 203: `/^\|\s*Word\s*\|\s*.*\s*\|$/`, a table header row whose
      first column is `Word` (the whole line must end in `|`). */
  predicate IsWordTableHeader(line: string) {
    |line| >= 1 && line[0] == '|' &&
    var a := line[1..];
    var n := WhitespaceSpan(a);
    StartsWith(a[n..], "Word") &&
    var b := a[n + 4..];
    var m := WhitespaceSpan(b);
    m < |b| && b[m] == '|' &&
    var r := b[m + 1..];
    |r| >= 1 && r[|r| - 1] == '|' && IsPaddedText(r[..|r| - 1])
  }

  /** Line 204: `line.includes('|') && line.includes('--')`, a table separator row. */
  predicate IsTableSeparator(line: string) {
    '|' in line && Contains(line, "--")
  }

  /** The disjunction at lines 195-205: the line opens (or continues) a vocabulary section. */
  predicate IsVocabularyTrigger(line: string) {
    IsVocabularyHeading(line) || IsNewWordsLabel(line) || IsVocabularyLabel(line)
    || IsNumberedDefinition(line) || IsCapitalisedLabel(line) || IsSubVocabularyHeading(line)
    || IsChineseMeaningHeader(line) || IsWordTableHeader(line) || IsTableSeparator(line)
  }

  /** A line that starts with none of `#`, `*`, `生`, `词`, a digit or an
      upper-case letter, and has no `|` anywhere, matches none of the
      patterns: such prose is never taken for vocabulary. */
  lemma PlainLineIsNoTrigger(line: string)
    requires |line| >= 1
    requires line[0] != '#' && line[0] != '*' && line[0] != '生' && line[0] != '词'
    requires !IsDigit(line[0]) && !IsUpper(line[0])
    requires '|' !in line
    ensures !IsVocabularyTrigger(line)
  {
    assert !IsVocabularyHeading(line) && !IsSubVocabularyHeading(line);
    assert !IsNewWordsLabel(line) && !IsVocabularyLabel(line) by {
      assert SkipBoldMarker(line) == line;
    }
    assert !IsNumberedDefinition(line) && !IsCapitalisedLabel(line);
    assert !IsChineseMeaningHeader(line) by {
      TrimRemovesOnlyWhitespace(line);
      var i := WhitespaceSpan(line);
      if |Trim(line)| >= 1 {
        assert Trim(line)[0] == line[i];
      }
    }
    assert !IsWordTableHeader(line) && !IsTableSeparator(line);
  }

  /** The line `1. word (n.)`, given character by character, is a numbered
      definition. */
  lemma NumberedDefinitionChars(line: string)
    requires |line| == 12 && line[0] == '1' && line[1] == '.' && line[2] == ' '
    requires line[3] == 'w' && line[4] == 'o' && line[5] == 'r' && line[6] == 'd'
    requires line[7] == ' ' && line[8] == '(' && line[9] == 'n' && line[10] == '.' && line[11] == ')'
    ensures IsNumberedDefinition(line) && '|' !in line
  {
    assert '|' !in line by {
      assert forall k :: 0 <= k < |line| ==> line[k] != '|';
    }
    assert Span(line, IsDigit) == 1 by {
      assert IsDigit(line[0]) && !IsDigit(line[1]);
    }
    var a := line[2..];
    assert WhitespaceSpan(a) == 1 by {
      assert IsWhitespace(a[0]) && !IsWhitespace(a[1]);
    }
    var b := a[1..];
    assert Span(b, IsWordChar) == 4 by {
      assert IsWordChar(b[0]) && IsWordChar(b[1]) && IsWordChar(b[2]) && IsWordChar(b[3]);
      assert !IsWordChar(b[4]);
    }
    var c := b[4..];
    assert WhitespaceSpan(c) == 1 by {
      assert IsWhitespace(c[0]) && !IsWhitespace(c[1]);
    }
    var e := c[1..];
    assert Span(e[1..], IsLower) == 1 by {
      assert IsLower(e[1..][0]) && !IsLower(e[1..][1]);
    }
    assert e[0] == '(' && e[2..] == ".)";
  }

  /** The example in the comment at line 199 is a numbered definition, so
      it opens a vocabulary section. */
  lemma NumberedDefinitionExample(line: string)
    requires line == "1. word (n.)"
    ensures IsNumberedDefinition(line) && IsVocabularyTrigger(line) && '|' !in line
  {
    NumberedDefinitionChars(line);
  }

  /** The example in the comment at line 200 is a capitalised label. */
  lemma CapitalisedLabelExample(line: string)
    requires line == "Vocabulary:"
    ensures IsCapitalisedLabel(line) && IsVocabularyTrigger(line)
  {
    var t := line[1..];
    assert Span(t, IsLower) == 9 by {
      assert forall k :: 0 <= k < 9 ==> IsLower(t[k]);
      assert !IsLower(t[9]);
    }
    assert IsUpper(line[0]) && line[10] == ':';
  }

  /** The heading named in the comment at line 201 opens a vocabulary section. */
  lemma SubVocabularyHeadingExample(line: string)
    requires line == "### Vocabulary"
    ensures IsSubVocabularyHeading(line) && IsVocabularyTrigger(line) && '|' !in line
  {
    var rest := line[3..];
    assert WhitespaceSpan(rest) == 1 by {
      assert IsWhitespace(rest[0]) && !IsWhitespace(rest[1]);
    }
    assert StartsWith(line, "##") && line[2] == '#';
    assert StartsWith(rest[1..], "Vocabulary");
  }

  /** The table header named in the comment at line 202 opens a vocabulary section. */
  lemma ChineseMeaningHeaderExample(line: string)
    requires line == "| Word | Chinese Meaning |"
    ensures IsChineseMeaningHeader(line) && IsVocabularyTrigger(line)
  {
    TrimRemovesOnlyWhitespace(line);
    assert WhitespaceSpan(line) == 0 by {
      assert !IsWhitespace(line[0]);
    }
    assert |Trim(line)| == |line| by {
      assert !IsWhitespace(line[|line| - 1]);
    }
    assert Trim(line) == line[0..|line|] == line;
  }

  /** A `# ` title line matches none of the nine patterns. */
  lemma TitleLineIsNoTrigger(line: string)
    requires line == "# Title"
    ensures !IsVocabularyTrigger(line)
  {
    assert '|' !in line by {
      assert forall k :: 0 <= k < |line| ==> line[k] != '|';
    }
    assert !IsVocabularyHeading(line) by {
      var t := line[2..];
      assert WhitespaceSpan(line[1..]) == 1 by {
        assert IsWhitespace(line[1..][0]) && !IsWhitespace(line[1..][1]);
      }
      forall k | 0 <= k < |VocabularyKeywords|
        ensures !StartsWithIgnoringCase(t, VocabularyKeywords[k])
      {
        assert UpperAscii(t[0]) != UpperAscii(VocabularyKeywords[k][0]);
      }
    }
    assert !IsNewWordsLabel(line) && !IsVocabularyLabel(line) by {
      assert SkipBoldMarker(line) == line;
    }
    assert !IsNumberedDefinition(line) by {
      assert !IsDigit(line[0]);
    }
    assert !IsChineseMeaningHeader(line) by {
      TrimRemovesOnlyWhitespace(line);
      assert !IsWhitespace(line[0]);
    }
    assert !IsWordTableHeader(line) && !IsTableSeparator(line);
  }

  /** Two prose sentences of the worked article match no pattern. */
  lemma ProseIsNoTrigger(line: string)
    requires line == "a day." || line == "the end."
    ensures !IsVocabularyTrigger(line) && '|' !in line
  {
    PlainLineIsNoTrigger(line);
  }

  /** A blank or whitespace-only line matches none of the nine patterns. */
  lemma BlankLineIsNoTrigger(line: string)
    requires AllWhitespace(line)
    ensures !IsVocabularyTrigger(line)
  {
    assert '|' !in line by {
      assert forall k :: 0 <= k < |line| ==> line[k] != '|';
    }
    assert !IsVocabularyHeading(line) && !IsSubVocabularyHeading(line) by {
      if line != [] {
        assert line[0] != '#';
      }
    }
    assert !IsNewWordsLabel(line) && !IsVocabularyLabel(line) by {
      if line != [] {
        assert SkipBoldMarker(line) == line;
        assert line[0] != '生' && line[0] != '词';
      }
    }
    assert !IsNumberedDefinition(line) && !IsCapitalisedLabel(line) by {
      if line != [] {
        assert !IsDigit(line[0]) && !IsUpper(line[0]);
      }
    }
    assert !IsChineseMeaningHeader(line) by {
      assert Trim(line) == [];
    }
    assert !IsWordTableHeader(line) && !IsTableSeparator(line);
  }
}
