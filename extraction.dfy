/** `extractArticleContent` (server/article-generator.js, lines 185-234):
    drops a vocabulary section from the generated Markdown, line by line,
    with two flags. The method runs the source's loop; the functions below
    give the flags before each line and the lines kept, and the lemmas
    state what the loop guarantees. */
module Extraction {
  import opened Strings
  import opened Patterns

  /** `isVocabularySection` and `foundTableHeader`. */
  datatype Flags = Flags(inVocabulary: bool, tableFound: bool)

  const Start := Flags(false, false)

  /** `ls.some(l => l.includes(c))` */
  function SomeLineContains(ls: seq<string>, c: char): (b: bool)
    ensures b <==> exists k :: 0 <= k < |ls| && c in ls[k]
  {
    if ls == [] then false else c in ls[0] || SomeLineContains(ls[1..], c)
  }

  /** Line 216: a table row met outside the section after a table was seen
      (`line.trim().startsWith('|')`, by Strings.TrimStartsWith). */
  predicate IsLateTableRow(f: Flags, line: string) {
    !f.inVocabulary && FirstNonBlankIs(line, '|') && f.tableFound
  }

  /** Line 224: a blank line (`line.trim() === ''`) inside the section, and no table seen. */
  predicate MayEndSection(f: Flags, line: string) {
    f.inVocabulary && AllWhitespace(line) && !f.tableFound
  }

  /** One iteration of the loop at lines 191-231 on line `i`: the flags after it. */
  function Step(f: Flags, lines: seq<string>, i: nat, trigger: string -> bool): Flags
    requires i < |lines|
  {
    var line := lines[i];
    if trigger(line) then Flags(true, f.tableFound || '|' in line)
    else if IsLateTableRow(f, line) then Flags(true, f.tableFound)
    else if MayEndSection(f, line) && !SomeLineContains(lines[i + 1..], '|') then Flags(false, f.tableFound)
    else f
  }

  /** Whether iteration `i` pushes its line (line 223). */
  predicate Pushes(f: Flags, line: string, trigger: string -> bool) {
    !trigger(line) && !IsLateTableRow(f, line) && !f.inVocabulary
  }

  /** The flags when the loop reaches line `i`. */
  function FlagsBefore(lines: seq<string>, i: nat, trigger: string -> bool): Flags
    requires i <= |lines|
  {
    if i == 0 then Start else Step(FlagsBefore(lines, i - 1, trigger), lines, i - 1, trigger)
  }

  predicate Keeps(lines: seq<string>, i: nat, trigger: string -> bool)
    requires i < |lines|
  {
    Pushes(FlagsBefore(lines, i, trigger), lines[i], trigger)
  }

  /** `contentLines` after the first `n` iterations. */
  function KeptUpTo(lines: seq<string>, n: nat, trigger: string -> bool): seq<string>
    requires n <= |lines|
  {
    if n == 0 then []
    else if Keeps(lines, n - 1, trigger) then KeptUpTo(lines, n - 1, trigger) + [lines[n - 1]]
    else KeptUpTo(lines, n - 1, trigger)
  }

  function ArticleLines(lines: seq<string>, trigger: string -> bool): seq<string> {
    KeptUpTo(lines, |lines|, trigger)
  }

  /** The article text `extractArticleContent` returns. */
  function ArticleText(text: string): string {
    Join(ArticleLines(Split(text, '\n'), IsVocabularyTrigger), '\n')
  }

  /** The loop of lines 191-231, pushing kept lines and joining them with `\n`. */
  method ExtractArticleContent(text: string) returns (article: string)
    ensures article == ArticleText(text)
    ensures (forall k :: 0 <= k < |Split(text, '\n')| ==> !IsVocabularyTrigger(Split(text, '\n')[k])) ==> article == text
  {
    var lines := Split(text, '\n');
    var contentLines: seq<string> := [];
    var isVocabularySection := false;
    var foundTableHeader := false;
    for i := 0 to |lines|
      invariant Flags(isVocabularySection, foundTableHeader) == FlagsBefore(lines, i, IsVocabularyTrigger)
      invariant contentLines == KeptUpTo(lines, i, IsVocabularyTrigger)
    {
      var line := lines[i];
      LoopStep(lines, i, IsVocabularyTrigger, Flags(isVocabularySection, foundTableHeader));
      if IsVocabularyTrigger(line) {
        isVocabularySection := true;
        if '|' in line {
          foundTableHeader := true;
        }
        continue;
      }
      if !isVocabularySection && StartsWith(Trim(line), "|") && foundTableHeader {
        isVocabularySection := true;
        continue;
      }
      if !isVocabularySection {
        contentLines := contentLines + [line];
      } else if Trim(line) == "" && !foundTableHeader {
        if !SomeLineContains(lines[i + 1..], '|') {
          isVocabularySection := false;
        }
      }
    }
    article := Join(contentLines, '\n');
    if forall k :: 0 <= k < |lines| ==> !IsVocabularyTrigger(lines[k]) {
      NoTriggerKeepsText(text);
    }
  }


  /** Iteration `i` of the loop, in the terms the source tests: the flags
      and the kept lines after line `i` from those before it. */
  lemma LoopStep(lines: seq<string>, i: nat, trigger: string -> bool, f: Flags)
    requires i < |lines| && f == FlagsBefore(lines, i, trigger)
    ensures var line := lines[i];
      FlagsBefore(lines, i + 1, trigger) ==
        if trigger(line) then Flags(true, f.tableFound || '|' in line)
        else if !f.inVocabulary && StartsWith(Trim(line), "|") && f.tableFound then Flags(true, f.tableFound)
        else if f.inVocabulary && Trim(line) == "" && !f.tableFound && !SomeLineContains(lines[i + 1..], '|') then Flags(false, f.tableFound)
        else f
    ensures var line := lines[i];
      KeptUpTo(lines, i + 1, trigger) ==
        if !trigger(line) && !(!f.inVocabulary && StartsWith(Trim(line), "|") && f.tableFound) && !f.inVocabulary
        then KeptUpTo(lines, i, trigger) + [line]
        else KeptUpTo(lines, i, trigger)
  {
    TrimStartsWith(lines[i], '|');
  }

  /* The lemmas below hold for any choice of trigger patterns, except the
     worked example at the end, which uses the nine patterns. */

  /** `foundTableHeader` implies `isVocabularySection` before every line. */
  lemma {:induction false} TableFoundInsideSection(lines: seq<string>, i: nat, trigger: string -> bool)
    requires i <= |lines|
    ensures FlagsBefore(lines, i, trigger).tableFound ==> FlagsBefore(lines, i, trigger).inVocabulary
  {
    if i > 0 {
      TableFoundInsideSection(lines, i - 1, trigger);
    }
  }

  /** Hence the late-table-row branch at line 216 never fires. */
  lemma LateTableRowUnreachable(lines: seq<string>, i: nat, trigger: string -> bool)
    requires i < |lines|
    ensures !IsLateTableRow(FlagsBefore(lines, i, trigger), lines[i])
  {
    TableFoundInsideSection(lines, i, trigger);
  }

  /** Once a table has been seen, it stays seen and the section never ends. */
  lemma {:induction false} TableFoundPersists(lines: seq<string>, i: nat, j: nat, trigger: string -> bool)
    requires i <= j <= |lines|
    requires FlagsBefore(lines, i, trigger).tableFound
    ensures FlagsBefore(lines, j, trigger).tableFound && FlagsBefore(lines, j, trigger).inVocabulary
  {
    if j > i {
      TableFoundPersists(lines, i, j - 1, trigger);
      TableStepStays(FlagsBefore(lines, j - 1, trigger), lines, j - 1, trigger);
    }
    TableFoundInsideSection(lines, j, trigger);
  }

  /** With a table seen inside the section, a step leaves both flags set. */
  lemma TableStepStays(f: Flags, lines: seq<string>, i: nat, trigger: string -> bool)
    requires i < |lines| && f == Flags(true, true)
    ensures Step(f, lines, i, trigger) == f
  {
  }

  lemma {:induction false} KeptUnchangedAfter(lines: seq<string>, i: nat, n: nat, trigger: string -> bool)
    requires i <= n <= |lines|
    requires forall j :: i <= j < n ==> !Keeps(lines, j, trigger)
    ensures KeptUpTo(lines, n, trigger) == KeptUpTo(lines, i, trigger)
  {
    if n > i {
      KeptUnchangedAfter(lines, i, n - 1, trigger);
      assert !Keeps(lines, n - 1, trigger);
      assert KeptUpTo(lines, n, trigger) == KeptUpTo(lines, n - 1, trigger) + [];
    }
  }

  /** A trigger line that contains `|` ends the article: no line from it on is kept. */
  lemma TableTriggerDropsRest(lines: seq<string>, i: nat, trigger: string -> bool)
    requires i < |lines| && trigger(lines[i]) && '|' in lines[i]
    ensures forall j :: i <= j < |lines| ==> !Keeps(lines, j, trigger)
    ensures ArticleLines(lines, trigger) == KeptUpTo(lines, i, trigger)
  {
    forall j | i < j < |lines|
      ensures !Keeps(lines, j, trigger)
    {
      TableFoundPersists(lines, i + 1, j, trigger);
    }
    KeptUnchangedAfter(lines, i, |lines|, trigger);
  }

  /** The section is left at line `i` exactly when line `i` is blank, is no
      trigger, no table was seen, and no later line contains `|`; that blank
      line itself is dropped. */
  lemma SectionEndsOnlyAtBlank(lines: seq<string>, i: nat, trigger: string -> bool)
    requires i < |lines| && FlagsBefore(lines, i, trigger).inVocabulary
    ensures !Keeps(lines, i, trigger)
    ensures !FlagsBefore(lines, i + 1, trigger).inVocabulary <==>
      && !trigger(lines[i])
      && AllWhitespace(lines[i])
      && !FlagsBefore(lines, i, trigger).tableFound
      && (forall k :: i < k < |lines| ==> '|' !in lines[k])
  {
    var f := FlagsBefore(lines, i, trigger);
    assert FlagsBefore(lines, i + 1, trigger) == Step(f, lines, i, trigger);
    var later := lines[i + 1..];
    if !SomeLineContains(later, '|') {
      forall k | i < k < |lines| ensures '|' !in lines[k] {
        assert lines[k] == later[k - i - 1];
      }
    } else {
      var k :| 0 <= k < |later| && '|' in later[k];
      assert lines[i + 1 + k] == later[k];
    }
  }

  /** After the section ends at line `i`, copying resumes with line `i + 1`
      unless that line is itself a trigger. */
  lemma CopyingResumes(lines: seq<string>, i: nat, trigger: string -> bool)
    requires i + 1 < |lines|
    requires FlagsBefore(lines, i, trigger).inVocabulary && !FlagsBefore(lines, i + 1, trigger).inVocabulary
    ensures Keeps(lines, i + 1, trigger) <==> !trigger(lines[i + 1])
  {
    LateTableRowUnreachable(lines, i + 1, trigger);
  }

  /** `idx` picks the lines of `out` out of `lines`, at increasing positions. */
  ghost predicate SelectedBy(out: seq<string>, lines: seq<string>, idx: seq<nat>) {
    && |idx| == |out|
    && (forall k :: 0 <= k < |idx| ==> idx[k] < |lines| && out[k] == lines[idx[k]])
    && (forall k, m :: 0 <= k < m < |idx| ==> idx[k] < idx[m])
  }

  /** The positions of the kept lines among the first `n`. */
  ghost function KeptPositions(lines: seq<string>, n: nat, trigger: string -> bool): seq<nat>
    requires n <= |lines|
  {
    if n == 0 then [] else KeptPositions(lines, n - 1, trigger) + (if Keeps(lines, n - 1, trigger) then [n - 1] else [])
  }

  lemma {:induction false} KeptPositionsSelect(lines: seq<string>, n: nat, trigger: string -> bool)
    requires n <= |lines|
    ensures SelectedBy(KeptUpTo(lines, n, trigger), lines, KeptPositions(lines, n, trigger))
    ensures forall k :: 0 <= k < |KeptPositions(lines, n, trigger)| ==>
      KeptPositions(lines, n, trigger)[k] < n && Keeps(lines, KeptPositions(lines, n, trigger)[k], trigger)
  {
    if n > 0 {
      KeptPositionsSelect(lines, n - 1, trigger);
      var out, idx := KeptUpTo(lines, n - 1, trigger), KeptPositions(lines, n - 1, trigger);
      if Keeps(lines, n - 1, trigger) {
        assert KeptUpTo(lines, n, trigger) == out + [lines[n - 1]];
        assert KeptPositions(lines, n, trigger) == idx + [n - 1];
      } else {
        assert KeptUpTo(lines, n, trigger) == out + [];
        assert KeptPositions(lines, n, trigger) == idx + [];
      }
    }
  }

  lemma {:induction false} KeptPositionsComplete(lines: seq<string>, n: nat, trigger: string -> bool)
    requires n <= |lines|
    ensures forall i :: 0 <= i < n && Keeps(lines, i, trigger) ==> i in KeptPositions(lines, n, trigger)
  {
    if n > 0 {
      KeptPositionsComplete(lines, n - 1, trigger);
      var idx := KeptPositions(lines, n - 1, trigger);
      forall i | 0 <= i < n && Keeps(lines, i, trigger)
        ensures i in KeptPositions(lines, n, trigger)
      {
        if i < n - 1 {
          assert i in idx;
        } else {
          assert KeptPositions(lines, n, trigger) == idx + [n - 1];
        }
      }
    }
  }

  /** The article is a subsequence of the input lines: exactly the kept
      lines, in their original order, none twice. */
  lemma ArticleIsSubsequence(lines: seq<string>, trigger: string -> bool)
    ensures exists idx ::
      && SelectedBy(ArticleLines(lines, trigger), lines, idx)
      && (forall k :: 0 <= k < |idx| ==> Keeps(lines, idx[k], trigger))
      && (forall i :: 0 <= i < |lines| && Keeps(lines, i, trigger) ==> i in idx)
  {
    KeptPositionsSelect(lines, |lines|, trigger);
    KeptPositionsComplete(lines, |lines|, trigger);
    var idx := KeptPositions(lines, |lines|, trigger);
    assert SelectedBy(ArticleLines(lines, trigger), lines, idx);
  }

  /** No line of the article matches a trigger pattern. */
  lemma {:induction false} NoTriggerInArticle(lines: seq<string>, n: nat, trigger: string -> bool)
    requires n <= |lines|
    ensures forall k :: 0 <= k < |KeptUpTo(lines, n, trigger)| ==> !trigger(KeptUpTo(lines, n, trigger)[k])
  {
    if n > 0 {
      NoTriggerInArticle(lines, n - 1, trigger);
    }
  }

  /** Without trigger lines nothing changes the flags and every line is kept. */
  lemma {:induction false} NoTriggerKeepsAll(lines: seq<string>, n: nat, trigger: string -> bool)
    requires n <= |lines|
    requires forall k :: 0 <= k < |lines| ==> !trigger(lines[k])
    ensures FlagsBefore(lines, n, trigger) == Start
    ensures KeptUpTo(lines, n, trigger) == lines[..n]
  {
    if n > 0 {
      NoTriggerKeepsAll(lines, n - 1, trigger);
      StartStaysOnPlainLine(lines, n - 1, trigger);
      assert lines[..n] == lines[..n - 1] + [lines[n - 1]];
    }
  }

  /** From the start flags, a line that is no trigger is pushed and changes no flag. */
  lemma StartStaysOnPlainLine(lines: seq<string>, i: nat, trigger: string -> bool)
    requires i < |lines| && !trigger(lines[i])
    ensures Step(Start, lines, i, trigger) == Start && Pushes(Start, lines[i], trigger)
  {
  }

  /** If no line matches a trigger pattern, the text comes back unchanged. */
  lemma NoTriggerKeepsText(text: string)
    requires forall k :: 0 <= k < |Split(text, '\n')| ==> !IsVocabularyTrigger(Split(text, '\n')[k])
    ensures ArticleText(text) == text
  {
    var lines := Split(text, '\n');
    NoTriggerKeepsAll(lines, |lines|, IsVocabularyTrigger);
    assert lines[..|lines|] == lines;
    JoinSplit(text, '\n');
  }

  /** A section that opens on a heading and a definition closes at the blank
      line after them (no `|` follows): the two section lines and the blank
      line are dropped, the lines around them are kept. */
  lemma SectionDroppedAtBlank(lines: seq<string>, trigger: string -> bool)
    requires |lines| == 6 && lines[4] == []
    requires !trigger(lines[0]) && !trigger(lines[1]) && trigger(lines[2]) && trigger(lines[3])
    requires !trigger(lines[4]) && !trigger(lines[5])
    requires '|' !in lines[2] && '|' !in lines[3] && '|' !in lines[5]
    ensures ArticleLines(lines, trigger) == [lines[0], lines[1], lines[5]]
  {
    assert FlagsBefore(lines, 1, trigger) == Start;
    assert FlagsBefore(lines, 2, trigger) == Start;
    assert FlagsBefore(lines, 3, trigger) == Flags(true, false);
    assert FlagsBefore(lines, 4, trigger) == Flags(true, false);
    assert lines[5..] == [lines[5]];
    assert FlagsBefore(lines, 5, trigger) == Start;
    assert KeptUpTo(lines, 1, trigger) == [lines[0]];
    assert KeptUpTo(lines, 2, trigger) == [lines[0], lines[1]];
    assert KeptUpTo(lines, 3, trigger) == [lines[0], lines[1]];
    assert KeptUpTo(lines, 4, trigger) == [lines[0], lines[1]];
    assert KeptUpTo(lines, 5, trigger) == [lines[0], lines[1]];
  }

  /** The lines of the worked article below, each classified by the patterns. */
  lemma ExampleLinesClassified(title: string, prose: string, heading: string, definition: string, after: string)
    requires title == "# Title" && prose == "a day." && heading == "### Vocabulary"
    requires definition == "1. word (n.)" && after == "the end."
    ensures !IsVocabularyTrigger(title) && !IsVocabularyTrigger(prose) && !IsVocabularyTrigger([])
    ensures IsVocabularyTrigger(heading) && IsVocabularyTrigger(definition) && !IsVocabularyTrigger(after)
    ensures '|' !in heading && '|' !in definition && '|' !in after
  {
    TitleLineIsNoTrigger(title);
    ProseIsNoTrigger(prose);
    SubVocabularyHeadingExample(heading);
    NumberedDefinitionExample(definition);
    BlankLineIsNoTrigger([]);
    ProseIsNoTrigger(after);
  }

  /** A worked article: the `# ` title line is kept, the vocabulary heading,
      its definition and the blank line closing the section are dropped, and
      copying resumes after it. */
  lemma ArticleLinesExample(title: string, prose: string, heading: string, definition: string, after: string)
    requires title == "# Title" && prose == "a day." && heading == "### Vocabulary"
    requires definition == "1. word (n.)" && after == "the end."
    ensures ArticleLines([title, prose, heading, definition, [], after], IsVocabularyTrigger) == [title, prose, after]
  {
    ExampleLinesClassified(title, prose, heading, definition, after);
    SectionDroppedAtBlank([title, prose, heading, definition, [], after], IsVocabularyTrigger);
  }
}
