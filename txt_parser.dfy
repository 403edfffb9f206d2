// TxtNovelParser: recognition of chapter-title lines and the split of a plain-text
// novel, read line by line, into scenes.
module TxtParser {
  import opened JStrings

  const DefaultNovelTitle: string := "导入的小说"
  const PrefaceTitle: string := "前言"

  datatype ParsedScene = ParsedScene(sceneTitle: string, sceneContent: string, order: nat)
  datatype ParsedNovel = ParsedNovel(novelTitle: string, scenes: seq<ParsedScene>)

  // ------------------------------------------------------ chapter-title pattern
  //
  // ^\s*(?:(?:第[一二三四五六七八九十百千万零〇\d]+[章卷部回])|(?:Chapter\s+\d+)|(?:[IVXLCDM]+))[\s.:：]*(.*?)$
  // compiled CASE_INSENSITIVE (ASCII only) and applied with matches().

  predicate IsCnNumeral(c: char) { c in "一二三四五六七八九十百千万零〇" || IsDigit(c) }

  predicate IsChapterMark(c: char) { c in "章卷部回" }

  /** The regex class \s: [ \t\n\x0B\f\r]. */
  predicate IsRegexSpace(c: char)
  {
    c == ' ' || c == '\t' || c == '\n' || c == '\U{0B}' || c == '\U{0C}' || c == '\r'
  }

  predicate IsSeparator(c: char) { IsRegexSpace(c) || c == '.' || c == ':' || c == '：' }

  predicate IsRoman(c: char) { c in "IVXLCDMivxlcdm" }

  /** The char classes of the pattern. */
  datatype CharClass = CnNumeral | RegexSpace | Digit | Roman | Separator

  predicate InClass(c: char, cls: CharClass)
  {
    match cls
    case CnNumeral => IsCnNumeral(c)
    case RegexSpace => IsRegexSpace(c)
    case Digit => IsDigit(c)
    case Roman => IsRoman(c)
    case Separator => IsSeparator(c)
  }

  /** Length of the longest run of chars of class cls that starts at k. */
  function Run(t: string, k: nat, cls: CharClass): (n: nat)
    requires k <= |t|
    ensures k + n <= |t|
    ensures forall i :: k <= i < k + n ==> InClass(t[i], cls)
    ensures k + n < |t| ==> !InClass(t[k + n], cls)
    decreases |t| - k
  {
    if k < |t| && InClass(t[k], cls) then 1 + Run(t, k + 1, cls) else 0
  }

  /** Length of a 第…[章卷部回] prefix of t; 0 when t has none. */
  function CnPrefix(t: string): (a: nat)
    ensures a <= |t|
  {
    if |t| >= 1 && t[0] == '第' then
      var n := Run(t, 1, CnNumeral);
      if n >= 1 && 1 + n < |t| && IsChapterMark(t[1 + n]) then 2 + n else 0
    else 0
  }

  /** Length of a Chapter\s+\d+ prefix of t, the word in any ASCII case; 0 when absent. */
  function ChapterPrefix(t: string): (a: nat)
    ensures a <= |t|
  {
    if |t| >= 7 && ToLower(t[..7]) == "chapter" then
      var w := Run(t, 7, RegexSpace);
      var d := Run(t, 7 + w, Digit);
      if w >= 1 && d >= 1 then 7 + w + d else 0
    else 0
  }

  /** Length of the [IVXLCDM]+ prefix of t (either case). */
  function RomanPrefix(t: string): (a: nat)
    ensures a <= |t|
  {
    Run(t, 0, Roman)
  }

  /** After an alternative of length a > 0, the separators [\s.:：]* are skipped and
      the group (.*?)$ must take the rest, which therefore holds no line terminator. */
  predicate AltMatches(t: string, a: nat)
  {
    0 < a <= |t| &&
    var g := Run(t, a, Separator);
    forall i :: a + g <= i < |t| ==> !LineTerminator(t[i])
  }

  /** The text after the leading \s*. */
  function AfterSpaces(t: string): (u: string)
    ensures |u| <= |t|
  {
    t[Run(t, 0, RegexSpace)..]
  }

  /** CHAPTER_TITLE_PATTERN.matcher(t).matches(), as written: any line whose first
      letter is one of IVXLCDM (either case) is a title. */
  predicate IsChapterTitleAsWritten(t: string)
  {
    var u := AfterSpaces(t);
    AltMatches(u, CnPrefix(u)) || AltMatches(u, ChapterPrefix(u)) || AltMatches(u, RomanPrefix(u))
  }

  /** The roman alternative as intended: the numeral ends the line or is followed by
      '.', ':' or '：'. */
  function RomanHeadingPrefix(t: string): (a: nat)
    ensures a <= |t|
    ensures a > 0 ==> a == RomanPrefix(t)
    ensures a > 0 ==> a == |t| || t[a] in ".:："
  {
    var r := RomanPrefix(t);
    if r == |t| || t[r] in ".:：" then r else 0
  }

  /** The corrected chapter-title test: the pattern with the roman alternative
      restricted to numeral headings. The parser itself uses the test as written. */
  predicate IsChapterTitle(t: string)
  {
    var u := AfterSpaces(t);
    AltMatches(u, CnPrefix(u)) || AltMatches(u, ChapterPrefix(u)) || AltMatches(u, RomanHeadingPrefix(u))
  }

  /** As written, a line that starts with one of the letters IVXLCDM followed by
      any other non-separator char is a chapter title; the corrected test rejects it. */
  lemma AsWrittenTakesWordForTitle(t: string)
    requires |t| >= 2 && IsRoman(t[0]) && t[0] !in "cC"
    requires !IsRoman(t[1]) && !IsSeparator(t[1])
    requires forall i :: 0 <= i < |t| ==> !LineTerminator(t[i])
    ensures IsChapterTitleAsWritten(t)
    ensures !IsChapterTitle(t)
  {
    assert Run(t, 0, RegexSpace) == 0;
    assert AfterSpaces(t) == t;
    if |t| >= 7 {
      assert ToLower(t[..7])[0] == LowerChar(t[0]);
    }
    assert RomanPrefix(t) == 1;
    assert Run(t, 1, Separator) == 0;
  }

  /** "Mary smiled." is a chapter title as written. */
  lemma AsWrittenTakesSentenceForTitle()
    ensures IsChapterTitleAsWritten("Mary smiled.")
    ensures !IsChapterTitle("Mary smiled.")
  {
    AsWrittenTakesWordForTitle("Mary smiled.");
  }

  /** The corrected pattern accepts only lines the as-written pattern accepts. */
  lemma TitleNarrowsAsWritten(t: string)
    requires IsChapterTitle(t)
    ensures IsChapterTitleAsWritten(t)
  {
  }

  /** A line whose roman letters run straight into a word is not a heading, unless
      one of the other two alternatives matches. */
  lemma WordAfterNumeralNotTitle(t: string)
    requires CnPrefix(AfterSpaces(t)) == 0 && ChapterPrefix(AfterSpaces(t)) == 0
    requires RomanPrefix(AfterSpaces(t)) < |AfterSpaces(t)|
    requires AfterSpaces(t)[RomanPrefix(AfterSpaces(t))] !in ".:："
    ensures !IsChapterTitle(t)
  {
  }

  lemma TitleNonEmpty(t: string)
    requires IsChapterTitleAsWritten(t)
    ensures t != []
  {
  }

  // --------------------------------------------------------- parsing, specified

  type NonEmptyString = s: string | |s| > 0 witness "?"

  /** A line of the file as the parser sees it: a chapter heading (its trimmed text)
      or a content line (as read). */
  datatype Line = Heading(title: NonEmptyString) | Text(text: string)

  /** The length test never fails for an accepted line (ClassifyHeading); it only
      gives the heading its type. */
  function Classify(line: string): Line
  {
    var t := Trim(line);
    if IsChapterTitleAsWritten(t) && |t| > 0 then Heading(t) else Text(line)
  }

  /** A line is a heading exactly when its trimmed text passes the chapter-title test. */
  lemma ClassifyHeading(line: string)
    ensures Classify(line).Heading? <==> IsChapterTitleAsWritten(Trim(line))
    ensures Classify(line).Heading? ==> Classify(line).title == Trim(line)
    ensures Classify(line).Text? ==> Classify(line).text == line
  {
    if IsChapterTitleAsWritten(Trim(line)) {
      TitleNonEmpty(Trim(line));
    }
  }

  function ClassifyAll(lines: seq<string>): (r: seq<Line>)
    ensures |r| == |lines|
  {
    if lines == [] then [] else ClassifyAll(lines[..|lines| - 1]) + [Classify(lines[|lines| - 1])]
  }

  /** The trimmed title lines read, in input order. */
  function Titles(ls: seq<Line>): (r: seq<NonEmptyString>)
    ensures |r| <= |ls|
  {
    if ls == [] then []
    else if ls[|ls| - 1].Heading? then Titles(ls[..|ls| - 1]) + [ls[|ls| - 1].title]
    else Titles(ls[..|ls| - 1])
  }

  /** Title of the chapter being read: the last title line, or "". */
  function CurrentTitle(ls: seq<Line>): string
  {
    var ts := Titles(ls);
    if ts == [] then "" else ts[|ts| - 1]
  }

  /** Appending a content line: a separating "\n" only when the buffer is non-empty. */
  function AppendLine(content: string, line: string): string
  {
    if |content| > 0 then content + "\n" + line else line
  }

  /** The content buffer after reading ls. */
  function Body(ls: seq<Line>): string
  {
    if ls == [] then ""
    else if ls[|ls| - 1].Heading? then ""
    else AppendLine(Body(ls[..|ls| - 1]), ls[|ls| - 1].text)
  }

  /** saveCurrentChapter: an untitled first chapter is the preface; otherwise an
      untitled chapter is named after its order. */
  function SaveCurrentChapter(title: string, content: string, order: nat): ParsedScene
  {
    var t1 := if order == 0 && title == "" then PrefaceTitle else title;
    var t2 := if t1 == "" then "第" + IntToString(order) + "章" else t1;
    ParsedScene(t2, content, order)
  }

  /** Scenes saved while reading ls: each title line flushes a non-empty buffer. */
  function Flushed(ls: seq<Line>): seq<ParsedScene>
  {
    if ls == [] then []
    else
      var init := ls[..|ls| - 1];
      if ls[|ls| - 1].Heading? && |Body(init)| > 0 then
        Flushed(init) + [SaveCurrentChapter(CurrentTitle(init), Body(init), |Titles(init)|)]
      else Flushed(init)
  }

  /** parseStream: the flushed scenes and, when the buffer is non-empty, the last one. */
  function Parse(ls: seq<Line>): ParsedNovel
  {
    var last := if |Body(ls)| > 0
      then [SaveCurrentChapter(CurrentTitle(ls), Body(ls), |Titles(ls)|)]
      else [];
    ParsedNovel(DefaultNovelTitle, Flushed(ls) + last)
  }

  // ---------------------------------------------------------------- the parser

  lemma PrefixSnoc<T>(s: seq<T>, i: nat)
    requires i < |s|
    ensures s[..i + 1] == s[..i] + [s[i]]
  {
  }

  lemma ClassifySnoc(lines: seq<string>, i: nat)
    requires i < |lines|
    ensures ClassifyAll(lines[..i + 1]) == ClassifyAll(lines[..i]) + [Classify(lines[i])]
  {
    PrefixSnoc(lines, i);
    assert lines[..i + 1][..i] == lines[..i];
  }

  lemma HeadingStep(ls: seq<Line>, l: Line)
    requires l.Heading?
    ensures Titles(ls + [l]) == Titles(ls) + [l.title]
    ensures Body(ls + [l]) == ""
    ensures Flushed(ls + [l]) == Flushed(ls) +
      (if |Body(ls)| > 0 then [SaveCurrentChapter(CurrentTitle(ls), Body(ls), |Titles(ls)|)] else [])
  {
    assert (ls + [l])[..|ls|] == ls;
  }

  lemma TextStep(ls: seq<Line>, l: Line)
    requires l.Text?
    ensures Titles(ls + [l]) == Titles(ls)
    ensures Body(ls + [l]) == AppendLine(Body(ls), l.text)
    ensures Flushed(ls + [l]) == Flushed(ls)
  {
    assert (ls + [l])[..|ls|] == ls;
  }

  /** The parser's variables after reading ls. */
  predicate ParserState(ls: seq<Line>, scenes: seq<ParsedScene>, title: string, content: string, count: nat)
  {
    count == |Titles(ls)| && title == CurrentTitle(ls) && content == Body(ls) && scenes == Flushed(ls)
  }

  lemma ReadHeading(ls: seq<Line>, l: Line, scenes: seq<ParsedScene>, title: string, content: string, count: nat,
                    scenes': seq<ParsedScene>, content': string)
    requires ParserState(ls, scenes, title, content, count) && l.Heading?
    requires |content| > 0 ==> scenes' == scenes + [SaveCurrentChapter(title, content, count)]
    requires |content| == 0 ==> scenes' == scenes
    requires content' == ""
    ensures ParserState(ls + [l], scenes', l.title, content', count + 1)
  {
    HeadingStep(ls, l);
  }

  lemma ReadText(ls: seq<Line>, l: Line, scenes: seq<ParsedScene>, title: string, content: string, count: nat,
                 content': string)
    requires ParserState(ls, scenes, title, content, count) && l.Text?
    requires content' == AppendLine(content, l.text)
    ensures ParserState(ls + [l], scenes, title, content', count)
  {
    TextStep(ls, l);
  }

  /** parseStream over the lines of the file. */
  method ParseStream(lines: seq<string>) returns (novel: ParsedNovel)
    ensures novel == Parse(ClassifyAll(lines))
  {
    var scenes: seq<ParsedScene> := [];
    var currentTitle := "";
    var currentContent := "";
    var chapterCount: nat := 0;
    ghost var read: seq<Line> := [];
    for i := 0 to |lines|
      invariant read == ClassifyAll(lines[..i])
      invariant ParserState(read, scenes, currentTitle, currentContent, chapterCount)
    {
      ghost var scenes0, title0, content0, count0 := scenes, currentTitle, currentContent, chapterCount;
      var line := Classify(lines[i]);
      if line.Heading? {
        if |currentContent| > 0 {
          scenes := scenes + [SaveCurrentChapter(currentTitle, currentContent, chapterCount)];
          currentContent := "";
        }
        chapterCount := chapterCount + 1;
        currentTitle := line.title;
        ReadHeading(read, line, scenes0, title0, content0, count0, scenes, currentContent);
      } else {
        if |currentContent| > 0 {
          currentContent := currentContent + "\n";
        }
        currentContent := currentContent + line.text;
        ReadText(read, line, scenes0, title0, content0, count0, currentContent);
      }
      ClassifySnoc(lines, i);
      read := read + [line];
    }
    assert lines[..|lines|] == lines;
    if |currentContent| > 0 {
      scenes := scenes + [SaveCurrentChapter(currentTitle, currentContent, chapterCount)];
    }
    novel := ParsedNovel(DefaultNovelTitle, scenes);
  }

  // --------------------------------------------------------- what parsing keeps

  /** Every saved scene has content, an order of at most the number of title lines
      read, orders strictly increasing, and the title its order designates. */
  predicate WellFormedScenes(scenes: seq<ParsedScene>, titles: seq<NonEmptyString>)
  {
    && (forall i :: 0 <= i < |scenes| ==> scenes[i].sceneContent != [])
    && (forall i, j :: 0 <= i < j < |scenes| ==> scenes[i].order < scenes[j].order)
    && (forall i :: 0 <= i < |scenes| ==> scenes[i].order <= |titles|)
    && (forall i :: 0 <= i < |scenes| && scenes[i].order == 0 ==> scenes[i].sceneTitle == PrefaceTitle)
    && (forall i :: 0 <= i < |scenes| && 0 < scenes[i].order <= |titles| ==>
          scenes[i].sceneTitle == titles[scenes[i].order - 1])
  }

  lemma WellFormedExtend(scenes: seq<ParsedScene>, titles: seq<NonEmptyString>, t: NonEmptyString)
    requires WellFormedScenes(scenes, titles)
    ensures WellFormedScenes(scenes, titles + [t])
  {
  }

  /** A scene that fits after the ones saved before keeps the list well formed. */
  lemma WellFormedAppend(scenes: seq<ParsedScene>, s: ParsedScene, titles: seq<NonEmptyString>)
    requires WellFormedScenes(scenes, titles)
    requires forall i :: 0 <= i < |scenes| ==> scenes[i].order < s.order
    requires s.sceneContent != [] && s.order <= |titles|
    requires s.order == 0 ==> s.sceneTitle == PrefaceTitle
    requires s.order > 0 ==> s.sceneTitle == titles[s.order - 1]
    ensures WellFormedScenes(scenes + [s], titles)
  {
  }

  /** The scene saved for a non-empty buffer. */
  lemma SavedScene(ls: seq<Line>)
    requires |Body(ls)| > 0
    ensures var s := SaveCurrentChapter(CurrentTitle(ls), Body(ls), |Titles(ls)|);
      && s.sceneContent == Body(ls) && s.order == |Titles(ls)|
      && (s.order == 0 ==> s.sceneTitle == PrefaceTitle)
      && (s.order > 0 ==> s.sceneTitle == Titles(ls)[s.order - 1])
  {
  }

  lemma {:induction false} FlushedWellFormed(ls: seq<Line>)
    ensures WellFormedScenes(Flushed(ls), Titles(ls))
    ensures forall i :: 0 <= i < |Flushed(ls)| ==> Flushed(ls)[i].order < |Titles(ls)|
  {
    if ls != [] {
      var init, l := ls[..|ls| - 1], ls[|ls| - 1];
      assert ls == init + [l];
      FlushedWellFormed(init);
      if l.Heading? {
        HeadingStep(init, l);
        if |Body(init)| > 0 {
          SavedScene(init);
          WellFormedAppend(Flushed(init), SaveCurrentChapter(CurrentTitle(init), Body(init), |Titles(init)|), Titles(init));
        }
        WellFormedExtend(Flushed(ls), Titles(init), l.title);
      } else {
        TextStep(init, l);
      }
    }
  }

  /** The properties of the parsed scenes: each has content; orders strictly
      increase; order 0 is the preface; any other order n carries the n-th trimmed
      title line. */
  lemma ParseWellFormed(ls: seq<Line>)
    ensures Parse(ls).novelTitle == DefaultNovelTitle
    ensures WellFormedScenes(Parse(ls).scenes, Titles(ls))
  {
    FlushedWellFormed(ls);
    if |Body(ls)| > 0 {
      var last := SaveCurrentChapter(CurrentTitle(ls), Body(ls), |Titles(ls)|);
      SavedScene(ls);
      WellFormedAppend(Flushed(ls), last, Titles(ls));
      assert Parse(ls).scenes == Flushed(ls) + [last];
    } else {
      assert Parse(ls).scenes == Flushed(ls);
    }
  }

  lemma TitlesSnoc(ls: seq<Line>, l: Line)
    ensures Titles(ls + [l]) == Titles(ls) + (if l.Heading? then [l.title] else [])
  {
    assert (ls + [l])[..|ls|] == ls;
  }

  lemma TitlesOfLinesStep(lines: seq<string>)
    requires lines != []
    ensures var n := |lines| - 1;
      Titles(ClassifyAll(lines)) == Titles(ClassifyAll(lines[..n])) +
        (if IsChapterTitleAsWritten(Trim(lines[n])) then [Trim(lines[n])] else [])
  {
    var n := |lines| - 1;
    ClassifySnoc(lines, n);
    assert lines[..n + 1] == lines;
    TitlesSnoc(ClassifyAll(lines[..n]), Classify(lines[n]));
    ClassifyHeading(lines[n]);
  }

  /** The titles are the trimmed lines the chapter-title test accepts. */
  lemma {:induction false} TitlesOfLines(lines: seq<string>)
    ensures forall t :: t in Titles(ClassifyAll(lines)) ==>
      exists i :: 0 <= i < |lines| && IsChapterTitleAsWritten(Trim(lines[i])) && t == Trim(lines[i])
  {
    if lines != [] {
      var n := |lines| - 1;
      var init := lines[..n];
      TitlesOfLines(init);
      TitlesOfLinesStep(lines);
      forall t | t in Titles(ClassifyAll(lines))
        ensures exists i :: 0 <= i < |lines| && IsChapterTitleAsWritten(Trim(lines[i])) && t == Trim(lines[i])
      {
        if t in Titles(ClassifyAll(init)) {
          var i :| 0 <= i < |init| && IsChapterTitleAsWritten(Trim(init[i])) && t == Trim(init[i]);
          assert lines[i] == init[i];
        } else {
          assert t == Trim(lines[n]);
        }
      }
    }
  }

  // ------------------------------------------------ chapter text as joined lines

  /** The content lines read since the last title line. */
  function AfterLastTitle(ls: seq<Line>): seq<string>
  {
    if ls == [] then []
    else if ls[|ls| - 1].Heading? then []
    else AfterLastTitle(ls[..|ls| - 1]) + [ls[|ls| - 1].text]
  }

  function DropLeadingEmpty(xs: seq<string>): (r: seq<string>)
    ensures r != [] ==> r[0] != []
  {
    if xs == [] then [] else if xs[0] == [] then DropLeadingEmpty(xs[1..]) else xs
  }

  lemma {:induction false} DropLeadingEmptySnoc(xs: seq<string>, l: string)
    ensures DropLeadingEmpty(xs + [l]) ==
      if DropLeadingEmpty(xs) == [] then (if l == [] then [] else [l]) else DropLeadingEmpty(xs) + [l]
  {
    if xs != [] {
      assert (xs + [l])[1..] == xs[1..] + [l];
      DropLeadingEmptySnoc(xs[1..], l);
    }
  }

  lemma {:induction false} JoinStartsNonEmpty(xs: seq<string>, sep: string)
    requires xs != [] && xs[0] != []
    ensures Join(xs, sep) != []
  {
    if |xs| > 1 {
      JoinStartsNonEmpty(xs[..|xs| - 1], sep);
    }
  }

  lemma JoinSnoc(xs: seq<string>, sep: string, l: string)
    requires xs != []
    ensures Join(xs + [l], sep) == Join(xs, sep) + sep + l
  {
    assert (xs + [l])[..|xs|] == xs;
  }

  /** A chapter's text is its lines after the title, leading empty lines dropped,
      joined with "\n". */
  lemma {:induction false} BodyJoinsLines(ls: seq<Line>)
    ensures Body(ls) == Join(DropLeadingEmpty(AfterLastTitle(ls)), "\n")
  {
    if ls != [] && ls[|ls| - 1].Text? {
      var init, l := ls[..|ls| - 1], ls[|ls| - 1].text;
      var xs := AfterLastTitle(init);
      BodyJoinsLines(init);
      DropLeadingEmptySnoc(xs, l);
      var d := DropLeadingEmpty(xs);
      if d != [] {
        JoinStartsNonEmpty(d, "\n");
        JoinSnoc(d, "\n", l);
      }
    }
  }

  // ------------------------------------------------------------- the preface

  lemma {:induction false} NoHeadings(ls: seq<Line>)
    requires forall i :: 0 <= i < |ls| ==> ls[i].Text?
    ensures Titles(ls) == [] && Flushed(ls) == []
  {
    if ls != [] {
      NoHeadings(ls[..|ls| - 1]);
    }
  }

  lemma {:induction false} FlushedGrows(ls: seq<Line>, k: nat)
    requires k <= |ls|
    ensures |Flushed(ls[..k])| <= |Flushed(ls)|
    ensures Flushed(ls[..k]) == Flushed(ls)[..|Flushed(ls[..k])|]
    decreases |ls| - k
  {
    if k < |ls| {
      var init := ls[..|ls| - 1];
      assert init[..k] == ls[..k];
      FlushedGrows(init, k);
    } else {
      assert ls[..k] == ls;
    }
  }

  /** Text before the first title line, when non-empty, is the first scene: order 0,
      titled "前言". */
  lemma PrefaceScene(ls: seq<Line>, k: nat)
    requires k <= |ls|
    requires forall i :: 0 <= i < k ==> ls[i].Text?
    requires k == |ls| || ls[k].Heading?
    requires |Body(ls[..k])| > 0
    ensures Parse(ls).scenes != []
    ensures Parse(ls).scenes[0] == ParsedScene(PrefaceTitle, Body(ls[..k]), 0)
  {
    var pre := ls[..k];
    NoHeadings(pre);
    var preface := SaveCurrentChapter(CurrentTitle(pre), Body(pre), |Titles(pre)|);
    assert preface == ParsedScene(PrefaceTitle, Body(pre), 0);
    if k == |ls| {
      assert pre == ls;
      assert Parse(ls).scenes == Flushed(ls) + [preface];
    } else {
      PrefixSnoc(ls, k);
      HeadingStep(pre, ls[k]);
      assert Flushed(ls[..k + 1]) == [preface];
      FlushedGrows(ls, k + 1);
      var f := Flushed(ls);
      assert f[..1] == [preface];
      assert f[0] == f[..1][0];
      var last := if |Body(ls)| > 0
        then [SaveCurrentChapter(CurrentTitle(ls), Body(ls), |Titles(ls)|)]
        else [];
      assert Parse(ls).scenes == Flushed(ls) + last;
    }
  }
}
