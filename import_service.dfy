// ImportServiceImpl: file-name helpers, parser selection, and the novel structure
// built from a parsed text file (one act, one chapter per scene).
module ImportService {
  import opened Wrappers
  import opened JStrings
  import TxtParser

  // ------------------------------------------------------------ file names

  /** getFileExtension: the text after the last '.', when that dot is not the first
      char; otherwise "". */
  function FileExtension(filename: string): (ext: string)
    ensures '.' !in ext
    ensures LastIndexOfChar(filename, '.') > 0 ==>
      filename == filename[..LastIndexOfChar(filename, '.')] + "." + ext
    ensures LastIndexOfChar(filename, '.') <= 0 ==> ext == ""
  {
    var dot := LastIndexOfChar(filename, '.');
    if dot > 0 then
      assert filename == filename[..dot] + "." + filename[dot + 1..];
      filename[dot + 1..]
    else ""
  }

  /** extractTitleFromFilename: the name without its extension, '-' and '_' turned
      into spaces, trimmed; a name without a qualifying dot is kept as it is. */
  function TitleFromFilename(filename: string): (title: string)
    ensures LastIndexOfChar(filename, '.') <= 0 ==> title == filename
    ensures LastIndexOfChar(filename, '.') > 0 ==>
      |title| < |filename| && '-' !in title && '_' !in title && Trim(title) == title
  {
    var dot := LastIndexOfChar(filename, '.');
    if dot > 0 then
      var spaced := ReplaceChar(ReplaceChar(filename[..dot], '-', ' '), '_', ' ');
      NoDashOrUnderscore(filename[..dot]);
      TrimKeepsAbsent(spaced, '-');
      TrimKeepsAbsent(spaced, '_');
      TrimIdempotent(spaced);
      Trim(spaced)
    else filename
  }

  lemma NoDashOrUnderscore(s: string)
    ensures var r := ReplaceChar(ReplaceChar(s, '-', ' '), '_', ' ');
      '-' !in r && '_' !in r
  {
    var r1 := ReplaceChar(s, '-', ' ');
    assert forall i :: 0 <= i < |r1| ==> r1[i] != '-';
  }

  lemma TrimKeepsAbsent(s: string, c: char)
    requires c !in s
    ensures c !in Trim(s)
  {
    var t := Trim(s);
    assert forall i :: 0 <= i < |t| ==> t[i] == s[LeadingCut(s) + i];
  }

  /** The title stripped of the extension and the extension split the name at the
      same dot. */
  lemma TitleAndExtensionSplitName(filename: string)
    requires LastIndexOfChar(filename, '.') > 0
    ensures var dot := LastIndexOfChar(filename, '.');
      && filename == filename[..dot] + "." + FileExtension(filename)
      && TitleFromFilename(filename) == Trim(ReplaceChar(ReplaceChar(filename[..dot], '-', ' '), '_', ' '))
  {
  }

  // -------------------------------------------------------- parser selection

  /** Index of the first supported extension equal to ext, ignoring case. */
  function FindParser(supported: seq<string>, ext: string): (r: Option<nat>)
    ensures r.Some? ==> r.value < |supported| && EqualsIgnoreCase(supported[r.value], ext)
    ensures r.Some? ==> forall j :: 0 <= j < r.value ==> !EqualsIgnoreCase(supported[j], ext)
    ensures r.None? <==> forall j :: 0 <= j < |supported| ==> !EqualsIgnoreCase(supported[j], ext)
  {
    if supported == [] then None
    else if EqualsIgnoreCase(supported[0], ext) then Some(0)
    else match FindParser(supported[1..], ext)
      case None => None
      case Some(k) => Some(k + 1)
  }

  /** getParserForFile over the parsers' supported extensions: the lower-cased
      extension picks the first parser that supports it; none is an
      IllegalArgumentException. */
  function ParserForFile(supported: seq<string>, filename: string): (r: Result<nat>)
    ensures r.Ok? ==> r.value < |supported| && EqualsIgnoreCase(supported[r.value], FileExtension(filename))
    ensures r.Err? <==> forall j :: 0 <= j < |supported| ==> !EqualsIgnoreCase(supported[j], FileExtension(filename))
    ensures r.Err? ==> r.error == Thrown(IllegalArgument, "不支持的文件类型: " + ToLower(FileExtension(filename)))
  {
    var ext := ToLower(FileExtension(filename));
    LowerIdempotent(FileExtension(filename));
    match FindParser(supported, ext)
    case None => Err(Thrown(IllegalArgument, "不支持的文件类型: " + ext))
    case Some(k) => Ok(k)
  }

  lemma LowerIdempotent(s: string)
    ensures ToLower(ToLower(s)) == ToLower(s)
  {
  }

  /** The TXT parser handles "novel.TXT". */
  lemma TxtParserChosen()
    ensures ParserForFile(["txt"], "novel.TXT") == Ok(0)
  {
    var f := "novel.TXT";
    assert LastIndexOfChar(f, '.') == 5;
    assert FileExtension(f) == "TXT";
    assert ToLower("TXT") == "txt";
  }

  // --------------------------------------------------------------- the novel

  /** The novel title: the parser's, unless it is missing or empty, in which case
      it comes from the file name. */
  function NovelTitle(parsedTitle: Option<string>, filename: string): (t: string)
    ensures parsedTitle.Some? && parsedTitle.value != [] ==> t == parsedTitle.value
    ensures (parsedTitle.None? || parsedTitle.value == []) ==> t == TitleFromFilename(filename)
  {
    if parsedTitle.None? || parsedTitle.value == [] then TitleFromFilename(filename) else parsedTitle.value
  }

  /** A text file keeps the parser's default title whatever its name. */
  lemma TxtNovelTitle(lines: seq<string>, filename: string)
    ensures NovelTitle(Some(TxtParser.Parse(TxtParser.ClassifyAll(lines)).novelTitle), filename)
      == TxtParser.DefaultNovelTitle
  {
  }

  datatype Scene = Scene(novelId: string, title: string, content: string, sequence: nat)
  datatype Chapter = Chapter(title: string, order: nat, sceneIds: seq<string>)
  datatype Act = Act(title: string, order: nat, chapters: seq<Chapter>)
  datatype Novel = Novel(id: string, title: string, authorId: string, status: string,
                         wordCount: nat, readTime: nat, version: nat, acts: seq<Act>)

  const FirstActTitle: string := "第一卷"
  const WordsPerMinute: nat := 300

  /** Sum of the scenes' content lengths. */
  function TotalLength(scenes: seq<Scene>): nat
  {
    if scenes == [] then 0 else TotalLength(scenes[..|scenes| - 1]) + |scenes[|scenes| - 1].content|
  }

  /** (int) Math.ceil(words / 300.0): the least whole number of minutes at 300 words
      a minute. */
  function ReadTimeMinutes(words: nat): (m: nat)
    ensures m * WordsPerMinute >= words
    ensures m == 0 || (m - 1) * WordsPerMinute < words
  {
    (words + WordsPerMinute - 1) / WordsPerMinute
  }

  /** saveNovelAndScenesReactive, with the ids the repositories assign given as
      parameters: a scene per parsed scene, then one act holding a chapter per
      saved scene, and the word count and reading time of the whole text. */
  method SaveNovelAndScenes(parsed: TxtParser.ParsedNovel, userId: string, novelId: string,
                            sceneIds: seq<string>) returns (novel: Novel, scenes: seq<Scene>)
    requires |sceneIds| == |parsed.scenes|
    ensures |scenes| == |parsed.scenes|
    ensures forall i :: 0 <= i < |scenes| ==>
      var p := parsed.scenes[i];
      scenes[i] == Scene(novelId, p.sceneTitle, p.sceneContent, p.order)
    ensures novel.id == novelId && novel.title == parsed.novelTitle && novel.authorId == userId
    ensures novel.status == "draft" && novel.version == 1
    ensures novel.wordCount == TotalLength(scenes)
    ensures novel.readTime * WordsPerMinute >= novel.wordCount
    ensures novel.readTime == 0 || (novel.readTime - 1) * WordsPerMinute < novel.wordCount
    ensures |novel.acts| == 1 && novel.acts[0].title == FirstActTitle && novel.acts[0].order == 0
    ensures |novel.acts[0].chapters| == |scenes|
    ensures forall i :: 0 <= i < |scenes| ==>
      novel.acts[0].chapters[i] == Chapter(scenes[i].title, i, [sceneIds[i]])
  {
    scenes := [];
    for i := 0 to |parsed.scenes|
      invariant |scenes| == i
      invariant forall j :: 0 <= j < i ==>
        scenes[j] == Scene(novelId, parsed.scenes[j].sceneTitle, parsed.scenes[j].sceneContent, parsed.scenes[j].order)
    {
      var p := parsed.scenes[i];
      scenes := scenes + [Scene(novelId, p.sceneTitle, p.sceneContent, p.order)];
    }
    var totalWords := TotalLength(scenes);
    var readTime := ReadTimeMinutes(totalWords);
    var chapters: seq<Chapter> := [];
    for i := 0 to |scenes|
      invariant |chapters| == i
      invariant forall j :: 0 <= j < i ==> chapters[j] == Chapter(scenes[j].title, j, [sceneIds[j]])
    {
      chapters := chapters + [Chapter(scenes[i].title, i, [sceneIds[i]])];
    }
    var act := Act(FirstActTitle, 0, chapters);
    novel := Novel(novelId, parsed.novelTitle, userId, "draft", totalWords, readTime, 1, [act]);
  }

  /** The word count of an imported text file is the length of all its chapter texts. */
  lemma {:induction false} TotalLengthAppend(scenes: seq<Scene>, s: Scene)
    ensures TotalLength(scenes + [s]) == TotalLength(scenes) + |s.content|
  {
    assert (scenes + [s])[..|scenes|] == scenes;
  }

  /** Every scene of an imported text file adds at least one to the word count. */
  lemma {:induction false} TotalLengthAtLeastCount(scenes: seq<Scene>)
    requires forall i :: 0 <= i < |scenes| ==> scenes[i].content != []
    ensures TotalLength(scenes) >= |scenes|
  {
    if scenes != [] {
      TotalLengthAtLeastCount(scenes[..|scenes| - 1]);
    }
  }
}
