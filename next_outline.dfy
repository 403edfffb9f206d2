// NextOutlineServiceImpl: plot-outline options. A model reply is parsed into
// outline options (the JSON parser is a stub, so the text parser always runs);
// a streamed generation accumulates each option from its chunks; a chosen
// outline is marked selected and placed in the novel as a new chapter, at the
// end of a chapter, or before or after a scene. The outline repository and the
// per-option context cache are the fields of OutlineService; the novel and
// scene services are not part of this model: what they return is a parameter.
module NextOutlines {
  import opened Wrappers
  import opened JStrings
  import opened NovelModel

  /** NextOutline, with the fields the service sets. */
  datatype NextOutline = NextOutline(
    id: string,
    novelId: string,
    title: Option<string>,
    content: string,
    configId: Option<string>,
    createdAt: int,
    selected: bool,
    originalStartChapterId: Option<string>,
    originalEndChapterId: Option<string>,
    originalAuthorGuidance: Option<string>)

  /** An outline option the parser found: its title and its content. */
  datatype Draft = Draft(title: string, content: string)

  const DefaultTitle: string := "剧情选项"
  const NumberedTitlePrefix: string := "剧情选项 "
  const MaxTitleLength: int := 50

  // ------------------------------------------------------------ insert dispatch

  datatype InsertKind = NewChapter | ChapterEnd | BeforeScene | AfterScene

  /** The switch of saveNextOutline: a missing or unknown insert type means a new chapter. */
  function KindOf(insertType: Option<string>): (k: InsertKind)
    ensures k != NewChapter ==> insertType == Some(KindName(k))
    ensures insertType.None? ==> k == NewChapter
  {
    if insertType == Some("CHAPTER_END") then ChapterEnd
    else if insertType == Some("BEFORE_SCENE") then BeforeScene
    else if insertType == Some("AFTER_SCENE") then AfterScene
    else NewChapter
  }

  /** The name each kind is reported under in the save response. */
  function KindName(k: InsertKind): string
  {
    match k
    case NewChapter => "NEW_CHAPTER"
    case ChapterEnd => "CHAPTER_END"
    case BeforeScene => "BEFORE_SCENE"
    case AfterScene => "AFTER_SCENE"
  }

  /** Each of the four names selects its own kind, and every other value
      (missing included) selects NEW_CHAPTER. */
  lemma KindOfNames(insertType: Option<string>)
    ensures forall k: InsertKind :: KindOf(Some(KindName(k))) == k
    ensures KindOf(insertType) != NewChapter <==>
      insertType == Some("CHAPTER_END") || insertType == Some("BEFORE_SCENE") || insertType == Some("AFTER_SCENE")
    ensures KindOf(insertType) != NewChapter ==> insertType == Some(KindName(KindOf(insertType)))
  {
  }

  /** NextOutlineDTO.SaveRequest. */
  datatype SaveRequest = SaveRequest(
    outlineId: string,
    insertType: Option<string>,
    targetChapterId: Option<string>,
    targetSceneId: Option<string>,
    createNewScene: bool)

  /** NextOutlineDTO.SaveResponse (success is always true). */
  datatype SaveResponse = SaveResponse(
    outlineId: string,
    insertType: string,
    newChapterId: Option<string>,
    targetChapterId: Option<string>,
    targetSceneId: Option<string>,
    newSceneId: Option<string>,
    outlineTitle: Option<string>)

  /** The sceneService.addScene call: chapter, title, content and position (none: at the end). */
  datatype SceneAdd = SceneAdd(chapterId: Option<string>, title: Option<string>, content: string, position: Option<int>)

  /** What saving did to the novel: an act added, a chapter added, a scene added. */
  datatype Placement = Placement(response: SaveResponse, actAdded: bool, chapterAdded: bool, scene: Option<SceneAdd>)

  predicate Missing(id: Option<string>) { id.None? || id.value == "" }

  const ChapterIdRequired: string := "目标章节ID不能为空"
  const SceneIdRequired: string := "目标场景ID不能为空"
  const ChapterNotCreated: string := "新章节创建失败"
  const OutlineMissing: string := "大纲不存在"

  /** The index of the first act with the id, or |acts|. */
  function ActIndex(acts: seq<Act>, actId: string): (r: nat)
    ensures r <= |acts|
    ensures r < |acts| ==> acts[r].id == actId
    ensures forall k :: 0 <= k < r ==> acts[k].id != actId
  {
    if acts == [] then 0
    else if acts[0].id == actId then 0
    else 1 + ActIndex(acts[1..], actId)
  }

  /** The id of the last chapter of the act with the id: none when no act has
      it, an index error when that act has no chapter. */
  function LastChapterOf(acts: seq<Act>, actId: string): Result<Option<string>>
  {
    var i := ActIndex(acts, actId);
    if i == |acts| then Ok(None)
    else if acts[i].chapters == [] then Err(Exception(IndexOutOfBounds, None, None, []))
    else Ok(Some(acts[i].chapters[|acts[i].chapters| - 1].id))
  }

  /** The search loop of createNewChapterAndScene, stopping at the first match. */
  method FindLastChapter(acts: seq<Act>, actId: string) returns (r: Result<Option<string>>)
    ensures r == LastChapterOf(acts, actId)
  {
    r := Ok(None);
    var i := 0;
    while i < |acts|
      invariant 0 <= i <= |acts|
      invariant forall k :: 0 <= k < i ==> acts[k].id != actId
    {
      if acts[i].id == actId {
        var lastIndex := |acts[i].chapters| - 1;
        if lastIndex < 0 {
          return Err(Exception(IndexOutOfBounds, None, None, []));
        }
        return Ok(Some(acts[i].chapters[lastIndex].id));
      }
      i := i + 1;
    }
  }

  /** createNewChapterAndScene: an act "第一卷" is added first when the novel has
      none, then a chapter titled by the outline; the new chapter is the first
      of the first act in that case, otherwise the last chapter of the first
      act as it was before. `afterAdd` is the structure after the additions. */
  function NewChapterPlaced(o: NextOutline, request: SaveRequest, novel: Option<Novel>, afterAdd: seq<Act>,
                            newSceneId: string): (r: Result<Option<Placement>>)
    ensures novel.None? ==> r == Ok(None)
    ensures r.Ok? && r.value.Some? ==>
      r.value.value.response.insertType == "NEW_CHAPTER" && r.value.value.response.outlineId == o.id
      && r.value.value.response.newChapterId.Some?
  {
    if novel.None? then Ok(None)
    else
      var acts := novel.value.structure;
      var needsAct := acts.None? || acts.value == [];
      var chapter := if needsAct then FirstChapterOf(afterAdd) else LastChapterOf(afterAdd, acts.value[0].id);
      ChapterPlacement(o, request, needsAct, chapter, newSceneId)
  }

  /** The first chapter of the first act, after an act was added to an empty novel. */
  function FirstChapterOf(afterAdd: seq<Act>): Result<Option<string>>
  {
    if afterAdd == [] || afterAdd[0].chapters == [] then Err(Exception(IndexOutOfBounds, None, None, []))
    else Ok(Some(afterAdd[0].chapters[0].id))
  }

  /** The response of createNewChapterAndScene once the new chapter is known. */
  function ChapterPlacement(o: NextOutline, request: SaveRequest, needsAct: bool, chapter: Result<Option<string>>,
                            newSceneId: string): Result<Option<Placement>>
  {
    if chapter.Err? then Err(chapter.error)
    else if chapter.value.None? then Err(Thrown(Runtime, ChapterNotCreated))
    else
      var chapterId := chapter.value.value;
      var scene := if request.createNewScene then Some(SceneAdd(Some(chapterId), o.title, o.content, None)) else None;
      Ok(Some(Placement(
        SaveResponse(o.id, "NEW_CHAPTER", Some(chapterId), None, None,
                     if request.createNewScene then Some(newSceneId) else None, o.title),
        needsAct, true, scene)))
  }

  /** The scene placement of addSceneBeforeTarget / addSceneAfterTarget: before
      puts the new scene at the target's sequence, after at the next one (an int
      sum, wrapping at 32 bits); an unknown target gives nothing, a target
      without a sequence fails on unboxing. */
  function ScenePlaced(o: NextOutline, request: SaveRequest, after: bool, target: Option<Scene>,
                       newSceneId: string): (r: Result<Option<Placement>>)
    ensures Missing(request.targetSceneId) ==> r.Err?
    ensures r.Ok? && r.value.Some? ==>
      target.Some? && target.value.sequence.Some?
      && !r.value.value.actAdded && !r.value.value.chapterAdded && r.value.value.scene.Some?
      && r.value.value.scene.value.chapterId == target.value.chapterId
      && r.value.value.scene.value.position
         == Some(if after then Wrap32(target.value.sequence.value + 1) else target.value.sequence.value)
  {
    if Missing(request.targetSceneId) then Err(Thrown(Runtime, SceneIdRequired))
    else if target.None? then Ok(None)
    else if target.value.sequence.None? then Err(Exception(NullPointer, None, None, []))
    else
      var position := if after then Wrap32(target.value.sequence.value + 1) else target.value.sequence.value;
      Ok(Some(Placement(
        SaveResponse(o.id, if after then "AFTER_SCENE" else "BEFORE_SCENE", None, target.value.chapterId,
                     request.targetSceneId, Some(newSceneId), o.title),
        false, false, Some(SceneAdd(target.value.chapterId, o.title, o.content, Some(position))))))
  }

  /** The placement saveNextOutline dispatches to (None: the lookup came back empty). */
  function Placed(o: NextOutline, request: SaveRequest, novel: Option<Novel>, afterAdd: seq<Act>,
                  target: Option<Scene>, newSceneId: string): (r: Result<Option<Placement>>)
    ensures r.Ok? && r.value.Some? ==> (r.value.value.chapterAdded <==> KindOf(request.insertType) == NewChapter)
    ensures r.Ok? && r.value.Some? && r.value.value.actAdded ==> r.value.value.chapterAdded
    ensures r.Ok? && r.value.Some? && r.value.value.scene.Some? ==>
      r.value.value.scene.value.title == o.title && r.value.value.scene.value.content == o.content
  {
    match KindOf(request.insertType)
    case NewChapter => NewChapterPlaced(o, request, novel, afterAdd, newSceneId)
    case ChapterEnd =>
      if Missing(request.targetChapterId) then Err(Thrown(Runtime, ChapterIdRequired))
      else Ok(Some(Placement(
        SaveResponse(o.id, "CHAPTER_END", None, request.targetChapterId, None, Some(newSceneId), o.title),
        false, false, Some(SceneAdd(request.targetChapterId, o.title, o.content, None)))))
    case BeforeScene => ScenePlaced(o, request, false, target, newSceneId)
    case AfterScene => ScenePlaced(o, request, true, target, newSceneId)
  }

  /** The new scene goes before the target (its sequence) or after it (sequence
      + 1), always into the target's chapter and carrying the outline's title
      and content; a missing target id is an error for the three kinds that
      need one; the response names the kind that was used. */
  lemma PlacementRules(o: NextOutline, request: SaveRequest, novel: Option<Novel>, afterAdd: seq<Act>,
                       target: Option<Scene>, newSceneId: string)
    ensures var r := Placed(o, request, novel, afterAdd, target, newSceneId);
      KindOf(request.insertType) == BeforeScene && !Missing(request.targetSceneId)
      && target.Some? && target.value.sequence.Some? ==>
        r.Ok? && r.value.Some? && r.value.value.scene
          == Some(SceneAdd(target.value.chapterId, o.title, o.content, Some(target.value.sequence.value)))
    ensures var r := Placed(o, request, novel, afterAdd, target, newSceneId);
      KindOf(request.insertType) == AfterScene && !Missing(request.targetSceneId)
      && target.Some? && target.value.sequence.Some? && IntMin <= target.value.sequence.value < IntMax ==>
        r.Ok? && r.value.Some? && r.value.value.scene
          == Some(SceneAdd(target.value.chapterId, o.title, o.content, Some(target.value.sequence.value + 1)))
    ensures var r := Placed(o, request, novel, afterAdd, target, newSceneId);
      KindOf(request.insertType) == ChapterEnd ==>
        (r.Err? <==> Missing(request.targetChapterId))
        && (r.Ok? ==> r.value.Some? && r.value.value.scene == Some(SceneAdd(request.targetChapterId, o.title, o.content, None)))
    ensures var r := Placed(o, request, novel, afterAdd, target, newSceneId);
      ((KindOf(request.insertType) == BeforeScene || KindOf(request.insertType) == AfterScene)
       && Missing(request.targetSceneId)) ==> r == Err(Thrown(Runtime, SceneIdRequired))
    ensures var r := Placed(o, request, novel, afterAdd, target, newSceneId);
      r.Ok? && r.value.Some? ==>
        r.value.value.response.insertType == KindName(KindOf(request.insertType))
        && r.value.value.response.outlineId == o.id
  {
  }

  /** A new chapter gets a new act only when the novel has none; its scene, when
      asked for, goes to the end of the new chapter, which is the first act's
      last chapter after the addition. */
  lemma NewChapterRules(o: NextOutline, request: SaveRequest, novel: Option<Novel>, afterAdd: seq<Act>, newSceneId: string)
    ensures var r := NewChapterPlaced(o, request, novel, afterAdd, newSceneId);
      r.Ok? && r.value.Some? ==>
        r.value.value.chapterAdded
        && (r.value.value.actAdded <==> novel.value.structure.None? || novel.value.structure.value == [])
        && (r.value.value.scene.Some? <==> request.createNewScene)
        && (r.value.value.scene.Some? ==>
              r.value.value.scene.value.chapterId == r.value.value.response.newChapterId
              && r.value.value.scene.value.position.None?)
    ensures var r := NewChapterPlaced(o, request, novel, afterAdd, newSceneId);
      novel.Some? && novel.value.structure.Some? && novel.value.structure.value != [] && r.Ok? && r.value.Some? ==>
        (var i := ActIndex(afterAdd, novel.value.structure.value[0].id);
         i < |afterAdd| && afterAdd[i].chapters != []
         && r.value.value.response.newChapterId == Some(afterAdd[i].chapters[|afterAdd[i].chapters| - 1].id))
  {
  }

  // ------------------------------------------------------------ response parsing

  /** parseJsonResponse: the conversion loop is commented out, so the list stays
      empty; a reply that does not start with '[' also throws. */
  function JsonOutlines(content: string): (r: Result<seq<Draft>>)
    ensures r.Ok? ==> r.value == []
    ensures r.Err? ==> r.error.kind == JsonProcessing
  {
    if !StartsWith(Trim(content), "[") then Err(Exception(JsonProcessing, Some("Content does not appear to be a JSON array"), None, []))
    else Ok([])
  }

  /** The \s class of java.util.regex. */
  predicate RegexSpace(c: char) { c == ' ' || c == '\t' || c == '\n' || c == '\U{0B}' || c == '\U{0C}' || c == '\r' }

  function DropSpaces(s: string): (r: string)
    ensures |r| <= |s| && r == s[|s| - |r|..]
    ensures r != [] ==> !RegexSpace(r[0])
  {
    if s != [] && RegexSpace(s[0]) then DropSpaces(s[1..]) else s
  }

  function DropDigits(s: string): (r: string)
    ensures |r| <= |s| && r == s[|s| - |r|..]
    ensures r != [] ==> !IsDigit(r[0])
  {
    if s != [] && IsDigit(s[0]) then DropDigits(s[1..]) else s
  }

  /** The whole string is an option heading "选项 1:" (or 大纲 / 剧情选项, either colon). */
  predicate HeadingAfter(s: string, word: string)
  {
    StartsWith(s, word)
    && var rest := DropSpaces(s[|word|..]);
       rest != [] && IsDigit(rest[0])
       && var tail := DropSpaces(DropDigits(rest));
          tail == ":" || tail == "："
  }

  predicate Heading(s: string)
  {
    HeadingAfter(s, "选项") || HeadingAfter(s, "大纲") || HeadingAfter(s, "剧情选项")
  }

  /** The trimmed sections the section loop keeps: not empty and not a bare heading. */
  function KeptSections(sections: seq<string>): (r: seq<string>)
    ensures |r| <= |sections|
    ensures forall k :: 0 <= k < |r| ==> r[k] != [] && !Heading(r[k])
  {
    if sections == [] then []
    else
      var last := sections[|sections| - 1];
      KeptSections(sections[..|sections| - 1]) + (if Skipped(last) then [] else [Trim(last)])
  }

  /** The title of the k-th kept section: the k-th heading title while there
      are titles left, else "剧情选项 k+1". */
  function SectionTitle(titles: seq<string>, k: nat): string
  {
    if k < |titles| then titles[k] else NumberedTitlePrefix + NatToString(k + 1)
  }

  /** A section the loop skips: blank, or a bare heading. */
  predicate Skipped(section: string) { Trim(section) == [] || Heading(Trim(section)) }

  /** The options of the numbered sections, in order. */
  function SectionDrafts(sections: seq<string>, titles: seq<string>): seq<Draft>
  {
    if sections == [] then []
    else
      var prev := SectionDrafts(sections[..|sections| - 1], titles);
      if Skipped(sections[|sections| - 1]) then prev
      else prev + [Draft(SectionTitle(titles, |prev|), Trim(sections[|sections| - 1]))]
  }

  /** The k-th option is the k-th kept section under the k-th title (or
      "剧情选项 k+1" once the titles run out). */
  lemma {:induction false} SectionDraftsKept(sections: seq<string>, titles: seq<string>)
    ensures |SectionDrafts(sections, titles)| == |KeptSections(sections)|
    ensures forall k :: 0 <= k < |SectionDrafts(sections, titles)| ==>
      SectionDrafts(sections, titles)[k] == Draft(SectionTitle(titles, k), KeptSections(sections)[k])
  {
    if sections != [] {
      var init := sections[..|sections| - 1];
      SectionDraftsKept(init, titles);
      var prev := SectionDrafts(init, titles);
      var kept := KeptSections(init);
      var last := sections[|sections| - 1];
      if !Skipped(last) {
        assert SectionDrafts(sections, titles) == prev + [Draft(SectionTitle(titles, |prev|), Trim(last))];
        assert KeptSections(sections) == kept + [Trim(last)];
      }
    }
  }

  /** The section loop of parseTextResponse over the split reply and the
      titles of its heading lines. */
  method SectionOutlines(sections: seq<string>, titles: seq<string>) returns (r: seq<Draft>)
    ensures r == SectionDrafts(sections, titles)
  {
    r := [];
    var titleIndex := 0;
    var i := 0;
    while i < |sections|
      invariant 0 <= i <= |sections|
      invariant titleIndex == if |r| < |titles| then |r| else |titles|
      invariant r == SectionDrafts(sections[..i], titles)
    {
      assert sections[..i + 1][..i] == sections[..i] && sections[..i + 1][i] == sections[i];
      var section := Trim(sections[i]);
      if Skipped(sections[i]) {
        i := i + 1;
        continue;
      }
      var title;
      if titleIndex < |titles| {
        title := titles[titleIndex];
        titleIndex := titleIndex + 1;
      } else {
        title := NumberedTitlePrefix + NatToString(|r| + 1);
      }
      r := r + [Draft(title, section)];
      i := i + 1;
    }
    assert sections[..i] == sections;
  }

  /** The end of the first line: the first line terminator, or the end. */
  function FirstLineEnd(s: string): (t: nat)
    ensures t <= |s|
    ensures forall k :: 0 <= k < t ==> !LineTerminator(s[k])
    ensures t < |s| ==> LineTerminator(s[t])
  {
    if s == [] || LineTerminator(s[0]) then 0 else 1 + FirstLineEnd(s[1..])
  }

  /** The last resort of parseTextResponse: the whole trimmed reply is one
      option; its first line (trimmed) is the title when it has at most 50
      chars, and the rest (trimmed) is the content. The lazy first-line
      pattern stops at the first line terminator, and the whitespace it skips
      is removed by the trims. */
  function WholeReply(content: string): (d: Draft)
    ensures |d.title| <= MaxTitleLength
    ensures |d.content| <= |content|
  {
    var text := Trim(content);
    var t := FirstLineEnd(text);
    var possibleTitle := Trim(text[..t]);
    if |possibleTitle| <= MaxTitleLength then Draft(possibleTitle, Trim(text[t..]))
    else Draft(DefaultTitle, text)
  }

  /** The title is at most 50 chars and a single line; a short first line
      becomes the title and the content is what follows it, a long one leaves
      the default title and the whole reply as content. */
  lemma WholeReplyTitle(content: string)
    ensures var d := WholeReply(content);
      |d.title| <= MaxTitleLength && (forall k :: 0 <= k < |d.title| ==> !LineTerminator(d.title[k]))
    ensures var text := Trim(content); var t := FirstLineEnd(text);
      |Trim(text[..t])| <= MaxTitleLength ==> WholeReply(content) == Draft(Trim(text[..t]), Trim(text[t..]))
    ensures var text := Trim(content); var t := FirstLineEnd(text);
      |Trim(text[..t])| > MaxTitleLength ==> WholeReply(content) == Draft(DefaultTitle, text)
  {
    var text := Trim(content);
    var t := FirstLineEnd(text);
    TrimmedLineIsLine(text[..t]);
  }

  /** Trimming a single line leaves a single line. */
  lemma TrimmedLineIsLine(line: string)
    requires forall k :: 0 <= k < |line| ==> !LineTerminator(line[k])
    ensures forall k :: 0 <= k < |Trim(line)| ==> !LineTerminator(Trim(line)[k])
  {
    var title := Trim(line);
    forall k | 0 <= k < |title| ensures !LineTerminator(title[k]) {
      assert title[k] == line[LeadingCut(line) + k];
    }
  }

  /** parseAIResponseToOutlines. The JSON attempt never yields an option, so the
      text parser decides: a "标题:…内容:…" reply (its first match given as the
      raw title and content groups) gives exactly one option, since the
      content group takes the rest of the reply; otherwise the numbered
      sections; and when those are empty too, a non-blank reply is one option. */
  function ParsedOutlines(content: string, titleContent: Option<(string, string)>,
                          sections: seq<string>, titles: seq<string>): (r: seq<Draft>)
    ensures titleContent.Some? ==> |r| == 1
    ensures titleContent.None? && IsBlank(content) ==> r == SectionDrafts(sections, titles)
  {
    var json := JsonOutlines(content);
    var fromJson := if json.Ok? then json.value else [];
    if fromJson != [] then fromJson
    else if titleContent.Some? then [Draft(Trim(titleContent.value.0), Trim(titleContent.value.1))]
    else
      var sectioned := SectionDrafts(sections, titles);
      if sectioned == [] && !IsBlank(content) then [WholeReply(content)] else sectioned
  }

  /** The JSON path never contributes; a title/content reply is one option; a
      non-blank reply always gives at least one option, and a blank one with
      no section gives none. */
  lemma ParsedOutlinesRules(content: string, titleContent: Option<(string, string)>,
                            sections: seq<string>, titles: seq<string>)
    ensures JsonOutlines(content).Ok? ==> JsonOutlines(content).value == []
    ensures titleContent.Some? ==> |ParsedOutlines(content, titleContent, sections, titles)| == 1
    ensures titleContent.None? ==>
      ParsedOutlines(content, titleContent, sections, titles)
        == (if KeptSections(sections) == [] && !IsBlank(content) then [WholeReply(content)]
            else SectionDrafts(sections, titles))
    ensures !IsBlank(content) ==> |ParsedOutlines(content, titleContent, sections, titles)| >= 1
  {
    SectionDraftsKept(sections, titles);
  }

  /** A section that is only a heading is skipped, and so is a blank one. */
  lemma HeadingsAreSkipped(sections: seq<string>)
    requires forall k :: 0 <= k < |sections| ==> Trim(sections[k]) == [] || Heading(Trim(sections[k]))
    ensures KeptSections(sections) == []
  {
    if sections != [] {
      HeadingsAreSkipped(sections[..|sections| - 1]);
    }
  }

  // ------------------------------------------------------------ streaming

  /** OutlineGenerationChunk. */
  datatype OutlineChunk = OutlineChunk(optionId: string, optionTitle: Option<string>, textChunk: Option<string>,
                                       finalChunk: bool, error: Option<string>)

  /** What a streamed generation knows about its request. */
  datatype StreamContext = StreamContext(novelId: string, userId: string, startChapterId: Option<string>,
                                         endChapterId: Option<string>, authorGuidance: string, now: int)

  /** The cached generation context of an option, kept for regenerating it. */
  datatype OptionContext = OptionContext(novelId: string, userId: string, startChapterId: Option<string>,
                                         endChapterId: Option<string>, authorGuidance: Option<string>, timestamp: int)

  /** The pending outlines, the repository and the context cache as a stream goes. */
  datatype StreamState = StreamState(pending: map<string, NextOutline>, saved: map<string, NextOutline>,
                                     contexts: map<string, OptionContext>)

  /** The outline the first chunk of an option opens: its title, no content yet. */
  function Opened(chunk: OutlineChunk, ctx: StreamContext): NextOutline
  {
    NextOutline(chunk.optionId, ctx.novelId, chunk.optionTitle, "", None, ctx.now, false,
                ctx.startChapterId, ctx.endChapterId, Some(ctx.authorGuidance))
  }

  /** A later chunk: a title replaces the old one, the text is appended (a null text as "null"). */
  function Appended(o: NextOutline, chunk: OutlineChunk): NextOutline
  {
    o.(title := if chunk.optionTitle.Some? then chunk.optionTitle else o.title,
       content := o.content + StringOf(chunk.textChunk))
  }

  predicate Completes(chunk: OutlineChunk) { chunk.finalChunk && chunk.error.None? }

  /** One chunk of generateNextOutlinesStream. */
  function Step(st: StreamState, chunk: OutlineChunk, ctx: StreamContext): (r: StreamState)
    ensures r.saved.Keys == st.saved.Keys + (if Completes(chunk) then {chunk.optionId} else {})
    ensures r.pending.Keys == if Completes(chunk) then st.pending.Keys - {chunk.optionId}
                              else st.pending.Keys + {chunk.optionId}
    ensures r.contexts.Keys == st.contexts.Keys + {chunk.optionId} || r.contexts == st.contexts
  {
    var id := chunk.optionId;
    var first := id !in st.pending;
    var current := if first then Opened(chunk, ctx) else Appended(st.pending[id], chunk);
    var contexts := if first then st.contexts[id := OptionContext(ctx.novelId, ctx.userId, ctx.startChapterId,
                                                                    ctx.endChapterId, Some(ctx.authorGuidance), ctx.now)]
                    else st.contexts;
    if Completes(chunk) then StreamState(st.pending - {id}, st.saved[id := current], contexts)
    else StreamState(st.pending[id := current], st.saved, contexts)
  }

  /** The chunks of generateNextOutlinesStream, one step each, in order. */
  function Streamed(st: StreamState, chunks: seq<OutlineChunk>, ctx: StreamContext): (r: StreamState)
    ensures st.saved.Keys <= r.saved.Keys && st.contexts.Keys <= r.contexts.Keys
    ensures forall k :: 0 <= k < |chunks| ==> chunks[k].optionId in r.pending || chunks[k].optionId in r.saved
  {
    if chunks == [] then st else Step(Streamed(st, chunks[..|chunks| - 1], ctx), chunks[|chunks| - 1], ctx)
  }

  /** Every stored outline sits under its own id. */
  predicate Keyed(outlines: map<string, NextOutline>)
  {
    forall k :: k in outlines ==> outlines[k].id == k
  }

  lemma StepKeepsKeyed(st: StreamState, chunk: OutlineChunk, ctx: StreamContext)
    requires Keyed(st.pending) && Keyed(st.saved)
    ensures Keyed(Step(st, chunk, ctx).pending) && Keyed(Step(st, chunk, ctx).saved)
  {
  }

  /** A completing chunk saves its option, with this chunk's text, and ends it;
      any other chunk leaves the repository alone. */
  lemma StepSaves(st: StreamState, chunk: OutlineChunk, ctx: StreamContext)
    ensures var next := Step(st, chunk, ctx);
      Completes(chunk) ==>
        chunk.optionId !in next.pending
        && next.saved == st.saved[chunk.optionId :=
             if chunk.optionId in st.pending then Appended(st.pending[chunk.optionId], chunk) else Opened(chunk, ctx)]
    ensures var next := Step(st, chunk, ctx);
      !Completes(chunk) ==> next.saved == st.saved && chunk.optionId in next.pending
    ensures var next := Step(st, chunk, ctx);
      chunk.optionId !in st.pending ==>
        next.contexts == st.contexts[chunk.optionId := OptionContext(ctx.novelId, ctx.userId, ctx.startChapterId,
                                                                     ctx.endChapterId, Some(ctx.authorGuidance), ctx.now)]
    ensures chunk.optionId in st.pending ==> Step(st, chunk, ctx).contexts == st.contexts
  {
  }

  /** The text of the chunks, nulls as "null". */
  function TextOf(chunks: seq<OutlineChunk>): string
  {
    if chunks == [] then "" else TextOf(chunks[..|chunks| - 1]) + StringOf(chunks[|chunks| - 1].textChunk)
  }

  /** An option streamed without completing holds the text of every chunk but
      its first: the chunk that opens an option contributes its title only. */
  lemma {:induction false} PendingContent(st: StreamState, chunks: seq<OutlineChunk>, ctx: StreamContext, id: string)
    requires chunks != [] && id !in st.pending
    requires forall k :: 0 <= k < |chunks| ==> chunks[k].optionId == id && !Completes(chunks[k])
    ensures var after := Streamed(st, chunks, ctx);
      id in after.pending && after.pending[id].content == TextOf(chunks[1..]) && after.saved == st.saved
  {
    if |chunks| == 1 {
      assert Streamed(st, chunks[..0], ctx) == st;
      assert chunks[1..] == [];
    } else {
      var init := chunks[..|chunks| - 1];
      PendingContent(st, init, ctx, id);
      assert init[1..] == chunks[1..][..|chunks| - 2];
      assert chunks[1..][|chunks| - 2] == chunks[|chunks| - 1];
    }
  }

  /** A stream that fails drops what is pending; one that completes saves every
      pending outline under its id, options whose last chunk carried an error
      included. */
  function StreamEnd(st: StreamState, failed: bool): map<string, NextOutline>
  {
    if failed then st.saved else st.saved + st.pending
  }

  /** An option whose final chunk reports an error is not saved by that chunk,
      but is saved when the stream completes. */
  lemma ErroredOptionSavedAtCompletion(st: StreamState, chunk: OutlineChunk, ctx: StreamContext)
    requires chunk.finalChunk && chunk.error.Some?
    ensures var next := Step(st, chunk, ctx);
      chunk.optionId in StreamEnd(next, false) && chunk.optionId !in StreamEnd(next, true) - st.saved.Keys
  {
  }

  const RegenerationFailedTitle: string := "错误"
  const RegenerationFailedPrefix: string := "重新生成失败: "
  const ConfigNotFound: string := "未找到指定的模型配置"
  const OptionNotFoundPrefix: string := "未找到指定的大纲选项: "

  /** The chunk regenerateOutlineOption emits in place of an error, from the
      error's message (null for a NullPointerException). */
  function ErrorChunk(optionId: string, message: Option<string>): OutlineChunk
  {
    OutlineChunk(optionId, Some(RegenerationFailedTitle), Some(RegenerationFailedPrefix + StringOf(message)), true,
                 message)
  }

  /** The error chunk ends the stream and reads "重新生成失败: ..."; with a
      message it never counts as a completion, while the chunk for an error
      without one (the null original parameters of RegenerationContext) carries
      no error and so looks like a completed regeneration. It is emitted after
      handleRegenerationChunk, so it saves nothing either way. */
  lemma ErrorChunkSavesNothing(optionId: string, message: Option<string>)
    ensures ErrorChunk(optionId, message).finalChunk
    ensures message.Some? <==> !Completes(ErrorChunk(optionId, message))
    ensures StartsWith(ErrorChunk(optionId, message).textChunk.value, RegenerationFailedPrefix)
    ensures message.None? ==> ErrorChunk(optionId, message).textChunk == Some(RegenerationFailedPrefix + "null")
  {
  }

  /** A context whose chapter range lacks an end: caching it puts a null into a
      ConcurrentHashMap, which throws a NullPointerException. */
  predicate NullContext(ctx: StreamContext)
  {
    ctx.startChapterId.None? || ctx.endChapterId.None?
  }

  /** Every cached context holds its chapter range and guidance: a null one is
      never stored. */
  predicate NoNullContexts(contexts: map<string, OptionContext>)
  {
    forall k :: k in contexts ==>
      contexts[k].startChapterId.Some? && contexts[k].endChapterId.Some? && contexts[k].authorGuidance.Some?
  }

  // ------------------------------------------------------------ the service

  class OutlineService {
    var outlines: map<string, NextOutline>
    var contextCache: map<string, OptionContext>

    predicate Valid()
      reads this
    {
      Keyed(outlines) && NoNullContexts(contextCache)
    }

    constructor ()
      ensures Valid() && outlines == map[] && contextCache == map[]
    {
      outlines := map[];
      contextCache := map[];
    }

    /** saveNextOutline: the outline is marked selected and saved first, then
        placed; a failed placement leaves it selected. */
    method SaveNextOutline(request: SaveRequest, novel: Option<Novel>, afterAdd: seq<Act>,
                           target: Option<Scene>, newSceneId: string)
      returns (r: Result<Option<Placement>>)
      requires Valid()
      modifies this
      ensures Valid() && contextCache == old(contextCache)
      ensures request.outlineId !in old(outlines) ==>
        r == Err(Thrown(Runtime, OutlineMissing)) && outlines == old(outlines)
      ensures request.outlineId in old(outlines) ==>
        (var o := old(outlines)[request.outlineId].(selected := true);
         outlines == old(outlines)[request.outlineId := o]
         && r == Placed(o, request, novel, afterAdd, target, newSceneId))
    {
      if request.outlineId !in outlines {
        return Err(Thrown(Runtime, OutlineMissing));
      }
      var o := outlines[request.outlineId].(selected := true);
      outlines := outlines[o.id := o];
      if KindOf(request.insertType) == NewChapter && novel.Some? {
        var acts := novel.value.structure;
        var chapter;
        if acts.None? || acts.value == [] {
          chapter := FirstChapterOf(afterAdd);
        } else {
          chapter := FindLastChapter(afterAdd, acts.value[0].id);
        }
        r := ChapterPlacement(o, request, acts.None? || acts.value == [], chapter, newSceneId);
      } else {
        r := Placed(o, request, novel, afterAdd, target, newSceneId);
      }
    }

    /** One chunk of generateNextOutlinesStream: open or extend its option,
        and save and close it on a completing chunk. Opening an option under a
        context with a null chapter id throws once the outline is pending and
        before its context is cached. */
    method Feed(pending: map<string, NextOutline>, chunk: OutlineChunk, ctx: StreamContext)
      returns (next: map<string, NextOutline>, thrown: Option<Exception>)
      requires Valid() && Keyed(pending)
      modifies this
      ensures Valid() && Keyed(next)
      ensures chunk.optionId !in pending && NullContext(ctx) ==>
        thrown == Some(Exception(NullPointer, None, None, [])) && next == pending[chunk.optionId := Opened(chunk, ctx)]
        && outlines == old(outlines) && contextCache == old(contextCache)
      ensures chunk.optionId in pending || !NullContext(ctx) ==>
        thrown.None?
        && StreamState(next, outlines, contextCache)
           == Step(StreamState(pending, old(outlines), old(contextCache)), chunk, ctx)
    {
      thrown := None;
      var id := chunk.optionId;
      var current;
      next := pending;
      if id !in next {
        current := Opened(chunk, ctx);
        if NullContext(ctx) {
          next := next[id := current];
          return next, Some(Exception(NullPointer, None, None, []));
        }
        contextCache := contextCache[id := OptionContext(ctx.novelId, ctx.userId, ctx.startChapterId,
                                                         ctx.endChapterId, Some(ctx.authorGuidance), ctx.now)];
      } else {
        current := Appended(next[id], chunk);
      }
      next := next[id := current];
      if Completes(chunk) {
        next := next - {id};
        outlines := outlines[id := current];
      }
    }

    /** generateNextOutlinesStream: the chunks in order, then the end of the
        stream (failed or completed). Under a context with a null chapter id
        the first chunk throws, the stream fails with that exception and the
        pending outline is dropped: nothing is saved or cached. */
    method ConsumeStream(ctx: StreamContext, chunks: seq<OutlineChunk>, failed: bool)
      returns (error: Option<Exception>)
      requires Valid()
      modifies this
      ensures Valid()
      ensures NullContext(ctx) && chunks != [] ==>
        error == Some(Exception(NullPointer, None, None, []))
        && outlines == old(outlines) && contextCache == old(contextCache)
      ensures !NullContext(ctx) || chunks == [] ==>
        error.None?
        && var st := Streamed(StreamState(map[], old(outlines), old(contextCache)), chunks, ctx);
           outlines == StreamEnd(st, failed) && contextCache == st.contexts
    {
      error := None;
      var pending: map<string, NextOutline> := map[];
      var i := 0;
      while i < |chunks|
        invariant 0 <= i <= |chunks|
        invariant NullContext(ctx) ==> i == 0
        invariant StreamState(pending, outlines, contextCache)
          == Streamed(StreamState(map[], old(outlines), old(contextCache)), chunks[..i], ctx)
        invariant Valid() && Keyed(pending)
      {
        assert chunks[..i + 1][..i] == chunks[..i];
        ghost var before := StreamState(pending, outlines, contextCache);
        assert Streamed(StreamState(map[], old(outlines), old(contextCache)), chunks[..i + 1], ctx)
          == Step(before, chunks[i], ctx);
        var thrown;
        pending, thrown := Feed(pending, chunks[i], ctx);
        if thrown.Some? {
          assert Streamed(StreamState(map[], old(outlines), old(contextCache)), chunks[..0], ctx)
            == StreamState(map[], old(outlines), old(contextCache));
          return thrown;
        }
        i := i + 1;
      }
      assert chunks[..i] == chunks;
      if !failed {
        outlines := outlines + pending;
      }
    }

    /** The context regenerateOutlineOption regenerates an option from: the
        cached one, else the outline's original parameters, which are then
        cached; caching a null one of them throws a NullPointerException first. */
    method RegenerationContext(novelId: string, userId: string, optionId: string, configFound: bool, now: int)
      returns (r: Result<OptionContext>)
      requires Valid()
      modifies this
      ensures Valid() && outlines == old(outlines)
      ensures !configFound ==> r == Err(Thrown(Runtime, ConfigNotFound)) && contextCache == old(contextCache)
      ensures configFound && optionId in old(contextCache) ==>
        r == Ok(old(contextCache)[optionId]) && contextCache == old(contextCache)
      ensures configFound && optionId !in old(contextCache) && optionId !in outlines ==>
        r == Err(Thrown(Runtime, OptionNotFoundPrefix + optionId)) && contextCache == old(contextCache)
      ensures configFound && optionId !in old(contextCache) && optionId in outlines ==>
        (var o := outlines[optionId];
         if o.originalStartChapterId.None? || o.originalEndChapterId.None? || o.originalAuthorGuidance.None? then
           r == Err(Exception(NullPointer, None, None, [])) && contextCache == old(contextCache)
         else
           r == Ok(OptionContext(novelId, userId, o.originalStartChapterId, o.originalEndChapterId,
                                 o.originalAuthorGuidance, now))
           && contextCache == old(contextCache)[optionId := r.value])
      ensures r.Ok? ==>
        r.value.startChapterId.Some? && r.value.endChapterId.Some? && r.value.authorGuidance.Some?
    {
      if !configFound {
        return Err(Thrown(Runtime, ConfigNotFound));
      }
      if optionId in contextCache {
        return Ok(contextCache[optionId]);
      }
      if optionId !in outlines {
        return Err(Thrown(Runtime, OptionNotFoundPrefix + optionId));
      }
      var o := outlines[optionId];
      if o.originalStartChapterId.None? || o.originalEndChapterId.None? || o.originalAuthorGuidance.None? {
        return Err(Exception(NullPointer, None, None, []));
      }
      var context := OptionContext(novelId, userId, o.originalStartChapterId, o.originalEndChapterId,
                                   o.originalAuthorGuidance, now);
      contextCache := contextCache[optionId := context];
      r := Ok(context);
    }

    /** handleRegenerationChunk: a completing chunk records the configuration
        used and, when it has one, the new title. */
    method RecordRegeneration(optionId: string, chunk: OutlineChunk, configId: string)
      requires Valid()
      modifies this
      ensures Valid() && contextCache == old(contextCache)
      ensures !Completes(chunk) || optionId !in old(outlines) ==> outlines == old(outlines)
      ensures Completes(chunk) && optionId in old(outlines) ==>
        (var o := old(outlines)[optionId];
         outlines == old(outlines)[optionId := o.(configId := Some(configId),
                                                  title := if chunk.optionTitle.Some? then chunk.optionTitle else o.title)])
    {
      if Completes(chunk) && optionId in outlines {
        var o := outlines[optionId];
        o := o.(configId := Some(configId));
        if chunk.optionTitle.Some? {
          o := o.(title := chunk.optionTitle);
        }
        outlines := outlines[o.id := o];
      }
    }
  }
}
