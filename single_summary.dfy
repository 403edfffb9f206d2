// GenerateSingleSummaryTaskExecutable: one link of the summary chain. It asks the
// AI for the next chapter's summary, appends that chapter to the novel's last act,
// and, while the parent wants more chapters, records the parent's progress and
// submits the next link with the context extended by this chapter.
module SingleSummaryExecution {
  import opened Wrappers
  import opened JStrings
  import opened NovelModel
  import opened NextSummariesAggregation
  import opened NextSummariesExecution

  const NovelNotFoundPrefix: string := "找不到小说: "
  const GenerationFailedMessage: string := "生成章节摘要失败"
  const FirstActTitle: string := "第一卷"

  /** GenerateSingleSummaryResult. */
  datatype SingleSummaryResult = SingleSummaryResult(newChapterId: string, summary: string, chapterIndex: int,
                                                     chapterTitle: string)

  /** What the parent task's parameters give the chain, when the parent is found
      and its parameters are GenerateNextSummariesOnlyParameters. */
  datatype ParentParameters = ParentParameters(numberOfChapters: int, aiConfigIdSummary: Option<string>)

  /** The parent's recorded progress and the next link, when there is one. */
  datatype NextLink = NextLink(progress: SummariesProgress, next: SingleSummaryParameters)

  /** What one link does: the novel it saves, the next link, and its result. */
  datatype LinkRun = LinkRun(saved: Novel, next: Option<NextLink>, result: SingleSummaryResult)

  /** "第" + order + "章". */
  function ChapterTitle(order: int): (t: string)
    ensures |t| >= 3 && t[0] == '第' && t[|t| - 1] == '章'
  {
    "第" + IntToString(order) + "章"
  }

  // ------------------------------------------------------- adding the chapter

  /** addChapterToNovel on the novel's acts: with no acts there is one act "第一卷"
      of order 1; the chapter goes at the end of the last act. */
  function WithChapterAppended(acts: Option<seq<Act>>, chapter: Chapter, newActId: string): (r: seq<Act>)
    ensures |r| >= 1 && r[|r| - 1].chapters != [] && r[|r| - 1].chapters[|r[|r| - 1].chapters| - 1] == chapter
    ensures acts.None? || acts.value == [] ==> r == [Act(newActId, Some(FirstActTitle), None, 1, [chapter])]
    ensures acts.Some? && acts.value != [] ==>
      |r| == |acts.value| && r[..|r| - 1] == acts.value[..|r| - 1]
      && r[|r| - 1] == acts.value[|r| - 1].(chapters := acts.value[|r| - 1].chapters + [chapter])
  {
    if acts.None? || acts.value == [] then [Act(newActId, Some(FirstActTitle), None, 1, [chapter])]
    else
      var last := acts.value[|acts.value| - 1];
      acts.value[..|acts.value| - 1] + [last.(chapters := last.chapters + [chapter])]
  }

  /** In reading order the chapters are the old ones followed by the new one. */
  lemma AppendedChapterComesLast(acts: Option<seq<Act>>, chapter: Chapter, newActId: string)
    ensures AllChapters(WithChapterAppended(acts, chapter, newActId)) ==
      (if acts.None? then [] else AllChapters(acts.value)) + [chapter]
  {
    var r := WithChapterAppended(acts, chapter, newActId);
    var n := |r| - 1;
    assert r == r[..n] + [r[n]];
    AllChaptersSnoc(r[..n], r[n]);
    if acts.Some? && acts.value != [] {
      var a := acts.value;
      assert a == a[..n] + [a[n]];
      AllChaptersSnoc(a[..n], a[n]);
    } else {
      assert r[..n] == [];
    }
  }

  /** The chapter the link creates: the generated id, the title and order it was
      given, the summary as its description, and no scene. */
  function NewChapter(chapterId: string, order: int, title: string, summary: string): Chapter
  {
    Chapter(chapterId, Some(title), Some(summary), order, None)
  }

  /** addChapterToNovel: create the structure and the first act when missing, then
      append the chapter to the last act. */
  method AddChapterToNovel(novel: Novel, chapterId: string, newActId: string, order: int, title: string,
                           summary: string) returns (updated: Novel)
    ensures updated == novel.(structure := Some(WithChapterAppended(novel.structure,
                                                                    NewChapter(chapterId, order, title, summary),
                                                                    newActId)))
  {
    var chapter := Chapter(chapterId, Some(title), Some(summary), order, None);
    var acts: seq<Act>;
    if novel.structure.None? || novel.structure.value == [] {
      acts := [Act(newActId, Some(FirstActTitle), None, 1, [])];
      assert [chapter] == [] + [chapter];
    } else {
      acts := novel.structure.value;
    }
    var lastAct := acts[|acts| - 1];
    lastAct := lastAct.(chapters := lastAct.chapters + [chapter]);
    acts := acts[|acts| - 1 := lastAct];
    assert acts == acts[..|acts| - 1] + [lastAct];
    updated := novel.(structure := Some(acts));
  }

  // --------------------------------------------------------------- the chain

  /** The next link, when the link has a parent whose parameters are readable and
      the parent wants more chapters than this one's index plus one. The index
      and the order are Java ints, so both additions wrap at IntMax. */
  function NextStep(params: SingleSummaryParameters, parentTaskId: Option<string>,
                    parent: Option<ParentParameters>, summary: string): (r: Option<NextLink>)
    ensures r.Some? <==>
      parentTaskId.Some? && parent.Some? && Wrap32(params.chapterIndex + 1) < parent.value.numberOfChapters
    ensures r.Some? ==>
      var i := Wrap32(params.chapterIndex + 1);
      && r.value.progress == SummariesProgress(parent.value.numberOfChapters, i, 0, i)
      && r.value.next.chapterIndex == i && r.value.next.chapterOrder == Wrap32(params.chapterOrder + 1)
      && r.value.next.novelId == params.novelId
      && r.value.next.aiConfigIdSummary == parent.value.aiConfigIdSummary
      && r.value.next.context == params.context + "\n\n" + ChapterTitle(params.chapterOrder) + ": " + summary
      && r.value.next.previousSummary == summary
  {
    if parentTaskId.None? || parent.None? then None
    else
      var i := Wrap32(params.chapterIndex + 1);
      if i < parent.value.numberOfChapters then
        Some(NextLink(SummariesProgress(parent.value.numberOfChapters, i, 0, i),
                      SingleSummaryParameters(params.novelId, i, Wrap32(params.chapterOrder + 1),
                                              parent.value.aiConfigIdSummary,
                                              params.context + "\n\n" + ChapterTitle(params.chapterOrder) + ": " + summary,
                                              summary)))
      else None
  }

  /** The links of a chain that starts from the first link and is given the
      summaries in turn, while each link finds the same parent. */
  function Chain(first: SingleSummaryParameters, parentTaskId: string, parent: ParentParameters,
                 summaries: seq<string>): seq<SingleSummaryParameters>
    decreases |summaries|
  {
    if summaries == [] then [first]
    else
      var next := NextStep(first, Some(parentTaskId), Some(parent), summaries[0]);
      if next.None? then [first] else [first] + Chain(next.value.next, parentTaskId, parent, summaries[1..])
  }

  /** Started at index k, the j-th link has index k + j, each link's order is
      the previous one's plus one in int arithmetic, and no link has an index of
      numberOfChapters or more. The index never wraps, since numberOfChapters is
      an int. */
  lemma {:induction false} ChainNumbersChapters(first: SingleSummaryParameters, parentTaskId: string,
                                                parent: ParentParameters, summaries: seq<string>)
    requires 0 <= first.chapterIndex < parent.numberOfChapters <= IntMax
    ensures var links := Chain(first, parentTaskId, parent, summaries);
      && 1 <= |links| <= parent.numberOfChapters - first.chapterIndex
      && links[0] == first
      && (forall k :: 0 <= k < |links| ==> links[k].chapterIndex == first.chapterIndex + k
                                           && links[k].novelId == first.novelId)
      && (forall k :: 0 < k < |links| ==> links[k].chapterOrder == Wrap32(links[k - 1].chapterOrder + 1))
    decreases |summaries|
  {
    var links := Chain(first, parentTaskId, parent, summaries);
    if summaries != [] {
      assert Wrap32(first.chapterIndex + 1) == first.chapterIndex + 1;
      var next := NextStep(first, Some(parentTaskId), Some(parent), summaries[0]);
      if next.Some? {
        var n := next.value.next;
        ChainNumbersChapters(n, parentTaskId, parent, summaries[1..]);
        var rest := Chain(n, parentTaskId, parent, summaries[1..]);
        assert links == [first] + rest;
        assert links[1] == n;
      }
    }
  }

  /** In int arithmetic the chapter after order IntMax is numbered IntMin. */
  lemma OrderWrapsAfterIntMax(params: SingleSummaryParameters, parent: ParentParameters, summary: string)
    requires params.chapterOrder == IntMax
    requires 0 <= params.chapterIndex && params.chapterIndex + 1 < parent.numberOfChapters <= IntMax
    ensures NextStep(params, Some("parent"), Some(parent), summary).Some?
    ensures NextStep(params, Some("parent"), Some(parent), summary).value.next.chapterOrder == IntMin
  {
    assert Wrap32(params.chapterIndex + 1) == params.chapterIndex + 1;
    assert Wrap32(IntMax + 1) == IntMin;
  }

  /** Given enough summaries, a chain started at index 0 has exactly
      numberOfChapters links. */
  lemma {:induction false} ChainRunsToTheEnd(first: SingleSummaryParameters, parentTaskId: string,
                                             parent: ParentParameters, summaries: seq<string>)
    requires 0 <= first.chapterIndex < parent.numberOfChapters <= IntMax
    requires |summaries| >= parent.numberOfChapters - first.chapterIndex
    ensures |Chain(first, parentTaskId, parent, summaries)| == parent.numberOfChapters - first.chapterIndex
    decreases |summaries|
  {
    assert Wrap32(first.chapterIndex + 1) == first.chapterIndex + 1;
    var next := NextStep(first, Some(parentTaskId), Some(parent), summaries[0]);
    if next.Some? {
      ChainRunsToTheEnd(next.value.next, parentTaskId, parent, summaries[1..]);
    }
  }

  // ---------------------------------------------------------------- the link

  /** execute: a missing novel and a missing AI response fail before anything is
      saved; a response with no content fails on the null. Otherwise the chapter
      is added and saved, the next link is decided, and the result names the new
      chapter. chapterId and newActId stand for the UUIDs the link draws. */
  method Execute(params: SingleSummaryParameters, novel: Option<Novel>, response: Option<Option<string>>,
                 parentTaskId: Option<string>, parent: Option<ParentParameters>, chapterId: string, newActId: string)
    returns (r: Result<LinkRun>)
    ensures novel.None? ==> r == Err(Thrown(IllegalArgument, NovelNotFoundPrefix + params.novelId))
    ensures novel.Some? && response.None? ==> r == Err(Thrown(Runtime, GenerationFailedMessage))
    ensures novel.Some? && response == Some(None) ==> r.Err? && r.error.kind == NullPointer
    ensures novel.Some? && response.Some? && response.value.Some? ==>
      var summary := response.value.value;
      var title := ChapterTitle(params.chapterOrder);
      && r.Ok?
      && r.value.saved.structure ==
           Some(WithChapterAppended(novel.value.structure, NewChapter(chapterId, params.chapterOrder, title, summary),
                                    newActId))
      && r.value.next == NextStep(params, parentTaskId, parent, summary)
      && r.value.result == SingleSummaryResult(chapterId, summary, params.chapterIndex, title)
  {
    if novel.None? {
      return Err(Thrown(IllegalArgument, NovelNotFoundPrefix + params.novelId));
    }
    var chapterTitle := ChapterTitle(params.chapterOrder);
    if response.None? {
      return Err(Thrown(Runtime, GenerationFailedMessage));
    }
    if response.value.None? {
      return Err(Exception(NullPointer, None, None, []));
    }
    var generatedSummary := response.value.value;
    var saved := AddChapterToNovel(novel.value, chapterId, newActId, params.chapterOrder, chapterTitle,
                                   generatedSummary);
    var next: Option<NextLink> := None;
    if parentTaskId.Some? && parent.Some? {
      var nextChapterIndex := Wrap32(params.chapterIndex + 1);
      if nextChapterIndex < parent.value.numberOfChapters {
        var progress := SummariesProgress(parent.value.numberOfChapters, nextChapterIndex, 0, nextChapterIndex);
        var nextParams := SingleSummaryParameters(params.novelId, nextChapterIndex, Wrap32(params.chapterOrder + 1),
                                                  parent.value.aiConfigIdSummary,
                                                  params.context + "\n\n" + chapterTitle + ": " + generatedSummary,
                                                  generatedSummary);
        next := Some(NextLink(progress, nextParams));
      }
    }
    r := Ok(LinkRun(saved, next, SingleSummaryResult(chapterId, generatedSummary, params.chapterIndex, chapterTitle)));
  }
}
