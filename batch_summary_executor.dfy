// BatchGenerateSummaryTaskExecutable: numbers the novel's chapters in act order,
// takes the inclusive range between the start and the end chapter, and submits
// one summary child per scene of those chapters, skipping scenes that already
// have a summary unless overwriting is asked for.
module BatchSummaryExecution {
  import opened Wrappers
  import opened JStrings
  import opened NovelModel
  import opened BatchSummaryAggregation

  const NovelMissingPrefix: string := "小说不存在: "
  const NoAccessMessage: string := "无权访问该小说"
  const ChapterMissingMessage: string := "章节ID不存在"
  const RangeReversedMessage: string := "起始章节必须在结束章节之前或相同"
  const SubmitFailedPrefix: string := "子任务提交失败: "

  /** The NullPointerException a dereference of null raises. */
  const NullDereference: Exception := Exception(NullPointer, None, None, [])

  /** BatchGenerateSummaryParameters. */
  datatype BatchParameters = BatchParameters(novelId: string, startChapterId: string, endChapterId: string,
                                             aiConfigId: Option<string>, overwriteExisting: bool)

  /** One submitSubTask(GENERATE_SUMMARY, GenerateSummaryParameters) call. */
  datatype SummaryRequest = SummaryRequest(sceneId: string, aiConfigId: Option<string>, expectedVersion: int)

  /** What a run does through its context, and what it returns: the chapter ids
      it queries scenes for, the progress objects it records, the summary tasks
      it submits and the result. */
  datatype BatchRun = BatchRun(chapterIds: seq<string>, progressUpdates: seq<BatchProgress>,
                               requests: seq<SummaryRequest>, result: BatchResult)

  // ------------------------------------------------------- chapter numbering

  /** getChapterOrderMap: each chapter id to its position in act order; a repeated
      id keeps its last position. */
  function OrderMap(cs: seq<Chapter>): map<string, int>
    decreases |cs|
  {
    if cs == [] then map[] else OrderMap(cs[..|cs| - 1])[cs[|cs| - 1].id := |cs| - 1]
  }

  /** Every chapter's id is numbered. */
  lemma {:induction false} OrderMapHasEveryId(cs: seq<Chapter>, i: int)
    requires 0 <= i < |cs|
    ensures cs[i].id in OrderMap(cs)
    decreases |cs|
  {
    var n := |cs| - 1;
    if i < n {
      assert cs[..n][i] == cs[i];
      OrderMapHasEveryId(cs[..n], i);
    }
  }

  /** A numbered id is at its position, and at no later one. */
  lemma {:induction false} OrderMapNumbersLast(cs: seq<Chapter>, id: string)
    requires id in OrderMap(cs)
    ensures 0 <= OrderMap(cs)[id] < |cs| && cs[OrderMap(cs)[id]].id == id
    ensures forall j :: OrderMap(cs)[id] < j < |cs| ==> cs[j].id != id
    decreases |cs|
  {
    var n := |cs| - 1;
    if cs[n].id != id {
      OrderMapNumbersLast(cs[..n], id);
      assert forall j :: 0 <= j < n ==> cs[..n][j] == cs[j];
    }
  }

  /** The ids of the chapters in a run, in order. */
  function Ids(cs: seq<Chapter>): (r: seq<string>)
    ensures |r| == |cs| && forall k :: 0 <= k < |cs| ==> r[k] == cs[k].id
  {
    seq(|cs|, k requires 0 <= k < |cs| => cs[k].id)
  }

  /** getChapterIdsInRange: the ids of the chapters whose position lies between
      the two orders, both included. */
  function IdsInRange(cs: seq<Chapter>, startOrder: int, endOrder: int): seq<string>
    decreases |cs|
  {
    if cs == [] then []
    else
      var n := |cs| - 1;
      IdsInRange(cs[..n], startOrder, endOrder) + (if startOrder <= n <= endOrder then [cs[n].id] else [])
  }

  function Min(a: int, b: int): int { if a <= b then a else b }

  /** The range is the run of chapters from the start position to the end
      position, both included, cut at the last chapter. */
  lemma {:induction false} IdsInRangeIsSlice(cs: seq<Chapter>, startOrder: int, endOrder: int)
    requires 0 <= startOrder <= endOrder + 1
    ensures IdsInRange(cs, startOrder, endOrder) == Ids(cs[Min(startOrder, |cs|)..Min(endOrder + 1, |cs|)])
    decreases |cs|
  {
    if cs != [] {
      var n := |cs| - 1;
      var lo, hi := Min(startOrder, n), Min(endOrder + 1, n);
      IdsInRangeIsSlice(cs[..n], startOrder, endOrder);
      assert cs[..n][lo..hi] == cs[lo..hi];
      if startOrder <= n <= endOrder {
        assert cs[lo..n + 1] == cs[lo..hi] + [cs[n]];
      } else {
        assert Min(startOrder, |cs|) == lo || lo == hi;
      }
    }
  }

  /** With both orders inside the novel the range holds end - start + 1 ids, the
      chapter at each position from start to end. */
  lemma RangeIsInclusive(cs: seq<Chapter>, startOrder: int, endOrder: int)
    requires 0 <= startOrder <= endOrder < |cs|
    ensures |IdsInRange(cs, startOrder, endOrder)| == endOrder - startOrder + 1
    ensures forall k :: 0 <= k <= endOrder - startOrder ==>
      IdsInRange(cs, startOrder, endOrder)[k] == cs[startOrder + k].id
  {
    IdsInRangeIsSlice(cs, startOrder, endOrder);
  }

  // ------------------------------------------------------------- validation

  /** The checks before any scene is read, and the chapter ids they lead to: a
      missing novel, another author, an unknown start or end chapter and a start
      after the end are IllegalArgumentExceptions; a novel without author or
      structure fails on the null. */
  function ChapterRange(novel: Option<Novel>, userId: string, params: BatchParameters): (r: Result<seq<string>>)
    ensures novel.None? ==> r == Err(Thrown(IllegalArgument, NovelMissingPrefix + params.novelId))
    ensures novel.Some? && novel.value.authorId.Some? && novel.value.authorId.value != userId ==>
      r == Err(Thrown(IllegalArgument, NoAccessMessage))
  {
    if novel.None? then Err(Thrown(IllegalArgument, NovelMissingPrefix + params.novelId))
    else if novel.value.authorId.None? then Err(NullDereference)
    else if novel.value.authorId.value != userId then Err(Thrown(IllegalArgument, NoAccessMessage))
    else if novel.value.structure.None? then Err(NullDereference)
    else
      var cs := AllChapters(novel.value.structure.value);
      var m := OrderMap(cs);
      if params.startChapterId !in m || params.endChapterId !in m then Err(Thrown(IllegalArgument, ChapterMissingMessage))
      else if m[params.startChapterId] > m[params.endChapterId] then Err(Thrown(IllegalArgument, RangeReversedMessage))
      else Ok(IdsInRange(cs, m[params.startChapterId], m[params.endChapterId]))
  }

  /** An accepted range starts with the start chapter and ends with the end
      chapter. */
  lemma AcceptedRangeSpansStartToEnd(novel: Option<Novel>, userId: string, params: BatchParameters)
    requires ChapterRange(novel, userId, params).Ok?
    ensures var ids := ChapterRange(novel, userId, params).value;
      |ids| >= 1 && ids[0] == params.startChapterId && ids[|ids| - 1] == params.endChapterId
  {
    var cs := AllChapters(novel.value.structure.value);
    var m := OrderMap(cs);
    OrderMapNumbersLast(cs, params.startChapterId);
    OrderMapNumbersLast(cs, params.endChapterId);
    RangeIsInclusive(cs, m[params.startChapterId], m[params.endChapterId]);
  }

  /** A chapter named in the request but absent from the novel is refused. */
  lemma UnknownChapterRefused(novel: Novel, userId: string, params: BatchParameters)
    requires novel.authorId == Some(userId) && novel.structure.Some?
    requires forall i :: 0 <= i < |AllChapters(novel.structure.value)| ==>
      AllChapters(novel.structure.value)[i].id != params.startChapterId
    ensures ChapterRange(Some(novel), userId, params) == Err(Thrown(IllegalArgument, ChapterMissingMessage))
  {
    var cs := AllChapters(novel.structure.value);
    if params.startChapterId in OrderMap(cs) {
      OrderMapNumbersLast(cs, params.startChapterId);
    }
  }

  // -------------------------------------------------------------- the scenes

  /** findScenesByChapterIds: the stored scenes of those chapters, in store order. */
  function ScenesOfChapters(store: seq<Scene>, ids: seq<string>): (r: seq<Scene>)
    ensures forall s :: s in r ==> s in store
    decreases |store|
  {
    if store == [] then []
    else
      var n := |store| - 1;
      var s := store[n];
      ScenesOfChapters(store[..n], ids) + (if s.chapterId.Some? && s.chapterId.value in ids then [s] else [])
  }

  /** A scene is skipped when overwriting is off and it has a summary that is not
      blank after trimming. */
  predicate Skips(s: Scene, overwrite: bool)
  {
    !overwrite && s.summary.Some? && !TrimEmpty(s.summary.value)
  }

  /** What the loop over the scenes has gathered: the skips, the submitted
      requests and the scenes whose submission threw, with the message. */
  datatype Submission = Submission(skipped: int, requests: seq<SummaryRequest>, failed: map<string, string>)

  /** The loop over the scenes; refused names the positions whose submitSubTask
      call throws, with the exception's message. */
  function SubmitAll(scenes: seq<Scene>, params: BatchParameters, refused: map<int, Option<string>>): Submission
    requires forall s :: s in scenes ==> s.id.Some?
    decreases |scenes|
  {
    if scenes == [] then Submission(0, [], map[])
    else
      var n := |scenes| - 1;
      var s := scenes[n];
      var done := SubmitAll(scenes[..n], params, refused);
      if Skips(s, params.overwriteExisting) then done.(skipped := done.skipped + 1)
      else if n in refused then done.(failed := done.failed[s.id.value := SubmitFailedPrefix + StringOf(refused[n])])
      else done.(requests := done.requests + [SummaryRequest(s.id.value, params.aiConfigId, s.version)])
  }

  /** The number of scenes the loop skips. */
  function CountSkips(scenes: seq<Scene>, overwrite: bool): nat
    decreases |scenes|
  {
    if scenes == [] then 0
    else CountSkips(scenes[..|scenes| - 1], overwrite) + (if Skips(scenes[|scenes| - 1], overwrite) then 1 else 0)
  }

  /** The number of scenes the loop tries to submit and whose submission throws. */
  function CountRefused(scenes: seq<Scene>, overwrite: bool, refused: map<int, Option<string>>): nat
    decreases |scenes|
  {
    if scenes == [] then 0
    else
      var n := |scenes| - 1;
      CountRefused(scenes[..n], overwrite, refused) + (if !Skips(scenes[n], overwrite) && n in refused then 1 else 0)
  }

  /** Every scene is skipped, submitted or refused, and only one of these. */
  lemma {:induction false} EverySceneAccountedFor(scenes: seq<Scene>, params: BatchParameters,
                                                  refused: map<int, Option<string>>)
    requires forall s :: s in scenes ==> s.id.Some?
    ensures var sub := SubmitAll(scenes, params, refused);
      && sub.skipped == CountSkips(scenes, params.overwriteExisting)
      && sub.skipped + |sub.requests| + CountRefused(scenes, params.overwriteExisting, refused) == |scenes|
    decreases |scenes|
  {
    if scenes != [] {
      var n := |scenes| - 1;
      assert forall s :: s in scenes[..n] ==> s in scenes;
      EverySceneAccountedFor(scenes[..n], params, refused);
    }
  }

  /** With overwriting on, no scene is skipped. */
  lemma {:induction false} OverwriteSkipsNothing(scenes: seq<Scene>)
    ensures CountSkips(scenes, true) == 0
    decreases |scenes|
  {
    if scenes != [] {
      OverwriteSkipsNothing(scenes[..|scenes| - 1]);
    }
  }

  /** Each request is for a scene that is not skipped, at that scene's version. */
  lemma {:induction false} RequestsAreForKeptScenes(scenes: seq<Scene>, params: BatchParameters,
                                                    refused: map<int, Option<string>>, k: int)
    requires forall s :: s in scenes ==> s.id.Some?
    requires 0 <= k < |SubmitAll(scenes, params, refused).requests|
    ensures var r := SubmitAll(scenes, params, refused).requests[k];
      exists i :: 0 <= i < |scenes| && !Skips(scenes[i], params.overwriteExisting) && i !in refused
        && r == SummaryRequest(scenes[i].id.value, params.aiConfigId, scenes[i].version)
    decreases |scenes|
  {
    var n := |scenes| - 1;
    assert forall s :: s in scenes[..n] ==> s in scenes;
    var done := SubmitAll(scenes[..n], params, refused);
    if k < |done.requests| {
      RequestsAreForKeptScenes(scenes[..n], params, refused, k);
      var i :| 0 <= i < n && !Skips(scenes[..n][i], params.overwriteExisting) && i !in refused
        && done.requests[k] == SummaryRequest(scenes[..n][i].id.value, params.aiConfigId, scenes[..n][i].version);
      assert scenes[..n][i] == scenes[i];
    }
  }

  // ----------------------------------------------------- the skip progress

  /** The progress recorded after the loop as written: the skips are counted both
      as processed and as skipped. */
  function SkipProgressAsWritten(total: int, skipped: int): BatchProgress
  {
    BatchProgress(total, skipped, 0, 0, 0, skipped)
  }

  /** The progress after a run of child reports. */
  function ReplayReports(p: BatchProgress, reports: seq<ChildReport>): BatchProgress
    decreases |reports|
  {
    if reports == [] then p else NextProgress(ReplayReports(p, reports[..|reports| - 1]), reports[|reports| - 1])
  }

  /** Three scenes, one skipped and two submitted: as written, the parent counts as
      finished once the first child reports, while the second is still running. */
  lemma SkippedScenesCountedTwice()
    ensures !Tallied(SkipProgressAsWritten(3, 1))
    ensures Finished(NextProgress(SkipProgressAsWritten(3, 1), Succeeded(false)))
  {
  }

  /** The progress recorded after the loop as intended: the skips count as skipped
      and nothing is processed yet. */
  function SkipProgress(total: int, skipped: int): (p: BatchProgress)
    ensures Tallied(p) && p.totalScenes == total && p.skippedCount == skipped
  {
    BatchProgress(total, 0, 0, 0, 0, skipped)
  }

  lemma {:induction false} ReplayProcessed(p: BatchProgress, reports: seq<ChildReport>)
    ensures ReplayReports(p, reports).processedCount == p.processedCount + |reports|
    ensures ReplayReports(p, reports).totalScenes == p.totalScenes
    ensures ReplayReports(p, reports).skippedCount == p.skippedCount
    decreases |reports|
  {
    if reports != [] {
      ReplayProcessed(p, reports[..|reports| - 1]);
    }
  }

  /** From the intended progress the parent finishes exactly when every submitted
      child has reported. */
  lemma FinishesAfterEverySubmittedChild(total: int, skipped: int, reports: seq<ChildReport>)
    ensures Finished(ReplayReports(SkipProgress(total, skipped), reports)) <==> |reports| >= total - skipped
  {
    ReplayProcessed(SkipProgress(total, skipped), reports);
  }

  /** The intended progress is in step with the result the aggregator starts from. */
  lemma SkipProgressInStep(total: int, skipped: int)
    ensures InStep(SkipProgress(total, skipped), BatchResult(total, 0, 0, 0, skipped, map[]))
  {
  }

  // ----------------------------------------------------------------- the run

  /** The run of a request whose checks passed, over the scenes found. When some
      scene is skipped, the second progress update is the one as written, which
      counts the skips as processed too (see SkippedScenesCountedTwice). */
  function RunOver(ids: seq<string>, scenes: seq<Scene>, params: BatchParameters, refused: map<int, Option<string>>)
    : (r: BatchRun)
    requires forall s :: s in scenes ==> s.id.Some?
    ensures r.chapterIds == ids
    ensures scenes == [] ==> r.progressUpdates == [] && r.requests == [] && r.result == BatchResult(0, 0, 0, 0, 0, map[])
    ensures scenes != [] ==> (
      && r.result.successCount == 0 && r.result.conflictCount == 0
      && r.result.totalScenes == |scenes| && r.result.failedCount == |r.result.failedSceneDetails|
      && |r.progressUpdates| >= 1 && r.progressUpdates[0] == BatchProgress(|scenes|, 0, 0, 0, 0, 0)
      && (|r.progressUpdates| == 2 <==> r.result.skippedCount > 0) && |r.progressUpdates| <= 2
      && (r.result.skippedCount > 0 ==>
            r.progressUpdates[1] == SkipProgressAsWritten(|scenes|, r.result.skippedCount)))
  {
    if scenes == [] then BatchRun(ids, [], [], BatchResult(0, 0, 0, 0, 0, map[]))
    else
      var sub := SubmitAll(scenes, params, refused);
      var updates := [BatchProgress(|scenes|, 0, 0, 0, 0, 0)]
                     + (if sub.skipped > 0 then [SkipProgressAsWritten(|scenes|, sub.skipped)] else []);
      BatchRun(ids, updates, sub.requests, BatchResult(|scenes|, 0, |sub.failed|, 0, sub.skipped, sub.failed))
  }

  /** execute: the checks, then the scenes of the chapters in range from the store
      and the loop submitting their summary tasks. */
  method Execute(params: BatchParameters, userId: string, novel: Option<Novel>, store: seq<Scene>,
                 refused: map<int, Option<string>>) returns (r: Result<BatchRun>)
    requires forall s :: s in store ==> s.id.Some?
    ensures ChapterRange(novel, userId, params).Err? ==> r == Err(ChapterRange(novel, userId, params).error)
    ensures ChapterRange(novel, userId, params).Ok? ==>
      var ids := ChapterRange(novel, userId, params).value;
      r == Ok(RunOver(ids, ScenesOfChapters(store, ids), params, refused))
  {
    if novel.None? {
      return Err(Thrown(IllegalArgument, NovelMissingPrefix + params.novelId));
    }
    var n := novel.value;
    if n.authorId.None? {
      return Err(NullDereference);
    }
    if n.authorId.value != userId {
      return Err(Thrown(IllegalArgument, NoAccessMessage));
    }
    if n.structure.None? {
      return Err(NullDereference);
    }
    var acts := n.structure.value;
    var orderMap := GetChapterOrderMap(acts);
    if params.startChapterId !in orderMap || params.endChapterId !in orderMap {
      return Err(Thrown(IllegalArgument, ChapterMissingMessage));
    }
    var startOrder := orderMap[params.startChapterId];
    var endOrder := orderMap[params.endChapterId];
    if startOrder > endOrder {
      return Err(Thrown(IllegalArgument, RangeReversedMessage));
    }
    var ids := GetChapterIdsInRange(acts, startOrder, endOrder);
    var scenes := ScenesOfChapters(store, ids);
    assert ChapterRange(novel, userId, params) == Ok(ids);
    if scenes == [] {
      return Ok(BatchRun(ids, [], [], BatchResult(0, 0, 0, 0, 0, map[])));
    }
    var updates := [BatchProgress(|scenes|, 0, 0, 0, 0, 0)];
    var sub := SubmitScenes(scenes, params, refused);
    if sub.skipped > 0 {
      updates := updates + [SkipProgressAsWritten(|scenes|, sub.skipped)];
    } else {
      assert updates == updates + [];
    }
    r := Ok(BatchRun(ids, updates, sub.requests, BatchResult(|scenes|, 0, |sub.failed|, 0, sub.skipped, sub.failed)));
  }

  /** The loop over the scenes. */
  method SubmitScenes(scenes: seq<Scene>, params: BatchParameters, refused: map<int, Option<string>>)
    returns (sub: Submission)
    requires forall s :: s in scenes ==> s.id.Some?
    ensures sub == SubmitAll(scenes, params, refused)
  {
    var skipped := 0;
    var requests: seq<SummaryRequest> := [];
    var failed: map<string, string> := map[];
    for i := 0 to |scenes|
      invariant forall s :: s in scenes[..i] ==> s.id.Some?
      invariant Submission(skipped, requests, failed) == SubmitAll(scenes[..i], params, refused)
    {
      assert scenes[..i + 1][..i] == scenes[..i];
      assert forall s :: s in scenes[..i + 1] ==> s in scenes;
      var scene := scenes[i];
      if Skips(scene, params.overwriteExisting) {
        skipped := skipped + 1;
      } else if i in refused {
        failed := failed[scene.id.value := SubmitFailedPrefix + StringOf(refused[i])];
      } else {
        requests := requests + [SummaryRequest(scene.id.value, params.aiConfigId, scene.version)];
      }
    }
    assert scenes[..|scenes|] == scenes;
    sub := Submission(skipped, requests, failed);
  }

  /** getChapterOrderMap: number the chapters act by act. */
  method GetChapterOrderMap(acts: seq<Act>) returns (orderMap: map<string, int>)
    ensures orderMap == OrderMap(AllChapters(acts))
  {
    orderMap := map[];
    var globalOrder := 0;
    for i := 0 to |acts|
      invariant orderMap == OrderMap(AllChapters(acts[..i])) && globalOrder == |AllChapters(acts[..i])|
    {
      var chapters := acts[i].chapters;
      ghost var before := AllChapters(acts[..i]);
      assert before + chapters[..0] == before;
      for j := 0 to |chapters|
        invariant orderMap == OrderMap(before + chapters[..j]) && globalOrder == |before + chapters[..j]|
      {
        OrderMapStep(before, chapters, j);
        orderMap := orderMap[chapters[j].id := globalOrder];
        globalOrder := globalOrder + 1;
      }
      NextActChapters(acts, i);
    }
    assert acts[..|acts|] == acts;
  }

  /** getChapterIdsInRange: walk the chapters act by act, keeping the positions
      from startOrder to endOrder. */
  method GetChapterIdsInRange(acts: seq<Act>, startOrder: int, endOrder: int) returns (ids: seq<string>)
    ensures ids == IdsInRange(AllChapters(acts), startOrder, endOrder)
  {
    ids := [];
    var currentOrder := 0;
    for i := 0 to |acts|
      invariant ids == IdsInRange(AllChapters(acts[..i]), startOrder, endOrder)
      invariant currentOrder == |AllChapters(acts[..i])|
    {
      var chapters := acts[i].chapters;
      ghost var before := AllChapters(acts[..i]);
      assert before + chapters[..0] == before;
      for j := 0 to |chapters|
        invariant ids == IdsInRange(before + chapters[..j], startOrder, endOrder)
        invariant currentOrder == |before + chapters[..j]|
      {
        RangeStep(before, chapters, j, startOrder, endOrder);
        if currentOrder >= startOrder && currentOrder <= endOrder {
          ids := ids + [chapters[j].id];
        }
        currentOrder := currentOrder + 1;
      }
      NextActChapters(acts, i);
    }
    assert acts[..|acts|] == acts;
  }

  lemma OrderMapStep(before: seq<Chapter>, chapters: seq<Chapter>, j: int)
    requires 0 <= j < |chapters|
    ensures OrderMap(before + chapters[..j + 1]) ==
      OrderMap(before + chapters[..j])[chapters[j].id := |before + chapters[..j]|]
  {
    assert (before + chapters[..j + 1])[..|before + chapters[..j]|] == before + chapters[..j];
  }

  lemma RangeStep(before: seq<Chapter>, chapters: seq<Chapter>, j: int, startOrder: int, endOrder: int)
    requires 0 <= j < |chapters|
    ensures var n := |before + chapters[..j]|;
      IdsInRange(before + chapters[..j + 1], startOrder, endOrder) ==
        IdsInRange(before + chapters[..j], startOrder, endOrder) + (if startOrder <= n <= endOrder then [chapters[j].id] else [])
  {
    assert (before + chapters[..j + 1])[..|before + chapters[..j]|] == before + chapters[..j];
  }

  lemma NextActChapters(acts: seq<Act>, i: int)
    requires 0 <= i < |acts|
    ensures AllChapters(acts[..i + 1]) == AllChapters(acts[..i]) + acts[i].chapters[..|acts[i].chapters|]
  {
    assert acts[i].chapters[..|acts[i].chapters|] == acts[i].chapters;
    assert acts[..i + 1] == acts[..i] + [acts[i]];
    AllChaptersSnoc(acts[..i], acts[i]);
  }
}
