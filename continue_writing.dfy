// ContinueWritingStateAggregator: once the summaries of the new chapters exist,
// a continue-writing parent either waits for review or asks for one content task
// per new chapter; each content child then moves the parent's completed or
// failed count, and once every chapter is accounted for the parent completes
// with the final status.
module ContinueWritingAggregation {
  import opened Wrappers
  import opened JStrings
  import opened TaskModel
  import opened TaskState
  import opened Aggregation
  import opened NovelModel

  const ContinueWritingTaskType: string := "CONTINUE_WRITING_CONTENT"
  const NextSummariesTaskType: string := "GENERATE_NEXT_SUMMARIES_ONLY"
  const ChapterContentTaskType: string := "GENERATE_CHAPTER_CONTENT"
  const ProgressClass: string := "ContinueWritingContentProgress"
  const ParametersClass: string := "ContinueWritingContentParameters"
  const ResultClass: string := "ContinueWritingContentResult"
  const ContentParametersClass: string := "GenerateChapterContentParameters"
  const ContentResultClass: string := "GenerateChapterContentResult"
  const WaitingForReview: string := "WAITING_FOR_REVIEW"
  const GeneratingContent: string := "GENERATING_CONTENT"
  const PartlyFailedMessage: string := "部分章节生成失败"
  const AllFailedMessage: string := "所有章节生成失败"

  /** ContinueWritingContentProgress, with the properties the aggregator reads and
      writes. */
  datatype ContentProgress = ContentProgress(stage: Option<string>, totalChapters: int, summariesCompleted: int,
                                             contentsCompleted: int, failed: int, currentIndex: int,
                                             percentComplete: int)

  /** ContinueWritingContentParameters, with the properties the aggregator reads. */
  datatype ContinueParameters = ContinueParameters(novelId: Option<string>, numberOfChapters: int,
                                                   aiConfigIdContent: Option<string>, writingStyle: Option<string>,
                                                   requiresReview: bool)

  /** ContinueWritingContentResult; the generated chapters are the stored chapter
      objects of the successful content children. */
  datatype ContinueResult = ContinueResult(generatedChapters: seq<Value>, success: bool, errorMessage: Option<string>,
                                           status: string, completedChapters: int, totalChapters: int)

  /** One submitTask(userId, GENERATE_CHAPTER_CONTENT, parameters, parentTaskId)
      call, with the GenerateChapterContentParameters it passes. */
  datatype ContentRequest = ContentRequest(userId: string, parentTaskId: string, novelId: Option<string>,
                                           chapterId: string, chapterIndex: int, chapterOrder: int,
                                           chapterTitle: Option<string>, chapterSummary: Option<string>,
                                           aiConfigId: Option<string>, context: string,
                                           writingStyle: Option<string>)

  // --------------------------------------------------------------- encodings

  function OptStr(s: Option<string>): Value
  {
    if s.Some? then Str(s.value) else Null
  }

  /** A string property of a typed object; null when it is absent or not a string. */
  function StrField(fields: map<string, Value>, name: string): (r: Option<string>)
    ensures r.Some? <==> name in fields && fields[name].Str?
  {
    if name in fields && fields[name].Str? then Some(fields[name].s) else None
  }

  /** A boolean property of a typed object; false when it is absent. */
  function BoolField(fields: map<string, Value>, name: string): bool
  {
    name in fields && fields[name] == Bool(true)
  }

  function ProgressValue(p: ContentProgress): Value
  {
    Obj(map["_class" := Str(ProgressClass), "stage" := OptStr(p.stage), "totalChapters" := Num(p.totalChapters),
            "summariesCompleted" := Num(p.summariesCompleted), "contentsCompleted" := Num(p.contentsCompleted),
            "failed" := Num(p.failed), "currentIndex" := Num(p.currentIndex),
            "percentComplete" := Num(p.percentComplete)])
  }

  /** progress instanceof ContinueWritingContentProgress, and its properties. */
  function ProgressOf(v: Value): Option<ContentProgress>
  {
    if ClassTag(v) == Some(ProgressClass) then
      var f := v.fields;
      Some(ContentProgress(StrField(f, "stage"), IntField(f, "totalChapters"), IntField(f, "summariesCompleted"),
                           IntField(f, "contentsCompleted"), IntField(f, "failed"), IntField(f, "currentIndex"),
                           IntField(f, "percentComplete")))
    else None
  }

  /** A stored progress object reads back as itself. */
  lemma ProgressRoundTrip(p: ContentProgress)
    ensures ProgressOf(ProgressValue(p)) == Some(p)
  {
  }

  /** The parent's parameters when they are a ContinueWritingContentParameters;
      otherwise the handler's cast or its first property read throws. */
  function ParametersOf(v: Value): (r: Option<ContinueParameters>)
    ensures r.Some? ==> ClassTag(v) == Some(ParametersClass)
  {
    if ClassTag(v) == Some(ParametersClass) then
      var f := v.fields;
      Some(ContinueParameters(StrField(f, "novelId"), IntField(f, "numberOfChapters"),
                              StrField(f, "aiConfigIdContent"), StrField(f, "writingStyle"),
                              BoolField(f, "requiresReview")))
    else None
  }

  function ResultValue(r: ContinueResult): Value
  {
    Obj(map["_class" := Str(ResultClass), "generatedChapters" := List(r.generatedChapters),
            "success" := Bool(r.success), "errorMessage" := OptStr(r.errorMessage), "status" := Str(r.status),
            "completedChapters" := Num(r.completedChapters), "totalChapters" := Num(r.totalChapters)])
  }

  // ------------------------------------------------------ the percent complete

  /** Java's (int) cast of a finite quotient: rounded toward zero. */
  function TruncDiv(n: int, d: int): (q: int)
    requires d != 0
    ensures n >= 0 && d > 0 ==> q == n / d
  {
    var a := if n < 0 then -n else n;
    var b := if d < 0 then -d else d;
    if (n < 0) != (d < 0) then -(a / b) else a / b
  }

  /** Java's (int) cast of a double: saturated to the int range. */
  function Saturate(x: int): (r: int)
    ensures IntMin <= r <= IntMax
    ensures IntMin <= x <= IntMax ==> r == x
  {
    if x < IntMin then IntMin else if x > IntMax then IntMax else x
  }

  /** (int) ((completed + failed) * 50.0 / totalChapters): a zero total divides to
      an infinity (or NaN, cast to 0), which the cast saturates. The double
      quotient of two ints truncates to the same int as the exact one, since the
      numerator stays below 2^53. */
  function CastQuotient(n: int, total: int): (r: int)
    ensures IntMin <= r <= IntMax
  {
    if total == 0 then (if n > 0 then IntMax else if n < 0 then IntMin else 0)
    else Saturate(TruncDiv(n * 50, total))
  }

  /** The percent as written: 50 plus the cast quotient in int arithmetic, capped
      at 100. */
  function PercentAsWritten(completed: int, failed: int, total: int): (r: int)
    ensures r <= 100
  {
    var x := CastQuotient(Wrap32(completed + failed), total);
    var sum := Wrap32(50 + x);
    if sum < 100 then sum else 100
  }

  /** A report against a total of 0 (the progress the parent gets when it holds
      none) stores a percent far below zero. */
  lemma ZeroTotalPercentWraps(completed: int, failed: int)
    requires 0 < completed + failed <= IntMax
    ensures PercentAsWritten(completed, failed, 0) == -2147483599
  {
  }

  /** The percent as intended: half for the summaries, the other half shared out
      over the chapters, and full once every chapter is accounted for. */
  function Percent(completed: int, failed: int, total: int): (r: int)
    ensures r <= 100
  {
    if total <= 0 then 100
    else
      var x := 50 + (completed + failed) * 50 / total;
      if x < 100 then x else 100
  }

  lemma QuotientBelowHalf(n: int, total: int)
    requires 0 <= n < total
    ensures n * 50 / total < 50
  {
    var q := n * 50 / total;
    assert q * total <= n * 50;
  }

  lemma QuotientAtLeastHalf(n: int, total: int)
    requires 0 < total <= n
    ensures n * 50 / total >= 50
  {
    var q := n * 50 / total;
    assert n * 50 == q * total + (n * 50) % total;
    assert (n * 50) % total < total;
  }

  /** With counts that are not negative the percent stays within 50..100, and it
      is 100 exactly when every chapter is accounted for. */
  lemma PercentInRange(completed: int, failed: int, total: int)
    requires completed >= 0 && failed >= 0
    ensures 50 <= Percent(completed, failed, total) <= 100
    ensures Percent(completed, failed, total) == 100 <==> completed + failed >= total
  {
    if total > 0 {
      if completed + failed < total {
        QuotientBelowHalf(completed + failed, total);
      } else {
        QuotientAtLeastHalf(completed + failed, total);
      }
    }
  }

  /** For a positive total that the counts have not passed, the percent as written
      and the percent as intended agree. */
  lemma PercentAgreesWithinTotal(completed: int, failed: int, total: int)
    requires completed >= 0 && failed >= 0 && completed + failed <= total <= IntMax
    requires total > 0
    ensures PercentAsWritten(completed, failed, total) == Percent(completed, failed, total)
  {
    var n := completed + failed;
    assert Wrap32(n) == n;
    var q := n * 50 / total;
    QuotientAtMostHalf(n, total);
    assert CastQuotient(n, total) == q;
    assert Wrap32(50 + q) == 50 + q;
  }

  lemma QuotientAtMostHalf(n: int, total: int)
    requires 0 <= n <= total
    requires total > 0
    ensures 0 <= n * 50 / total <= 50
  {
    if n < total {
      QuotientBelowHalf(n, total);
    } else {
      QuotientAtLeastHalf(n, total);
      assert n * 50 / total <= 50 by {
        var q := n * 50 / total;
        assert q * total <= n * 50;
      }
    }
  }

  // ------------------------------------------------------ the counter updates

  /** The progress the parent holds, or the one a content report starts from. */
  function StartContentProgress(stored: Value): ContentProgress
  {
    ProgressOf(stored).GetOr(ContentProgress(Some(GeneratingContent), 0, 0, 0, 0, 0, 50))
  }

  /** The progress after one content child reports, at the chapter index it
      names; the percent is computed as written (see ZeroTotalPercentWraps). */
  function NextContentProgress(p: ContentProgress, success: bool, chapterIndex: int): (q: ContentProgress)
    ensures q.stage == p.stage && q.totalChapters == p.totalChapters
    ensures q.summariesCompleted == p.summariesCompleted && q.currentIndex == chapterIndex
    ensures success ==> q.contentsCompleted == p.contentsCompleted + 1 && q.failed == p.failed
    ensures !success ==> q.failed == p.failed + 1 && q.contentsCompleted == p.contentsCompleted
    ensures q.percentComplete == PercentAsWritten(q.contentsCompleted, q.failed, q.totalChapters)
  {
    var c := if success then p.contentsCompleted + 1 else p.contentsCompleted;
    var f := if success then p.failed else p.failed + 1;
    p.(contentsCompleted := c, failed := f, currentIndex := chapterIndex,
       percentComplete := PercentAsWritten(c, f, p.totalChapters))
  }

  /** allCompleted: every chapter has succeeded or failed. */
  predicate ContentFinished(p: ContentProgress)
  {
    p.contentsCompleted + p.failed >= p.totalChapters
  }

  /** A report to a parent with a total in int range that it had not finished yet
      stores a percent within 50..100 that is 100 exactly when the report
      finishes the parent. */
  lemma ReportedPercent(p: ContentProgress, success: bool, chapterIndex: int)
    requires p.contentsCompleted >= 0 && p.failed >= 0
    requires p.contentsCompleted + p.failed < p.totalChapters <= IntMax
    ensures var q := NextContentProgress(p, success, chapterIndex);
      50 <= q.percentComplete <= 100 && (q.percentComplete == 100 <==> ContentFinished(q))
  {
    var q := NextContentProgress(p, success, chapterIndex);
    PercentAgreesWithinTotal(q.contentsCompleted, q.failed, q.totalChapters);
    PercentInRange(q.contentsCompleted, q.failed, q.totalChapters);
  }

  /** The progress after a run of reports, in arrival order. */
  function ReplayContent(p: ContentProgress, reports: seq<bool>): ContentProgress
    decreases |reports|
  {
    if reports == [] then p
    else NextContentProgress(ReplayContent(p, reports[..|reports| - 1]), reports[|reports| - 1], 0)
  }

  lemma {:induction false} ReplayContentCounts(p: ContentProgress, reports: seq<bool>)
    ensures var q := ReplayContent(p, reports);
      q.contentsCompleted + q.failed == p.contentsCompleted + p.failed + |reports|
      && q.totalChapters == p.totalChapters
    decreases |reports|
  {
    if reports != [] {
      ReplayContentCounts(p, reports[..|reports| - 1]);
    }
  }

  /** From a fresh count, the report for the last chapter is the first one that
      finishes the parent. */
  lemma ContentReportsUntilFinished(p: ContentProgress, reports: seq<bool>)
    requires p.contentsCompleted + p.failed + |reports| == p.totalChapters
    ensures ContentFinished(ReplayContent(p, reports))
    ensures |reports| > 0 ==> !ContentFinished(ReplayContent(p, reports[..|reports| - 1]))
  {
    ReplayContentCounts(p, reports);
    if |reports| > 0 {
      ReplayContentCounts(p, reports[..|reports| - 1]);
    }
  }

  // ----------------------------------------------------------- the final result

  /** The chapter a content child contributes: a completed GENERATE_CHAPTER_CONTENT
      child whose result is a successful GenerateChapterContentResult holding a
      chapter. */
  function GeneratedChapterOf(child: TaskDoc): (r: seq<Value>)
    ensures |r| <= 1
  {
    if child.taskType == ChapterContentTaskType && child.status == Completed
       && ClassTag(child.result) == Some(ContentResultClass)
       && BoolField(child.result.fields, "success")
       && "chapter" in child.result.fields && child.result.fields["chapter"] != Null
    then [child.result.fields["chapter"]]
    else []
  }

  function GeneratedChapters(children: seq<TaskDoc>): seq<Value>
    decreases |children|
  {
    if children == [] then []
    else GeneratedChapters(children[..|children| - 1]) + GeneratedChapterOf(children[|children| - 1])
  }

  /** No child contributes more than one chapter. */
  lemma {:induction false} AtMostOneChapterPerChild(children: seq<TaskDoc>)
    ensures |GeneratedChapters(children)| <= |children|
    decreases |children|
  {
    if children != [] {
      AtMostOneChapterPerChild(children[..|children| - 1]);
    }
  }

  /** Every chapter a child contributes is collected. */
  lemma {:induction false} ChildChapterCollected(children: seq<TaskDoc>, i: int)
    requires 0 <= i < |children| && GeneratedChapterOf(children[i]) != []
    ensures GeneratedChapterOf(children[i])[0] in GeneratedChapters(children)
    decreases |children|
  {
    var n := |children| - 1;
    if i < n {
      assert children[..n][i] == children[i];
      ChildChapterCollected(children[..n], i);
    }
  }

  /** The result a finished parent completes with; its status string is the name
      of the status the parent is given. */
  function FinalResult(p: ContentProgress, generated: seq<Value>): (r: ContinueResult)
    ensures r.status == FinalStatus(p.failed, p.contentsCompleted).Name()
    ensures r.success <==> FinalStatus(p.failed, p.contentsCompleted) != Failed
    ensures r.errorMessage.Some? <==> p.failed > 0
    ensures r.completedChapters == p.contentsCompleted && r.totalChapters == p.totalChapters
    ensures r.generatedChapters == generated
  {
    var base := ContinueResult(generated, true, None, "COMPLETED", p.contentsCompleted, p.totalChapters);
    if p.failed > 0 then
      if p.contentsCompleted > 0 then
        base.(status := "COMPLETED_WITH_ERRORS", errorMessage := Some(PartlyFailedMessage))
      else base.(status := "FAILED", success := false, errorMessage := Some(AllFailedMessage))
    else base
  }

  // ----------------------------------------------- the effect on the repository

  /** updateContentProgress on a repository: the progress is recorded on a running
      parent, and a report that finishes the count completes a running parent. A
      parent that is not running is left as it is. */
  function ContentParentAfter(tasks: map<string, TaskDoc>, parent: TaskDoc, success: bool, chapterIndex: int,
                              children: seq<TaskDoc>, now: Instant): map<string, TaskDoc>
  {
    var p := NextContentProgress(StartContentProgress(parent.progress), success, chapterIndex);
    var recorded := ProgressRecorded(tasks, parent.id, ProgressValue(p));
    if ContentFinished(p) then
      CompletionRecorded(recorded, parent.id, ResultValue(FinalResult(p, GeneratedChapters(children))),
                         FinalStatus(p.failed, p.contentsCompleted), now)
    else recorded
  }

  /** A report that finishes a running parent leaves it with the final status. */
  lemma FinishingContentReportSettlesParent(tasks: map<string, TaskDoc>, parent: TaskDoc, success: bool,
                                            chapterIndex: int, children: seq<TaskDoc>, now: Instant)
    requires parent.id in tasks && tasks[parent.id].status == Running
    requires ContentFinished(NextContentProgress(StartContentProgress(parent.progress), success, chapterIndex))
    ensures var p := NextContentProgress(StartContentProgress(parent.progress), success, chapterIndex);
      var after := ContentParentAfter(tasks, parent, success, chapterIndex, children, now);
      parent.id in after && after[parent.id].status == FinalStatus(p.failed, p.contentsCompleted)
  {
  }

  /** A report that does not finish a running parent keeps it running with the
      new progress. */
  lemma UnfinishedContentReportKeepsRunning(tasks: map<string, TaskDoc>, parent: TaskDoc, success: bool,
                                            chapterIndex: int, children: seq<TaskDoc>, now: Instant)
    requires parent.id in tasks && tasks[parent.id].status == Running
    requires !ContentFinished(NextContentProgress(StartContentProgress(parent.progress), success, chapterIndex))
    ensures var p := NextContentProgress(StartContentProgress(parent.progress), success, chapterIndex);
      var after := ContentParentAfter(tasks, parent, success, chapterIndex, children, now);
      parent.id in after && after[parent.id] == tasks[parent.id].(progress := ProgressValue(p))
  {
  }

  /** A parent that is not running is left untouched, finished or not. */
  lemma StoppedContentParentUntouched(tasks: map<string, TaskDoc>, parent: TaskDoc, success: bool,
                                      chapterIndex: int, children: seq<TaskDoc>, now: Instant)
    requires !(parent.id in tasks && tasks[parent.id].status == Running)
    ensures ContentParentAfter(tasks, parent, success, chapterIndex, children, now) == tasks
  {
  }

  // ------------------------------------------------------ the chapter context

  /** One previous chapter as the context lists it; a null title or description
      is written as "null". */
  function EntryText(c: Chapter): (t: string)
    ensures |t| > 0
  {
    "第" + IntToString(c.order) + "章：" + StringOf(c.title) + "\n" + StringOf(c.description) + "\n\n"
  }

  function ContextText(cs: seq<Chapter>): string
    decreases |cs|
  {
    if cs == [] then "" else ContextText(cs[..|cs| - 1]) + EntryText(cs[|cs| - 1])
  }

  /** The text is empty exactly when no chapter is listed. */
  lemma ContextTextEmpty(cs: seq<Chapter>)
    ensures ContextText(cs) == "" <==> cs == []
  {
    if cs != [] {
      assert |ContextText(cs)| >= |EntryText(cs[|cs| - 1])|;
    }
  }

  /** The chapters the context lists: in order of their order property, up to two
      chapters right before the first chapter with the id; none when no chapter
      has it. */
  function ContextChapters(acts: seq<Act>, chapterId: string): (r: seq<Chapter>)
    ensures |r| <= 2
  {
    var sorted := SortByOrder(AllChapters(acts));
    var idx := IndexOfId(sorted, chapterId);
    if idx < 0 then [] else sorted[if idx >= 2 then idx - 2 else 0..idx]
  }

  /** getChapterContext. */
  function ChapterContext(acts: seq<Act>, chapterId: string): string
  {
    ContextText(ContextChapters(acts, chapterId))
  }

  /** The context lists chapters of the novel whose order does not exceed the
      order of the chapter it is for. */
  lemma ContextPrecedesChapter(acts: seq<Act>, chapterId: string, k: int)
    requires 0 <= k < |ContextChapters(acts, chapterId)|
    ensures var sorted := SortByOrder(AllChapters(acts));
      var idx := IndexOfId(sorted, chapterId);
      && idx >= 0 && sorted[idx].id == chapterId
      && ContextChapters(acts, chapterId)[k] in AllChapters(acts)
      && ContextChapters(acts, chapterId)[k].order <= sorted[idx].order
  {
    var all := AllChapters(acts);
    var sorted := SortByOrder(all);
    var idx := IndexOfId(sorted, chapterId);
    var start := if idx >= 2 then idx - 2 else 0;
    SortByOrderSorted(all);
    var c := sorted[start + k];
    assert ContextChapters(acts, chapterId)[k] == c;
    assert c in multiset(sorted);
  }

  /** The context is empty exactly when the chapter is missing or comes first. */
  lemma ContextEmptyIffFirstOrMissing(acts: seq<Act>, chapterId: string)
    ensures ChapterContext(acts, chapterId) == "" <==> IndexOfId(SortByOrder(AllChapters(acts)), chapterId) <= 0
  {
    ContextTextEmpty(ContextChapters(acts, chapterId));
  }

  // --------------------------------------------------- the content requests

  /** The request for the new chapter at index i of the id list, when the novel
      has a chapter with that id. */
  function RequestFor(acts: seq<Act>, params: ContinueParameters, parent: TaskDoc, chapterId: string, i: int)
    : (r: seq<ContentRequest>)
    ensures |r| <= 1
    ensures r != [] <==> FirstWithId(AllChapters(acts), chapterId).Some?
    ensures r != [] ==> (r[0].chapterIndex == i && r[0].chapterId == chapterId
      && r[0].chapterOrder == FirstWithId(AllChapters(acts), chapterId).value.order
      && r[0].parentTaskId == parent.id && r[0].userId == parent.userId)
  {
    match FirstWithId(AllChapters(acts), chapterId)
    case None => []
    case Some(c) =>
      [ContentRequest(parent.userId, parent.id, params.novelId, chapterId, i, c.order, c.title, c.description,
                      params.aiConfigIdContent, ChapterContext(acts, chapterId), params.writingStyle)]
  }

  /** The content requests for the new chapter ids, in their order. */
  function ContentRequests(acts: seq<Act>, params: ContinueParameters, parent: TaskDoc, ids: seq<string>)
    : seq<ContentRequest>
    decreases |ids|
  {
    if ids == [] then []
    else
      var n := |ids| - 1;
      ContentRequests(acts, params, parent, ids[..n]) + RequestFor(acts, params, parent, ids[n], n)
  }

  /** Each request names one of the ids by its index, for a chapter the novel
      holds, at that chapter's order. */
  lemma {:induction false} RequestsMatchIds(acts: seq<Act>, params: ContinueParameters, parent: TaskDoc,
                                            ids: seq<string>, k: int)
    requires 0 <= k < |ContentRequests(acts, params, parent, ids)|
    ensures var r := ContentRequests(acts, params, parent, ids)[k];
      && 0 <= r.chapterIndex < |ids| && r.chapterId == ids[r.chapterIndex]
      && FirstWithId(AllChapters(acts), r.chapterId).Some?
      && r.chapterOrder == FirstWithId(AllChapters(acts), r.chapterId).value.order
      && r.parentTaskId == parent.id && r.userId == parent.userId
    decreases |ids|
  {
    var n := |ids| - 1;
    var prev := ContentRequests(acts, params, parent, ids[..n]);
    var last := RequestFor(acts, params, parent, ids[n], n);
    assert ContentRequests(acts, params, parent, ids) == prev + last;
    if k < |prev| {
      RequestsMatchIds(acts, params, parent, ids[..n], k);
      assert ids[..n][prev[k].chapterIndex] == ids[prev[k].chapterIndex];
    } else {
      assert ContentRequests(acts, params, parent, ids)[k] == last[0];
    }
  }

  /** A new id whose chapter the novel holds gets a request. */
  lemma {:induction false} FoundIdRequested(acts: seq<Act>, params: ContinueParameters, parent: TaskDoc,
                                            ids: seq<string>, i: int)
    requires 0 <= i < |ids| && FirstWithId(AllChapters(acts), ids[i]).Some?
    ensures RequestsIndex(ContentRequests(acts, params, parent, ids), i)
    decreases |ids|
  {
    var n := |ids| - 1;
    var prev := ContentRequests(acts, params, parent, ids[..n]);
    var last := RequestFor(acts, params, parent, ids[n], n);
    assert ids[..n + 1] == ids;
    RequestsStep(acts, params, parent, ids, n);
    if i < n {
      assert ids[..n][i] == ids[i];
      FoundIdRequested(acts, params, parent, ids[..n], i);
      RequestsIndexAppend(prev, last, i);
    } else {
      RequestsIndexLast(prev, last, i);
    }
  }

  /** Some request is for the new chapter at index i. */
  predicate RequestsIndex(requests: seq<ContentRequest>, i: int)
  {
    exists k :: 0 <= k < |requests| && requests[k].chapterIndex == i
  }

  lemma RequestsIndexLast(prev: seq<ContentRequest>, last: seq<ContentRequest>, i: int)
    requires last != [] && last[0].chapterIndex == i
    ensures RequestsIndex(prev + last, i)
  {
    assert (prev + last)[|prev|] == last[0];
  }

  lemma RequestsIndexAppend(prev: seq<ContentRequest>, last: seq<ContentRequest>, i: int)
    requires RequestsIndex(prev, i)
    ensures RequestsIndex(prev + last, i)
  {
    var k :| 0 <= k < |prev| && prev[k].chapterIndex == i;
    assert (prev + last)[k] == prev[k];
  }

  /** The requests the summaries handler makes: none while the parent waits for
      review or when the novel is not found; none either when the novel has no
      structure, since the first lookup then throws before any submission. */
  function SummariesRequests(novel: Option<Novel>, params: ContinueParameters, parent: TaskDoc, ids: seq<string>)
    : (r: seq<ContentRequest>)
    ensures params.requiresReview ==> r == []
  {
    if params.requiresReview || novel.None? then [] else NovelRequests(novel.value, params, parent, ids)
  }

  /** The requests for a found novel. */
  function NovelRequests(novel: Novel, params: ContinueParameters, parent: TaskDoc, ids: seq<string>)
    : seq<ContentRequest>
  {
    if ids == [] then []
    else match novel.structure
      case None => []
      case Some(acts) => ContentRequests(acts, params, parent, ids)
  }

  /** The progress the summaries handler records: the stored progress, or a fresh
      one counting the requested chapters, now at the stage the review flag picks,
      with the summary count and half done. */
  function SummariesPhaseProgress(stored: Value, params: ContinueParameters, summariesGenerated: int)
    : (p: ContentProgress)
    ensures p.stage == Some(if params.requiresReview then WaitingForReview else GeneratingContent)
    ensures p.summariesCompleted == summariesGenerated && p.percentComplete == 50
    ensures ProgressOf(stored).None? ==>
      p.totalChapters == params.numberOfChapters && p.contentsCompleted == 0 && p.failed == 0
    ensures ProgressOf(stored).Some? ==>
      var q := ProgressOf(stored).value;
      p.totalChapters == q.totalChapters && p.contentsCompleted == q.contentsCompleted && p.failed == q.failed
  {
    var base := ProgressOf(stored).GetOr(ContentProgress(None, params.numberOfChapters, 0, 0, 0, 0, 0));
    base.(stage := Some(if params.requiresReview then WaitingForReview else GeneratingContent),
          summariesCompleted := summariesGenerated, percentComplete := 50)
  }

  // ----------------------------------------------------------- event targets

  /** The continue-writing parent of a child of the given type. */
  function ContinueParent(tasks: map<string, TaskDoc>, taskType: string, expectedType: string, childId: string)
    : (r: Option<TaskDoc>)
    ensures r.Some? ==> r.value.taskType == ContinueWritingTaskType && r == ParentOf(tasks, childId)
  {
    if taskType != expectedType then None
    else match ParentOf(tasks, childId)
      case None => None
      case Some(parent) => if parent.taskType == ContinueWritingTaskType then Some(parent) else None
  }

  /** The parent and its parameters a summaries completion acts on: a
      GenerateNextSummariesOnlyResult from a child of a continue-writing parent
      whose parameters are a ContinueWritingContentParameters. */
  function SummariesTarget(tasks: map<string, TaskDoc>, e: TaskCompletedEvent)
    : (r: Option<(TaskDoc, ContinueParameters)>)
    ensures r.Some? ==> (e.result.NextSummariesResult?
      && ContinueParent(tasks, e.taskType, NextSummariesTaskType, e.taskId) == Some(r.value.0)
      && ParametersOf(r.value.0.parameters) == Some(r.value.1))
  {
    match ContinueParent(tasks, e.taskType, NextSummariesTaskType, e.taskId)
    case None => None
    case Some(parent) =>
      if !e.result.NextSummariesResult? then None
      else match ParametersOf(parent.parameters)
        case None => None
        case Some(params) => Some((parent, params))
  }

  /** The failure details hold a "message" entry whose value is null. */
  predicate NullMessage(errorInfo: Option<map<string, Value>>)
  {
    errorInfo.Some? && "message" in errorInfo.value && errorInfo.value["message"] == Null
  }

  /** The chapterIndex of a failed content child's GenerateChapterContentParameters;
      none when the parameters are of another type. */
  function FailedContentIndex(parameters: Value): (r: Option<int>)
    ensures r.Some? <==> ClassTag(parameters) == Some(ContentParametersClass)
  {
    if ClassTag(parameters) == Some(ContentParametersClass) then Some(IntField(parameters.fields, "chapterIndex"))
    else None
  }

  // ---------------------------------------------------------- the aggregator

  class ContinueWritingStateAggregator {
    const svc: TaskStateService
    const processedEventIds: ProcessedEventIds

    constructor (svc: TaskStateService)
      ensures this.svc == svc && fresh(processedEventIds) && processedEventIds.ids == {}
    {
      this.svc := svc;
      processedEventIds := new ProcessedEventIds();
    }

    /** onNextSummariesTaskCompleted: a first delivery of the summaries result
        records the summaries phase and returns the content tasks to submit. The
        novel is what the novel service finds under the parameters' novelId. */
    method OnNextSummariesTaskCompleted(e: TaskCompletedEvent, novel: Option<Novel>)
      returns (requests: seq<ContentRequest>)
      requires svc.repo.Valid()
      modifies processedEventIds, svc.repo
      ensures svc.repo.Valid()
      ensures processedEventIds.ids == old(processedEventIds.ids) + {e.eventId}
      ensures
        var target := SummariesTarget(old(svc.repo.tasks), e);
        if e.eventId !in old(processedEventIds.ids) && target.Some? then
          var parent := target.value.0;
          var params := target.value.1;
          && svc.repo.tasks ==
               ProgressRecorded(old(svc.repo.tasks), parent.id,
                                ProgressValue(SummariesPhaseProgress(parent.progress, params,
                                                                     e.result.summariesGeneratedCount)))
          && requests == SummariesRequests(novel, params, parent, e.result.newChapterIds)
        else
          svc.repo.tasks == old(svc.repo.tasks) && requests == []
    {
      requests := [];
      var firstTime := processedEventIds.CheckAndMark(e.eventId);
      if !firstTime {
        return;
      }
      var target := SummariesTarget(svc.repo.tasks, e);
      if target.None? {
        return;
      }
      var parent := target.value.0;
      var params := target.value.1;
      var progress := SummariesPhaseProgress(parent.progress, params, e.result.summariesGeneratedCount);
      var recorded := svc.RecordProgress(parent.id, ProgressValue(progress));
      if !params.requiresReview && novel.Some? {
        requests := RequestContent(novel.value, params, parent, e.result.newChapterIds);
      }
      assert requests == SummariesRequests(novel, params, parent, e.result.newChapterIds);
    }

    /** onChapterContentTaskCompleted: a first delivery of a content child's
        success, with a GenerateChapterContentResult, moves the parent at the
        result's index. */
    method OnChapterContentTaskCompleted(e: TaskCompletedEvent, children: seq<TaskDoc>, now: Instant)
      requires svc.repo.Valid()
      modifies processedEventIds, svc, svc.repo
      ensures svc.repo.Valid()
      ensures processedEventIds.ids == old(processedEventIds.ids) + {e.eventId}
      ensures
        var parent := ContinueParent(old(svc.repo.tasks), e.taskType, ChapterContentTaskType, e.taskId);
        if e.eventId !in old(processedEventIds.ids) && parent.Some? && e.result.ChapterContentResult? then
          svc.repo.tasks ==
            ContentParentAfter(old(svc.repo.tasks), parent.value, true, e.result.chapterIndex, children, now)
        else
          svc.repo.tasks == old(svc.repo.tasks) && svc.localProcessingTasks == old(svc.localProcessingTasks)
    {
      var firstTime := processedEventIds.CheckAndMark(e.eventId);
      if !firstTime {
        return;
      }
      var parent := ContinueParent(svc.repo.tasks, e.taskType, ChapterContentTaskType, e.taskId);
      if parent.None? || !e.result.ChapterContentResult? {
        return;
      }
      UpdateContentProgress(parent.value, true, e.result.chapterIndex, children, now);
    }

    /** onChapterContentTaskFailed: a first delivery of a content child's failure
        moves the parent at the chapterIndex of the child's parameters; a child
        whose parameters are of another type is ignored. Reading the failure
        message calls toString() on the "message" entry, so an entry that is
        null throws a NullPointerException out of the listener and nothing is
        recorded; `thrown` is that exception. */
    method OnChapterContentTaskFailed(e: TaskFailedEvent, children: seq<TaskDoc>, now: Instant)
      returns (thrown: Option<Exception>)
      requires svc.repo.Valid()
      modifies processedEventIds, svc, svc.repo
      ensures svc.repo.Valid()
      ensures processedEventIds.ids == old(processedEventIds.ids) + {e.eventId}
      ensures
        var parent := ContinueParent(old(svc.repo.tasks), e.taskType, ChapterContentTaskType, e.taskId);
        var reached := e.eventId !in old(processedEventIds.ids) && parent.Some?
                       && FailedContentIndex(old(svc.repo.tasks)[e.taskId].parameters).Some?;
        && (thrown.Some? <==> reached && NullMessage(e.errorInfo))
        && (thrown.Some? ==> thrown.value.kind == NullPointer)
        && if reached && !NullMessage(e.errorInfo) then
             svc.repo.tasks ==
               ContentParentAfter(old(svc.repo.tasks), parent.value, false,
                                  FailedContentIndex(old(svc.repo.tasks)[e.taskId].parameters).value, children, now)
           else
             svc.repo.tasks == old(svc.repo.tasks) && svc.localProcessingTasks == old(svc.localProcessingTasks)
    {
      thrown := None;
      var firstTime := processedEventIds.CheckAndMark(e.eventId);
      if !firstTime {
        return;
      }
      var tasks := svc.repo.tasks;
      var parent := ContinueParent(tasks, e.taskType, ChapterContentTaskType, e.taskId);
      if parent.None? {
        return;
      }
      var index := FailedContentIndex(tasks[e.taskId].parameters);
      if index.None? {
        return;
      }
      if NullMessage(e.errorInfo) {
        return Some(Exception(NullPointer, None, None, []));
      }
      UpdateContentProgress(parent.value, false, index.value, children, now);
    }

    /** updateContentProgress: record the progress, whatever that answers, and
        finalise once every chapter is accounted for. */
    method UpdateContentProgress(parent: TaskDoc, success: bool, chapterIndex: int, children: seq<TaskDoc>,
                                 now: Instant)
      requires svc.repo.Valid()
      modifies svc, svc.repo
      ensures svc.repo.Valid()
      ensures svc.repo.tasks == ContentParentAfter(old(svc.repo.tasks), parent, success, chapterIndex, children, now)
      ensures svc.localProcessingTasks ==
        if ContentFinished(NextContentProgress(StartContentProgress(parent.progress), success, chapterIndex))
        then old(svc.localProcessingTasks) - {parent.id}
        else old(svc.localProcessingTasks)
    {
      var p := NextContentProgress(StartContentProgress(parent.progress), success, chapterIndex);
      var recorded := svc.RecordProgress(parent.id, ProgressValue(p));
      assert svc.repo.tasks == ProgressRecorded(old(svc.repo.tasks), parent.id, ProgressValue(p));
      if ContentFinished(p) {
        UpdateTaskFinalState(parent.id, p, children, now);
      }
    }

    /** updateTaskFinalState: complete the parent with the collected result, then
        set the final status. */
    method UpdateTaskFinalState(id: string, p: ContentProgress, children: seq<TaskDoc>, now: Instant)
      requires svc.repo.Valid()
      modifies svc, svc.repo
      ensures svc.repo.Valid()
      ensures svc.repo.tasks ==
        CompletionRecorded(old(svc.repo.tasks), id, ResultValue(FinalResult(p, GeneratedChapters(children))),
                           FinalStatus(p.failed, p.contentsCompleted), now)
      ensures svc.localProcessingTasks == old(svc.localProcessingTasks) - {id}
    {
      var generated := CollectGeneratedChapters(children);
      var result := FinalResult(p, generated);
      var updated := CompleteAs(svc, id, ResultValue(result), FinalStatus(p.failed, p.contentsCompleted), now);
    }
  }

  /** The loop over the children collecting the generated chapters. */
  method CollectGeneratedChapters(children: seq<TaskDoc>) returns (chapters: seq<Value>)
    ensures chapters == GeneratedChapters(children)
  {
    chapters := [];
    for i := 0 to |children|
      invariant chapters == GeneratedChapters(children[..i])
    {
      assert children[..i + 1][..i] == children[..i];
      chapters := chapters + GeneratedChapterOf(children[i]);
    }
    assert children[..|children|] == children;
  }

  /** The loop over the new chapter ids, submitting a content task for each one
      the novel holds. */
  method RequestContent(novel: Novel, params: ContinueParameters, parent: TaskDoc, ids: seq<string>)
    returns (requests: seq<ContentRequest>)
    ensures requests == NovelRequests(novel, params, parent, ids)
  {
    requests := [];
    if ids == [] || novel.structure.None? {
      return;
    }
    var acts := novel.structure.value;
    for i := 0 to |ids|
      invariant requests == ContentRequests(acts, params, parent, ids[..i])
    {
      RequestsStep(acts, params, parent, ids, i);
      var chapter := FindChapterById(acts, ids[i]);
      if chapter.Some? {
        var context := GetChapterContext(acts, ids[i]);
        var request := ContentRequest(parent.userId, parent.id, params.novelId, ids[i], i,
                                      chapter.value.order, chapter.value.title, chapter.value.description,
                                      params.aiConfigIdContent, context, params.writingStyle);
        assert RequestFor(acts, params, parent, ids[i], i) == [request];
        requests := requests + [request];
      } else {
        assert RequestFor(acts, params, parent, ids[i], i) == [];
      }
    }
    assert ids[..|ids|] == ids;
  }

  lemma RequestsStep(acts: seq<Act>, params: ContinueParameters, parent: TaskDoc, ids: seq<string>, i: int)
    requires 0 <= i < |ids|
    ensures ContentRequests(acts, params, parent, ids[..i + 1]) ==
      ContentRequests(acts, params, parent, ids[..i]) + RequestFor(acts, params, parent, ids[i], i)
  {
    assert ids[..i + 1][..i] == ids[..i];
  }

  /** findChapterById: the first chapter with the id, act by act. */
  method FindChapterById(acts: seq<Act>, chapterId: string) returns (r: Option<Chapter>)
    ensures r == FirstWithId(AllChapters(acts), chapterId)
  {
    for i := 0 to |acts|
      invariant FirstWithId(AllChapters(acts[..i]), chapterId) == None
    {
      var chapters := acts[i].chapters;
      ghost var before := AllChapters(acts[..i]);
      for j := 0 to |chapters|
        invariant FirstWithId(before + chapters[..j], chapterId) == None
      {
        if chapters[j].id == chapterId {
          FoundInAct(acts, i, j, chapterId);
          return Some(chapters[j]);
        }
        NoMatchStep(before, chapters, j, chapterId);
      }
      NextActNoMatch(acts, i, chapterId);
    }
    assert acts[..|acts|] == acts;
    return None;
  }

  /** A chapter without the id extends a stretch without a match. */
  lemma NoMatchStep(before: seq<Chapter>, chapters: seq<Chapter>, j: int, chapterId: string)
    requires 0 <= j < |chapters| && chapters[j].id != chapterId
    requires FirstWithId(before + chapters[..j], chapterId) == None
    ensures FirstWithId(before + chapters[..j + 1], chapterId) == None
  {
    assert before + chapters[..j + 1] == (before + chapters[..j]) + [chapters[j]];
    FirstWithIdAppend(before + chapters[..j], [chapters[j]], chapterId);
  }

  /** An act without the id extends the acts without a match. */
  lemma NextActNoMatch(acts: seq<Act>, i: int, chapterId: string)
    requires 0 <= i < |acts|
    requires FirstWithId(AllChapters(acts[..i]) + acts[i].chapters[..|acts[i].chapters|], chapterId) == None
    ensures FirstWithId(AllChapters(acts[..i + 1]), chapterId) == None
  {
    assert acts[i].chapters[..|acts[i].chapters|] == acts[i].chapters;
    assert acts[..i + 1] == acts[..i] + [acts[i]];
    AllChaptersSnoc(acts[..i], acts[i]);
  }

  /** A chapter found in act i, with no earlier match, is the first match of all. */
  lemma FoundInAct(acts: seq<Act>, i: int, j: int, chapterId: string)
    requires 0 <= i < |acts| && 0 <= j < |acts[i].chapters|
    requires FirstWithId(AllChapters(acts[..i]) + acts[i].chapters[..j], chapterId) == None
    requires acts[i].chapters[j].id == chapterId
    ensures FirstWithId(AllChapters(acts), chapterId) == Some(acts[i].chapters[j])
  {
    var c := acts[i].chapters;
    var a := AllChapters(acts[..i]);
    var tail := AllChapters(acts[i + 1..]);
    assert AllChapters(acts) == (a + c) + tail by {
      assert acts == acts[..i] + [acts[i]] + acts[i + 1..];
      AllChaptersAround(acts[..i], acts[i], acts[i + 1..]);
    }
    assert (a + c) + tail == (a + c[..j]) + [c[j]] + (c[j + 1..] + tail) by {
      assert c == c[..j] + [c[j]] + c[j + 1..];
    }
    FirstInMiddle(a + c[..j], c[j], c[j + 1..] + tail, chapterId);
  }

  /** A match after a stretch without one is the first match. */
  lemma FirstInMiddle(before: seq<Chapter>, x: Chapter, after: seq<Chapter>, chapterId: string)
    requires FirstWithId(before, chapterId) == None && x.id == chapterId
    ensures FirstWithId(before + [x] + after, chapterId) == Some(x)
  {
    assert before + [x] + after == before + ([x] + after);
    assert ([x] + after)[0] == x;
    FirstWithIdAppend(before, [x] + after, chapterId);
  }

  /** The chapters of acts before, one act, and acts after. */
  lemma AllChaptersAround(pre: seq<Act>, a: Act, post: seq<Act>)
    ensures AllChapters(pre + [a] + post) == (AllChapters(pre) + a.chapters) + AllChapters(post)
  {
    AllChaptersAppend(pre + [a], post);
    AllChaptersSnoc(pre, a);
  }

  /** getChapterContext: gather all chapters, sort them by order, find the chapter
      and list up to two chapters before it. */
  method GetChapterContext(acts: seq<Act>, chapterId: string) returns (context: string)
    ensures context == ChapterContext(acts, chapterId)
  {
    var all := GatherChapters(acts);
    var sorted := SortByOrder(all);
    var currentIndex := FindIndex(sorted, chapterId);
    if currentIndex < 0 {
      return "";
    }
    var start := if currentIndex >= 2 then currentIndex - 2 else 0;
    context := ListChapters(sorted[start..currentIndex]);
  }

  /** The loop adding each act's chapters. */
  method GatherChapters(acts: seq<Act>) returns (all: seq<Chapter>)
    ensures all == AllChapters(acts)
  {
    all := [];
    for i := 0 to |acts|
      invariant all == AllChapters(acts[..i])
    {
      assert acts[..i + 1] == acts[..i] + [acts[i]];
      AllChaptersSnoc(acts[..i], acts[i]);
      all := all + acts[i].chapters;
    }
    assert acts[..|acts|] == acts;
  }

  /** The loop looking for the first chapter with the id. */
  method FindIndex(cs: seq<Chapter>, chapterId: string) returns (index: int)
    ensures index == IndexOfId(cs, chapterId)
  {
    index := -1;
    var k := 0;
    while k < |cs|
      invariant 0 <= k <= |cs|
      invariant forall m :: 0 <= m < k ==> cs[m].id != chapterId
      decreases |cs| - k
    {
      if cs[k].id == chapterId {
        return k;
      }
      k := k + 1;
    }
  }

  /** The loop appending each listed chapter's entry. */
  method ListChapters(cs: seq<Chapter>) returns (text: string)
    ensures text == ContextText(cs)
  {
    text := "";
    for i := 0 to |cs|
      invariant text == ContextText(cs[..i])
    {
      assert cs[..i + 1][..i] == cs[..i];
      text := text + EntryText(cs[i]);
    }
    assert cs[..|cs|] == cs;
  }
}
