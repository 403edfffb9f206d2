// NextSummariesStateAggregator: each single-chapter summary child moves the
// completed or failed count of its parent; once every chapter is accounted for,
// the parent completes with the new chapter ids and the final status.
module NextSummariesAggregation {
  import opened Wrappers
  import opened JStrings
  import opened TaskModel
  import opened TaskState
  import opened Aggregation

  const SingleSummaryTaskType: string := "GENERATE_SINGLE_SUMMARY"
  const ProgressClass: string := "GenerateNextSummariesOnlyProgress"
  const ResultClass: string := "GenerateNextSummariesOnlyResult"
  const SingleResultClass: string := "GenerateSingleSummaryResult"

  /** GenerateNextSummariesOnlyProgress. */
  datatype SummariesProgress = SummariesProgress(total: int, completed: int, failed: int, currentIndex: int)

  /** GenerateNextSummariesOnlyResult. */
  datatype SummariesResult = SummariesResult(newChapterIds: seq<string>, summariesGeneratedCount: int,
                                             status: string, failedSteps: seq<string>)

  function ProgressValue(p: SummariesProgress): Value
  {
    Obj(map["_class" := Str(ProgressClass), "total" := Num(p.total), "completed" := Num(p.completed),
            "failed" := Num(p.failed), "currentIndex" := Num(p.currentIndex)])
  }

  /** progress instanceof GenerateNextSummariesOnlyProgress, and its properties. */
  function ProgressOf(v: Value): Option<SummariesProgress>
  {
    if ClassTag(v) == Some(ProgressClass) then
      var f := v.fields;
      Some(SummariesProgress(IntField(f, "total"), IntField(f, "completed"), IntField(f, "failed"),
                             IntField(f, "currentIndex")))
    else None
  }

  /** A stored progress object reads back as itself. */
  lemma ProgressRoundTrip(p: SummariesProgress)
    ensures ProgressOf(ProgressValue(p)) == Some(p)
  {
  }

  function ResultValue(r: SummariesResult): Value
  {
    Obj(map["_class" := Str(ResultClass), "newChapterIds" := Strs(r.newChapterIds),
            "summariesGeneratedCount" := Num(r.summariesGeneratedCount), "status" := Str(r.status),
            "failedSteps" := Strs(r.failedSteps)])
  }

  // ----------------------------------------------------- the counter updates

  /** The progress the parent holds, or all zeros. */
  function StartProgress(stored: Value): SummariesProgress
  {
    ProgressOf(stored).GetOr(SummariesProgress(0, 0, 0, 0))
  }

  /** The progress after one child reports, at the chapter index it names. */
  function NextProgress(p: SummariesProgress, success: bool, chapterIndex: int): (q: SummariesProgress)
    ensures q.total == p.total && q.currentIndex == chapterIndex
    ensures success ==> q.completed == p.completed + 1 && q.failed == p.failed
    ensures !success ==> q.failed == p.failed + 1 && q.completed == p.completed
  {
    if success then p.(completed := p.completed + 1, currentIndex := chapterIndex)
    else p.(failed := p.failed + 1, currentIndex := chapterIndex)
  }

  /** Every chapter has succeeded or failed. */
  predicate Finished(p: SummariesProgress)
  {
    p.completed + p.failed >= p.total
  }

  /** From a progress with non-negative counts, exactly total - done more reports
      finish the parent: one report fewer does not. */
  lemma {:induction false} ReportsUntilFinished(p: SummariesProgress, reports: seq<bool>)
    requires p.completed + p.failed + |reports| == p.total
    ensures Finished(Replay(p, reports))
    ensures |reports| > 0 ==> !Finished(Replay(p, reports[..|reports| - 1]))
    decreases |reports|
  {
    ReplayCounts(p, reports);
    if |reports| > 0 {
      ReplayCounts(p, reports[..|reports| - 1]);
    }
  }

  /** The progress after a series of reports, each at index 0. */
  function Replay(p: SummariesProgress, reports: seq<bool>): SummariesProgress
    decreases |reports|
  {
    if reports == [] then p else NextProgress(Replay(p, reports[..|reports| - 1]), reports[|reports| - 1], 0)
  }

  /** Each report adds one to completed + failed and leaves the total alone. */
  lemma {:induction false} ReplayCounts(p: SummariesProgress, reports: seq<bool>)
    ensures Replay(p, reports).completed + Replay(p, reports).failed == p.completed + p.failed + |reports|
    ensures Replay(p, reports).total == p.total
    decreases |reports|
  {
    if reports != [] {
      ReplayCounts(p, reports[..|reports| - 1]);
    }
  }

  // ------------------------------------------------------- the final result

  /** The new chapter id a child contributes: a completed child whose result is a
      GenerateSingleSummaryResult with a non-null newChapterId. */
  function NewChapterIdOf(child: TaskDoc): seq<string>
  {
    if child.status == Completed && ClassTag(child.result) == Some(SingleResultClass)
       && "newChapterId" in child.result.fields && child.result.fields["newChapterId"].Str?
    then [child.result.fields["newChapterId"].s]
    else []
  }

  function NewChapterIds(children: seq<TaskDoc>): seq<string>
    decreases |children|
  {
    if children == [] then []
    else NewChapterIds(children[..|children| - 1]) + NewChapterIdOf(children[|children| - 1])
  }

  /** Every collected id comes from some child. */
  lemma {:induction false} CollectedIdsComeFromChildren(children: seq<TaskDoc>, id: string)
    requires id in NewChapterIds(children)
    ensures exists i :: 0 <= i < |children| && NewChapterIdOf(children[i]) == [id]
    decreases |children|
  {
    var n := |children| - 1;
    if id in NewChapterIds(children[..n]) {
      CollectedIdsComeFromChildren(children[..n], id);
      var i :| 0 <= i < n && NewChapterIdOf(children[..n][i]) == [id];
      assert children[..n][i] == children[i];
    } else {
      assert NewChapterIdOf(children[n]) == [id];
    }
  }

  /** Every child's new chapter id is collected. */
  lemma {:induction false} ChildIdsCollected(children: seq<TaskDoc>, i: int, id: string)
    requires 0 <= i < |children| && NewChapterIdOf(children[i]) == [id]
    ensures id in NewChapterIds(children)
    decreases |children|
  {
    var n := |children| - 1;
    if i < n {
      assert children[..n][i] == children[i];
      ChildIdsCollected(children[..n], i, id);
    }
  }

  /** At most one id per child. */
  lemma {:induction false} AtMostOneIdPerChild(children: seq<TaskDoc>)
    ensures |NewChapterIds(children)| <= |children|
    decreases |children|
  {
    if children != [] {
      AtMostOneIdPerChild(children[..|children| - 1]);
    }
  }

  /** String.valueOf of a failed child's chapterIndex parameter, or "-1". */
  function FailedStepOf(child: TaskDoc): seq<string>
  {
    if child.status != Failed then []
    else if child.parameters.Obj? && "chapterIndex" in child.parameters.fields
            && child.parameters.fields["chapterIndex"].Num?
    then [IntToString(child.parameters.fields["chapterIndex"].n)]
    else ["-1"]
  }

  function FailedSteps(children: seq<TaskDoc>): seq<string>
    decreases |children|
  {
    if children == [] then []
    else FailedSteps(children[..|children| - 1]) + FailedStepOf(children[|children| - 1])
  }

  function CountFailed(children: seq<TaskDoc>): nat
    decreases |children|
  {
    if children == [] then 0
    else CountFailed(children[..|children| - 1]) + (if children[|children| - 1].status == Failed then 1 else 0)
  }

  /** One step per failed child. */
  lemma {:induction false} FailedStepsCountFailures(children: seq<TaskDoc>)
    ensures |FailedSteps(children)| == CountFailed(children)
    decreases |children|
  {
    if children != [] {
      FailedStepsCountFailures(children[..|children| - 1]);
    }
  }

  /** The result a finished parent completes with; its status string is the name
      of the status the parent is given. */
  function FinalResult(p: SummariesProgress, newChapterIds: seq<string>, failedSteps: seq<string>)
    : (r: SummariesResult)
    ensures r.status == FinalStatus(p.failed, p.completed).Name()
    ensures r.summariesGeneratedCount == p.completed && r.newChapterIds == newChapterIds
    ensures r.failedSteps == (if p.failed > 0 then failedSteps else [])
  {
    var status := if p.failed > 0 then (if p.completed > 0 then "COMPLETED_WITH_ERRORS" else "FAILED")
                  else "COMPLETED";
    SummariesResult(newChapterIds, p.completed, status, if p.failed > 0 then failedSteps else [])
  }

  // ----------------------------------------------- the effect on the repository

  /** updateParentTaskProgress on a repository: a parent that is not running takes
      no progress and is not finalised; a running one records the progress and,
      once finished, completes with the final status. The children are the
      documents the repository returns for the parent. */
  function ParentAfter(tasks: map<string, TaskDoc>, parent: TaskDoc, success: bool, chapterIndex: int,
                       children: seq<TaskDoc>, now: Instant): map<string, TaskDoc>
  {
    var p := NextProgress(StartProgress(parent.progress), success, chapterIndex);
    if !(parent.id in tasks && tasks[parent.id].status == Running) then tasks
    else
      var recorded := tasks[parent.id := tasks[parent.id].(progress := ProgressValue(p))];
      if Finished(p) then
        CompletionRecorded(recorded, parent.id,
                           ResultValue(FinalResult(p, NewChapterIds(children), FailedSteps(children))),
                           FinalStatus(p.failed, p.completed), now)
      else recorded
  }

  /** A report that finishes a running parent leaves it with the final status. */
  lemma FinishingReportSettlesParent(tasks: map<string, TaskDoc>, parent: TaskDoc, success: bool,
                                     chapterIndex: int, children: seq<TaskDoc>, now: Instant)
    requires parent.id in tasks && tasks[parent.id].status == Running
    requires Finished(NextProgress(StartProgress(parent.progress), success, chapterIndex))
    ensures var p := NextProgress(StartProgress(parent.progress), success, chapterIndex);
      var after := ParentAfter(tasks, parent, success, chapterIndex, children, now);
      parent.id in after && after[parent.id].status == FinalStatus(p.failed, p.completed)
  {
  }

  /** A parent that is not running is left untouched, finished or not. */
  lemma StoppedParentUntouched(tasks: map<string, TaskDoc>, parent: TaskDoc, success: bool, chapterIndex: int,
                               children: seq<TaskDoc>, now: Instant)
    requires !(parent.id in tasks && tasks[parent.id].status == Running)
    ensures ParentAfter(tasks, parent, success, chapterIndex, children, now) == tasks
  {
  }

  // ----------------------------------------------------------- event targets

  /** The parent of a single-summary child, whatever the parent's type. */
  function SummaryParent(tasks: map<string, TaskDoc>, taskType: string, childId: string): Option<TaskDoc>
  {
    if taskType != SingleSummaryTaskType then None else ParentOf(tasks, childId)
  }

  /** The chapterIndex property of a failed child's parameters, 0 when the
      parameters are null or do not hold one. */
  function FailedChapterIndex(parameters: Value): (n: int)
    ensures parameters == Null ==> n == 0
  {
    if parameters.Obj? && "chapterIndex" in parameters.fields && parameters.fields["chapterIndex"].Num?
    then parameters.fields["chapterIndex"].n
    else 0
  }

  // ---------------------------------------------------------- the aggregator

  class NextSummariesStateAggregator {
    const svc: TaskStateService
    const processedEventIds: ProcessedEventIds

    constructor (svc: TaskStateService)
      ensures this.svc == svc && fresh(processedEventIds) && processedEventIds.ids == {}
    {
      this.svc := svc;
      processedEventIds := new ProcessedEventIds();
    }

    /** onSingleSummaryTaskCompleted: a first delivery of a child's success, with a
        GenerateSingleSummaryResult, moves the parent at the result's index. */
    method OnSingleSummaryTaskCompleted(e: TaskCompletedEvent, children: seq<TaskDoc>, now: Instant)
      requires svc.repo.Valid()
      modifies processedEventIds, svc, svc.repo
      ensures svc.repo.Valid()
      ensures processedEventIds.ids == old(processedEventIds.ids) + {e.eventId}
      ensures
        var parent := SummaryParent(old(svc.repo.tasks), e.taskType, e.taskId);
        if e.eventId !in old(processedEventIds.ids) && parent.Some? && e.result.SingleSummaryResult? then
          svc.repo.tasks ==
            ParentAfter(old(svc.repo.tasks), parent.value, true, e.result.chapterIndex, children, now)
        else
          svc.repo.tasks == old(svc.repo.tasks) && svc.localProcessingTasks == old(svc.localProcessingTasks)
    {
      var firstTime := processedEventIds.CheckAndMark(e.eventId);
      if !firstTime {
        return;
      }
      var parent := SummaryParent(svc.repo.tasks, e.taskType, e.taskId);
      if parent.None? || !e.result.SingleSummaryResult? {
        return;
      }
      UpdateParentTaskProgress(parent.value, true, e.result.chapterIndex, children, now);
    }

    /** onSingleSummaryTaskFailed: a first delivery of a child's failure moves the
        parent at the child's chapterIndex parameter. */
    method OnSingleSummaryTaskFailed(e: TaskFailedEvent, children: seq<TaskDoc>, now: Instant)
      requires svc.repo.Valid()
      modifies processedEventIds, svc, svc.repo
      ensures svc.repo.Valid()
      ensures processedEventIds.ids == old(processedEventIds.ids) + {e.eventId}
      ensures
        var parent := SummaryParent(old(svc.repo.tasks), e.taskType, e.taskId);
        if e.eventId !in old(processedEventIds.ids) && parent.Some? then
          svc.repo.tasks == ParentAfter(old(svc.repo.tasks), parent.value, false,
                                        FailedChapterIndex(old(svc.repo.tasks)[e.taskId].parameters), children, now)
        else
          svc.repo.tasks == old(svc.repo.tasks) && svc.localProcessingTasks == old(svc.localProcessingTasks)
    {
      var firstTime := processedEventIds.CheckAndMark(e.eventId);
      if !firstTime {
        return;
      }
      var tasks := svc.repo.tasks;
      var parent := SummaryParent(tasks, e.taskType, e.taskId);
      if parent.None? {
        return;
      }
      UpdateParentTaskProgress(parent.value, false, FailedChapterIndex(tasks[e.taskId].parameters), children, now);
    }

    /** updateParentTaskProgress: record the progress; stop when that fails;
        finalise once every chapter is accounted for. */
    method UpdateParentTaskProgress(parent: TaskDoc, success: bool, chapterIndex: int, children: seq<TaskDoc>,
                                    now: Instant)
      requires svc.repo.Valid()
      modifies svc, svc.repo
      ensures svc.repo.Valid()
      ensures svc.repo.tasks == ParentAfter(old(svc.repo.tasks), parent, success, chapterIndex, children, now)
    {
      var p := NextProgress(StartProgress(parent.progress), success, chapterIndex);
      var updated := svc.RecordProgress(parent.id, ProgressValue(p));
      if updated.None? {
        return;
      }
      if Finished(p) {
        UpdateTaskFinalState(parent.id, p, children, now);
      }
    }

    /** updateTaskFinalState: complete the parent with the collected result, then
        set the final status. */
    method UpdateTaskFinalState(id: string, p: SummariesProgress, children: seq<TaskDoc>, now: Instant)
      requires svc.repo.Valid()
      modifies svc, svc.repo
      ensures svc.repo.Valid()
      ensures svc.repo.tasks ==
        CompletionRecorded(old(svc.repo.tasks), id,
                           ResultValue(FinalResult(p, NewChapterIds(children), FailedSteps(children))),
                           FinalStatus(p.failed, p.completed), now)
      ensures svc.localProcessingTasks == old(svc.localProcessingTasks) - {id}
    {
      var newChapterIds := CollectNewChapterIds(children);
      var failedSteps: seq<string> := [];
      if p.failed > 0 {
        failedSteps := CollectFailedSteps(children);
      }
      var result := FinalResult(p, newChapterIds, failedSteps);
      assert result == FinalResult(p, NewChapterIds(children), FailedSteps(children));
      var updated := CompleteAs(svc, id, ResultValue(result), FinalStatus(p.failed, p.completed), now);
    }
  }

  /** The loop over the children collecting new chapter ids. */
  method CollectNewChapterIds(children: seq<TaskDoc>) returns (ids: seq<string>)
    ensures ids == NewChapterIds(children)
  {
    ids := [];
    for i := 0 to |children|
      invariant ids == NewChapterIds(children[..i])
    {
      assert children[..i + 1][..i] == children[..i];
      ids := ids + NewChapterIdOf(children[i]);
    }
    assert children[..|children|] == children;
  }

  /** The loop over the children collecting failed steps. */
  method CollectFailedSteps(children: seq<TaskDoc>) returns (steps: seq<string>)
    ensures steps == FailedSteps(children)
  {
    steps := [];
    for i := 0 to |children|
      invariant steps == FailedSteps(children[..i])
    {
      assert children[..i + 1][..i] == children[..i];
      steps := steps + FailedStepOf(children[i]);
    }
    assert children[..|children|] == children;
  }
}
