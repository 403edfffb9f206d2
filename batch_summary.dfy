// BatchSummaryStateAggregator: each finished or failed scene-summary child moves
// the counters of its batch parent; once every scene is accounted for, the parent
// settles as completed, completed with errors, or a dead-lettered failure.
module BatchSummaryAggregation {
  import opened Wrappers
  import opened TaskModel
  import opened TaskState
  import opened Aggregation

  const SummaryTaskType: string := "GENERATE_SUMMARY"
  const BatchTaskType: string := "BATCH_GENERATE_SUMMARY"
  const ProgressClass: string := "BatchGenerateSummaryProgress"
  const ResultClass: string := "BatchGenerateSummaryResult"
  const UnknownError: string := "未知错误"
  const AllChildrenFailed: string := "所有子任务失败"

  /** BatchGenerateSummaryProgress. */
  datatype BatchProgress = BatchProgress(totalScenes: int, processedCount: int, successCount: int,
                                         failedCount: int, conflictCount: int, skippedCount: int)

  /** BatchGenerateSummaryResult. */
  datatype BatchResult = BatchResult(totalScenes: int, successCount: int, failedCount: int,
                                     conflictCount: int, skippedCount: int,
                                     failedSceneDetails: map<string, string>)

  /** What one child reports: a success, possibly a version conflict, or a failure
      with the failed scene and its message when the scene is known. */
  datatype ChildReport = Succeeded(conflict: bool) | ChildFailed(failedEntry: Option<(string, string)>)

  // ------------------------------------------------ the stored typed objects

  function ProgressValue(p: BatchProgress): Value
  {
    Obj(map["_class" := Str(ProgressClass),
            "totalScenes" := Num(p.totalScenes),
            "processedCount" := Num(p.processedCount),
            "successCount" := Num(p.successCount),
            "failedCount" := Num(p.failedCount),
            "conflictCount" := Num(p.conflictCount),
            "skippedCount" := Num(p.skippedCount)])
  }

  /** progress instanceof BatchGenerateSummaryProgress, and its properties. */
  function ProgressOf(v: Value): Option<BatchProgress>
  {
    if ClassTag(v) == Some(ProgressClass) then
      var f := v.fields;
      Some(BatchProgress(IntField(f, "totalScenes"), IntField(f, "processedCount"), IntField(f, "successCount"),
                         IntField(f, "failedCount"), IntField(f, "conflictCount"), IntField(f, "skippedCount")))
    else None
  }

  /** A stored progress object reads back as itself. */
  lemma ProgressRoundTrip(p: BatchProgress)
    ensures ProgressOf(ProgressValue(p)) == Some(p)
  {
  }

  function DetailsValue(details: map<string, string>): Value
  {
    Obj(map k | k in details :: Str(details[k]))
  }

  function DetailsOf(v: Value): map<string, string>
  {
    if v.Obj? then map k | k in v.fields && v.fields[k].Str? :: v.fields[k].s else map[]
  }

  function ResultValue(r: BatchResult): Value
  {
    Obj(map["_class" := Str(ResultClass),
            "totalScenes" := Num(r.totalScenes),
            "successCount" := Num(r.successCount),
            "failedCount" := Num(r.failedCount),
            "conflictCount" := Num(r.conflictCount),
            "skippedCount" := Num(r.skippedCount),
            "failedSceneDetails" := DetailsValue(r.failedSceneDetails)])
  }

  /** result instanceof BatchGenerateSummaryResult, and its properties. */
  function ResultOf(v: Value): Option<BatchResult>
  {
    if ClassTag(v) == Some(ResultClass) then
      var f := v.fields;
      Some(BatchResult(IntField(f, "totalScenes"), IntField(f, "successCount"), IntField(f, "failedCount"),
                       IntField(f, "conflictCount"), IntField(f, "skippedCount"),
                       if "failedSceneDetails" in f then DetailsOf(f["failedSceneDetails"]) else map[]))
    else None
  }

  /** A stored result object reads back as itself. */
  lemma ResultRoundTrip(r: BatchResult)
    ensures ResultOf(ResultValue(r)) == Some(r)
  {
    var f := ResultValue(r).fields;
    assert DetailsOf(f["failedSceneDetails"]) == r.failedSceneDetails;
  }

  // ----------------------------------------------------- the counter updates

  /** The progress the parent holds, or all zeros when it holds none. */
  function StartProgress(stored: Value): BatchProgress
  {
    ProgressOf(stored).GetOr(BatchProgress(0, 0, 0, 0, 0, 0))
  }

  /** The result the parent holds, or one with no counts that takes the total and
      the skips from the progress. */
  function StartResult(stored: Value, p: BatchProgress): BatchResult
  {
    ResultOf(stored).GetOr(BatchResult(p.totalScenes, 0, 0, 0, p.skippedCount, map[]))
  }

  /** The progress after one child reports. */
  function NextProgress(p: BatchProgress, report: ChildReport): (q: BatchProgress)
    ensures q.processedCount == p.processedCount + 1
    ensures q.totalScenes == p.totalScenes && q.skippedCount == p.skippedCount
    ensures q.successCount - p.successCount + q.failedCount - p.failedCount + q.conflictCount - p.conflictCount == 1
    ensures report.ChildFailed? <==> q.failedCount == p.failedCount + 1
    ensures report == Succeeded(true) <==> q.conflictCount == p.conflictCount + 1
    ensures report == Succeeded(false) <==> q.successCount == p.successCount + 1
  {
    var q := p.(processedCount := p.processedCount + 1);
    match report
    case Succeeded(conflict) =>
      if conflict then q.(conflictCount := p.conflictCount + 1) else q.(successCount := p.successCount + 1)
    case ChildFailed(_) => q.(failedCount := p.failedCount + 1)
  }

  /** The result after one child reports: the same counter moves, and a failure
      whose scene is known records that scene's message. */
  function NextResult(r: BatchResult, report: ChildReport): (s: BatchResult)
  {
    match report
    case Succeeded(conflict) =>
      if conflict then r.(conflictCount := r.conflictCount + 1) else r.(successCount := r.successCount + 1)
    case ChildFailed(entry) =>
      var details := if entry.Some? then r.failedSceneDetails[entry.value.0 := entry.value.1]
                     else r.failedSceneDetails;
      r.(failedCount := r.failedCount + 1, failedSceneDetails := details)
  }

  /** Every failure with a known scene is recorded under that scene, and no other
      entry changes. */
  lemma FailedSceneRecorded(r: BatchResult, report: ChildReport)
    ensures report.ChildFailed? && report.failedEntry.Some? ==>
      var (scene, message) := report.failedEntry.value;
      NextResult(r, report).failedSceneDetails == r.failedSceneDetails[scene := message]
    ensures !(report.ChildFailed? && report.failedEntry.Some?) ==>
      NextResult(r, report).failedSceneDetails == r.failedSceneDetails
    ensures NextResult(r, report).totalScenes == r.totalScenes
    ensures NextResult(r, report).skippedCount == r.skippedCount
  {
  }

  /** Every child is counted as exactly one success, conflict or failure. */
  predicate Tallied(p: BatchProgress)
  {
    p.processedCount == p.successCount + p.failedCount + p.conflictCount
  }

  /** The progress and the result count the same children. */
  predicate InStep(p: BatchProgress, r: BatchResult)
  {
    && r.totalScenes == p.totalScenes && r.skippedCount == p.skippedCount
    && r.successCount == p.successCount && r.failedCount == p.failedCount
    && r.conflictCount == p.conflictCount
  }

  /** A parent that holds neither progress nor result starts tallied and in step. */
  lemma FreshParentStartsInStep(progress: Value, result: Value)
    requires ProgressOf(progress).None? && ResultOf(result).None?
    ensures Tallied(StartProgress(progress))
    ensures InStep(StartProgress(progress), StartResult(result, StartProgress(progress)))
  {
  }

  /** Each report keeps the progress tallied and the result in step with it. */
  lemma ReportKeepsInStep(p: BatchProgress, r: BatchResult, report: ChildReport)
    requires Tallied(p) && InStep(p, r)
    ensures Tallied(NextProgress(p, report))
    ensures InStep(NextProgress(p, report), NextResult(r, report))
  {
  }

  /** Every scene is processed or skipped. */
  predicate Finished(p: BatchProgress)
  {
    p.processedCount + p.skippedCount >= p.totalScenes
  }

  /** A finished batch stays finished whatever is reported next. */
  lemma FinishedStaysFinished(p: BatchProgress, report: ChildReport)
    requires Finished(p)
    ensures Finished(NextProgress(p, report))
  {
  }

  /** The final status: FAILED when only failures were counted, COMPLETED_WITH_ERRORS
      when some failed, COMPLETED otherwise. */
  function BatchFinalStatus(p: BatchProgress): (s: TaskStatus)
    ensures s in {Completed, CompletedWithErrors, Failed}
    ensures s == Failed <==> p.failedCount > 0 && p.successCount + p.conflictCount == 0
    ensures s == CompletedWithErrors <==> p.failedCount > 0 && p.successCount + p.conflictCount != 0
    ensures s == Completed <==> p.failedCount <= 0
  {
    if p.failedCount > 0 && p.successCount + p.conflictCount == 0 then Failed
    else if p.failedCount > 0 then CompletedWithErrors
    else Completed
  }

  /** With non-negative counters the batch rule agrees with the rule the other
      aggregators use, counting conflicts as successes. */
  lemma BatchRuleIsSharedRule(p: BatchProgress)
    requires p.successCount >= 0 && p.conflictCount >= 0
    ensures BatchFinalStatus(p) == FinalStatus(p.failedCount, p.successCount + p.conflictCount)
  {
  }

  /** The error information of an all-failed batch. */
  function FailureInfo(failedCount: int): map<string, Value>
  {
    map["message" := Str(AllChildrenFailed), "failedCount" := Num(failedCount)]
  }

  // ------------------------------------------------ the status that is stored

  /** As written: a completed-with-errors batch is completed through
      recordCompletion, which stores COMPLETED; a failed one becomes a dead
      letter. */
  function StoredStatusAsWritten(final: TaskStatus): (s: TaskStatus)
    ensures final != Failed ==> s == Completed
    ensures final == Failed ==> s == DeadLetter
  {
    if final == Failed then DeadLetter else Completed
  }

  /** A batch with one success and one failure is reported completed although its
      final status is COMPLETED_WITH_ERRORS. */
  lemma PartialFailureStoredAsCompleted()
    ensures var p := NextProgress(BatchProgress(2, 1, 1, 0, 0, 0), ChildFailed(None));
      && Finished(p)
      && BatchFinalStatus(p) == CompletedWithErrors
      && StoredStatusAsWritten(BatchFinalStatus(p)) == Completed
  {
  }

  /** Corrected: the final status is stored as computed, as the other aggregators
      do by setting it after recordCompletion; a failed batch is a dead letter. */
  function StoredStatus(final: TaskStatus): (s: TaskStatus)
    ensures final != Failed ==> s == final
    ensures final == Failed ==> s == DeadLetter
  {
    if final == Failed then DeadLetter else final
  }

  /** With the correction, a settled batch shows a failure exactly when some child
      failed, and COMPLETED only when none did. */
  lemma StoredStatusShowsFailures(p: BatchProgress)
    ensures StoredStatus(BatchFinalStatus(p)) == Completed <==> p.failedCount <= 0
    ensures StoredStatus(BatchFinalStatus(p)) == CompletedWithErrors <==>
      p.failedCount > 0 && p.successCount + p.conflictCount != 0
    ensures StoredStatus(BatchFinalStatus(p)) == DeadLetter <==>
      p.failedCount > 0 && p.successCount + p.conflictCount == 0
  {
  }

  // ----------------------------------------------- the effect on the repository

  /** recordFailure(id, info, true) on a repository: any stored task becomes a dead
      letter with that error information. */
  function DeadLettered(tasks: map<string, TaskDoc>, id: string, info: map<string, Value>, now: Instant)
    : (t: map<string, TaskDoc>)
    ensures t.Keys == tasks.Keys
    ensures forall k :: k in tasks && k != id ==> t[k] == tasks[k]
    ensures id in tasks ==> t[id].status == DeadLetter && t[id].errorInfo == Some(info)
  {
    if id in tasks then
      tasks[id := tasks[id].(status := DeadLetter,
                             timestamps := tasks[id].timestamps[TimestampKey(DeadLetter) := now],
                             errorInfo := Some(info))]
    else tasks
  }

  /** The progress the parent reaches with this report. */
  function ReportedProgress(parent: TaskDoc, report: ChildReport): BatchProgress
  {
    NextProgress(StartProgress(parent.progress), report)
  }

  /** The result the parent reaches with this report. */
  function ReportedResult(parent: TaskDoc, report: ChildReport): BatchResult
  {
    NextResult(StartResult(parent.result, StartProgress(parent.progress)), report)
  }

  /** The settling step once the batch is finished, as written: a batch with
      errors is stored COMPLETED (see PartialFailureStoredAsCompleted). */
  function Settled(tasks: map<string, TaskDoc>, id: string, p: BatchProgress, r: BatchResult, now: Instant)
    : (t: map<string, TaskDoc>)
    ensures t.Keys == tasks.Keys
    ensures forall k :: k in tasks && k != id ==> t[k] == tasks[k]
  {
    var final := BatchFinalStatus(p);
    if final == Failed then DeadLettered(tasks, id, FailureInfo(p.failedCount), now)
    else CompletionRecorded(tasks, id, ResultValue(r), StoredStatusAsWritten(final), now)
  }

  /** updateParentTaskProgress on a repository: the progress is recorded, and a
      finished batch settles. */
  function ParentAfter(tasks: map<string, TaskDoc>, parent: TaskDoc, report: ChildReport, now: Instant)
    : (r: map<string, TaskDoc>)
    ensures r.Keys == tasks.Keys
    ensures forall k :: k in tasks && k != parent.id ==> r[k] == tasks[k]
  {
    var p := ReportedProgress(parent, report);
    var recorded := ProgressRecorded(tasks, parent.id, ProgressValue(p));
    if Finished(p) then Settled(recorded, parent.id, p, ReportedResult(parent, report), now) else recorded
  }

  /** A running parent that this report finishes leaves the running state: as
      written it is completed or a dead letter, never completed with errors. */
  lemma {:induction false} FinishingReportSettlesParent(tasks: map<string, TaskDoc>, parent: TaskDoc,
                                                        report: ChildReport, now: Instant)
    requires parent.id in tasks && tasks[parent.id].status == Running
    requires Finished(ReportedProgress(parent, report))
    ensures parent.id in ParentAfter(tasks, parent, report, now)
    ensures ParentAfter(tasks, parent, report, now)[parent.id].status ==
      StoredStatusAsWritten(BatchFinalStatus(ReportedProgress(parent, report)))
  {
    var p := ReportedProgress(parent, report);
    var recorded := ProgressRecorded(tasks, parent.id, ProgressValue(p));
    assert recorded[parent.id].status == Running;
    var final := BatchFinalStatus(p);
    if final == Failed {
      assert Settled(recorded, parent.id, p, ReportedResult(parent, report), now)[parent.id].status == DeadLetter;
    } else {
      assert Settled(recorded, parent.id, p, ReportedResult(parent, report), now)[parent.id].status == Completed;
    }
  }

  /** An unfinished batch only records progress: the parent keeps its status. */
  lemma UnfinishedParentKeepsStatus(tasks: map<string, TaskDoc>, parent: TaskDoc, report: ChildReport,
                                    now: Instant)
    requires parent.id in tasks && !Finished(ReportedProgress(parent, report))
    ensures parent.id in ParentAfter(tasks, parent, report, now)
    ensures ParentAfter(tasks, parent, report, now)[parent.id].status == tasks[parent.id].status
  {
  }

  // ----------------------------------------------------------- event targets

  /** (String) value: null stays null, a string passes, anything else throws. */
  function CastToString(v: Option<Value>): (r: Result<Option<string>>)
    ensures r.Ok? && r.value.Some? <==> v.Some? && v.value.Str?
  {
    match v
    case None => Ok(None)
    case Some(Null) => Ok(None)
    case Some(Str(s)) => Ok(Some(s))
    case Some(_) => Err(Exception(ClassCast, None, None, []))
  }

  function Lookup(m: map<string, Value>, key: string): Option<Value>
  {
    if key in m then Some(m[key]) else None
  }

  /** The failed scene and its message: read only when the event has error
      information, the scene from the child's parameters when they are a map with
      a "sceneId" entry, the message defaulting to "未知错误". A value that is not a
      string makes the cast throw. */
  function FailedEntry(childParameters: Value, errorInfo: Option<map<string, Value>>)
    : (r: Result<Option<(string, string)>>)
    ensures errorInfo.None? ==> r == Ok(None)
    ensures r.Ok? && r.value.Some? ==>
      && errorInfo.Some?
      && childParameters.Obj? && "sceneId" in childParameters.fields
      && childParameters.fields["sceneId"] == Str(r.value.value.0)
      && r.value.value.1 == (if "message" in errorInfo.value && errorInfo.value["message"].Str?
                             then errorInfo.value["message"].s else UnknownError)
  {
    match errorInfo
    case None => Ok(None)
    case Some(info) =>
      match CastToString(Lookup(info, "message"))
      case Err(e) => Err(e)
      case Ok(message) =>
        var scene := if childParameters.Obj? then CastToString(Lookup(childParameters.fields, "sceneId"))
                     else Ok(None);
        match scene
        case Err(e) => Err(e)
        case Ok(None) => Ok(None)
        case Ok(Some(id)) => Ok(Some((id, message.GetOr(UnknownError))))
  }

  /** The batch parent a summary child's event concerns, if any. */
  function BatchParent(tasks: map<string, TaskDoc>, taskType: string, childId: string): (r: Option<TaskDoc>)
    ensures r.Some? ==> taskType == SummaryTaskType && r.value.taskType == BatchTaskType
    ensures r.Some? ==> ParentOf(tasks, childId) == r
  {
    if taskType != SummaryTaskType then None
    else match ParentOf(tasks, childId)
      case None => None
      case Some(parent) => if parent.taskType == BatchTaskType then Some(parent) else None
  }

  /** The parent and report of a completion event the aggregator acts on. */
  function CompletionTarget(tasks: map<string, TaskDoc>, e: TaskCompletedEvent): Option<(TaskDoc, ChildReport)>
  {
    match BatchParent(tasks, e.taskType, e.taskId)
    case None => None
    case Some(parent) =>
      if e.result.SummaryResult? then Some((parent, Succeeded(e.result.conflict))) else None
  }

  /** The parent and report of a failure event the aggregator acts on. */
  function FailureTarget(tasks: map<string, TaskDoc>, e: TaskFailedEvent): Option<(TaskDoc, ChildReport)>
  {
    match BatchParent(tasks, e.taskType, e.taskId)
    case None => None
    case Some(parent) =>
      match FailedEntry(tasks[e.taskId].parameters, e.errorInfo)
      case Err(_) => None
      case Ok(entry) => Some((parent, ChildFailed(entry)))
  }

  // ---------------------------------------------------------- the aggregator

  class BatchSummaryStateAggregator {
    const svc: TaskStateService
    const processedEventIds: ProcessedEventIds

    constructor (svc: TaskStateService)
      ensures this.svc == svc && fresh(processedEventIds) && processedEventIds.ids == {}
    {
      this.svc := svc;
      processedEventIds := new ProcessedEventIds();
    }

    /** onSummaryTaskCompleted: a first delivery of a summary child's success moves
        its batch parent; anything else changes no task. */
    method OnSummaryTaskCompleted(e: TaskCompletedEvent, now: Instant)
      requires svc.repo.Valid()
      modifies processedEventIds, svc, svc.repo
      ensures svc.repo.Valid()
      ensures processedEventIds.ids == old(processedEventIds.ids) + {e.eventId}
      ensures
        var target := CompletionTarget(old(svc.repo.tasks), e);
        if e.eventId !in old(processedEventIds.ids) && target.Some? then
          var (parent, report) := target.value;
          && svc.repo.tasks == ParentAfter(old(svc.repo.tasks), parent, report, now)
          && svc.localProcessingTasks ==
            if Finished(ReportedProgress(parent, report)) then old(svc.localProcessingTasks) - {parent.id}
            else old(svc.localProcessingTasks)
        else
          svc.repo.tasks == old(svc.repo.tasks) && svc.localProcessingTasks == old(svc.localProcessingTasks)
    {
      var firstTime := processedEventIds.CheckAndMark(e.eventId);
      if !firstTime {
        return;
      }
      var tasks := svc.repo.tasks;
      var parent := BatchParent(tasks, e.taskType, e.taskId);
      if parent.None? || !e.result.SummaryResult? {
        return;
      }
      UpdateParentTaskProgress(parent.value, Succeeded(e.result.conflict), now);
    }

    /** onSummaryTaskFailed: a first delivery of a summary child's failure counts
        it, with its scene when known; anything else changes no task. */
    method OnSummaryTaskFailed(e: TaskFailedEvent, now: Instant)
      requires svc.repo.Valid()
      modifies processedEventIds, svc, svc.repo
      ensures svc.repo.Valid()
      ensures processedEventIds.ids == old(processedEventIds.ids) + {e.eventId}
      ensures
        var target := FailureTarget(old(svc.repo.tasks), e);
        if e.eventId !in old(processedEventIds.ids) && target.Some? then
          var (parent, report) := target.value;
          && svc.repo.tasks == ParentAfter(old(svc.repo.tasks), parent, report, now)
          && svc.localProcessingTasks ==
            if Finished(ReportedProgress(parent, report)) then old(svc.localProcessingTasks) - {parent.id}
            else old(svc.localProcessingTasks)
        else
          svc.repo.tasks == old(svc.repo.tasks) && svc.localProcessingTasks == old(svc.localProcessingTasks)
    {
      var firstTime := processedEventIds.CheckAndMark(e.eventId);
      if !firstTime {
        return;
      }
      var tasks := svc.repo.tasks;
      var parent := BatchParent(tasks, e.taskType, e.taskId);
      if parent.None? {
        return;
      }
      var entry := FailedEntry(tasks[e.taskId].parameters, e.errorInfo);
      if entry.Err? {
        return;
      }
      UpdateParentTaskProgress(parent.value, ChildFailed(entry.value), now);
    }

    /** updateParentTaskProgress: record the moved counters, then settle the
        parent when the batch is finished. */
    method UpdateParentTaskProgress(parent: TaskDoc, report: ChildReport, now: Instant)
      requires svc.repo.Valid()
      modifies svc, svc.repo
      ensures svc.repo.Valid()
      ensures svc.repo.tasks == ParentAfter(old(svc.repo.tasks), parent, report, now)
      ensures svc.localProcessingTasks ==
        if Finished(ReportedProgress(parent, report)) then old(svc.localProcessingTasks) - {parent.id}
        else old(svc.localProcessingTasks)
    {
      var p := NextProgress(StartProgress(parent.progress), report);
      var r := NextResult(StartResult(parent.result, StartProgress(parent.progress)), report);
      var updated := svc.RecordProgress(parent.id, ProgressValue(p));
      if Finished(p) {
        Settle(parent.id, p, r, now);
      }
    }

    /** A finished batch is completed through recordCompletion, which stores
        COMPLETED even when some scene failed; an all-failed batch becomes a dead
        letter. */
    method Settle(id: string, p: BatchProgress, r: BatchResult, now: Instant)
      requires svc.repo.Valid()
      modifies svc, svc.repo
      ensures svc.repo.Valid()
      ensures svc.repo.tasks == Settled(old(svc.repo.tasks), id, p, r, now)
      ensures svc.localProcessingTasks == old(svc.localProcessingTasks) - {id}
    {
      var final := BatchFinalStatus(p);
      if final == Completed || final == CompletedWithErrors {
        var completed := CompleteAs(svc, id, ResultValue(r), StoredStatusAsWritten(final), now);
      } else {
        var completed := svc.RecordFailure(id, Some(FailureInfo(p.failedCount)), true, now);
      }
    }
  }
}
