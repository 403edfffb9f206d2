// What the parent/child progress aggregators share: the events they listen to,
// the set of event ids already handled, the lookup from a child task to its
// parent, and the final status a finished parent takes.
module Aggregation {
  import opened Wrappers
  import opened TaskModel
  import opened TaskState

  /** The result object a child's completion event carries, by its class. The
      fields are the ones the aggregators read. */
  datatype ChildResult =
    | SummaryResult(conflict: bool)
    | SingleSummaryResult(chapterIndex: int, newChapterId: Option<string>)
    | NextSummariesResult(summariesGeneratedCount: int, newChapterIds: seq<string>)
    | ChapterContentResult(chapterIndex: int)
    | OtherResult
    | NoResult

  /** TaskCompletedEvent: a child task finished with a result. */
  datatype TaskCompletedEvent = TaskCompletedEvent(eventId: string, taskId: string, taskType: string, result: ChildResult)

  /** TaskFailedEvent: a child task failed; errorInfo may be null. */
  datatype TaskFailedEvent = TaskFailedEvent(eventId: string, taskId: string, taskType: string,
                                             errorInfo: Option<map<string, Value>>)

  /** The processedEventIds map of an aggregator, as the set of its keys. */
  class ProcessedEventIds {
    var ids: set<string>

    constructor ()
      ensures ids == {}
    {
      ids := {};
    }

    /** checkAndMarkEventProcessed: putIfAbsent(eventId) == null, so only the first
        call with an id answers true, and every call leaves the id marked. */
    method CheckAndMark(eventId: string) returns (firstTime: bool)
      modifies this
      ensures firstTime <==> eventId !in old(ids)
      ensures ids == old(ids) + {eventId}
    {
      firstTime := eventId !in ids;
      ids := ids + {eventId};
    }
  }

  /** The parent of a stored child that names a non-empty parent id, when that
      parent is stored too. */
  function ParentOf(tasks: map<string, TaskDoc>, childId: string): (r: Option<TaskDoc>)
    ensures r.Some? ==>
      && childId in tasks
      && tasks[childId].parentTaskId.Some?
      && tasks[childId].parentTaskId.value != ""
      && tasks[childId].parentTaskId.value in tasks
      && r.value == tasks[tasks[childId].parentTaskId.value]
  {
    if childId !in tasks then None
    else match tasks[childId].parentTaskId
      case None => None
      case Some(pid) => if pid == "" || pid !in tasks then None else Some(tasks[pid])
  }

  /** The class a typed object stored in an Object field carries, the way its
      stored document names it under "_class". */
  function ClassTag(v: Value): (r: Option<string>)
    ensures r.Some? ==> v.Obj? && "_class" in v.fields && v.fields["_class"] == Str(r.value)
  {
    if v.Obj? && "_class" in v.fields && v.fields["_class"].Str? then Some(v.fields["_class"].s) else None
  }

  /** An int property of a typed object: 0 when the document does not hold a
      number under that name. */
  function IntField(fields: map<string, Value>, name: string): (n: int)
    ensures name in fields && fields[name].Num? ==> n == fields[name].n
  {
    if name in fields && fields[name].Num? then fields[name].n else 0
  }

  /** recordProgress on a repository: only a running task takes the progress. */
  function ProgressRecorded(tasks: map<string, TaskDoc>, id: string, progress: Value): (t: map<string, TaskDoc>)
    ensures t.Keys == tasks.Keys
    ensures id in tasks && tasks[id].status == Running ==> t[id] == tasks[id].(progress := progress)
    ensures !(id in tasks && tasks[id].status == Running) ==> t == tasks
  {
    if id in tasks && tasks[id].status == Running then tasks[id := tasks[id].(progress := progress)] else tasks
  }

  /** The status a finished parent takes: COMPLETED without failures,
      COMPLETED_WITH_ERRORS when some children failed and some succeeded, and
      FAILED when only failures were counted. */
  function FinalStatus(failed: int, succeeded: int): (s: TaskStatus)
    ensures s == Completed <==> failed <= 0
    ensures s == CompletedWithErrors <==> failed > 0 && succeeded > 0
    ensures s == Failed <==> failed > 0 && succeeded <= 0
  {
    if failed > 0 then (if succeeded > 0 then CompletedWithErrors else Failed) else Completed
  }

  /** A running task as recordCompletion leaves it, after which the aggregator
      sets the final status and saves the task again: the final status, the
      result, the completion and final-status times, every other time kept. */
  function CompletedAs(d: TaskDoc, result: Value, final: TaskStatus, now: Instant): (c: TaskDoc)
    ensures c.status == final && c.result == result
    ensures c.timestamps.Keys == d.timestamps.Keys + {TimestampKey(Completed), TimestampKey(final)}
    ensures c.timestamps[TimestampKey(final)] == now
    ensures forall k :: k in d.timestamps && k != TimestampKey(Completed) && k != TimestampKey(final) ==>
      c.timestamps[k] == d.timestamps[k]
  {
    d.(status := final, result := result,
       timestamps := d.timestamps[TimestampKey(Completed) := now][TimestampKey(final) := now])
  }

  /** CompleteAs on a repository: only a running task completes. */
  function CompletionRecorded(tasks: map<string, TaskDoc>, id: string, result: Value, final: TaskStatus,
                              now: Instant): (t: map<string, TaskDoc>)
    ensures t.Keys == tasks.Keys
    ensures id in tasks && tasks[id].status == Running ==> t[id].status == final && t[id].result == result
    ensures !(id in tasks && tasks[id].status == Running) ==> t == tasks
  {
    if id in tasks && tasks[id].status == Running then tasks[id := CompletedAs(tasks[id], result, final, now)]
    else tasks
  }

  /** setStatus on a loaded task, then save: the status and its time change. */
  method SaveWithStatus(repo: TaskRepository, d: TaskDoc, s: TaskStatus, now: Instant) returns (saved: TaskDoc)
    requires repo.Valid()
    modifies repo
    ensures saved == d.(status := s, timestamps := d.timestamps[TimestampKey(s) := now])
    ensures repo.tasks == old(repo.tasks)[d.id := saved] && repo.Valid()
  {
    var task := new BackgroundTask.Load(d);
    task.SetStatus(s, now);
    saved := task.Doc();
    repo.Save(saved);
  }

  /** recordCompletion, then setStatus(finalStatus) and save on the returned task.
      A task that is not running is left as it is. */
  method CompleteAs(svc: TaskStateService, taskId: string, result: Value, final: TaskStatus, now: Instant)
    returns (r: Option<TaskDoc>)
    requires svc.repo.Valid()
    modifies svc, svc.repo
    ensures svc.repo.Valid()
    ensures r.Some? <==> taskId in old(svc.repo.tasks) && old(svc.repo.tasks[taskId].status) == Running
    ensures r.Some? ==> r.value == CompletedAs(old(svc.repo.tasks[taskId]), result, final, now)
    ensures svc.repo.tasks == CompletionRecorded(old(svc.repo.tasks), taskId, result, final, now)
    ensures svc.localProcessingTasks == old(svc.localProcessingTasks) - {taskId}
  {
    ghost var tasks := svc.repo.tasks;
    var updated := svc.RecordCompletion(taskId, result, now);
    if updated.None? {
      assert CompletionRecorded(tasks, taskId, result, final, now) == tasks;
      return None;
    }
    assert taskId in tasks && tasks[taskId].status == Running;
    ghost var d := tasks[taskId];
    assert updated.value == d.(status := Completed, timestamps := d.timestamps[TimestampKey(Completed) := now],
                               result := result);
    var saved := SaveWithStatus(svc.repo, updated.value, final, now);
    assert saved == CompletedAs(d, result, final, now);
    assert svc.repo.tasks == tasks[taskId := saved];
    r := Some(saved);
  }
}
