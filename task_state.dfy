// TaskStateServiceImpl: the status transitions of stored background tasks. Each
// update reads the task's document, changes the loaded BackgroundTask through its
// setters, and saves it back; an update that declines writes nothing.
module TaskState {
  import opened Wrappers
  import opened TaskModel

  /** BackgroundTaskRepository: the stored task documents, keyed by their id. */
  class TaskRepository {
    var tasks: map<string, TaskDoc>

    predicate Valid()
      reads this
    {
      forall k :: k in tasks ==> tasks[k].id == k
    }

    constructor (initial: map<string, TaskDoc>)
      requires forall k :: k in initial ==> initial[k].id == k
      ensures tasks == initial && Valid()
    {
      tasks := initial;
    }

    function FindById(id: string): (r: Option<TaskDoc>)
      reads this
      ensures r.Some? <==> id in tasks
      ensures r.Some? ==> r.value == tasks[id]
    {
      if id in tasks then Some(tasks[id]) else None
    }

    /** save: the document replaces whatever was stored under its id. */
    method Save(d: TaskDoc)
      requires Valid()
      modifies this
      ensures tasks == old(tasks)[d.id := d] && Valid()
    {
      tasks := tasks[d.id := d];
    }
  }

  // --------------------------------------------------- sub-task summary counts

  /** summary.values().stream().sum(), ignoring int overflow. */
  ghost function SumValues(m: map<string, int>): int
    decreases |m|
  {
    if m == map[] then 0
    else
      var k :| k in m;
      m[k] + SumValues(m - {k})
  }

  /** The sum does not depend on the order in which the keys are taken. */
  lemma {:induction false} SumRemove(m: map<string, int>, k: string)
    requires k in m
    ensures SumValues(m) == m[k] + SumValues(m - {k})
    decreases |m|
  {
    var j :| j in m && SumValues(m) == m[j] + SumValues(m - {j});
    if j != k {
      assert |m - {j}| < |m|;
      assert |m - {k}| < |m|;
      SumRemove(m - {j}, k);
      SumRemove(m - {k}, j);
      assert (m - {j}) - {k} == (m - {k}) - {j};
    }
  }

  /** Adding delta to one counter adds delta to the total. */
  lemma SumAddToKey(m: map<string, int>, k: string, delta: int)
    ensures SumValues(m[k := GetOrZero(m, k) + delta]) == SumValues(m) + delta
  {
    var m' := m[k := GetOrZero(m, k) + delta];
    SumRemove(m', k);
    if k in m {
      SumRemove(m, k);
      assert m' - {k} == m - {k};
    } else {
      assert m' - {k} == m;
    }
  }

  /** The stream sum of the counters, one key at a time. */
  method SumOfValues(m: map<string, int>) returns (total: int)
    ensures total == SumValues(m)
  {
    total := 0;
    var rest := m;
    while rest != map[]
      invariant total + SumValues(rest) == SumValues(m)
      decreases |rest|
    {
      var k :| k in rest;
      SumRemove(rest, k);
      total := total + rest[k];
      rest := rest - {k};
    }
  }

  /** The expected number of sub-tasks: progress.totalSubTasks when progress is a
      map holding a number there, otherwise -1 (a missing key, a non-map progress
      and a failed cast all leave it at -1). */
  function ExpectedTotal(progress: Value): (n: int)
    ensures n != -1 ==>
      progress.Obj? && "totalSubTasks" in progress.fields && progress.fields["totalSubTasks"] == Num(n)
  {
    if progress.Obj? && "totalSubTasks" in progress.fields && progress.fields["totalSubTasks"].Num?
    then progress.fields["totalSubTasks"].n
    else -1
  }

  /** The status a parent takes once all expected sub-tasks have reported. */
  function SettledStatus(failed: int, expected: int): (s: TaskStatus)
    ensures s == Completed <==> failed == 0
    ensures s == CompletedWithErrors <==> failed != 0 && failed < expected
    ensures s == Failed <==> failed != 0 && failed >= expected
  {
    if failed == 0 then Completed
    else if failed < expected then CompletedWithErrors
    else Failed
  }

  function GetOrZero(m: map<string, int>, k: string): int
  {
    if k in m then m[k] else 0
  }

  /** A parent task after one sub-task report: the counter moves by delta; after a
      "completed" or "failed" report whose counters reach a positive expected
      total, the parent settles. */
  ghost function SummaryReported(d: TaskDoc, statusKey: string, delta: int, now: Instant): TaskDoc
  {
    var summary := d.subTaskStatusSummary[statusKey := GetOrZero(d.subTaskStatusSummary, statusKey) + delta];
    var expected := ExpectedTotal(d.progress);
    var s := SettledStatus(GetOrZero(summary, "failed"), expected);
    if (statusKey == "completed" || statusKey == "failed") && expected > 0 && SumValues(summary) >= expected
    then d.(subTaskStatusSummary := summary, status := s, timestamps := d.timestamps[TimestampKey(s) := now])
    else d.(subTaskStatusSummary := summary)
  }

  /** A report changes the parent's status only when it is a "completed" or
      "failed" report that brings the counters, old total plus delta, up to a
      positive expected total. */
  lemma SettlesOnlyWhenAllReported(d: TaskDoc, statusKey: string, delta: int, now: Instant)
    ensures SummaryReported(d, statusKey, delta, now).status != d.status ==>
      && (statusKey == "completed" || statusKey == "failed")
      && 0 < ExpectedTotal(d.progress) <= SumValues(d.subTaskStatusSummary) + delta
  {
    var summary := d.subTaskStatusSummary[statusKey := GetOrZero(d.subTaskStatusSummary, statusKey) + delta];
    var expected := ExpectedTotal(d.progress);
    var settles := (statusKey == "completed" || statusKey == "failed") && expected > 0 && SumValues(summary) >= expected;
    if !settles {
      assert SummaryReported(d, statusKey, delta, now) == d.(subTaskStatusSummary := summary);
    } else {
      SumAddToKey(d.subTaskStatusSummary, statusKey, delta);
    }
  }

  // ------------------------------------------------------------- the service

  class TaskStateService {
    const repo: TaskRepository
    /** The host name and start time that stand in for a missing node id. */
    const hostIdentifier: string
    /** localProcessingTasks: ids of the tasks this node has started and not yet
        finished. */
    var localProcessingTasks: set<string>

    constructor (repo: TaskRepository, hostIdentifier: string)
      ensures this.repo == repo && this.hostIdentifier == hostIdentifier
      ensures localProcessingTasks == {}
    {
      this.repo := repo;
      this.hostIdentifier := hostIdentifier;
      localProcessingTasks := {};
    }

    /** createTask: a queued task with the given parent, saved. */
    method CreateTask(id: string, userId: string, taskType: string, parameters: Value,
                      parentTaskId: Option<string>, now: Instant) returns (saved: TaskDoc)
      requires repo.Valid()
      modifies repo
      ensures saved == NewTaskDoc(id, userId, taskType, parameters, now).(parentTaskId := parentTaskId)
      ensures repo.tasks == old(repo.tasks)[id := saved] && repo.Valid()
    {
      var task := new BackgroundTask(id, userId, taskType, parameters, now);
      task.SetParentTaskId(parentTaskId);
      saved := task.Doc();
      repo.Save(saved);
    }

    /** trySetRunning: only a queued or retrying task starts; it then runs on the
        given node, or on this host when no node is named. */
    method TrySetRunning(taskId: string, executionNodeId: Option<string>, now: Instant) returns (ok: bool)
      requires repo.Valid()
      modifies repo, this
      ensures repo.Valid()
      ensures ok <==> taskId in old(repo.tasks) && old(repo.tasks[taskId].status) in {Queued, Retrying}
      ensures !ok ==> repo.tasks == old(repo.tasks) && localProcessingTasks == old(localProcessingTasks)
      ensures ok ==>
        var d := old(repo.tasks[taskId]);
        repo.tasks == old(repo.tasks)[taskId := d.(
          status := Running,
          timestamps := d.timestamps[TimestampKey(Running) := now],
          executionNodeId := Some(executionNodeId.GetOr(hostIdentifier)),
          lastAttemptTimestamp := Some(now))]
        && localProcessingTasks == old(localProcessingTasks) + {taskId}
    {
      var found := repo.FindById(taskId);
      if found.None? {
        return false;
      }
      if found.value.status != Queued && found.value.status != Retrying {
        return false;
      }
      var task := new BackgroundTask.Load(found.value);
      task.SetStatus(Running, now);
      task.SetExecutionNodeId(Some(if executionNodeId.Some? then executionNodeId.value else hostIdentifier));
      task.SetLastAttemptTimestamp(Some(now));
      localProcessingTasks := localProcessingTasks + {taskId};
      repo.Save(task.Doc());
      ok := true;
    }

    /** recordProgress: stores the progress of a running task. */
    method RecordProgress(taskId: string, progress: Value) returns (r: Option<TaskDoc>)
      requires repo.Valid()
      modifies repo
      ensures repo.Valid()
      ensures r.Some? <==> taskId in old(repo.tasks) && old(repo.tasks[taskId].status) == Running
      ensures r.None? ==> repo.tasks == old(repo.tasks)
      ensures r.Some? ==>
        r.value == old(repo.tasks[taskId]).(progress := progress) && repo.tasks == old(repo.tasks)[taskId := r.value]
    {
      var found := repo.FindById(taskId);
      if found.None? || found.value.status != Running {
        return None;
      }
      var task := new BackgroundTask.Load(found.value);
      task.SetProgress(progress);
      repo.Save(task.Doc());
      r := Some(task.Doc());
    }

    /** recordCompletion: a running task completes with its result; the task leaves
        the local processing set whatever the outcome. */
    method RecordCompletion(taskId: string, result: Value, now: Instant) returns (r: Option<TaskDoc>)
      requires repo.Valid()
      modifies repo, this
      ensures repo.Valid()
      ensures r.Some? <==> taskId in old(repo.tasks) && old(repo.tasks[taskId].status) == Running
      ensures r.None? ==> repo.tasks == old(repo.tasks)
      ensures r.Some? ==>
        var d := old(repo.tasks[taskId]);
        r.value == d.(status := Completed, timestamps := d.timestamps[TimestampKey(Completed) := now], result := result)
        && repo.tasks == old(repo.tasks)[taskId := r.value]
      ensures localProcessingTasks == old(localProcessingTasks) - {taskId}
    {
      var found := repo.FindById(taskId);
      if found.Some? && found.value.status == Running {
        var task := new BackgroundTask.Load(found.value);
        task.SetStatus(Completed, now);
        task.SetResult(result);
        repo.Save(task.Doc());
        r := Some(task.Doc());
      } else {
        r := None;
      }
      localProcessingTasks := localProcessingTasks - {taskId};
    }

    /** recordFailure: any stored task fails, as a dead letter when asked to. */
    method RecordFailure(taskId: string, errorInfo: Option<map<string, Value>>, isDeadLetter: bool, now: Instant)
      returns (r: Option<TaskDoc>)
      requires repo.Valid()
      modifies repo, this
      ensures repo.Valid()
      ensures r.Some? <==> taskId in old(repo.tasks)
      ensures r.None? ==> repo.tasks == old(repo.tasks)
      ensures r.Some? ==>
        var d := old(repo.tasks[taskId]);
        var s := if isDeadLetter then DeadLetter else Failed;
        r.value == d.(status := s, timestamps := d.timestamps[TimestampKey(s) := now], errorInfo := errorInfo)
        && repo.tasks == old(repo.tasks)[taskId := r.value]
      ensures localProcessingTasks == old(localProcessingTasks) - {taskId}
    {
      var found := repo.FindById(taskId);
      if found.Some? {
        var task := new BackgroundTask.Load(found.value);
        var s := if isDeadLetter then DeadLetter else Failed;
        task.SetStatus(s, now);
        task.SetErrorInfo(errorInfo);
        repo.Save(task.Doc());
        r := Some(task.Doc());
      } else {
        r := None;
      }
      localProcessingTasks := localProcessingTasks - {taskId};
    }

    /** recordRetrying: any stored task goes back to retrying, one retry further on. */
    method RecordRetrying(taskId: string, errorInfo: Option<map<string, Value>>, nextAttempt: Option<Instant>,
                          now: Instant) returns (r: Option<TaskDoc>)
      requires repo.Valid()
      modifies repo
      ensures repo.Valid()
      ensures r.Some? <==> taskId in old(repo.tasks)
      ensures r.None? ==> repo.tasks == old(repo.tasks)
      ensures r.Some? ==>
        var d := old(repo.tasks[taskId]);
        r.value == d.(status := Retrying, timestamps := d.timestamps[TimestampKey(Retrying) := now],
                      errorInfo := errorInfo, nextAttemptTimestamp := nextAttempt, retryCount := d.retryCount + 1)
        && repo.tasks == old(repo.tasks)[taskId := r.value]
    {
      var found := repo.FindById(taskId);
      if found.None? {
        return None;
      }
      var task := new BackgroundTask.Load(found.value);
      task.SetStatus(Retrying, now);
      task.SetErrorInfo(errorInfo);
      task.SetNextAttemptTimestamp(nextAttempt);
      task.IncrementRetryCount();
      repo.Save(task.Doc());
      r := Some(task.Doc());
    }

    /** updateSubTaskStatusSummary: adds delta to one counter; after a "completed"
        or "failed" report, a parent whose counters reach the expected total
        settles. */
    method UpdateSubTaskStatusSummary(parentTaskId: string, statusKey: string, delta: int, now: Instant)
      returns (r: Option<TaskDoc>)
      requires repo.Valid()
      modifies repo
      ensures repo.Valid()
      ensures r.Some? <==> parentTaskId in old(repo.tasks)
      ensures r.None? ==> repo.tasks == old(repo.tasks)
      ensures r.Some? ==>
        r.value == SummaryReported(old(repo.tasks[parentTaskId]), statusKey, delta, now)
        && repo.tasks == old(repo.tasks)[parentTaskId := r.value]
    {
      var found := repo.FindById(parentTaskId);
      if found.None? {
        return None;
      }
      ghost var d := found.value;
      var task := new BackgroundTask.Load(found.value);
      var summary := task.subTaskStatusSummary;
      var currentCount := GetOrZero(summary, statusKey);
      summary := summary[statusKey := currentCount + delta];
      task.SetSubTaskStatusSummary(summary);
      assert task.Doc() == d.(subTaskStatusSummary := summary);
      if statusKey == "completed" || statusKey == "failed" {
        var totalSubTasks := SumOfValues(summary);
        var failedTasks := GetOrZero(summary, "failed");
        var expectedTotal := ExpectedTotal(task.progress);
        if expectedTotal > 0 && totalSubTasks >= expectedTotal {
          // the if-chain COMPLETED / COMPLETED_WITH_ERRORS / FAILED
          task.SetStatus(SettledStatus(failedTasks, expectedTotal), now);
        }
      }
      assert task.Doc() == SummaryReported(d, statusKey, delta, now);
      repo.Save(task.Doc());
      r := Some(task.Doc());
    }

    function FindById(taskId: string): (r: Option<TaskDoc>)
      reads this, repo
      ensures r == repo.FindById(taskId)
    {
      repo.FindById(taskId)
    }

    /** findByIdAndUserId: the task, only when it belongs to the user. */
    function FindByIdAndUserId(taskId: string, userId: string): (r: Option<TaskDoc>)
      reads this, repo
      ensures r.Some? <==> taskId in repo.tasks && repo.tasks[taskId].userId == userId
      ensures r.Some? ==> r.value == repo.tasks[taskId]
    {
      match repo.FindById(taskId)
      case None => None
      case Some(t) => if t.userId == userId then Some(t) else None
    }

    /** cancelTask: a completed, failed or dead-lettered task stays as it is; any
        other stored task is cancelled. */
    method CancelTask(taskId: string, now: Instant) returns (r: Option<TaskDoc>)
      requires repo.Valid()
      modifies repo
      ensures repo.Valid()
      ensures r.Some? <==>
        taskId in old(repo.tasks) && old(repo.tasks[taskId].status) !in {Completed, Failed, DeadLetter}
      ensures r.None? ==> repo.tasks == old(repo.tasks)
      ensures r.Some? ==>
        var d := old(repo.tasks[taskId]);
        r.value == d.(status := Cancelled, timestamps := d.timestamps[TimestampKey(Cancelled) := now])
        && repo.tasks == old(repo.tasks)[taskId := r.value]
    {
      var found := repo.FindById(taskId);
      if found.None? {
        return None;
      }
      var s := found.value.status;
      if s == Completed || s == Failed || s == DeadLetter {
        return None;
      }
      var task := new BackgroundTask.Load(found.value);
      task.SetStatus(Cancelled, now);
      repo.Save(task.Doc());
      r := Some(task.Doc());
    }
  }
}
