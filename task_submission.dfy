// TaskSubmissionServiceImpl: submitting a task (store it queued, then hand its
// message to the broker), reading a task's status view, and cancelling by id.
module TaskSubmission {
  import opened Wrappers
  import opened JStrings
  import opened TaskModel
  import opened TaskState

  /** What the call to sendTask came to: it reported success, it reported
      failure by returning false (the producer catches AmqpException itself), or
      some other exception escaped it. */
  datatype SendOutcome = Sent | NotSent | SendThrew(error: Exception)

  /** e.getMessage() as string concatenation renders it. */
  function MessageText(e: Exception): string
  {
    e.message.GetOr("null")
  }

  /** The task a submission stores before sending: queued, no retries, a timestamps
      map holding only its creation time, and the given parent. */
  function QueuedTask(taskId: string, userId: string, taskType: string, parameters: Value,
                      parentTaskId: Option<string>, now: Instant): (d: TaskDoc)
    ensures d.id == taskId && d.userId == userId && d.taskType == taskType && d.parameters == parameters
    ensures d.status == Queued && d.retryCount == 0 && d.timestamps == map["created" := now]
    ensures d.parentTaskId == parentTaskId && d.errorInfo.None? && d.result == Null && d.progress == Null
  {
    NewTaskDoc(taskId, userId, taskType, parameters, now).(parentTaskId := parentTaskId)
  }

  /** The stored task and the caller's result once the message send is known. */
  datatype Submitted = Submitted(stored: TaskDoc, result: Result<string>)

  const SendFailedMessage: string := "发送任务消息失败"

  /** The error details of a failed send, and the task marked failed with them. */
  function FailedSend(queued: TaskDoc, errorInfo: map<string, Value>, cause: Option<Exception>, now: Instant): (s: Submitted)
    ensures s.stored.status == Failed && s.stored.errorInfo == Some(errorInfo)
    ensures s.result == Err(Exception(Runtime, Some(SendFailedMessage), cause, []))
  {
    Submitted(queued.(errorInfo := Some(errorInfo), status := Failed,
                      timestamps := queued.timestamps[TimestampKey(Failed) := now]),
              Err(Exception(Runtime, Some(SendFailedMessage), cause, [])))
  }

  function ThrownSendInfo(e: Exception, timestamp: string): map<string, Value>
  {
    map["message" := Str("消息发送失败: " + MessageText(e)), "exception" := Str(e.kind.ClassName()),
        "timestamp" := Str(timestamp)]
  }

  /** submitTask after the save, as written: only an exception escaping sendTask
      marks the task failed; a send that returns false is not looked at. */
  function SubmitAsWritten(queued: TaskDoc, send: SendOutcome, now: Instant, timestamp: string): (s: Submitted)
    ensures s.result.Ok? <==> !send.SendThrew?
    ensures s.result.Ok? ==> s.result.value == queued.id && s.stored == queued
    ensures send.SendThrew? ==> s.stored.status == Failed && s.stored.errorInfo == Some(ThrownSendInfo(send.error, timestamp))
  {
    match send
    case SendThrew(e) => FailedSend(queued, ThrownSendInfo(e, timestamp), Some(e), now)
    case _ => Submitted(queued, Ok(queued.id))
  }

  /** A broker failure reported by sendTask's false result leaves the task queued
      and the submission reported as accepted, although no message was sent. */
  lemma UnsentTaskReportedSubmitted(queued: TaskDoc, now: Instant, timestamp: string)
    requires queued.status == Queued
    ensures SubmitAsWritten(queued, NotSent, now, timestamp).result == Ok(queued.id)
    ensures SubmitAsWritten(queued, NotSent, now, timestamp).stored.status == Queued
  {
  }

  /** The error details recorded when sendTask reports that it could not send. */
  function UnsentInfo(timestamp: string): map<string, Value>
  {
    map["message" := Str("消息发送失败"), "exception" := Str(Amqp.ClassName()), "timestamp" := Str(timestamp)]
  }

  /** submitTask after the save, corrected: a send that did not happen, whether
      reported by false or by an exception, marks the task failed. */
  function Submit(queued: TaskDoc, send: SendOutcome, now: Instant, timestamp: string): (s: Submitted)
    ensures s.result.Ok? <==> send == Sent
    ensures s.result.Ok? ==> s.result.value == queued.id && s.stored == queued
    ensures send != Sent ==> s.stored.status == Failed && s.result.Err? && s.result.error.kind == Runtime
  {
    if send == Sent then Submitted(queued, Ok(queued.id))
    else FailedSend(queued, SendErrorInfo(send, timestamp), SendCause(send), now)
  }

  /** The error details recorded for a send that did not happen. */
  function SendErrorInfo(send: SendOutcome, timestamp: string): map<string, Value>
  {
    if send.SendThrew? then ThrownSendInfo(send.error, timestamp) else UnsentInfo(timestamp)
  }

  /** The exception a failed submission is caused by, if one was thrown. */
  function SendCause(send: SendOutcome): Option<Exception>
  {
    if send.SendThrew? then Some(send.error) else None
  }

  /** The correction changes nothing except for a send reported as failed. */
  lemma SubmitDiffersOnlyWhenNotSent(queued: TaskDoc, send: SendOutcome, now: Instant, timestamp: string)
    ensures send != NotSent <==> Submit(queued, send, now, timestamp) == SubmitAsWritten(queued, send, now, timestamp)
  {
    if send == NotSent {
      assert Submit(queued, send, now, timestamp).result.Err?;
    }
  }

  // ------------------------------------------------------------ status view

  /** The text a timestamp is shown as (Instant.toString, here the instant itself). */
  function InstantValue(t: Instant): Value { Num(t) }

  /** Object.toString of an error message value. */
  function ValueText(v: Value): string
  {
    match v
    case Str(s) => s
    case Num(n) => IntToString(n)
    case Bool(b) => if b then "true" else "false"
    case _ => ""
  }

  function TimestampsNode(ts: map<string, Instant>): (node: map<string, Value>)
    ensures node.Keys == ts.Keys
    ensures forall k :: k in ts ==> node[k] == InstantValue(ts[k])
  {
    map k | k in ts :: InstantValue(ts[k])
  }

  /** The JSON object taskToJsonResponse builds, one field per key; None is a
      key the object leaves out. */
  datatype TaskView = TaskView(
    taskId: string,
    userId: string,
    taskType: string,
    status: string,
    timestamps: map<string, Value>,
    createdAt: Option<Value>,
    startedAt: Option<Value>,
    completedAt: Option<Value>,
    errorInfo: Option<map<string, Value>>,
    errorMessage: Option<string>,
    result: Option<Value>,
    parameters: Option<Value>,
    progress: Option<Value>,
    parentTaskId: Option<string>,
    retryCount: int,
    executionNodeId: Option<string>)

  /** A stored key's instant, if the key is there. */
  function StampAt(ts: map<string, Instant>, key: string): (v: Option<Value>)
    ensures v.Some? <==> key in ts
    ensures v.Some? ==> v.value == InstantValue(ts[key])
  {
    if key in ts then Some(InstantValue(ts[key])) else None
  }

  function Present(v: Value): (r: Option<Value>)
    ensures r.Some? <==> v != Null
    ensures r.Some? ==> r.value == v
  {
    if v == Null then None else Some(v)
  }

  /** errorMessage: the text of errorInfo's message, when there is one. */
  function ErrorMessageOf(errorInfo: Option<map<string, Value>>): (m: Option<string>)
    ensures m.Some? <==> errorInfo.Some? && "message" in errorInfo.value && errorInfo.value["message"] != Null
    ensures m.Some? ==> m.value == ValueText(errorInfo.value["message"])
  {
    if errorInfo.Some? && "message" in errorInfo.value && errorInfo.value["message"] != Null
    then Some(ValueText(errorInfo.value["message"]))
    else None
  }

  /** taskToJsonResponse: the task's fields, with the creation, start and
      completion times also under createdAt, startedAt and completedAt, and the
      error message under errorMessage; absent values are left out. */
  function TaskResponse(d: TaskDoc): (r: TaskView)
    ensures r.taskId == d.id && r.userId == d.userId && r.status == d.status.Name() && r.retryCount == d.retryCount
    ensures r.timestamps.Keys == d.timestamps.Keys
    ensures r.startedAt.Some? <==> "running" in d.timestamps
    ensures r.completedAt.Some? <==> "completed" in d.timestamps
    ensures r.startedAt.Some? ==> r.startedAt.value == InstantValue(d.timestamps["running"])
    ensures r.completedAt.Some? ==> r.completedAt.value == InstantValue(d.timestamps["completed"])
    ensures r.errorMessage.Some? ==> d.errorInfo.Some?
    ensures r.result.Some? <==> d.result != Null
  {
    TaskView(d.id, d.userId, d.taskType, d.status.Name(), TimestampsNode(d.timestamps),
             StampAt(d.timestamps, "created"), StampAt(d.timestamps, "running"), StampAt(d.timestamps, "completed"),
             d.errorInfo, ErrorMessageOf(d.errorInfo), Present(d.result), Present(d.parameters), Present(d.progress),
             d.parentTaskId, d.retryCount, d.executionNodeId)
  }

  /** A task that has been started shows when under startedAt, and one that has
      completed under completedAt: the keys setStatus writes are the ones the
      view reads. */
  lemma StartAndCompletionShown(d: TaskDoc, started: Instant, completed: Instant)
    ensures var run := d.(status := Running, timestamps := d.timestamps[TimestampKey(Running) := started]);
      TaskResponse(run).startedAt == Some(InstantValue(started))
    ensures var done := d.(status := Completed, timestamps := d.timestamps[TimestampKey(Completed) := completed]);
      TaskResponse(done).completedAt == Some(InstantValue(completed))
  {
  }

  /** A failed submission shows its error message. */
  lemma FailedSubmissionShowsError(queued: TaskDoc, e: Exception, now: Instant, timestamp: string)
    ensures TaskResponse(Submit(queued, SendThrew(e), now, timestamp).stored).errorMessage
      == Some("消息发送失败: " + MessageText(e))
  {
  }

  // ---------------------------------------------------------------- service

  predicate Cancellable(s: TaskStatus)
  {
    s == Queued || s == Running || s == Retrying
  }

  class TaskSubmissionService {
    const repo: TaskRepository

    constructor (repo: TaskRepository)
      ensures this.repo == repo
    {
      this.repo := repo;
    }

    /** submitTask: null arguments are refused before anything is stored; the
        task is saved queued, then its message is sent, and only an exception
        from the send marks the stored task failed and fails the call (a send
        that returns false goes unnoticed, see UnsentTaskReportedSubmitted). The
        task id is the freshly generated UUID. */
    method SubmitTask(userId: Option<string>, taskType: Option<string>, parameters: Value,
                      parentTaskId: Option<string>, taskId: string, now: Instant, send: SendOutcome,
                      timestamp: string) returns (r: Result<string>)
      requires repo.Valid()
      modifies repo
      ensures repo.Valid()
      ensures userId.None? ==> r == Err(Thrown(NullPointer, "用户ID不能为空"))
      ensures userId.Some? && taskType.None? ==> r == Err(Thrown(NullPointer, "任务类型不能为空"))
      ensures userId.Some? && taskType.Some? && parameters == Null ==> r == Err(Thrown(NullPointer, "任务参数不能为空"))
      ensures userId.None? || taskType.None? || parameters == Null ==> repo.tasks == old(repo.tasks)
      ensures userId.Some? && taskType.Some? && parameters != Null ==>
        var s := SubmitAsWritten(QueuedTask(taskId, userId.value, taskType.value, parameters, parentTaskId, now), send, now, timestamp);
        r == s.result && repo.tasks == old(repo.tasks)[taskId := s.stored]
    {
      if userId.None? {
        return Err(Thrown(NullPointer, "用户ID不能为空"));
      }
      if taskType.None? {
        return Err(Thrown(NullPointer, "任务类型不能为空"));
      }
      if parameters == Null {
        return Err(Thrown(NullPointer, "任务参数不能为空"));
      }
      r := SaveAndSend(userId.value, taskType.value, parameters, parentTaskId, taskId, now, send, timestamp);
    }

    /** The rest of submitTask once its arguments are checked: the queued task is
        saved, then its message is sent; an exception from the send marks the
        stored task failed and fails the call. */
    method SaveAndSend(userId: string, taskType: string, parameters: Value, parentTaskId: Option<string>,
                       taskId: string, now: Instant, send: SendOutcome, timestamp: string) returns (r: Result<string>)
      requires repo.Valid()
      modifies repo
      ensures repo.Valid()
      ensures
        var s := SubmitAsWritten(QueuedTask(taskId, userId, taskType, parameters, parentTaskId, now), send, now, timestamp);
        r == s.result && repo.tasks == old(repo.tasks)[taskId := s.stored]
    {
      var task := new BackgroundTask(taskId, userId, taskType, parameters, now);
      task.SetParentTaskId(parentTaskId);
      ghost var queued := task.Doc();
      assert queued == QueuedTask(taskId, userId, taskType, parameters, parentTaskId, now);
      repo.Save(task.Doc());
      if !send.SendThrew? {
        assert SubmitAsWritten(queued, send, now, timestamp) == Submitted(queued, Ok(taskId));
        return Ok(taskId);
      }
      assert SubmitAsWritten(queued, send, now, timestamp)
          == FailedSend(queued, SendErrorInfo(send, timestamp), SendCause(send), now);
      r := MarkSendFailed(task, send, now, timestamp);
    }

    /** submitTask's handling of a send that did not happen: the error details and
        the failed status are set on the task, which is saved again. The source
        reaches it only for a thrown exception; it also covers a false send, as
        the corrected Submit would. */
    method MarkSendFailed(task: BackgroundTask, send: SendOutcome, now: Instant, timestamp: string)
      returns (r: Result<string>)
      requires repo.Valid() && send != Sent
      modifies repo, task
      ensures repo.Valid()
      ensures
        var failed := FailedSend(old(task.Doc()), SendErrorInfo(send, timestamp), SendCause(send), now);
        r == failed.result && repo.tasks == old(repo.tasks)[old(task.id) := failed.stored]
    {
      task.SetErrorInfo(Some(SendErrorInfo(send, timestamp)));
      task.SetStatus(Failed, now);
      repo.Save(task.Doc());
      r := Err(Exception(Runtime, Some(SendFailedMessage), SendCause(send), []));
    }

    /** getTaskStatus: the view of a stored task, or nothing. */
    function GetTaskStatus(taskId: string): (r: Option<TaskView>)
      reads repo
      ensures r.Some? <==> taskId in repo.tasks
      ensures r.Some? ==> r.value == TaskResponse(repo.tasks[taskId])
    {
      match repo.FindById(taskId)
      case None => None
      case Some(d) => Some(TaskResponse(d))
    }

    /** getTaskStatus for a user: nothing unless the task is that user's. */
    function GetTaskStatusOfUser(taskId: string, userId: string): (r: Option<TaskView>)
      reads repo
      ensures r.Some? <==> taskId in repo.tasks && repo.tasks[taskId].userId == userId
      ensures r.Some? ==> r.value == TaskResponse(repo.tasks[taskId])
    {
      match repo.FindById(taskId)
      case None => None
      case Some(d) => if d.userId == userId then Some(TaskResponse(d)) else None
    }

    /** cancelTask, with or without an owner to check: only a queued, running or
        retrying task is cancelled, and the time is recorded under "cancelled". */
    method CancelTask(taskId: string, owner: Option<string>, now: Instant) returns (ok: bool)
      requires repo.Valid()
      modifies repo
      ensures repo.Valid()
      ensures ok <==>
        && taskId in old(repo.tasks)
        && (owner.None? || old(repo.tasks[taskId].userId) == owner.value)
        && Cancellable(old(repo.tasks[taskId].status))
      ensures !ok ==> repo.tasks == old(repo.tasks)
      ensures ok ==>
        var d := old(repo.tasks[taskId]);
        repo.tasks == old(repo.tasks)[taskId := d.(status := Cancelled, timestamps := d.timestamps["cancelled" := now])]
    {
      var found := repo.FindById(taskId);
      if found.None? {
        return false;
      }
      if owner.Some? && found.value.userId != owner.value {
        return false;
      }
      if !Cancellable(found.value.status) {
        return false;
      }
      var task := new BackgroundTask.Load(found.value);
      task.SetStatus(Cancelled, now);
      repo.Save(task.Doc());
      ok := true;
    }
  }
}
