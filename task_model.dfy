// The background task entity: its status enumeration, the document a task
// repository keeps, and the BackgroundTask object whose setters change it in place.
module TaskModel {
  import opened Wrappers
  import opened JStrings

  /** TaskStatus, in declaration order. */
  datatype TaskStatus =
    | Queued
    | Running
    | Completed
    | Failed
    | Cancelled
    | Retrying
    | DeadLetter
    | CompletedWithErrors
  {
    /** Enum.name(). */
    function Name(): string
    {
      match this
      case Queued => "QUEUED"
      case Running => "RUNNING"
      case Completed => "COMPLETED"
      case Failed => "FAILED"
      case Cancelled => "CANCELLED"
      case Retrying => "RETRYING"
      case DeadLetter => "DEAD_LETTER"
      case CompletedWithErrors => "COMPLETED_WITH_ERRORS"
    }
  }

  /** The timestamps key a status change records: the lower-cased enum name. */
  function TimestampKey(s: TaskStatus): string
  {
    match s
    case Queued => "queued"
    case Running => "running"
    case Completed => "completed"
    case Failed => "failed"
    case Cancelled => "cancelled"
    case Retrying => "retrying"
    case DeadLetter => "dead_letter"
    case CompletedWithErrors => "completed_with_errors"
  }

  /** A lower-case spelling of an upper-case literal, checked letter by letter. */
  lemma LowerLiteral(name: string, key: string)
    requires |name| == |key| && forall i :: 0 <= i < |name| ==> LowerChar(name[i]) == key[i]
    ensures ToLower(name) == key
  {
  }

  /** The key is status.name().toLowerCase(). */
  lemma TimestampKeyIsLowerCaseName(s: TaskStatus)
    ensures TimestampKey(s) == ToLower(s.Name())
  {
    if s in {Queued, Running, Completed, Failed} {
      FirstKeysLowerCase(s);
    } else if s in {Cancelled, Retrying, DeadLetter} {
      LastKeysLowerCase(s);
    } else {
      LowerLiteral("COMPLETED_WITH_ERRORS", "completed_with_errors");
    }
  }

  lemma FirstKeysLowerCase(s: TaskStatus)
    requires s in {Queued, Running, Completed, Failed}
    ensures TimestampKey(s) == ToLower(s.Name())
  {
    match s
    case Queued => LowerLiteral("QUEUED", "queued");
    case Running => LowerLiteral("RUNNING", "running");
    case Completed => LowerLiteral("COMPLETED", "completed");
    case Failed => LowerLiteral("FAILED", "failed");
  }

  lemma LastKeysLowerCase(s: TaskStatus)
    requires s in {Cancelled, Retrying, DeadLetter}
    ensures TimestampKey(s) == ToLower(s.Name())
  {
    match s
    case Cancelled => LowerLiteral("CANCELLED", "cancelled");
    case Retrying => LowerLiteral("RETRYING", "retrying");
    case DeadLetter => LowerLiteral("DEAD_LETTER", "dead_letter");
  }

  /** Different statuses are recorded under different keys. */
  lemma TimestampKeysDistinct(s: TaskStatus, t: TaskStatus)
    requires s != t
    ensures TimestampKey(s) != TimestampKey(t)
  {
  }

  /** The Object-typed payloads a task carries (parameters, progress, result and the
      values of errorInfo), as the JSON-like values they are stored as. */
  datatype Value =
    | Null
    | Str(s: string)
    | Num(n: int)
    | Bool(b: bool)
    | Strs(items: seq<string>)
    | Obj(fields: map<string, Value>)
    | List(elements: seq<Value>)

  /** Instants are modelled as epoch milliseconds. */
  type Instant = int

  /** The stored form of a BackgroundTask: every field, null where Option is None. */
  datatype TaskDoc = TaskDoc(
    id: string,
    userId: string,
    taskType: string,
    status: TaskStatus,
    parameters: Value,
    progress: Value,
    result: Value,
    errorInfo: Option<map<string, Value>>,
    timestamps: map<string, Instant>,
    retryCount: int,
    lastAttemptTimestamp: Option<Instant>,
    nextAttemptTimestamp: Option<Instant>,
    executionNodeId: Option<string>,
    parentTaskId: Option<string>,
    subTaskStatusSummary: map<string, int>)

  /** The task as a fresh 4-argument constructor leaves it. */
  function NewTaskDoc(id: string, userId: string, taskType: string, parameters: Value, now: Instant): (d: TaskDoc)
    ensures d.status == Queued && d.retryCount == 0 && d.timestamps == map["created" := now]
    ensures d.id == id && d.userId == userId && d.taskType == taskType && d.parameters == parameters
    ensures d.errorInfo.None? && d.parentTaskId.None? && d.executionNodeId.None? && d.subTaskStatusSummary == map[]
  {
    TaskDoc(id, userId, taskType, Queued, parameters, Null, Null, None, map["created" := now], 0,
            None, None, None, None, map[])
  }

  /** BackgroundTask: the in-memory entity whose setters the services call. */
  class BackgroundTask {
    var id: string
    var userId: string
    var taskType: string
    var status: TaskStatus
    var parameters: Value
    var progress: Value
    var result: Value
    var errorInfo: Option<map<string, Value>>
    var timestamps: map<string, Instant>
    var retryCount: int
    var lastAttemptTimestamp: Option<Instant>
    var nextAttemptTimestamp: Option<Instant>
    var executionNodeId: Option<string>
    var parentTaskId: Option<string>
    var subTaskStatusSummary: map<string, int>

    /** The object's fields as a document. */
    function Doc(): TaskDoc
      reads this
    {
      TaskDoc(id, userId, taskType, status, parameters, progress, result, errorInfo, timestamps,
              retryCount, lastAttemptTimestamp, nextAttemptTimestamp, executionNodeId, parentTaskId,
              subTaskStatusSummary)
    }

    /** new BackgroundTask(id, userId, taskType, parameters): queued, no retries,
        created now. */
    constructor (id: string, userId: string, taskType: string, parameters: Value, now: Instant)
      ensures Doc() == NewTaskDoc(id, userId, taskType, parameters, now)
    {
      this.id := id;
      this.userId := userId;
      this.taskType := taskType;
      this.status := Queued;
      this.parameters := parameters;
      this.progress := Null;
      this.result := Null;
      this.errorInfo := None;
      this.timestamps := map["created" := now];
      this.retryCount := 0;
      this.lastAttemptTimestamp := None;
      this.nextAttemptTimestamp := None;
      this.executionNodeId := None;
      this.parentTaskId := None;
      this.subTaskStatusSummary := map[];
    }

    /** The entity a repository read materialises from a stored document. */
    constructor Load(d: TaskDoc)
      ensures Doc() == d
    {
      id := d.id;
      userId := d.userId;
      taskType := d.taskType;
      status := d.status;
      parameters := d.parameters;
      progress := d.progress;
      result := d.result;
      errorInfo := d.errorInfo;
      timestamps := d.timestamps;
      retryCount := d.retryCount;
      lastAttemptTimestamp := d.lastAttemptTimestamp;
      nextAttemptTimestamp := d.nextAttemptTimestamp;
      executionNodeId := d.executionNodeId;
      parentTaskId := d.parentTaskId;
      subTaskStatusSummary := d.subTaskStatusSummary;
    }

    /** setStatus: the new status, and the time of the change under its key; every
        other key and field is kept. */
    method SetStatus(s: TaskStatus, now: Instant)
      modifies this
      ensures Doc() == old(Doc()).(status := s, timestamps := old(timestamps)[TimestampKey(s) := now])
    {
      status := s;
      timestamps := timestamps[TimestampKey(s) := now];
    }

    method SetRetryCount(n: int)
      modifies this
      ensures Doc() == old(Doc()).(retryCount := n)
    {
      retryCount := n;
    }

    method IncrementRetryCount()
      modifies this
      ensures Doc() == old(Doc()).(retryCount := old(retryCount) + 1)
    {
      retryCount := retryCount + 1;
    }

    method SetProgress(p: Value)
      modifies this
      ensures Doc() == old(Doc()).(progress := p)
    {
      progress := p;
    }

    method SetResult(r: Value)
      modifies this
      ensures Doc() == old(Doc()).(result := r)
    {
      result := r;
    }

    method SetErrorInfo(info: Option<map<string, Value>>)
      modifies this
      ensures Doc() == old(Doc()).(errorInfo := info)
    {
      errorInfo := info;
    }

    method SetExecutionNodeId(node: Option<string>)
      modifies this
      ensures Doc() == old(Doc()).(executionNodeId := node)
    {
      executionNodeId := node;
    }

    method SetLastAttemptTimestamp(t: Option<Instant>)
      modifies this
      ensures Doc() == old(Doc()).(lastAttemptTimestamp := t)
    {
      lastAttemptTimestamp := t;
    }

    method SetNextAttemptTimestamp(t: Option<Instant>)
      modifies this
      ensures Doc() == old(Doc()).(nextAttemptTimestamp := t)
    {
      nextAttemptTimestamp := t;
    }

    method SetParentTaskId(parent: Option<string>)
      modifies this
      ensures Doc() == old(Doc()).(parentTaskId := parent)
    {
      parentTaskId := parent;
    }

    method SetSubTaskStatusSummary(summary: map<string, int>)
      modifies this
      ensures Doc() == old(Doc()).(subTaskStatusSummary := summary)
    {
      subTaskStatusSummary := summary;
    }
  }

  /** Two status changes in a row keep the first one's timestamp unless both have
      the same status. */
  lemma StatusChangesKeepEarlierStamps(d: TaskDoc, s: TaskStatus, t: TaskStatus, now1: Instant, now2: Instant)
    requires s != t
    ensures var ts := d.timestamps[TimestampKey(s) := now1][TimestampKey(t) := now2];
      ts[TimestampKey(s)] == now1 && ts[TimestampKey(t)] == now2
  {
    TimestampKeysDistinct(s, t);
  }
}
