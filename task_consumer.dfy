// TaskConsumer: the retry-delay configuration, the retry count read from a
// message, the decision taken on an execution result, and the error details
// recorded with a failure.
module TaskConsumption {
  import opened Wrappers
  import opened JStrings
  import opened TaskModel
  import opened Execution
  import TaskProducer

  /** Integer.parseInt: Long.parseLong's syntax, within the 32-bit range. */
  function ParseInt(s: string): (r: Option<int>)
    ensures r.Some? ==> IntMin <= r.value <= IntMax && ParseLong(s) == r
  {
    match ParseLong(s)
    case None => None
    case Some(v) => if IntMin <= v <= IntMax then Some(v) else None
  }

  /** NumberFormatException.forInputString. */
  function BadNumber(s: string): Exception
  {
    Thrown(NumberFormat, "For input string: \"" + s + "\"")
  }

  /** toString of a header value. */
  function HeaderText(v: Value): string
  {
    match v
    case Str(s) => s
    case Num(n) => IntToString(n)
    case Bool(b) => if b then "true" else "false"
    case _ => ""
  }

  /** The retry count of a delivery: 0 without an x-retry-count header (or with a
      null one), otherwise the header's text parsed as an int. */
  function RetryCountOf(headers: map<string, Value>): (r: Result<int>)
    ensures ("x-retry-count" !in headers || headers["x-retry-count"] == Null) ==> r == Ok(0)
    ensures r.Err? ==> r.error.kind == NumberFormat
  {
    if "x-retry-count" !in headers || headers["x-retry-count"] == Null then Ok(0)
    else
      var text := HeaderText(headers["x-retry-count"]);
      match ParseInt(text)
      case None => Err(BadNumber(text))
      case Some(n) => Ok(n)
  }

  /** The retry count a producer writes is the one the consumer reads back. */
  lemma RetryCountRoundTrip(taskId: string, userId: string, taskType: string, body: Value, rc: int)
    requires IntMin <= rc <= IntMax
    ensures RetryCountOf(TaskProducer.TaskMessageFor(taskId, userId, taskType, body, rc).headers) == Ok(rc)
    ensures RetryCountOf(TaskProducer.RetryMessageFor(taskId, userId, taskType, body, rc).headers) == Ok(rc)
  {
    ParseLongOfIntToString(rc);
    var h := TaskProducer.RetryMessageFor(taskId, userId, taskType, body, rc).headers;
    assert h["x-retry-count"] == Num(rc);
  }

  // ------------------------------------------------------------ retry delays

  /** getRetryDelay over the configured delays: the delay for this retry count,
      the last delay beyond the configured ones; a negative count or an empty
      configuration indexes outside the array. */
  function DelayFor(delays: seq<int>, retryCount: int): (r: Result<int>)
    ensures 0 <= retryCount < |delays| ==> r == Ok(delays[retryCount])
    ensures 0 < |delays| <= retryCount ==> r == Ok(delays[|delays| - 1])
    ensures r.Err? <==> retryCount < 0 || delays == []
  {
    if retryCount < |delays| then
      if retryCount >= 0 then Ok(delays[retryCount])
      else Err(Exception(IndexOutOfBounds, Some("Index " + IntToString(retryCount) + " out of bounds for length "
                                                + IntToString(|delays|)), None, []))
    else if |delays| > 0 then Ok(delays[|delays| - 1])
    else Err(Exception(IndexOutOfBounds, Some("Index -1 out of bounds for length 0"), None, []))
  }

  predicate NonDecreasing(s: seq<int>)
  {
    forall i, j :: 0 <= i <= j < |s| ==> s[i] <= s[j]
  }

  /** With non-decreasing configured delays, a later retry never waits less. */
  lemma DelayGrowsWithRetries(delays: seq<int>, rc1: int, rc2: int)
    requires NonDecreasing(delays) && delays != []
    requires 0 <= rc1 <= rc2
    ensures DelayFor(delays, rc1).Ok? && DelayFor(delays, rc2).Ok?
    ensures DelayFor(delays, rc1).value <= DelayFor(delays, rc2).value
  {
  }

  // ---------------------------------------------------------- result dispatch

  /** The result kinds the consumer asks about. ExecutionResult answers the first
      three; the consumer's isNonRetryable and isCancelled are read as "failed
      and not retryable" and "never". */
  datatype Outcome = Outcome(success: bool, retryable: bool, nonRetryable: bool, cancelled: bool)

  function OutcomeOf<R>(x: ExecutionResult<R>): Outcome
  {
    Outcome(x.IsSuccess(), x.IsRetryable(), x.IsFailure() && !x.IsRetryable(), false)
  }

  /** What the consumer does with a delivery. */
  datatype Action =
    | Skip                                       // another node runs it: acknowledged
    | Complete                                   // recordCompletion
    | Retry(nextRetryCount: int, delayMillis: int)  // resend with a delay, recordRetrying
    | DeadLetterTask                             // recordFailure(..., true)
    | Fail                                       // recordFailure(..., false)
    | Cancel                                     // recordCancellation
    | Crash(error: Exception)                    // the chain errors: not acknowledged

  const MaxRetriesReason: string := "达到最大重试次数"

  /** The branch chain on an execution result. */
  function Dispatch(o: Outcome, retryCount: int, maxRetryAttempts: int, delays: seq<int>): (a: Action)
    ensures o.success ==> a == Complete
    ensures !o.success && o.retryable && retryCount < maxRetryAttempts ==>
      (a.Retry? && a.nextRetryCount == retryCount + 1) || (a.Crash? && DelayFor(delays, retryCount).Err?)
    ensures !o.success && o.retryable && retryCount >= maxRetryAttempts ==> a == DeadLetterTask
    ensures !o.success && !o.retryable && o.nonRetryable ==> a == Fail
    ensures a == Cancel <==> !o.success && !o.retryable && !o.nonRetryable && o.cancelled
  {
    if o.success then Complete
    else if o.retryable && retryCount < maxRetryAttempts then
      match DelayFor(delays, retryCount)
      case Ok(d) => Retry(retryCount + 1, d)
      case Err(e) => Crash(e)
    else if o.retryable then DeadLetterTask
    else if o.nonRetryable then Fail
    else if o.cancelled then Cancel
    else Crash(Thrown(IllegalState, "未知的任务结果状态"))
  }

  /** On an ExecutionResult the unknown-state and cancellation branches are never
      taken: success completes, a retryable failure retries then dead-letters, any
      other failure fails. */
  lemma DispatchOfExecutionResult<R>(x: ExecutionResult<R>, retryCount: nat, maxRetryAttempts: int, delays: seq<int>)
    requires delays != []
    ensures var a := Dispatch(OutcomeOf(x), retryCount, maxRetryAttempts, delays);
      && (a == Complete <==> x.IsSuccess())
      && (a.Retry? <==> x.IsRetryable() && retryCount < maxRetryAttempts)
      && (a == DeadLetterTask <==> x.IsRetryable() && retryCount >= maxRetryAttempts)
      && (a == Fail <==> x.IsFailure() && !x.IsRetryable())
      && !a.Cancel? && !a.Crash? && !a.Skip?
  {
  }

  /** processMessageReactively after the retry count is read: a task another node
      has taken is skipped; a type without executor is an error; otherwise the
      result is dispatched. */
  function Process(setRunning: bool, executorFound: bool, taskType: string, o: Outcome,
                   retryCount: int, maxRetryAttempts: int, delays: seq<int>): (a: Action)
    ensures !setRunning <==> a == Skip
    ensures setRunning && !executorFound ==>
      a == Crash(Thrown(IllegalArgument, "找不到任务类型为 " + taskType + " 的执行器"))
    ensures setRunning && executorFound ==> a == Dispatch(o, retryCount, maxRetryAttempts, delays)
  {
    if !setRunning then Skip
    else if !executorFound then Crash(Thrown(IllegalArgument, "找不到任务类型为 " + taskType + " 的执行器"))
    else Dispatch(o, retryCount, maxRetryAttempts, delays)
  }

  /** handleTaskMessage: a chain that ends normally is acknowledged; one that
      errors is rejected without requeueing. */
  predicate Acknowledged(a: Action) { !a.Crash? }

  /** A retryable task is retried at most maxRetryAttempts times: from a retry
      count at the limit it goes to the dead-letter state. */
  lemma RetriesStopAtLimit(o: Outcome, retryCount: int, maxRetryAttempts: int, delays: seq<int>)
    requires !o.success && o.retryable
    ensures var a := Dispatch(o, retryCount, maxRetryAttempts, delays);
      a.Retry? ==> a.nextRetryCount <= maxRetryAttempts
    ensures retryCount >= maxRetryAttempts ==> Dispatch(o, retryCount, maxRetryAttempts, delays) == DeadLetterTask
  {
  }

  // --------------------------------------------------------------- error info

  function MessageValue(message: Option<string>): Value
  {
    match message
    case None => Null
    case Some(m) => Str(m)
  }

  /** At most the first ten frames of a stack trace are kept. */
  const MaxStackFrames: nat := 10

  /** createErrorInfoMap: message, class, timestamp, up to ten stack frames, and
      the cause's message and class when there is a cause. */
  method CreateErrorInfoMap(error: Exception, timestamp: string) returns (info: map<string, Value>)
    ensures "message" in info && info["message"] == MessageValue(error.message)
    ensures "exceptionClass" in info && info["exceptionClass"] == Str(error.kind.ClassName())
    ensures "timestamp" in info && info["timestamp"] == Str(timestamp)
    ensures "stackTrace" in info <==> error.stackTrace != []
    ensures "stackTrace" in info ==>
      && info["stackTrace"].Strs?
      && |info["stackTrace"].items| == (if |error.stackTrace| < MaxStackFrames then |error.stackTrace| else MaxStackFrames)
      && info["stackTrace"].items == error.stackTrace[..|info["stackTrace"].items|]
    ensures "cause" in info <==> error.cause.Some?
    ensures "cause" in info ==> info["cause"] == Obj(map[
      "message" := MessageValue(error.cause.value.message),
      "exceptionClass" := Str(error.cause.value.kind.ClassName())])
    ensures info.Keys <= {"message", "exceptionClass", "timestamp", "stackTrace", "cause"}
  {
    info := map["message" := MessageValue(error.message), "exceptionClass" := Str(error.kind.ClassName()),
                "timestamp" := Str(timestamp)];
    var stackTrace := error.stackTrace;
    if |stackTrace| > 0 {
      var n := if |stackTrace| < MaxStackFrames then |stackTrace| else MaxStackFrames;
      var frames := new string[n];
      for i := 0 to n
        invariant forall j :: 0 <= j < i ==> frames[j] == stackTrace[j]
      {
        frames[i] := stackTrace[i];
      }
      assert frames[..] == stackTrace[..n];
      info := info["stackTrace" := Strs(frames[..])];
    }
    // an exception value is never its own cause
    if error.cause.Some? {
      var cause := error.cause.value;
      info := info["cause" := Obj(map["message" := MessageValue(cause.message),
                                      "exceptionClass" := Str(cause.kind.ClassName())])];
    }
  }

  /** handleDeadLetter's error details: exactly createErrorInfoMap's entries plus the reason. */
  method DeadLetterErrorInfo(error: Exception, timestamp: string) returns (info: map<string, Value>)
    ensures "deadLetterReason" in info && info["deadLetterReason"] == Str(MaxRetriesReason)
    ensures "message" in info && info["message"] == MessageValue(error.message)
    ensures "exceptionClass" in info && info["exceptionClass"] == Str(error.kind.ClassName())
    ensures "timestamp" in info && info["timestamp"] == Str(timestamp)
    ensures "stackTrace" in info <==> error.stackTrace != []
    ensures "stackTrace" in info ==>
      && info["stackTrace"].Strs?
      && |info["stackTrace"].items| == (if |error.stackTrace| < MaxStackFrames then |error.stackTrace| else MaxStackFrames)
      && info["stackTrace"].items == error.stackTrace[..|info["stackTrace"].items|]
    ensures "cause" in info <==> error.cause.Some?
    ensures "cause" in info ==> info["cause"] == Obj(map[
      "message" := MessageValue(error.cause.value.message),
      "exceptionClass" := Str(error.cause.value.kind.ClassName())])
    ensures info.Keys <= {"message", "exceptionClass", "timestamp", "stackTrace", "cause", "deadLetterReason"}
  {
    info := CreateErrorInfoMap(error, timestamp);
    info := info["deadLetterReason" := Str(MaxRetriesReason)];
  }

  // -------------------------------------------------------------- the consumer

  const RetryDelaysMissing: string := "Configuration property 'task.retry.delays' is missing or not loaded."

  /** A delay entry of the configuration is usable when its trimmed text parses. */
  function DelayEntry(part: string): Option<int>
  {
    ParseLong(Trim(part))
  }

  /** The parsed entries in order. */
  function DelayEntries(parts: seq<string>): (r: seq<Option<int>>)
    ensures |r| == |parts|
  {
    if parts == [] then [] else DelayEntries(parts[..|parts| - 1]) + [DelayEntry(parts[|parts| - 1])]
  }

  lemma {:induction false} DelayEntriesAt(parts: seq<string>, k: int)
    requires 0 <= k < |parts|
    ensures DelayEntries(parts)[k] == DelayEntry(parts[k])
    decreases |parts|
  {
    if k < |parts| - 1 {
      DelayEntriesAt(parts[..|parts| - 1], k);
    }
  }

  predicate ParsesAsDelays(parts: seq<string>)
  {
    forall i :: 0 <= i < |parts| ==> DelayEntries(parts)[i].Some?
  }

  class TaskConsumer {
    const maxRetryAttempts: int
    var retryDelays: array<int>

    constructor (maxRetryAttempts: int)
      ensures this.maxRetryAttempts == maxRetryAttempts && retryDelays.Length == 0
    {
      this.maxRetryAttempts := maxRetryAttempts;
      retryDelays := new int[0];
    }

    /** initRetryDelays: a missing setting is an IllegalStateException; otherwise
        the comma-separated entries are parsed into the delays. */
    method InitRetryDelays(retryDelaysStr: Option<string>) returns (error: Option<Exception>)
      modifies this
      ensures retryDelaysStr.None? ==> error == Some(Thrown(IllegalState, RetryDelaysMissing))
      ensures retryDelaysStr.Some? ==>
        var parts := Split(retryDelaysStr.value, ',');
        && (error.None? <==> ParsesAsDelays(parts))
        && (error.Some? ==> error.value.kind == NumberFormat)
        && fresh(retryDelays) && retryDelays.Length == |parts|
        && (error.None? ==> forall i :: 0 <= i < |parts| ==> Some(retryDelays[i]) == DelayEntries(parts)[i])
    {
      if retryDelaysStr.None? {
        return Some(Thrown(IllegalState, RetryDelaysMissing));
      }
      error := FillRetryDelays(Split(retryDelaysStr.value, ','));
    }

    /** The loop of initRetryDelays: a new array as long as the entries receives
        each entry, trimmed and parsed, in order; the first entry that does not
        parse is a NumberFormatException, and the array keeps the entries before
        it. */
    method FillRetryDelays(delayStrings: seq<string>) returns (error: Option<Exception>)
      modifies this
      ensures error.None? <==> ParsesAsDelays(delayStrings)
      ensures error.Some? ==> error.value.kind == NumberFormat
      ensures fresh(retryDelays) && retryDelays.Length == |delayStrings|
      ensures error.None? ==> forall i :: 0 <= i < |delayStrings| ==> Some(retryDelays[i]) == DelayEntries(delayStrings)[i]
    {
      var delays := new int[|delayStrings|];
      retryDelays := delays;
      ghost var entries: seq<Option<int>> := [];
      for i := 0 to |delayStrings|
        invariant retryDelays == delays
        invariant entries == DelayEntries(delayStrings[..i])
        invariant forall j :: 0 <= j < i ==> Some(delays[j]) == entries[j]
      {
        var parsed := DelayEntry(delayStrings[i]);
        assert delayStrings[..i + 1][..i] == delayStrings[..i];
        ghost var prev := entries;
        entries := entries + [parsed];
        if parsed.None? {
          DelayEntriesAt(delayStrings, i);
          return Some(BadNumber(Trim(delayStrings[i])));
        }
        label before:
        delays[i] := parsed.value;
        forall j | 0 <= j < i + 1
          ensures Some(delays[j]) == entries[j]
        {
          if j < i {
            assert entries[j] == prev[j] == Some(old@before(delays[j]));
          }
        }
      }
      assert delayStrings[..|delayStrings|] == delayStrings;
      error := None;
    }

    /** getRetryDelay. */
    function GetRetryDelay(retryCount: int): (r: Result<int>)
      reads this, retryDelays
      ensures r == DelayFor(retryDelays[..], retryCount)
    {
      if retryCount < retryDelays.Length then
        if retryCount >= 0 then Ok(retryDelays[retryCount])
        else Err(Exception(IndexOutOfBounds, Some("Index " + IntToString(retryCount) + " out of bounds for length "
                                                  + IntToString(retryDelays.Length)), None, []))
      else if retryDelays.Length > 0 then Ok(retryDelays[retryDelays.Length - 1])
      else Err(Exception(IndexOutOfBounds, Some("Index -1 out of bounds for length 0"), None, []))
    }
  }
}
