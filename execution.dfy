// ExecutionResult and TaskExecutorServiceImpl: the wrapped outcome of running a
// task, the executor registry, and the classification of exceptions as retryable.
module Execution {
  import opened Wrappers
  import opened JStrings

  /** ExecutionResult: a result, or the throwable that replaced it and whether a
      retry may help. */
  datatype ExecutionResult<R> = ExecutionResult(result: Option<R>, throwable: Option<Exception>, retryable: bool)
  {
    predicate IsSuccess() { throwable.None? }

    predicate IsFailure()
      ensures IsFailure() <==> !IsSuccess()
    {
      throwable.Some?
    }

    predicate IsRetryable()
      ensures IsRetryable() ==> IsFailure()
    {
      throwable.Some? && retryable
    }
  }

  function Success<R>(r: R): (x: ExecutionResult<R>)
    ensures x.IsSuccess() && !x.IsRetryable() && x.result == Some(r)
  {
    ExecutionResult(Some(r), None, false)
  }

  function RetryableFailure<R>(e: Exception): (x: ExecutionResult<R>)
    ensures x.IsFailure() && x.IsRetryable() && x.throwable == Some(e) && x.result.None?
  {
    ExecutionResult(None, Some(e), true)
  }

  function NonRetryableFailure<R>(e: Exception): (x: ExecutionResult<R>)
    ensures x.IsFailure() && !x.IsRetryable() && x.throwable == Some(e) && x.result.None?
  {
    ExecutionResult(None, Some(e), false)
  }

  // ----------------------------------------------------------- classification

  /** Messages that mark a transient failure. */
  const RetryableMessages: seq<string> :=
    ["service unavailable", "connection refused", "too many requests", "server busy", "retry", "timeout"]

  predicate MentionsAny(message: string, words: seq<string>)
  {
    exists i :: 0 <= i < |words| && Contains(message, words[i])
  }

  /** isRetryableException: a timeout, connect or I/O exception, a message naming a
      transient condition, or an optimistic-lock conflict. */
  predicate IsRetryableException(e: Exception)
  {
    || e.kind == Timeout || e.kind.IsIOException()
    || (e.message.Some? && MentionsAny(e.message.value, RetryableMessages))
    || e.kind == OptimisticLockingFailure
  }

  /** What the executable did when called: returned a value or threw. */
  datatype Run<R> = Returned(value: R) | Threw(error: Exception)

  /** executeTask: a missing executable or context fails for good; otherwise the
      run's value is a success and its exception a failure, retryable as
      classified. */
  function ExecuteTask<R>(hasExecutable: bool, hasContext: bool, run: Run<R>): (x: ExecutionResult<R>)
    ensures !hasExecutable ==> x == NonRetryableFailure(Thrown(IllegalArgument, "执行器不能为null"))
    ensures hasExecutable && !hasContext ==> x == NonRetryableFailure(Thrown(IllegalArgument, "上下文不能为null"))
    ensures x.IsSuccess() <==> hasExecutable && hasContext && run.Returned?
    ensures x.IsSuccess() ==> x.result == Some(run.value)
    ensures hasExecutable && hasContext && run.Threw? ==>
      x.throwable == Some(run.error) && (x.IsRetryable() <==> IsRetryableException(run.error))
  {
    if !hasExecutable then NonRetryableFailure(Thrown(IllegalArgument, "执行器不能为null"))
    else if !hasContext then NonRetryableFailure(Thrown(IllegalArgument, "上下文不能为null"))
    else match run
      case Returned(r) => Success(r)
      case Threw(e) => if IsRetryableException(e) then RetryableFailure(e) else NonRetryableFailure(e)
  }

  /** A JSON parse failure is an IOException, so it is retried whatever its message. */
  lemma JsonFailureRetried(e: Exception)
    requires e.kind == JsonProcessing
    ensures IsRetryableException(e)
    ensures ExecuteTask<int>(true, true, Threw(e)).IsRetryable()
  {
  }

  /** Whatever its class, an exception whose message mentions a timeout is retried. */
  lemma TimeoutMessageRetryable(e: Exception, before: string, after: string)
    requires e.message == Some(before + "timeout" + after)
    ensures IsRetryableException(e)
  {
    var m := before + "timeout" + after;
    assert m[|before|..|before| + 7] == "timeout";
    assert OccursAt(m, "timeout", |before|);
    assert Contains(m, RetryableMessages[5]);
  }

  /** An exception of a class not classified as transient, and without a message,
      is not retried. */
  lemma PlainFailureNotRetried(e: Exception)
    requires e.message.None?
    requires e.kind !in {Timeout, IO, SocketTimeout, Connect, JsonProcessing, OptimisticLockingFailure}
    ensures !IsRetryableException(e)
  {
  }

  // ---------------------------------------------------------------- registry

  /** The executor registered for a task type, as its position in the injected
      list: the last one declaring that type wins. */
  predicate IsLastOfType(taskTypes: seq<string>, t: string, i: int)
  {
    0 <= i < |taskTypes| && taskTypes[i] == t && forall j :: i < j < |taskTypes| ==> taskTypes[j] != t
  }

  class TaskExecutorService {
    /** executors: task type to the position of its executable. */
    var executors: map<string, nat>

    /** The constructor's registration loop over the executables' task types. */
    constructor (taskTypes: seq<string>)
      ensures executors.Keys == set i | 0 <= i < |taskTypes| :: taskTypes[i]
      ensures forall t :: t in executors ==> IsLastOfType(taskTypes, t, executors[t])
    {
      var registered: map<string, nat> := map[];
      for i := 0 to |taskTypes|
        invariant registered.Keys == set j | 0 <= j < i :: taskTypes[j]
        invariant forall t :: t in registered ==> IsLastOfType(taskTypes[..i], t, registered[t])
      {
        registered := registered[taskTypes[i] := i];
        forall t | t in registered
          ensures IsLastOfType(taskTypes[..i + 1], t, registered[t])
        {
          assert taskTypes[..i + 1][i] == taskTypes[i];
          if t != taskTypes[i] {
            assert IsLastOfType(taskTypes[..i], t, registered[t]);
          }
        }
      }
      assert taskTypes[..|taskTypes|] == taskTypes;
      executors := registered;
    }

    /** findExecutor: the registered executable, or none (null). */
    function FindExecutor(taskType: string): (r: Option<nat>)
      reads this
      ensures r.Some? <==> taskType in executors
      ensures r.Some? ==> r.value == executors[taskType]
    {
      if taskType in executors then Some(executors[taskType]) else None
    }
  }
}
