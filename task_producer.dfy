// TaskMessageProducer: the messages it hands to the broker — routing keys, the
// retry-count header and the delay queue chosen for a retry.
module TaskProducer {
  import opened JStrings
  import opened TaskModel

  const TasksExchange: string := "tasks.exchange"
  const TasksEventsExchange: string := "tasks.events.exchange"
  const TaskTypePrefix: string := "task."
  const Wait15sQueue: string := "tasks.wait_15s.queue"
  const Wait1mQueue: string := "tasks.wait_1m.queue"
  const Wait5mQueue: string := "tasks.wait_5m.queue"
  const Wait30mQueue: string := "tasks.wait_30m.queue"

  /** The message time-to-live each delay queue is declared with, in milliseconds
      (RabbitMQConfig's x-message-ttl arguments). */
  function QueueTtl(queue: string): int
  {
    if queue == Wait15sQueue then 15000
    else if queue == Wait1mQueue then 60000
    else if queue == Wait5mQueue then 300000
    else if queue == Wait30mQueue then 1800000
    else 0
  }

  /** getDelayQueueForRetryCount. */
  function DelayQueue(retryCount: int): (q: string)
    ensures q in {Wait15sQueue, Wait1mQueue, Wait5mQueue, Wait30mQueue}
    ensures retryCount <= 1 <==> q == Wait15sQueue
    ensures 1 < retryCount <= 3 <==> q == Wait1mQueue
    ensures 3 < retryCount <= 5 <==> q == Wait5mQueue
    ensures 5 < retryCount <==> q == Wait30mQueue
  {
    if retryCount <= 1 then Wait15sQueue
    else if retryCount <= 3 then Wait1mQueue
    else if retryCount <= 5 then Wait5mQueue
    else Wait30mQueue
  }

  /** A later retry never waits less than an earlier one. */
  lemma DelayNeverShrinks(rc1: int, rc2: int)
    requires rc1 <= rc2
    ensures 15000 <= QueueTtl(DelayQueue(rc1)) <= QueueTtl(DelayQueue(rc2)) <= 1800000
  {
  }

  /** An AMQP message as built here: where it goes and its headers. */
  datatype TaskMessage = TaskMessage(
    exchange: string,        // "" for a direct send to a queue
    routingKey: string,      // the queue name for a direct send
    messageId: string,
    headers: map<string, Value>,
    body: Value)

  function TaskHeaders(taskId: string, userId: string, taskType: string, retryCount: int): map<string, Value>
  {
    map["x-task-id" := Str(taskId), "x-user-id" := Str(userId), "x-task-type" := Str(taskType),
        "x-retry-count" := Num(retryCount)]
  }

  /** sendTask: to the tasks exchange, routed by "task." + the task type. */
  function TaskMessageFor(taskId: string, userId: string, taskType: string, body: Value, retryCount: int): (m: TaskMessage)
    ensures m.exchange == TasksExchange && m.routingKey == TaskTypePrefix + taskType
    ensures m.messageId == taskId
    ensures "x-retry-count" in m.headers && m.headers["x-retry-count"] == Num(retryCount)
    ensures "x-task-id" in m.headers && m.headers["x-task-id"] == Str(taskId)
    ensures "x-task-type" in m.headers && m.headers["x-task-type"] == Str(taskType)
  {
    TaskMessage(TasksExchange, TaskTypePrefix + taskType, taskId, TaskHeaders(taskId, userId, taskType, retryCount), body)
  }

  /** The four-argument sendTask: a first delivery, retry count 0. */
  function FirstTaskMessage(taskId: string, userId: string, taskType: string, body: Value): (m: TaskMessage)
    ensures m.exchange == TasksExchange && m.routingKey == TaskTypePrefix + taskType
    ensures "x-retry-count" in m.headers && m.headers["x-retry-count"] == Num(0)
  {
    TaskMessageFor(taskId, userId, taskType, body, 0)
  }

  /** sendToRetryExchange: straight to the delay queue for the retry count, keeping
      the original routing key in a header so the task can be routed again. */
  function RetryMessageFor(taskId: string, userId: string, taskType: string, body: Value, retryCount: int): (m: TaskMessage)
    ensures m.exchange == "" && m.routingKey == DelayQueue(retryCount)
    ensures m.headers == TaskMessageFor(taskId, userId, taskType, body, retryCount).headers
      ["x-original-routing-key" := Str(TaskMessageFor(taskId, userId, taskType, body, retryCount).routingKey)]
  {
    var headers := TaskHeaders(taskId, userId, taskType, retryCount)["x-original-routing-key" := Str(TaskTypePrefix + taskType)];
    TaskMessage("", DelayQueue(retryCount), taskId, headers, body)
  }

  /** sendTaskEvent: to the events exchange, routed by "task.event." + the type. */
  function EventMessageFor(eventType: string, eventData: Value): (m: TaskMessage)
    ensures m.exchange == TasksEventsExchange && m.routingKey == "task.event." + eventType
    ensures m.headers == map["x-event-type" := Str(eventType)]
  {
    TaskMessage(TasksEventsExchange, "task.event." + eventType, "", map["x-event-type" := Str(eventType)], eventData)
  }

  /** A task's routing key and an event's never coincide when the task type does not
      itself start with "event.". */
  lemma TaskAndEventKeysDiffer(taskType: string, eventType: string)
    requires !StartsWith(taskType, "event.")
    ensures TaskMessageFor("", "", taskType, Null, 0).routingKey != EventMessageFor(eventType, Null).routingKey
  {
    var k1 := TaskTypePrefix + taskType;
    var k2 := "task.event." + eventType;
    if |taskType| >= 6 {
      assert k1[5..11] == taskType[..6];
      assert k2[5..11] == "event.";
    } else {
      assert |k1| < |k2|;
    }
  }
}
