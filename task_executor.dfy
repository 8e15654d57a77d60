/** `ChannelTaskExecutor`: runs each channel task through its adapter and moves
    it PENDING -> SENDING -> SUCCESS | RETRY | FAILED, persisting the task
    before and after the attempt. */
module TaskExecution {
  import opened JavaLang
  import opened Enums
  import opened Entities
  import opened Clock
  import SendResults
  import opened Stores

  /** What an adapter's `send` did: answered with a result, or raised an
      exception with the given message. */
  datatype AdapterReply = Delivered(result: SendResults.SendResult) | Crashed(message: Option<string>)

  /** A channel adapter's `send`. */
  type Adapter = ChannelTask -> AdapterReply

  /** `LocalMessageAdapter.send`: always succeeds with the task's message id. */
  function LocalAdapter(): (a: Adapter)
    ensures forall t :: a(t) == Delivered(SendResults.Success(t.messageId))
  {
    (t: ChannelTask) => Delivered(SendResults.Success(t.messageId))
  }

  function Pow2(n: nat): (p: nat)
    ensures p >= 1
  {
    if n == 0 then 1 else 2 * Pow2(n - 1)
  }

  lemma {:induction false} Pow2Monotone(n: nat, m: nat)
    requires n <= m
    ensures Pow2(n) <= Pow2(m)
  {
    if n < m { Pow2Monotone(n, m - 1); }
  }

  lemma Pow2Values()
    ensures Pow2(25) == 0x200_0000 && Pow2(26) == 0x400_0000 && Pow2(30) == 0x4000_0000
  {
    assert Pow2(5) == 32;
    assert Pow2(10) == 1024;
    assert Pow2(15) == 32768;
    assert Pow2(20) == 1048576;
    assert Pow2(25) == 33554432;
  }

  /** `(int) Math.pow(2, n)`: exact for 0 <= n <= 30, 0 for a negative n (the
      double is below 1), and `Integer.MAX_VALUE` from 31 on (the cast saturates). */
  function PowerOfTwoAsInt(n: int): (r: int)
    ensures IsInt32(r) && r >= 0
    ensures 0 <= n <= 30 ==> r == Pow2(n)
  {
    if n < 0 then 0
    else if n >= 31 then INT32_MAX
    else
      Pow2Monotone(n, 30);
      Pow2Values();
      Pow2(n)
  }

  /** `(int) Math.pow(2, retryCount) * 60`, an `int` product that wraps. */
  function RetryDelay(retryCount: int): (d: int)
    ensures IsInt32(d)
  {
    Wrap32(PowerOfTwoAsInt(retryCount) * 60)
  }

  /** The message of the exception raised for a task whose channel has no adapter. */
  function UnsupportedChannel(channelType: Option<ChannelType>): (m: string)
  {
    "不支持的渠道类型: " + (if channelType.Some? then channelType.value.Code() else "null")
  }

  /** The counters `handleFailure` unboxes. */
  predicate Executable(t: ChannelTask)
  {
    t.retryCount.Some? && t.maxRetry.Some?
  }

  /** `handleFailure(task, errorMessage)`: record the message, then either
      schedule a retry after the backoff delay or give up. */
  function AfterFailure(t: ChannelTask, errorMessage: Option<string>, now: Instant): (r: ChannelTask)
    requires Executable(t)
    ensures Executable(r)
  {
    var noted := t.(resultMessage := errorMessage);
    if t.retryCount.value < t.maxRetry.value then
      var n := t.retryCount.value + 1;
      noted.(status := Some(TaskStatus.Retry), retryCount := Some(n),
             nextRetryTime := Some(PlusSeconds(now, RetryDelay(n))))
    else
      noted.(status := Some(TaskStatus.Failed), finishTime := Some(now))
  }

  /** What the adapter lookup and `send` give for a task. */
  function Attempt(t: ChannelTask, adapters: map<ChannelType, Adapter>): AdapterReply
  {
    if t.channelType.Some? && t.channelType.value in adapters then adapters[t.channelType.value](t)
    else Crashed(Some(UnsupportedChannel(t.channelType)))
  }

  /** The task as first persisted: marked SENDING. */
  function MarkedSending(t: ChannelTask): ChannelTask
  {
    t.(status := Some(TaskStatus.Sending))
  }

  /** The task as `executeTask` leaves it. */
  function Executed(t: ChannelTask, now: Instant, adapters: map<ChannelType, Adapter>): (r: ChannelTask)
    requires Executable(t)
  {
    var sending := MarkedSending(t);
    var settled :=
      match Attempt(sending, adapters)
      case Delivered(result) =>
        if result.success then
          sending.(status := Some(TaskStatus.Success), resultMessage := Some("发送成功"), finishTime := Some(now))
        else AfterFailure(sending, result.errorMessage, now)
      case Crashed(message) => AfterFailure(sending, message, now);
    settled.(updateTime := Some(now))
  }

  /** The writes `executeAll(tasks)` makes, task after task: SENDING, then the
      final state. */
  function WriteLog(tasks: seq<ChannelTask>, now: Instant, adapters: map<ChannelType, Adapter>): (log: seq<ChannelTask>)
    requires forall i :: 0 <= i < |tasks| ==> Executable(tasks[i])
    ensures |log| == 2 * |tasks|
  {
    if tasks == [] then []
    else
      var last := tasks[|tasks| - 1];
      WriteLog(tasks[..|tasks| - 1], now, adapters) + [MarkedSending(last), Executed(last, now, adapters)]
  }

  class ChannelTaskExecutor {
    const adapters: map<ChannelType, Adapter>
    const repository: ChannelTaskRepository

    constructor (adapters: map<ChannelType, Adapter>, repository: ChannelTaskRepository)
      ensures this.adapters == adapters && this.repository == repository
    {
      this.adapters := adapters;
      this.repository := repository;
    }

    /** `executeTask(task)`: persist it as SENDING, consult the adapter, settle
        the task, stamp `updateTime` and persist it again. */
    method ExecuteTask(task: ChannelTask, now: Instant) returns (done: ChannelTask)
      requires Executable(task)
      modifies repository
      ensures done == Executed(task, now, adapters)
      ensures repository.updates == old(repository.updates) + [MarkedSending(task), done]
      ensures repository.batches == old(repository.batches)
    {
      var t := task.(status := Some(TaskStatus.Sending));
      repository.UpdateStatus(t);
      var reply: AdapterReply;
      if t.channelType.None? || t.channelType.value !in adapters {
        reply := Crashed(Some(UnsupportedChannel(t.channelType)));
      } else {
        reply := adapters[t.channelType.value](t);
      }
      match reply {
        case Delivered(result) =>
          if result.success {
            t := t.(status := Some(TaskStatus.Success));
            t := t.(resultMessage := Some("发送成功"));
            t := t.(finishTime := Some(now));
          } else {
            t := AfterFailure(t, result.errorMessage, now);
          }
        case Crashed(message) =>
          t := AfterFailure(t, message, now);
      }
      t := t.(updateTime := Some(now));
      repository.UpdateStatus(t);
      done := t;
    }

    /** `executeAll(tasks)`, one task after another. Each task's final state
        depends on that task alone. */
    method ExecuteAll(tasks: seq<ChannelTask>, now: Instant) returns (finals: seq<ChannelTask>)
      requires forall i :: 0 <= i < |tasks| ==> Executable(tasks[i])
      modifies repository
      ensures |finals| == |tasks|
      ensures forall i :: 0 <= i < |tasks| ==> finals[i] == Executed(tasks[i], now, adapters)
      ensures repository.updates == old(repository.updates) + WriteLog(tasks, now, adapters)
      ensures repository.batches == old(repository.batches)
    {
      finals := [];
      var i := 0;
      while i < |tasks|
        invariant 0 <= i <= |tasks|
        invariant |finals| == i
        invariant forall j :: 0 <= j < i ==> finals[j] == Executed(tasks[j], now, adapters)
        invariant repository.updates == old(repository.updates) + WriteLog(tasks[..i], now, adapters)
        invariant repository.batches == old(repository.batches)
      {
        var done := ExecuteTask(tasks[i], now);
        assert tasks[..i + 1][..i] == tasks[..i];
        finals := finals + [done];
        i := i + 1;
      }
      assert tasks[..i] == tasks;
    }
  }

  /** The three ways a task execution ends, and what each one sets. */
  lemma ExecutedOutcomes(t: ChannelTask, now: Instant, adapters: map<ChannelType, Adapter>)
    requires Executable(t)
    ensures var r := Executed(t, now, adapters);
      r.updateTime == Some(now) &&
      r.status in {Some(TaskStatus.Success), Some(TaskStatus.Retry), Some(TaskStatus.Failed)} &&
      (r.status == Some(TaskStatus.Success) <==>
         Attempt(MarkedSending(t), adapters).Delivered? && Attempt(MarkedSending(t), adapters).result.success) &&
      (r.status == Some(TaskStatus.Success) ==>
         r.resultMessage == Some("发送成功") && r.finishTime == Some(now) && r.retryCount == t.retryCount) &&
      (r.status == Some(TaskStatus.Retry) <==>
         r.status != Some(TaskStatus.Success) && t.retryCount.value < t.maxRetry.value) &&
      (r.status == Some(TaskStatus.Retry) ==>
         r.retryCount == Some(t.retryCount.value + 1) &&
         r.nextRetryTime == Some(now + RetryDelay(t.retryCount.value + 1)) &&
         r.finishTime == t.finishTime) &&
      (r.status == Some(TaskStatus.Failed) ==>
         r.finishTime == Some(now) && r.retryCount == t.retryCount) &&
      r.maxRetry == t.maxRetry && r.messageId == t.messageId &&
      r.channelType == t.channelType && r.channelConfigId == t.channelConfigId &&
      r.renderedContent == t.renderedContent
  {
  }

  /** On every failure path the task carries the error's message: the
      adapter's `errorMessage`, the exception's message, or the text for a
      missing adapter. */
  lemma FailureMessage(t: ChannelTask, now: Instant, adapters: map<ChannelType, Adapter>)
    requires Executable(t)
    ensures var r := Executed(t, now, adapters);
      var reply := Attempt(MarkedSending(t), adapters);
      (reply.Crashed? ==> r.resultMessage == reply.message) &&
      (reply.Delivered? && !reply.result.success ==> r.resultMessage == reply.result.errorMessage) &&
      (t.channelType.None? || t.channelType.value !in adapters ==>
         r.resultMessage == Some(UnsupportedChannel(t.channelType)))
  {
  }

  /** A task whose retry counter is within its bound stays within it. */
  lemma RetryBoundPreserved(t: ChannelTask, now: Instant, adapters: map<ChannelType, Adapter>)
    requires Executable(t) && 0 <= t.retryCount.value <= t.maxRetry.value
    ensures var r := Executed(t, now, adapters);
      Executable(r) && 0 <= r.retryCount.value <= r.maxRetry.value
  {
  }

  /** Below the point where the `int` product overflows, the delay is exactly
      60 * 2^n seconds. */
  lemma RetryDelayExact(n: int)
    requires 0 <= n <= 25
    ensures RetryDelay(n) == 60 * Pow2(n)
  {
    Pow2Monotone(n, 25);
    Pow2Values();
  }

  /** Successive retry delays strictly increase while they are exact. */
  lemma RetryDelaysIncrease(n: int)
    requires 0 <= n < 25
    ensures RetryDelay(n) < RetryDelay(n + 1)
  {
    RetryDelayExact(n);
    RetryDelayExact(n + 1);
  }

  /** The tasks the dispatcher creates (at most 3 retries) wait 120, 240 and
      480 seconds. */
  lemma DispatchedTaskDelays()
    ensures RetryDelay(1) == 120 && RetryDelay(2) == 240 && RetryDelay(3) == 480
  {
  }

  /** From the 26th retry on, `2^n * 60` no longer fits an `int` and the delay
      as written wraps to a negative number, scheduling the retry in the past. */
  lemma RetryDelayWrapsNegative()
    ensures RetryDelay(26) == -268435456
  {
    Pow2Values();
  }

  /** With `LocalMessageAdapter` registered for LOCAL, a LOCAL task always ends SUCCESS. */
  lemma LocalTasksSucceed(t: ChannelTask, now: Instant, adapters: map<ChannelType, Adapter>)
    requires Executable(t) && t.channelType == Some(Local)
    requires Local in adapters && adapters[Local] == LocalAdapter()
    ensures Executed(t, now, adapters).status == Some(TaskStatus.Success)
  {
  }
}
