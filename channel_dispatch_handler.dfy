/** `ChannelDispatchHandler` (order 600): creates one PENDING task per routed
    channel configuration, stores the list on the context and hands it to the
    task executor. */
module ChannelDispatchHandler {
  import opened JavaLang
  import opened Clock
  import opened Enums
  import opened Entities
  import opened HandlerResults
  import opened Context
  import opened TaskExecution

  const ORDER: int := 600
  const NAME: string := "渠道分发处理器"

  /** The retry bound every dispatched task starts with. */
  const MAX_RETRY: int := 3

  /** `supports(context)`: there are configurations to dispatch to. */
  predicate Supports(c: ContextState)
  {
    c.channelConfigs.Some? && c.channelConfigs.value != []
  }

  /** `renderedMessages.get(channelType)`: null for a null channel type or a
      channel that was not rendered. */
  function RenderedContent(rendered: map<ChannelType, Option<string>>, channelType: Option<ChannelType>): Option<string>
  {
    if channelType.Some? && channelType.value in rendered then rendered[channelType.value] else None
  }

  /** The task created for one configuration. */
  function NewTask(messageId: Option<string>, cfg: ChannelConfig, rendered: map<ChannelType, Option<string>>): ChannelTask
  {
    BlankTask().(messageId := messageId, channelType := cfg.channelType, channelConfigId := cfg.id,
                 renderedContent := RenderedContent(rendered, cfg.channelType),
                 status := Some(TaskStatus.Pending), retryCount := Some(0), maxRetry := Some(MAX_RETRY))
  }

  /** The tasks for the configurations, one each and in their order. */
  function NewTasks(messageId: Option<string>, cfgs: seq<ChannelConfig>, rendered: map<ChannelType, Option<string>>)
    : (ts: seq<ChannelTask>)
    ensures |ts| == |cfgs|
    ensures forall i :: 0 <= i < |cfgs| ==> Executable(ts[i])
  {
    seq(|cfgs|, i requires 0 <= i < |cfgs| => NewTask(messageId, cfgs[i], rendered))
  }

  /** The tasks after `executeAll`, each executed on its own. */
  function ExecutedAll(tasks: seq<ChannelTask>, now: Instant, adapters: map<ChannelType, Adapter>): (fs: seq<ChannelTask>)
    requires forall i :: 0 <= i < |tasks| ==> Executable(tasks[i])
    ensures |fs| == |tasks|
  {
    seq(|tasks|, i requires 0 <= i < |tasks| => Executed(tasks[i], now, adapters))
  }

  /** A call of `handle`, and the task writes the executor makes during it. */
  datatype Dispatched = Dispatched(handled: Handled, writes: seq<ChannelTask>)

  /** `handle(context)` with every task executed before it returns. The
      context's list holds the very task objects the executor updates, so
      afterwards it shows their final states. */
  function Dispatch(c: ContextState, now: Instant, adapters: map<ChannelType, Adapter>): Dispatched
  {
    match c.channelConfigs
    case None => Dispatched(Handled(Threw(NullDereference()), c), [])
    case Some(cfgs) =>
      if cfgs != [] && c.renderedMessages.None? then Dispatched(Handled(Threw(NullDereference()), c), [])
      else
        var rendered := if c.renderedMessages.Some? then c.renderedMessages.value else map[];
        var tasks := NewTasks(c.messageId, cfgs, rendered);
        Dispatched(Handled(Returned(HandlerResults.Success()),
                           c.(channelTasks := Some(ExecutedAll(tasks, now, adapters)))),
                   WriteLog(tasks, now, adapters))
  }

  /** The handler object: the loop building the tasks, then the executor. */
  method Handle(ctx: MessageContext, executor: ChannelTaskExecutor, now: Instant) returns (o: Outcome)
    modifies ctx, executor.repository
    ensures var d := Dispatch(old(ctx.State()), now, executor.adapters);
      Handled(o, ctx.State()) == d.handled &&
      executor.repository.updates == old(executor.repository.updates) + d.writes &&
      executor.repository.batches == old(executor.repository.batches)
  {
    if ctx.channelConfigs.None? {
      return Threw(NullDereference());
    }
    var cfgs := ctx.channelConfigs.value;
    var tasks: seq<ChannelTask> := [];
    for i := 0 to |cfgs|
      invariant |tasks| == i
      invariant forall j :: 0 <= j < i ==>
                  ctx.renderedMessages.Some? && tasks[j] == NewTask(ctx.messageId, cfgs[j], ctx.renderedMessages.value)
    {
      if ctx.renderedMessages.None? {
        return Threw(NullDereference());
      }
      var cfg := cfgs[i];
      var task := BlankTask();
      task := task.(messageId := ctx.messageId);
      task := task.(channelType := cfg.channelType);
      task := task.(channelConfigId := cfg.id);
      task := task.(renderedContent := RenderedContent(ctx.renderedMessages.value, cfg.channelType));
      task := task.(status := Some(TaskStatus.Pending));
      task := task.(retryCount := Some(0));
      task := task.(maxRetry := Some(MAX_RETRY));
      tasks := tasks + [task];
    }
    ghost var rendered := if ctx.renderedMessages.Some? then ctx.renderedMessages.value else map[];
    assert tasks == NewTasks(ctx.messageId, cfgs, rendered);
    var finals := executor.ExecuteAll(tasks, now);
    ctx.channelTasks := Some(finals);
    assert finals == ExecutedAll(tasks, now, executor.adapters);
    return Returned(HandlerResults.Success());
  }

  /** When it succeeds, the handler has created exactly one task per
      configuration, in configuration order, each for the message, the
      configuration's channel and id and that channel's rendered content,
      PENDING with no retries and a bound of three; the context then holds
      those tasks as the executor left them: still for the same message,
      channel, configuration and content, settled as SUCCESS, RETRY or
      FAILED, with at most three retries. The executor wrote each task twice,
      in order. Nothing else in the context changes. */
  lemma DispatchCreatesOneTaskPerConfig(c: ContextState, now: Instant, adapters: map<ChannelType, Adapter>)
    requires c.channelConfigs.Some?
    requires c.channelConfigs.value == [] || c.renderedMessages.Some?
    ensures var d := Dispatch(c, now, adapters);
      var cfgs := c.channelConfigs.value;
      var rendered := if c.renderedMessages.Some? then c.renderedMessages.value else map[];
      var tasks := NewTasks(c.messageId, cfgs, rendered);
      d.handled.outcome == Returned(HandlerResults.Success()) &&
      d.handled.state == c.(channelTasks := d.handled.state.channelTasks) &&
      d.handled.state.channelTasks.Some? && |d.handled.state.channelTasks.value| == |cfgs| &&
      d.writes == WriteLog(tasks, now, adapters) &&
      forall i :: 0 <= i < |cfgs| ==>
        var t := tasks[i];
        var f := d.handled.state.channelTasks.value[i];
        t.messageId == c.messageId && t.channelType == cfgs[i].channelType &&
        t.channelConfigId == cfgs[i].id && t.renderedContent == RenderedContent(rendered, cfgs[i].channelType) &&
        t.status == Some(TaskStatus.Pending) && t.retryCount == Some(0) && t.maxRetry == Some(MAX_RETRY) &&
        f == Executed(t, now, adapters) &&
        f.messageId == c.messageId && f.channelType == cfgs[i].channelType &&
        f.channelConfigId == cfgs[i].id && f.renderedContent == t.renderedContent &&
        f.status in {Some(TaskStatus.Success), Some(TaskStatus.Retry), Some(TaskStatus.Failed)} &&
        0 <= f.retryCount.value <= MAX_RETRY && f.maxRetry == Some(MAX_RETRY)
  {
    var cfgs := c.channelConfigs.value;
    var rendered := if c.renderedMessages.Some? then c.renderedMessages.value else map[];
    var tasks := NewTasks(c.messageId, cfgs, rendered);
    forall i | 0 <= i < |cfgs|
      ensures var f := Executed(tasks[i], now, adapters);
        f.messageId == c.messageId && f.channelType == cfgs[i].channelType &&
        f.channelConfigId == cfgs[i].id && f.renderedContent == tasks[i].renderedContent &&
        f.status in {Some(TaskStatus.Success), Some(TaskStatus.Retry), Some(TaskStatus.Failed)} &&
        0 <= f.retryCount.value <= MAX_RETRY && f.maxRetry == Some(MAX_RETRY)
    {
      ExecutedOutcomes(tasks[i], now, adapters);
      RetryBoundPreserved(tasks[i], now, adapters);
    }
  }

  /** Without configurations the handler throws and changes nothing; with
      configurations but no rendered map it throws on the first one, before
      it has written the context or run a task. */
  lemma DispatchFailsOnlyOnNulls(c: ContextState, now: Instant, adapters: map<ChannelType, Adapter>)
    ensures var d := Dispatch(c, now, adapters);
      d.handled.outcome.Threw? <==>
        c.channelConfigs.None? || (c.channelConfigs.value != [] && c.renderedMessages.None?)
    ensures var d := Dispatch(c, now, adapters);
      d.handled.outcome.Threw? ==> d.handled.state == c && d.writes == []
  {
  }
}
