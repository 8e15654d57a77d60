/** `StatusTrackingHandler` (order 700): marks the message PROCESSING and
    saves the context's channel tasks in one batch. */
module StatusTrackingHandler {
  import opened JavaLang
  import opened Enums
  import opened Entities
  import opened HandlerResults
  import opened Context
  import opened Stores

  const ORDER: int := 700
  const NAME: string := "状态追踪处理器"

  /** `supports(context)`: there are tasks to save. */
  predicate Supports(c: ContextState)
  {
    c.channelTasks.Some? && c.channelTasks.value != []
  }

  /** A call of `handle`, with the message table and the saved batches after it. */
  datatype Tracked = Tracked(handled: Handled, rows: map<string, Message>, batches: seq<seq<ChannelTask>>)

  /** `handle(context)`: the status update's result is ignored. */
  function Track(c: ContextState, rows: map<string, Message>, batches: seq<seq<ChannelTask>>): Tracked
    requires c.channelTasks.Some?
  {
    Tracked(Handled(Returned(HandlerResults.Success()), c),
            WithStatus(rows, c.messageId, MessageStatus.Processing),
            batches + [c.channelTasks.value])
  }

  /** The handler object, with the two repositories it writes. */
  method Handle(ctx: MessageContext, messages: MessageRepository, tasks: ChannelTaskRepository) returns (o: Outcome)
    requires ctx.channelTasks.Some?
    modifies messages, tasks
    ensures Tracked(Handled(o, ctx.State()), messages.rows, tasks.batches) ==
            Track(old(ctx.State()), old(messages.rows), old(tasks.batches))
    ensures tasks.updates == old(tasks.updates)
  {
    var _ := messages.UpdateStatus(ctx.messageId, MessageStatus.Processing);
    tasks.SaveBatch(ctx.channelTasks.value);
    return Returned(HandlerResults.Success());
  }

  /** The handler always succeeds and leaves the context alone; the stored
      message, if there is one, is now PROCESSING and no other row changes;
      exactly one batch is saved, and it is the context's task list. */
  lemma TrackMarksProcessing(c: ContextState, rows: map<string, Message>, batches: seq<seq<ChannelTask>>)
    requires c.channelTasks.Some?
    ensures var t := Track(c, rows, batches);
      t.handled == Handled(Returned(HandlerResults.Success()), c) &&
      t.rows.Keys == rows.Keys &&
      (forall id :: id in rows && Some(id) != c.messageId ==> t.rows[id] == rows[id]) &&
      (Row(rows, c.messageId).Some? ==>
         Row(t.rows, c.messageId) == Some(Row(rows, c.messageId).value.(status := Some(MessageStatus.Processing)))) &&
      |t.batches| == |batches| + 1 && t.batches[..|batches|] == batches &&
      t.batches[|batches|] == c.channelTasks.value
  {
  }
}
