/** `MessageSendApplicationServiceImpl`: names a submitted message, stores it,
    runs the handler chain on a fresh context, and turns the chain's result
    into the caller's `SendResult`; the batch form sends one message after
    the other and counts the outcomes. */
module MessageSend {
  import opened JavaLang
  import opened Text
  import opened Clock
  import opened Enums
  import opened Entities
  import opened Context
  import opened Stores
  import opened Handlers
  import opened HandlerChain
  import opened SendResults
  import opened MessageDomain

  const SYSTEM_ERROR: string := "SYSTEM_ERROR"
  const SYSTEM_ERROR_PREFIX: string := "发送消息失败: "
  const PROCESS_ERROR: string := "MESSAGE_PROCESS_ERROR"

  /** A message as a caller submits it (`domain.vo.Message`). */
  datatype OutgoingMessage = OutgoingMessage(
    messageId: Option<string>,
    tenantId: Option<int>,
    storeId: Option<int>,
    businessType: Option<string>,
    businessData: Option<string>,
    targetChannels: Option<seq<ChannelType>>)

  // ----- Message ids -----

  predicate IsLowerHex(c: char) { '0' <= c <= '9' || 'a' <= c <= 'f' }

  predicate IsUpperHex(c: char) { '0' <= c <= '9' || 'A' <= c <= 'F' }

  /** The text of a `UUID`: 36 characters, lower-case hexadecimal digits with
      dashes at positions 8, 13, 18 and 23. */
  predicate IsUuidText(u: string)
  {
    |u| == 36 &&
    forall i :: 0 <= i < 36 ==> if i in {8, 13, 18, 23} then u[i] == '-' else IsLowerHex(u[i])
  }

  /** `generateMessageId()` for the clock reading `clock` and the random
      UUID `uuid`. */
  function MessageId(clock: DateTime, uuid: string): string
    requires clock.Valid() && IsUuidText(uuid)
  {
    "MSG" + FormatMillis(clock) + UpperCase(uuid[..8])
  }

  /** An id is 28 characters: "MSG", the 17 digits of the millisecond it was
      made in, and 8 upper-case hexadecimal digits. */
  lemma MessageIdShape(clock: DateTime, uuid: string)
    requires clock.Valid() && IsUuidText(uuid)
    ensures var id := MessageId(clock, uuid);
      |id| == 28 && id[..3] == "MSG" && id[3..20] == FormatMillis(clock) && AllDigits(id[3..20]) &&
      forall i :: 20 <= i < 28 ==> IsUpperHex(id[i])
  {
    var id := MessageId(clock, uuid);
    assert id[3..20] == FormatMillis(clock);
    forall i | 20 <= i < 28
      ensures IsUpperHex(id[i])
    {
      assert id[i] == UpperAscii(uuid[i - 20]);
      assert IsLowerHex(uuid[i - 20]);
    }
  }

  /** Two ids are equal only when they were made in the same millisecond
      from UUIDs that share their first eight characters. */
  lemma MessageIdInjective(c1: DateTime, u1: string, c2: DateTime, u2: string)
    requires c1.Valid() && IsUuidText(u1) && c2.Valid() && IsUuidText(u2)
    requires MessageId(c1, u1) == MessageId(c2, u2)
    ensures c1 == c2 && u1[..8] == u2[..8]
  {
    var id1, id2 := MessageId(c1, u1), MessageId(c2, u2);
    assert id1[3..20] == FormatMillis(c1) && id2[3..20] == FormatMillis(c2);
    FormatMillisInjective(c1, c2);
    forall i | 0 <= i < 8
      ensures u1[i] == u2[i]
    {
      assert id1[20 + i] == UpperAscii(u1[i]) && id2[20 + i] == UpperAscii(u2[i]);
      assert IsLowerHex(u1[i]) && IsLowerHex(u2[i]);
    }
  }

  // ----- Converting and building -----

  /** fastjson's text of a list of channel types: the constant names, quoted,
      comma-separated, in brackets. */
  function ChannelListJson(chs: seq<ChannelType>): (s: string)
    ensures |s| >= 2 && s[0] == '[' && s[|s| - 1] == ']'
  {
    "[" + JsonItems(chs) + "]"
  }

  function JsonItems(chs: seq<ChannelType>): string
  {
    if chs == [] then ""
    else if |chs| == 1 then "\"" + chs[0].Code() + "\""
    else "\"" + chs[0].Code() + "\"," + JsonItems(chs[1..])
  }

  /** `convertToDbMessage(message)`: the entity for the message table, with
      the target list as JSON text and the number of requested channels. */
  function Convert(message: OutgoingMessage): (m: Message)
    ensures m.messageId == message.messageId && m.tenantId == message.tenantId
    ensures m.storeId == message.storeId && m.businessType == message.businessType
    ensures m.businessData == message.businessData
    ensures m.targetChannels.Some? <==> message.targetChannels.Some?
    ensures m.totalChannels == Some(if message.targetChannels.Some? then |message.targetChannels.value| else 0)
    ensures m.id.None? && m.status.None? && m.successChannels.None? && m.failedChannels.None?
  {
    Message(None, message.messageId, message.tenantId, message.storeId, message.businessType,
            message.businessData,
            if message.targetChannels.Some? then Some(ChannelListJson(message.targetChannels.value)) else None,
            None,
            Some(if message.targetChannels.Some? then |message.targetChannels.value| else 0),
            None, None, None, None, None)
  }

  /** `buildMessageContext(message)`: the request's fields on a new context,
      in state `INIT`; the target list is the caller's own list. */
  function BuildContext(message: OutgoingMessage): (c: ContextState)
    ensures c == BlankState().(messageId := message.messageId, tenantId := message.tenantId,
                               storeId := message.storeId, businessType := message.businessType,
                               businessData := message.businessData,
                               targetChannels := message.targetChannels, status := Some(Init))
  {
    ContextState(message.messageId, message.tenantId, message.storeId, message.businessType,
                 message.businessData, message.targetChannels, None, None, None, Some(Init), None, None)
  }

  /** The stored row and the context agree on everything they both hold. */
  lemma ConvertAgreesWithContext(message: OutgoingMessage)
    ensures var m, c := Convert(message), BuildContext(message);
      m.messageId == c.messageId && m.tenantId == c.tenantId && m.storeId == c.storeId &&
      m.businessType == c.businessType && m.businessData == c.businessData &&
      m.totalChannels == Some(if c.targetChannels.Some? then |c.targetChannels.value| else 0)
  {
  }

  // ----- One send -----

  /** What a send reads besides its message: the clock and the UUID for the
      id, the clock of `createMessage`, and what the handlers consult. */
  datatype Readings = Readings(idClock: DateTime, uuid: string, createdAt: Instant, env: Env)

  /** Readings the clock and the UUID generator can produce. */
  predicate WellFormed(rd: Readings)
  {
    rd.idClock.Valid() && IsUuidText(rd.uuid) && rd.env.clock.Valid()
  }

  /** Well-formed readings whose adapters are the executor's. */
  ghost predicate ReadingsValid(rd: Readings, adapters: map<ChannelType, TaskExecution.Adapter>)
  {
    WellFormed(rd) && rd.env.adapters == adapters
  }

  /** The answer of a send and the stores it leaves. */
  datatype Sent = Sent(result: SendResult, store: Store)

  /** `sendMessage(message)` with the handlers `handlers` and a message
      repository whose `save` raises `saveFault` (if any). */
  function SendSpec(message: OutgoingMessage, rd: Readings, handlers: seq<HandlerKind>,
                    saveFault: Option<JavaException>, store: Store): Sent
    requires WellFormed(rd)
  {
    var id := MessageId(rd.idClock, rd.uuid);
    var named := message.(messageId := Some(id));
    if saveFault.Some? then
      Sent(SendResults.Fail(SYSTEM_ERROR, Some(SYSTEM_ERROR_PREFIX + JavaLang.Text(saveFault.value.message))), store)
    else
      var saved := store.(rows := AfterSave(store.rows, Created(Convert(named), rd.createdAt)));
      var run := RunChain(handlers, World(BuildContext(named), saved), rd.env);
      Sent(if run.summary.success then SendResults.Success(Some(id))
           else SendResults.Fail(PROCESS_ERROR, run.summary.errorMessage),
           run.world.store)
  }

  /** A send succeeds exactly when the row could be written without an
      exception and the chain succeeded on a context carrying the new id;
      it then answers with that id. A failed chain is reported with its own
      error message; a raising `save` is reported with the exception's
      message and leaves the stores as they were. The message is stored
      before the chain runs. */
  lemma SendOutcomes(message: OutgoingMessage, rd: Readings, handlers: seq<HandlerKind>,
                     saveFault: Option<JavaException>, store: Store)
    requires WellFormed(rd)
    ensures var s := SendSpec(message, rd, handlers, saveFault, store);
      var id := MessageId(rd.idClock, rd.uuid);
      var named := message.(messageId := Some(id));
      var saved := store.(rows := AfterSave(store.rows, Created(Convert(named), rd.createdAt)));
      var run := RunChain(handlers, World(BuildContext(named), saved), rd.env);
      (s.result.success <==> saveFault.None? && run.summary.success) &&
      (s.result.success ==> s.result == SendResults.Success(Some(id))) &&
      (saveFault.None? && !run.summary.success ==>
         s.result.errorCode == Some(PROCESS_ERROR) && s.result.errorMessage == run.summary.errorMessage &&
         s.result.errorMessage.Some?) &&
      (saveFault.Some? ==>
         s.store == store && s.result.errorCode == Some(SYSTEM_ERROR) &&
         s.result.errorMessage == Some(SYSTEM_ERROR_PREFIX + JavaLang.Text(saveFault.value.message)))
  {
    var id := MessageId(rd.idClock, rd.uuid);
    var named := message.(messageId := Some(id));
    var saved := store.(rows := AfterSave(store.rows, Created(Convert(named), rd.createdAt)));
    ChainSummaryFacts(handlers, World(BuildContext(named), saved), rd.env);
  }

  // ----- A batch -----

  /** `BatchSendResult`. */
  datatype BatchSendResult = BatchSendResult(totalCount: int, successCount: int, failedCount: int,
                                             results: seq<SendResult>)

  /** The number of successful sends among `results`. */
  function Successes(results: seq<SendResult>): nat
  {
    if results == [] then 0
    else Successes(results[..|results| - 1]) + (if results[|results| - 1].success then 1 else 0)
  }

  /** The number of failed sends among `results`. */
  function Failures(results: seq<SendResult>): nat
  {
    if results == [] then 0
    else Failures(results[..|results| - 1]) + (if results[|results| - 1].success then 0 else 1)
  }

  /** Every send is counted exactly once, as a success or as a failure. */
  lemma {:induction false} CountsAddUp(results: seq<SendResult>)
    ensures Successes(results) + Failures(results) == |results|
    ensures Successes(results) == |results| <==> forall i :: 0 <= i < |results| ==> results[i].success
  {
    if results != [] {
      var init := results[..|results| - 1];
      CountsAddUp(init);
      assert forall i :: 0 <= i < |init| ==> init[i] == results[i];
    }
  }

  /** The results of sending `messages` one after the other, and the stores
      after the last send. */
  datatype BatchRun = BatchRun(results: seq<SendResult>, store: Store)

  function SendAll(messages: seq<OutgoingMessage>, rds: seq<Readings>, handlers: seq<HandlerKind>,
                   saveFault: Option<JavaException>, store: Store): BatchRun
    requires |rds| == |messages|
    requires forall i :: 0 <= i < |rds| ==> WellFormed(rds[i])
  {
    if messages == [] then BatchRun([], store)
    else
      var n := |messages| - 1;
      var before := SendAll(messages[..n], rds[..n], handlers, saveFault, store);
      var s := SendSpec(messages[n], rds[n], handlers, saveFault, before.store);
      BatchRun(before.results + [s.result], s.store)
  }

  /** `batchSendMessages(messages)` as a value. */
  function BatchSpec(messages: seq<OutgoingMessage>, rds: seq<Readings>, handlers: seq<HandlerKind>,
                     saveFault: Option<JavaException>, store: Store): (BatchSendResult, Store)
    requires |rds| == |messages|
    requires forall i :: 0 <= i < |rds| ==> WellFormed(rds[i])
  {
    var run := SendAll(messages, rds, handlers, saveFault, store);
    (BatchSendResult(|messages|, Successes(run.results), Failures(run.results), run.results), run.store)
  }

  /** The batch holds one result per message, in the order of the messages:
      the `i`-th is the send of the `i`-th message on the stores the earlier
      sends left. */
  lemma {:induction false} SendAllOnePerMessage(messages: seq<OutgoingMessage>, rds: seq<Readings>,
                                                handlers: seq<HandlerKind>,
                                                saveFault: Option<JavaException>, store: Store, i: nat)
    requires |rds| == |messages| && i < |messages|
    requires forall j :: 0 <= j < |rds| ==> WellFormed(rds[j])
    ensures |SendAll(messages, rds, handlers, saveFault, store).results| == |messages|
    ensures SendAll(messages, rds, handlers, saveFault, store).results[i] ==
            SendSpec(messages[i], rds[i], handlers, saveFault,
                     SendAll(messages[..i], rds[..i], handlers, saveFault, store).store).result
    decreases |messages|
  {
    var n := |messages| - 1;
    SendAllLength(messages, rds, handlers, saveFault, store);
    if i < n {
      SendAllOnePerMessage(messages[..n], rds[..n], handlers, saveFault, store, i);
      assert messages[..n][..i] == messages[..i] && rds[..n][..i] == rds[..i];
    } else {
      assert messages[..n] == messages[..i] && rds[..n] == rds[..i];
    }
  }

  lemma {:induction false} SendAllLength(messages: seq<OutgoingMessage>, rds: seq<Readings>,
                                         handlers: seq<HandlerKind>,
                                         saveFault: Option<JavaException>, store: Store)
    requires |rds| == |messages|
    requires forall j :: 0 <= j < |rds| ==> WellFormed(rds[j])
    ensures |SendAll(messages, rds, handlers, saveFault, store).results| == |messages|
    decreases |messages|
  {
    if messages != [] {
      var n := |messages| - 1;
      SendAllLength(messages[..n], rds[..n], handlers, saveFault, store);
    }
  }

  /** The batch up to message `i` and the send of message `i`. */
  lemma SendAllUnfold(messages: seq<OutgoingMessage>, rds: seq<Readings>, handlers: seq<HandlerKind>,
                      saveFault: Option<JavaException>, store: Store, i: nat)
    requires |rds| == |messages| && i < |messages|
    requires forall j :: 0 <= j < |rds| ==> WellFormed(rds[j])
    ensures var before := SendAll(messages[..i], rds[..i], handlers, saveFault, store);
      var s := SendSpec(messages[i], rds[i], handlers, saveFault, before.store);
      SendAll(messages[..i + 1], rds[..i + 1], handlers, saveFault, store) ==
        BatchRun(before.results + [s.result], s.store)
  {
    assert messages[..i + 1][..i] == messages[..i] && rds[..i + 1][..i] == rds[..i];
  }

  /** One more result adds one to one of the two counts. */
  lemma CountsStep(results: seq<SendResult>, r: SendResult)
    ensures Successes(results + [r]) == Successes(results) + (if r.success then 1 else 0)
    ensures Failures(results + [r]) == Failures(results) + (if r.success then 0 else 1)
  {
    assert (results + [r])[..|results|] == results;
  }

  /** The counts of a batch: the total is the number of messages, and the
      successes and failures add up to it and count the results. */
  lemma BatchCounts(messages: seq<OutgoingMessage>, rds: seq<Readings>, handlers: seq<HandlerKind>,
                    saveFault: Option<JavaException>, store: Store)
    requires |rds| == |messages|
    requires forall j :: 0 <= j < |rds| ==> WellFormed(rds[j])
    ensures var b := BatchSpec(messages, rds, handlers, saveFault, store).0;
      b.totalCount == |messages| == |b.results| &&
      b.successCount + b.failedCount == b.totalCount &&
      (b.successCount == b.totalCount <==> forall i :: 0 <= i < |b.results| ==> b.results[i].success)
  {
    SendAllLength(messages, rds, handlers, saveFault, store);
    CountsAddUp(SendAll(messages, rds, handlers, saveFault, store).results);
  }

  // ----- The service bean -----

  /** The stores as the chain's beans hold them. */
  function StoreOf(chain: MessageHandlerChain): Store
    reads chain.redis, chain.messages, chain.executor.repository
  {
    Store(chain.redis.counters, chain.redis.ttls, chain.messages.rows,
          chain.executor.repository.batches, chain.executor.repository.updates)
  }

  class MessageSendApplicationServiceImpl {
    const domain: MessageDomainServiceImpl
    const chain: MessageHandlerChain

    constructor (domain: MessageDomainServiceImpl, chain: MessageHandlerChain)
      ensures this.domain == domain && this.chain == chain
    {
      this.domain := domain;
      this.chain := chain;
    }

    /** The domain service and the chain's status handler share the one
        message repository bean. */
    predicate Wired()
    {
      domain.repository == chain.messages
    }

    /** `new MessageContext()` followed by the setters of `buildMessageContext`. */
    static method BuildMessageContext(message: OutgoingMessage) returns (ctx: MessageContext)
      ensures fresh(ctx) && ctx.State() == BuildContext(message)
    {
      ctx := new MessageContext();
      ctx.messageId := message.messageId;
      ctx.tenantId := message.tenantId;
      ctx.storeId := message.storeId;
      ctx.businessType := message.businessType;
      ctx.businessData := message.businessData;
      ctx.targetChannels := message.targetChannels;
      ctx.status := Some(Init);
    }

    /** `sendMessage(message)`. */
    method SendMessage(message: OutgoingMessage, rd: Readings) returns (r: SendResult)
      requires Wired() && ReadingsValid(rd, chain.executor.adapters)
      modifies chain.redis, chain.messages, chain.executor.repository
      ensures Sent(r, StoreOf(chain)) ==
              SendSpec(message, rd, chain.handlers, chain.messages.saveFault, old(StoreOf(chain)))
    {
      var messageId := MessageId(rd.idClock, rd.uuid);
      var named := message.(messageId := Some(messageId));
      var dbMessage := Convert(named);
      var created := domain.CreateMessage(dbMessage, rd.createdAt);
      if created.Raised? {
        return SendResults.Fail(SYSTEM_ERROR, Some(SYSTEM_ERROR_PREFIX + JavaLang.Text(created.exception.message)));
      }
      var ctx := BuildMessageContext(named);
      var chainResult := chain.Execute(ctx, rd.env);
      if chainResult.success {
        r := SendResults.Success(Some(messageId));
      } else {
        r := SendResults.Fail(PROCESS_ERROR, chainResult.errorMessage);
      }
    }

    /** The batch after the first `i` messages: their results, counted, and
        the stores their sends left. */
    ghost predicate SentSoFar(messages: seq<OutgoingMessage>, rds: seq<Readings>, start: Store, i: nat,
                              results: seq<SendResult>, successCount: int, failedCount: int)
      requires |rds| == |messages| && i <= |messages|
      requires forall j :: 0 <= j < |rds| ==> WellFormed(rds[j])
      reads this, chain, chain.redis, chain.messages, chain.executor.repository
    {
      var run := SendAll(messages[..i], rds[..i], chain.handlers, chain.messages.saveFault, start);
      results == run.results && StoreOf(chain) == run.store &&
      successCount == Successes(results) && failedCount == Failures(results)
    }

    /** One pass of the batch loop: send message `i`, keep its result, count it. */
    method SendNext(messages: seq<OutgoingMessage>, rds: seq<Readings>, ghost start: Store, i: nat,
                    results: seq<SendResult>, successCount: int, failedCount: int)
      returns (results': seq<SendResult>, successCount': int, failedCount': int)
      requires Wired() && |rds| == |messages| && i < |messages|
      requires forall j :: 0 <= j < |rds| ==> WellFormed(rds[j])
      requires rds[i].env.adapters == chain.executor.adapters
      requires SentSoFar(messages, rds, start, i, results, successCount, failedCount)
      modifies chain.redis, chain.messages, chain.executor.repository
      ensures SentSoFar(messages, rds, start, i + 1, results', successCount', failedCount')
    {
      ghost var before := SendAll(messages[..i], rds[..i], chain.handlers, chain.messages.saveFault, start);
      ghost var sent := SendSpec(messages[i], rds[i], chain.handlers, chain.messages.saveFault, before.store);
      SendAllUnfold(messages, rds, chain.handlers, chain.messages.saveFault, start, i);
      var result := SendMessage(messages[i], rds[i]);
      assert Sent(result, StoreOf(chain)) == sent;
      CountsStep(results, result);
      results' := results + [result];
      assert SendAll(messages[..i + 1], rds[..i + 1], chain.handlers, chain.messages.saveFault, start) ==
             BatchRun(results', StoreOf(chain));
      if result.success {
        successCount', failedCount' := successCount + 1, failedCount;
      } else {
        successCount', failedCount' := successCount, failedCount + 1;
      }
    }

    /** `batchSendMessages(messages)`, each send with its own readings. */
    method BatchSendMessages(messages: seq<OutgoingMessage>, rds: seq<Readings>) returns (b: BatchSendResult)
      requires Wired() && |rds| == |messages|
      requires forall i :: 0 <= i < |rds| ==> WellFormed(rds[i])
      requires forall i :: 0 <= i < |rds| ==> rds[i].env.adapters == chain.executor.adapters
      modifies chain.redis, chain.messages, chain.executor.repository
      ensures (b, StoreOf(chain)) ==
              BatchSpec(messages, rds, chain.handlers, chain.messages.saveFault, old(StoreOf(chain)))
    {
      ghost var start := StoreOf(chain);
      var results: seq<SendResult> := [];
      var successCount, failedCount := 0, 0;
      for i := 0 to |messages|
        invariant SentSoFar(messages, rds, start, i, results, successCount, failedCount)
      {
        results, successCount, failedCount := SendNext(messages, rds, start, i, results, successCount, failedCount);
      }
      assert messages[..|messages|] == messages && rds[..|rds|] == rds;
      b := BatchSendResult(|messages|, successCount, failedCount, results);
    }
  }
}
