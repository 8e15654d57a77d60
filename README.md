# message-center, modelled in Dafny

message-center is a multi-tenant message delivery service. A caller submits a
message (tenant, store, business type, business data, target channels). The
application service names it (`MSG` + the time to the millisecond + eight hex
digits of a UUID), stores it as PENDING, and runs a chain of seven handlers on a
fresh message context:

1. validation (100);
2. the per-channel sending-hours gate (200);
3. channel routing by the tenant's enabled configurations (300);
4. per-tenant rate limiting with Redis counters per calendar bucket (400);
5. template rendering per channel (500);
6. channel dispatch, which creates one channel task per routed configuration
   and has the task executor deliver it (600);
7. status tracking, which marks the message PROCESSING and saves the tasks
   (700).

Each handler reports a `HandlerResult`. A result that does not continue the
chain, or an exception, ends the run. The service turns the chain's result into
a `SendResult`; the batch form sends the messages one after another and counts
the outcomes. The task executor moves each task PENDING → SENDING → SUCCESS,
RETRY (with exponential backoff) or FAILED. The domain service creates messages,
updates their status, and derives a message's final status from its channel
counters.

The model follows each source file's own shape:

- Pure parts are datatypes and functions: the result objects, the enums, the
  entities, the handler decisions, status derivation, key and label formats.
- Stateful parts are classes whose methods are proved against those functions:
  the message context, the repositories, the Redis counters, the executor, the
  chain, the two services.
- Every Java reference that may be null is an `Option`, and the code that reads
  it decides what a null does. An unboxing or dereference of a null is a
  modelled `NullPointerException`; an int division by zero is a modelled
  `ArithmeticException`.
- Java's truncating division and the 32-bit wrap-around of `int` products are
  written out where the code relies on them.

`Pipeline` proves what a whole run of the chain in its canonical order means. A
run succeeds only when every handler ran and succeeded; it then leaves the
message PROCESSING, with one saved batch holding one task per routed
configuration. A message with no target channels never gets through.

What the handlers consult but the core does not implement is a parameter
(`Handlers.Env`):

- the `StringUtils.isBlank` and JSON-validity predicates;
- the channel-configuration queries;
- the rate-limit settings service;
- template lookup and rendering;
- the channel adapters;
- the clock reading of the call.

The message id's clock reading and UUID text are parameters of a send
(`MessageSend.Readings`).


## Model

| member | source | states |
|---|---|---|
| JavaLang.Text | src/main/java/com/message/center/application/handler/MessageHandlerChain.java:57 | a null string concatenates as "null", any other string as itself |
| JavaLang.JavaDiv | src/main/java/com/message/center/application/handler/RateLimitHandler.java:125 | Java's int division: the quotient truncated toward zero, exact on non-negative operands, with the remainder bound |
| JavaLang.Wrap32 | src/main/java/com/message/center/infrastructure/executor/ChannelTaskExecutor.java:108 | an int product wraps to a 32-bit value congruent to the true one, unchanged when it fits |
| JavaLang.DivisionByZero | src/main/java/com/message/center/application/handler/RateLimitHandler.java:125 | an int division by zero raises an ArithmeticException with the message "/ by zero" |
| Text.IntToString | src/main/java/com/message/center/application/handler/RateLimitHandler.java:73-74 | `%d` of an integer: non-empty, a leading minus sign exactly for a negative value, otherwise a digit first |
| Text.LongText | src/main/java/com/message/center/application/handler/RateLimitHandler.java:110-115 | a nullable Long prints as "null" or its decimal digits, never empty |
| Text.LongTextInjective | src/main/java/com/message/center/application/handler/RateLimitHandler.java:110-115 | distinct nullable Longs print differently |
| Text.TwoDigits | src/main/java/com/message/center/application/handler/TimeWindowHandler.java:48 | `%02d` of an hour 0..99 is two digits that read back as the hour |
| Text.UpperCase | src/main/java/com/message/center/application/service/impl/MessageSendApplicationServiceImpl.java:84 | upper-casing keeps the length and maps each character on its own |
| Clock.FormatDay | src/main/java/com/message/center/application/handler/RateLimitHandler.java:131-132 | `yyyyMMdd` is 8 digits |
| Clock.FormatHour | src/main/java/com/message/center/application/handler/RateLimitHandler.java:129-130 | `yyyyMMddHH` is 10 digits and extends the day label |
| Clock.FormatMinute | src/main/java/com/message/center/application/handler/RateLimitHandler.java:125-128 | `yyyyMMddHHmm` is 12 digits and extends the hour label |
| Clock.FormatMillis | src/main/java/com/message/center/application/service/impl/MessageSendApplicationServiceImpl.java:83 | `yyyyMMddHHmmssSSS` is 17 digits and extends the minute label |
| Clock.FormatDayInjective | src/main/java/com/message/center/application/handler/RateLimitHandler.java:131-132 | equal day labels mean the same calendar day |
| Clock.FormatHourInjective | src/main/java/com/message/center/application/handler/RateLimitHandler.java:129-130 | equal hour labels mean the same day and hour |
| Clock.FormatMinuteInjective | src/main/java/com/message/center/application/handler/RateLimitHandler.java:127-128 | equal minute labels mean the same day, hour and minute |
| Clock.FormatMillisInjective | src/main/java/com/message/center/application/service/impl/MessageSendApplicationServiceImpl.java:83 | equal millisecond labels mean the same reading |
| Clock.PlusSeconds | src/main/java/com/message/center/infrastructure/executor/ChannelTaskExecutor.java:109 | `plusSeconds(d)` moves a time stamp by exactly d seconds |
| Enums.ChannelType.Code | src/main/java/com/message/center/domain/enums/ChannelType.java:10-12 | the constant's `name()`, at least five characters long |
| Enums.ChannelCodeInjective | src/main/java/com/message/center/domain/enums/ChannelType.java:10-12 | distinct channel types print differently |
| Enums.ChannelCodeNoColon | src/main/java/com/message/center/application/handler/RateLimitHandler.java:111 | no channel name contains the key separator `:` |
| Entities.BlankTask | src/main/java/com/message/center/domain/entity/ChannelTask.java:17-103 | a new task has a null message id, status, retry count and finish time |
| HandlerResults.Success | src/main/java/com/message/center/domain/vo/HandlerResult.java:44-46 | continue, success, no code, no message |
| HandlerResults.Fail | src/main/java/com/message/center/domain/vo/HandlerResult.java:54-56 | stop, failure, with the given code and message |
| HandlerResults.Skip | src/main/java/com/message/center/domain/vo/HandlerResult.java:62-64 | continue, success, no code, the skip note |
| HandlerResults.FactoryContinueIsSuccess | src/main/java/com/message/center/domain/vo/HandlerResult.java:44-64 | a factory-built result continues exactly when it succeeds, and carries a code exactly when it fails |
| SendResults.Success | src/main/java/com/message/center/domain/vo/SendResult.java:35-40 | a successful answer with the message id and no error |
| SendResults.Fail | src/main/java/com/message/center/domain/vo/SendResult.java:48-54 | a failed answer with the code and message and no id |
| Context.Put | src/main/java/com/message/center/domain/vo/MessageContext.java:96-101 | a put on a lazily created map: the key maps to the value, the other keys keep theirs |
| Context.Get | src/main/java/com/message/center/domain/vo/MessageContext.java:110-115 | null for a missing map or key, the stored value otherwise |
| Context.Append | src/main/java/com/message/center/domain/vo/MessageContext.java:133-138 | an add on a lazily created list: one longer, the old list as prefix, the new element last |
| Context.GetAfterPut | src/main/java/com/message/center/domain/vo/MessageContext.java:96-115 | a get after a put returns the value put; other keys are unaffected |
| Context.MessageContext.constructor | src/main/java/com/message/center/domain/vo/MessageContext.java:24-79 | a new context has every field null |
| Context.MessageContext.AddAttribute | src/main/java/com/message/center/domain/vo/MessageContext.java:96-101 | only the attribute map changes, to the map with the key put |
| Context.MessageContext.GetAttribute | src/main/java/com/message/center/domain/vo/MessageContext.java:110-115 | returns the stored value, or null without map or key |
| Context.MessageContext.AddRenderedMessage | src/main/java/com/message/center/domain/vo/MessageContext.java:122-127 | only the rendered map changes, to the map with the channel's text put |
| Context.MessageContext.AddChannelTask | src/main/java/com/message/center/domain/vo/MessageContext.java:133-138 | only the task list changes, to the list with the task appended |
| TimeUnits.TimeUnit.Seconds | src/main/java/com/message/center/domain/enums/TimeUnitEnum.java:10-13 | each unit is a positive number of seconds |
| TimeUnits.TimeUnit.ToSeconds | src/main/java/com/message/center/domain/enums/TimeUnitEnum.java:44-46 | the product is a multiple of the unit that divides back to the window, and fits a long for every int window |
| TimeUnits.FirstWithCode | src/main/java/com/message/center/domain/enums/TimeUnitEnum.java:30-35 | finds a unit exactly when one has the code, and then one with that code |
| TimeUnits.GetByCodeRoundTrip | src/main/java/com/message/center/domain/enums/TimeUnitEnum.java:10-37 | looking up a unit's own code returns it; the seconds table is 1, 60, 3600, 86400 |
| TimeUnits.GetByCodeDefault | src/main/java/com/message/center/domain/enums/TimeUnitEnum.java:36 | a null or unknown code gives SECOND |
| Stores.Row | src/main/java/com/message/center/infrastructure/data/repository/MessageRepositoryImpl.java:32-34 | a row is found exactly when the id is non-null and stored, and it is the stored row |
| Stores.WithStatus | src/main/java/com/message/center/infrastructure/data/mapper/MessageMapper.java:36-40 | the matching row gets the status; the keys and every other row stay |
| Stores.MessageRepository.Save | src/main/java/com/message/center/infrastructure/data/repository/MessageRepositoryImpl.java:22-29 | inserts exactly when the message id is present and not yet stored (the unique column), else reports false and keeps the table; a faulty store raises and keeps it |
| Stores.MessageRepository.GetByMessageId | src/main/java/com/message/center/infrastructure/data/repository/MessageRepositoryImpl.java:32-34 | returns the stored row for the id, if any |
| Stores.MessageRepository.UpdateStatus | src/main/java/com/message/center/infrastructure/data/repository/MessageRepositoryImpl.java:37-44 | true exactly when a row matched; the table becomes WithStatus |
| Stores.ChannelTaskRepository.SaveBatch | src/main/java/com/message/center/domain/repository/ChannelTaskRepository.java:25 | the list is recorded as one more batch; nothing else changes |
| Stores.ChannelTaskRepository.UpdateStatus | src/main/java/com/message/center/infrastructure/executor/ChannelTaskExecutor.java:66 | the task is recorded as one more write; nothing else changes |
| Stores.RedisCounters.Increment | src/main/java/com/message/center/application/handler/RateLimitHandler.java:60 | INCR: the new count is the old one (0 when absent) plus one, and only that key changes |
| Stores.RedisCounters.Expire | src/main/java/com/message/center/application/handler/RateLimitHandler.java:65 | EXPIRE: only that key's expiry changes |
| TaskExecution.LocalAdapter | src/main/java/com/message/center/infrastructure/adapter/LocalMessageAdapter.java:25-29 | the local adapter answers success with the task's message id for every task |
| TaskExecution.PowerOfTwoAsInt | src/main/java/com/message/center/infrastructure/executor/ChannelTaskExecutor.java:108 | `(int) Math.pow(2, n)` is a non-negative int, exactly 2^n for 0..30 |
| TaskExecution.RetryDelay | src/main/java/com/message/center/infrastructure/executor/ChannelTaskExecutor.java:108 | the backoff delay is always a 32-bit int |
| TaskExecution.AfterFailure | src/main/java/com/message/center/infrastructure/executor/ChannelTaskExecutor.java:100-114 | a failed attempt leaves both retry counters readable |
| TaskExecution.ChannelTaskExecutor.ExecuteTask | src/main/java/com/message/center/infrastructure/executor/ChannelTaskExecutor.java:62-93 | returns `Executed(task)`; the task is written as SENDING, then in its final state; no batch is written |
| TaskExecution.ChannelTaskExecutor.ExecuteAll | src/main/java/com/message/center/infrastructure/executor/ChannelTaskExecutor.java:43-55 | one final task per input, each executed on its own, writes in task order, batches untouched |
| TaskExecution.ExecutedOutcomes | src/main/java/com/message/center/infrastructure/executor/ChannelTaskExecutor.java:62-114 | SUCCESS iff the adapter answered success; RETRY iff not and retries remain, with the counter bumped and the delay applied; FAILED otherwise, with finish time; identity fields kept |
| TaskExecution.FailureMessage | src/main/java/com/message/center/infrastructure/executor/ChannelTaskExecutor.java:69-87 | every failure stores its message: the adapter's, the exception's, or the missing-adapter text |
| TaskExecution.RetryBoundPreserved | src/main/java/com/message/center/infrastructure/executor/ChannelTaskExecutor.java:104-106 | a retry counter within its bound stays within it |
| TaskExecution.RetryDelayExact | src/main/java/com/message/center/infrastructure/executor/ChannelTaskExecutor.java:108 | the delay is exactly 60·2^n for n up to 25 |
| TaskExecution.RetryDelaysIncrease | src/main/java/com/message/center/infrastructure/executor/ChannelTaskExecutor.java:108 | delays strictly increase while exact |
| TaskExecution.DispatchedTaskDelays | src/main/java/com/message/center/application/handler/ChannelDispatchHandler.java:38 | tasks with three retries wait 120, 240 and 480 seconds |
| TaskExecution.RetryDelayWrapsNegative | src/main/java/com/message/center/infrastructure/executor/ChannelTaskExecutor.java:108 | the delay of the 26th retry is -268435456: the int product wraps |
| TaskExecution.LocalTasksSucceed | src/main/java/com/message/center/infrastructure/adapter/LocalMessageAdapter.java:25-29 | a LOCAL task with the local adapter always ends SUCCESS |
| ValidationHandler.Validate | src/main/java/com/message/center/application/handler/ValidationHandler.java:18-40 | a factory result; success is the plain success; any failure has code VALIDATION_ERROR |
| ValidationHandler.ValidateIsFirstFailingRule | src/main/java/com/message/center/application/handler/ValidationHandler.java:18-40 | passes iff every rule passes, else fails with the first failing rule's message, in the order tenant, type, data, JSON |
| TimeWindowHandler.Check | src/main/java/com/message/center/application/handler/TimeWindowHandler.java:25-54 | a factory-built result, or the NullPointerException of unboxing a null |
| TimeWindowHandler.ScanFindsFirstDecisive | src/main/java/com/message/center/application/handler/TimeWindowHandler.java:40-51 | the loop lets the message through iff no configuration is decisive, else reports the first decisive one |
| TimeWindowHandler.ClosedIffSomeWindowExcludes | src/main/java/com/message/center/application/handler/TimeWindowHandler.java:35-53 | with readable flags: never throws; fails NOT_IN_TIME_WINDOW iff some gated window excludes the hour, reporting the first such window |
| ChannelRouterHandler.Handle | src/main/java/com/message/center/application/handler/ChannelRouterHandler.java:26-62 | the context and outcome are those of Route |
| ChannelRouterHandler.EnabledOnlyKeepsEnabled | src/main/java/com/message/center/application/handler/ChannelRouterHandler.java:39-41 | the filter throws iff some `enabled` is null, else keeps, in order, exactly the enabled ones |
| ChannelRouterHandler.ForTargetsKeepsWanted | src/main/java/com/message/center/application/handler/ChannelRouterHandler.java:48-52 | keeps, in order, exactly the configurations of a requested channel |
| ChannelRouterHandler.RouteSelectsRequestedEnabled | src/main/java/com/message/center/application/handler/ChannelRouterHandler.java:26-62 | success stores a non-empty ordered sub-list of exactly the enabled, requested configurations and changes nothing else; other outcomes change nothing |
| ChannelRouterHandler.NoMatchIffNothingWanted | src/main/java/com/message/center/application/handler/ChannelRouterHandler.java:47-56 | "no matching channel" iff channels were requested and no enabled configuration is for one |
| RateLimitHandler.ProbeChannel | src/main/java/com/message/center/application/handler/RateLimitHandler.java:45-57 | a ready probe is for the channel it was asked about |
| RateLimitHandler.CheckOne | src/main/java/com/message/center/application/handler/RateLimitHandler.java:60-75 | one loop pass on the live Redis object equals CheckChannel on the old counters |
| RateLimitHandler.ThrottleLoop | src/main/java/com/message/center/application/handler/RateLimitHandler.java:43-76 | the loop's verdict and Redis state equal ThrottleChannels |
| RateLimitHandler.Handle | src/main/java/com/message/center/application/handler/RateLimitHandler.java:39-87 | outcome, context and Redis state equal RateLimit |
| RateLimitHandler.KeyInjective | src/main/java/com/message/center/application/handler/RateLimitHandler.java:24-27 | keys of different channels, tenants, stores or buckets differ: counters are per tenant |
| RateLimitHandler.SlotIsFloor | src/main/java/com/message/center/application/handler/RateLimitHandler.java:125 | for a non-negative second the bucket start is the second rounded down to a multiple of the window |
| RateLimitHandler.SlotBounds | src/main/java/com/message/center/application/handler/RateLimitHandler.java:125 | the bucket start lies at most one window before the second and not after it |
| RateLimitHandler.SamePeriodSameBucket | src/main/java/com/message/center/application/handler/RateLimitHandler.java:121-136 | readings in the same period of the unit share a bucket |
| RateLimitHandler.BucketIsCalendarPeriod | src/main/java/com/message/center/application/handler/RateLimitHandler.java:121-136 | readings share a bucket iff they fall in the same calendar period of the unit |
| RateLimitHandler.CheckChannelEffect | src/main/java/com/message/center/application/handler/RateLimitHandler.java:60-75 | a pass increments exactly its key, sets a TTL only on a count of one, and that TTL is `getTTLSeconds` of the channel's settings (one window); a new key under settings without a window throws; it goes on only with a count after `INCR` within the limit; once it reaches the comparison it goes on iff the new count is within the limit, and otherwise stops with RATE_LIMITED for that channel, the new count and the limit |
| RateLimitHandler.ThrottleIncrementsPrefix | src/main/java/com/message/center/application/handler/RateLimitHandler.java:43-76 | the loop increments the channels' keys in order: all of them when allowed, up to the limited one, which is over its limit |
| RateLimitHandler.ThrottleAllowedIffAllPass | src/main/java/com/message/center/application/handler/RateLimitHandler.java:43-76 | the loop allows the message iff every channel has settings to compare with and its count after `INCR` is within its limit |
| RateLimitHandler.ThrottleReportsFirstOverLimit | src/main/java/com/message/center/application/handler/RateLimitHandler.java:43-76 | the first channel over its limit, every earlier one within its own, is the one reported, with its count after `INCR` and its limit |
| RateLimitHandler.ThrottleLimitedIsFirstOverLimit | src/main/java/com/message/center/application/handler/RateLimitHandler.java:43-76 | a reported channel is the last one incremented, over its limit, and every channel before it was within its limit |
| RateLimitHandler.ThrottleCountsIncrements | src/main/java/com/message/center/application/handler/RateLimitHandler.java:60 | every counter rises by the number of times its key was incremented, others unchanged |
| RateLimitHandler.ThrottleExpiresOnlyNewKeys | src/main/java/com/message/center/application/handler/RateLimitHandler.java:62-66 | a TTL is only set on an incremented key that did not exist before; no TTL is removed |
| RateLimitHandler.ThrottleExpiresEveryNewKey | src/main/java/com/message/center/application/handler/RateLimitHandler.java:62-66 | every key the loop creates gets a TTL unless the loop threw |
| RateLimitHandler.ThrottleNewKeyTtl | src/main/java/com/message/center/application/handler/RateLimitHandler.java:62-66 | a key the loop creates under settings with a window ends with the TTL `getTTLSeconds` of the creating channel's settings (one window); later passes over the key keep it |
| RateLimitHandler.RateLimitOutcomes | src/main/java/com/message/center/application/handler/RateLimitHandler.java:39-87 | the all-limited failure iff the list is empty (no counter touched); success means every key incremented once, in order; a limited failure names a target over its limit; the context never changes |
| RateLimitHandler.RateLimitEnforcesLimits | src/main/java/com/message/center/application/handler/RateLimitHandler.java:39-87 | success iff there are targets and every one is within its limit after `INCR`; the first channel over its limit fails the handler with RATE_LIMITED naming that channel, its count and its limit; every other RATE_LIMITED failure comes from such a first channel |
| TemplateRenderHandler.Handle | src/main/java/com/message/center/application/handler/TemplateRenderHandler.java:26-52 | outcome and context equal RenderStep |
| TemplateRenderHandler.RenderAllCoversTargets | src/main/java/com/message/center/application/handler/TemplateRenderHandler.java:27-46 | the map's keys are exactly the targets, each with its own template rendered |
| TemplateRenderHandler.RenderReplacesMap | src/main/java/com/message/center/application/handler/TemplateRenderHandler.java:26-52 | with targets present: success; only the rendered map changes; its keys are the targets; the previous map has no effect |
| TemplateRenderHandler.RenderAllAgrees | src/main/java/com/message/center/application/handler/TemplateRenderHandler.java:32-42 | rendering reads only tenant, business type and data |
| TemplateRenderHandler.FallbackKeepsRawData | src/test/java/com/message/center/service/impl/MessageTemplateServiceImplTest.java:63-102 | with the service's fallbacks, a channel without usable template, or non-JSON data, gets the raw data |
| ChannelDispatchHandler.NewTasks | src/main/java/com/message/center/application/handler/ChannelDispatchHandler.java:30-40 | one task per configuration, each executable |
| ChannelDispatchHandler.Handle | src/main/java/com/message/center/application/handler/ChannelDispatchHandler.java:27-49 | outcome, context and the executor's writes equal Dispatch |
| ChannelDispatchHandler.DispatchCreatesOneTaskPerConfig | src/main/java/com/message/center/application/handler/ChannelDispatchHandler.java:27-49 | success; one PENDING task per configuration, in order, with its message, channel, id, content, 0 retries, bound 3; the context holds them executed (settled, same identity, at most 3 retries); nothing else changes |
| ChannelDispatchHandler.DispatchFailsOnlyOnNulls | src/main/java/com/message/center/application/handler/ChannelDispatchHandler.java:30-35 | throws iff the configurations are null, or non-empty with a null rendered map; then nothing changes |
| StatusTrackingHandler.Handle | src/main/java/com/message/center/application/handler/StatusTrackingHandler.java:27-35 | outcome, context, message table and batches equal Track; single-task writes are untouched |
| StatusTrackingHandler.TrackMarksProcessing | src/main/java/com/message/center/application/handler/StatusTrackingHandler.java:27-35 | success with the context unchanged; the message's row, if any, becomes PROCESSING and every other row stays; one batch is appended, the task list |
| Handlers.AllKindsInOrder | src/main/java/com/message/center/application/handler/MessageHandlerChain.java:22-26 | the handler orders 100..700 strictly increase in the canonical list |
| Handlers.KindsDistinct | src/main/java/com/message/center/application/handler/MessageHandlerChain.java:47 | no two handlers share an order or a name |
| Handlers.HandleSpec | src/main/java/com/message/center/application/handler/MessageHandler.java:16 | every returned result is built by a factory |
| Handlers.Invoke | src/main/java/com/message/center/application/handler/MessageHandlerChain.java:46 | calling the handler bean does exactly what HandleSpec says to the context and the stores |
| Handlers.EarlyHandlersKeepTargets | src/main/java/com/message/center/application/handler/ChannelRouterHandler.java:26-62 | validation, time window and routing change neither stores nor targets; the first two change nothing |
| Sorting.SortByIsStable | src/main/java/com/message/center/application/handler/MessageHandlerChain.java:25 | for every key, the elements with that key come out of the sort in the order they went in |
| HandlerChain.SortByOrderSorts | src/main/java/com/message/center/application/handler/MessageHandlerChain.java:25 | sorting gives the injected handlers ordered by getOrder, each as often as injected, and handlers of equal order keep their injection order (stable) |
| HandlerChain.SortGivesCanonicalOrder | src/main/java/com/message/center/application/handler/MessageHandlerChain.java:22-26 | any injection order sorts to the canonical order |
| HandlerChain.ChainUnfold | src/main/java/com/message/center/application/handler/MessageHandlerChain.java:38-60 | one loop pass: skip if unsupported; a stop ends the run; otherwise the result is recorded before the rest |
| HandlerChain.ChainResult.constructor | src/main/java/com/message/center/application/handler/MessageHandlerChain.java:82-85 | successful, no message, no results |
| HandlerChain.ChainResult.AddHandlerResult | src/main/java/com/message/center/application/handler/MessageHandlerChain.java:88-90 | the result is put under the name; nothing else changes |
| HandlerChain.MessageHandlerChain.Init | src/main/java/com/message/center/application/handler/MessageHandlerChain.java:22-26 | the handler list becomes `SortByOrder` of it: the injected handlers sorted by order |
| HandlerChain.MessageHandlerChain.Record | src/main/java/com/message/center/application/handler/MessageHandlerChain.java:46-58 | stops iff the handler threw or did not continue, then reporting its outcome |
| HandlerChain.MessageHandlerChain.Execute | src/main/java/com/message/center/application/handler/MessageHandlerChain.java:33-64 | the report and the new context and stores equal RunChain |
| HandlerChain.ChainSummaryFacts | src/main/java/com/message/center/application/handler/MessageHandlerChain.java:33-64 | success iff no error message; a success recorded only continuing successes; every key is a handler's name |
| HandlerChain.ChainRecordsCalls | src/main/java/com/message/center/application/handler/MessageHandlerChain.java:38-59 | a name has a recorded result iff a handler of that name was called (`supports` held) and returned; the recorded result is the one the last such call returned; passed-over and throwing handlers leave no entry |
| HandlerChain.ChainCallsContinue | src/main/java/com/message/center/application/handler/MessageHandlerChain.java:38-59 | the called handlers are handlers of the chain, every call but the last let the chain go on, and the run succeeds iff every call let the chain go on |
| MessageDomain.FinalStatus | src/main/java/com/message/center/domain/service/MessageDomainServiceImpl.java:47-54 | raises a NullPointerException iff a counter the decision unboxes is null; else Derive of the counters |
| MessageDomain.DeriveCases | src/main/java/com/message/center/domain/service/MessageDomainServiceImpl.java:47-54 | SUCCESS iff no failed channel, FAILED iff failed and none succeeded, PARTIAL_SUCCESS iff both; never PENDING or PROCESSING |
| MessageDomain.DeriveMatchesSqlCase | src/main/java/com/message/center/infrastructure/data/mapper/MessageMapper.java:53-57 | the service and the SQL CASE agree iff failed is 0 or failed > 0 with success >= 0, so on all real counts |
| MessageDomain.Created | src/main/java/com/message/center/domain/service/MessageDomainServiceImpl.java:22-27 | PENDING, created and updated now, zero counters, other fields kept |
| MessageDomain.CreatedIsStoredPending | src/main/java/com/message/center/domain/service/MessageDomainServiceImpl.java:22-29 | a new message is then stored pending under its id, would complete as SUCCESS, and other rows stay |
| MessageDomain.CompleteOutcomes | src/main/java/com/message/center/domain/service/MessageDomainServiceImpl.java:43-60 | false iff no row; raises iff a needed counter is null; true sets the derived status on that row only |
| MessageDomain.CompleteIdempotent | src/main/java/com/message/center/domain/service/MessageDomainServiceImpl.java:43-60 | completing twice leaves the table as completing once |
| MessageDomain.MessageDomainServiceImpl.CreateMessage | src/main/java/com/message/center/domain/service/MessageDomainServiceImpl.java:22-30 | returns the created message and the table after one save; a raising save propagates and keeps the table |
| MessageDomain.MessageDomainServiceImpl.UpdateMessageStatus | src/main/java/com/message/center/domain/service/MessageDomainServiceImpl.java:33-35 | true iff the row exists; the table becomes WithStatus |
| MessageDomain.MessageDomainServiceImpl.CompleteMessage | src/main/java/com/message/center/domain/service/MessageDomainServiceImpl.java:43-60 | result and new table equal Complete |
| MessageSend.MessageIdShape | src/main/java/com/message/center/application/service/impl/MessageSendApplicationServiceImpl.java:82-85 | 28 characters: MSG, the 17 millisecond digits, 8 upper-case hex digits |
| MessageSend.MessageIdInjective | src/main/java/com/message/center/application/service/impl/MessageSendApplicationServiceImpl.java:82-85 | equal ids mean the same millisecond and the same UUID prefix |
| MessageSend.ChannelListJson | src/main/java/com/message/center/application/service/impl/MessageSendApplicationServiceImpl.java:99 | the JSON text of the list is bracketed |
| MessageSend.Convert | src/main/java/com/message/center/application/service/impl/MessageSendApplicationServiceImpl.java:92-102 | the copied fields; JSON targets iff targets present; the channel total is the list's size or 0; the rest null |
| MessageSend.BuildContext | src/main/java/com/message/center/application/service/impl/MessageSendApplicationServiceImpl.java:109-119 | a blank context with the request's fields and status INIT |
| MessageSend.ConvertAgreesWithContext | src/main/java/com/message/center/application/service/impl/MessageSendApplicationServiceImpl.java:92-119 | the row and the context agree on id, tenant, store, type, data and channel total |
| MessageSend.SendOutcomes | src/main/java/com/message/center/application/service/impl/MessageSendApplicationServiceImpl.java:34-57 | success iff save did not raise and the chain succeeded, then with the new id; a failed chain gives MESSAGE_PROCESS_ERROR with its message; a raising save gives SYSTEM_ERROR with the prefixed message and no store change |
| MessageSend.CountsAddUp | src/main/java/com/message/center/application/service/impl/MessageSendApplicationServiceImpl.java:68-72 | successes and failures add up to the results; all succeed iff the successes are all |
| MessageSend.SendAllOnePerMessage | src/main/java/com/message/center/application/service/impl/MessageSendApplicationServiceImpl.java:65-73 | one result per message; the i-th is the send of message i on the stores the earlier sends left |
| MessageSend.BatchCounts | src/main/java/com/message/center/application/service/impl/MessageSendApplicationServiceImpl.java:60-76 | total is the number of messages and of results; success + failed = total; all succeed iff every result succeeded |
| MessageSend.MessageSendApplicationServiceImpl.BuildMessageContext | src/main/java/com/message/center/application/service/impl/MessageSendApplicationServiceImpl.java:109-119 | a new context whose state is BuildContext |
| MessageSend.MessageSendApplicationServiceImpl.SendMessage | src/main/java/com/message/center/application/service/impl/MessageSendApplicationServiceImpl.java:34-57 | answer and stores equal SendSpec |
| MessageSend.MessageSendApplicationServiceImpl.SendNext | src/main/java/com/message/center/application/service/impl/MessageSendApplicationServiceImpl.java:65-73 | one loop pass extends the batch so far by one send and its count |
| MessageSend.MessageSendApplicationServiceImpl.BatchSendMessages | src/main/java/com/message/center/application/service/impl/MessageSendApplicationServiceImpl.java:60-76 | answer and stores equal BatchSpec |
| Pipeline.StopFails | src/main/java/com/message/center/application/handler/MessageHandlerChain.java:50-58 | a handler that stops the chain makes the run fail |
| Pipeline.FromStatusTracking | src/main/java/com/message/center/application/handler/StatusTrackingHandler.java:27-35 | the last handler succeeds, marks PROCESSING and saves the tasks as one batch |
| Pipeline.DispatchStep | src/main/java/com/message/center/application/handler/ChannelDispatchHandler.java:27-49 | dispatch continues with one task per configuration and keeps the message id, the table and the batches |
| Pipeline.FromDispatch | src/main/java/com/message/center/application/handler/ChannelDispatchHandler.java:27-49 | from dispatch on, the run succeeds and is full |
| Pipeline.RenderStep | src/main/java/com/message/center/application/handler/TemplateRenderHandler.java:26-52 | rendering continues and sets only the rendered map |
| Pipeline.FromTemplateRender | src/main/java/com/message/center/application/handler/TemplateRenderHandler.java:26-52 | from rendering on, the run succeeds and is full |
| Pipeline.RateLimitStep | src/main/java/com/message/center/application/handler/RateLimitHandler.java:78-86 | the rate limiter continues only when there are target channels, and then changes neither the context nor the table nor the batches |
| Pipeline.FromRateLimit | src/main/java/com/message/center/application/handler/RateLimitHandler.java:39-87 | from the rate limiter on, a successful run is full |
| Pipeline.RateLimitNeedsTargets | src/main/java/com/message/center/application/handler/RateLimitHandler.java:43-84 | from the rate limiter on, a run without targets fails |
| Pipeline.RouterStep | src/main/java/com/message/center/application/handler/ChannelRouterHandler.java:54-61 | routing continues only with configurations set, changing nothing else |
| Pipeline.FromChannelRouter | src/main/java/com/message/center/application/handler/ChannelRouterHandler.java:26-62 | from routing on, a successful run is full |
| Pipeline.RouterNeedsTargets | src/main/java/com/message/center/application/handler/ChannelRouterHandler.java:26-62 | from routing on, a run without targets fails |
| Pipeline.ChainSucceedsOnlyInFull | src/main/java/com/message/center/application/handler/MessageHandlerChain.java:33-64 | a successful run of the canonical chain recorded every handler, marked the message PROCESSING and saved one batch of one task per configuration |
| Pipeline.ChainNeedsTargets | src/main/java/com/message/center/application/handler/MessageHandlerChain.java:33-64 | a message without target channels never passes the canonical chain |

## Left out

- Logging, the start and end times of `ChainResult`, and the clocks. A chain run is given one calendar reading (`Env.clock`) and one instant (`Env.now`); every handler and every time stamp the executor sets share them, and the two are not related to each other. A run whose clock moves between handlers, or between the time stamps of a task, is not covered. Both `now()` calls of `createMessage` are one instant (`Readings.createdAt`).
- JSON text: `JSON.toJSONString` of the target list is modelled as its bracketed fastjson form of the constant names. JSON validity and `StringUtils.isBlank` are parameters.
- The implementations behind the repositories' configuration queries, `ChannelConfigService.getRateLimitConfig`, `MessageTemplateService.getTemplate`/`renderTemplate` and the DingTalk and WeChat Work adapters: not part of this model. They are parameters. The fallback behaviour of rendering is stated as a hypothesis (`TemplateRenderHandler.FallbackKeepsRawData`); only the local adapter is modelled.
- `ChannelTaskExecutor.executeAll` starts every task with `runAsync` and does not wait for them. The model runs the tasks one after another before the dispatcher returns. Concurrency, and the interleaving of their repository writes, are not modelled.
- Aliasing of task objects: the context's task list holds the same objects the executor mutates. The model keeps tasks as values and stores the executed states in the context, which is what the list holds once the executor is done.
- `RateLimitHandler` sets the target list to a new list. Whenever the handler returns normally, that list has the same contents, so the model keeps the value; the change of list object is not modelled.
- Redis: `EXPIRE` is recorded per key, but keys never expire in the model. What Redis does with a non-positive TTL is not modelled.
- The executor calls `taskRepository.updateStatus(task)`, and the status handler calls `saveBatch`. The declared interface of `ChannelTaskRepository` has `updateStatus(String, TaskStatus, String)`, and no implementation is part of this model. The model records both kinds of write as an ordered log.
- `handle` is only modelled on contexts its handler's `supports` accepts, as the chain only calls it on those.
- Null elements inside lists, and null map keys, are not modelled. The message text of a `NullPointerException` is left null, because the virtual machine chooses it.
- `TaskExecution.RetryDelay`: the backoff `(int) Math.pow(2, n) * 60` wraps to a negative delay from the 26th retry on (`TaskExecution.RetryDelayWrapsNegative`). The dispatcher only creates tasks with at most three retries, so this is not reachable in the core.
- `MessageDomain.DeriveMatchesSqlCase`: the mapper's `CASE` and `completeMessage` disagree only on negative counters. The mapper's channel-statistics update that uses it is not part of this model.
- The comment at RateLimitHandler.java:26 speaks of a sliding window; the code uses fixed calendar buckets, and the model follows the code (`RateLimitHandler.BucketIsCalendarPeriod`).
- A null target list makes `RateLimitHandler` raise a `NullPointerException` (RateLimitHandler.java:43). `TemplateRenderHandler.handle` would raise too, but its `supports` rejects a null or empty list, so inside the chain only the rate limiter raises. The model follows the code.
- The message VO documents `targetChannels` as optional, with the configured channels used when it is absent (Message.java:41), and `ChannelRouterHandler` skips its target filter for an empty list (ChannelRouterHandler.java:48). The router never writes the target list, though, so the rate limiter then throws on a null list or fails on an empty one (RateLimitHandler.java:43, 82-84): the fallback can never deliver. The model follows the code (`Pipeline.ChainNeedsTargets`) and does not model the documented fallback.
- The message VO's attribute map, its other getters and setters, and its `toString`, are not modelled.
- `sendMessage` sets the new message id on the caller's VO object. The model returns the id in the `SendResult` but does not change the caller's value.
- The `int` counters of `BatchSendResult` are unbounded in the model; a batch of more than 2^31 - 1 messages is not modelled.
- `MessageRepositoryImpl.save` catches insert failures and returns false. A repository whose `save` raises is modelled by the `saveFault` field, which is how the `SYSTEM_ERROR` answer of `sendMessage` arises.
- `completeMessage` is never called on the send path. It is modelled on its own (`MessageDomain.MessageDomainServiceImpl.CompleteMessage`).
- The application service assumes the domain service and the chain share one message repository bean (`MessageSend.MessageSendApplicationServiceImpl.Wired`).
- The `rateLimitCount`, `rateLimitWindow` and `rateLimitUnit` fields of `ChannelConfig` are carried but unused: the rate limiter reads `RateLimitConfig` from the settings service.
- `ChannelTaskDomainService`, the controllers, the Dubbo facade, the channel strategy classes and the Spring configuration are not part of this model.
