/** The persistent entities (`domain/entity`) and the rate-limit settings
    object, field for field. Every field is a nullable Java reference, hence
    an `Option`; the code that reads them decides what a null does. */
module Entities {
  import opened JavaLang
  import opened Enums
  import opened Clock

  /** One delivery of one message over one configured channel (`msg_channel_task`). */
  datatype ChannelTask = ChannelTask(
    id: Option<int>,
    messageId: Option<string>,
    channelType: Option<ChannelType>,
    channelConfigId: Option<int>,
    renderedContent: Option<string>,
    status: Option<TaskStatus>,
    retryCount: Option<int>,
    maxRetry: Option<int>,
    nextRetryTime: Option<Instant>,
    resultMessage: Option<string>,
    thirdPartyResponse: Option<string>,
    createTime: Option<Instant>,
    updateTime: Option<Instant>,
    finishTime: Option<Instant>)

  /** `new ChannelTask()`: every field null. */
  function BlankTask(): (t: ChannelTask)
    ensures t.messageId.None? && t.status.None? && t.retryCount.None? && t.finishTime.None?
  {
    ChannelTask(None, None, None, None, None, None, None, None, None, None, None, None, None, None)
  }

  /** A stored message (`msg_message`); `targetChannels` is the JSON text of the list. */
  datatype Message = Message(
    id: Option<int>,
    messageId: Option<string>,
    tenantId: Option<int>,
    storeId: Option<int>,
    businessType: Option<string>,
    businessData: Option<string>,
    targetChannels: Option<string>,
    status: Option<MessageStatus>,
    totalChannels: Option<int>,
    successChannels: Option<int>,
    failedChannels: Option<int>,
    createTime: Option<Instant>,
    updateTime: Option<Instant>,
    finishTime: Option<Instant>)

  /** A tenant's (and possibly a store's) settings for one channel (`msg_channel_config`). */
  datatype ChannelConfig = ChannelConfig(
    id: Option<int>,
    tenantId: Option<int>,
    storeId: Option<int>,
    channelType: Option<ChannelType>,
    channelName: Option<string>,
    configJson: Option<string>,
    priority: Option<int>,
    enabled: Option<bool>,
    rateLimitCount: Option<int>,
    rateLimitWindow: Option<int>,
    rateLimitUnit: Option<string>,
    timeWindowEnabled: Option<bool>,
    timeWindowStartHour: Option<int>,
    timeWindowEndHour: Option<int>,
    createTime: Option<Instant>,
    updateTime: Option<Instant>)

  /** A message template (`msg_message_template`). */
  datatype MessageTemplate = MessageTemplate(
    id: Option<int>,
    tenantId: Option<int>,
    businessType: Option<string>,
    channelType: Option<ChannelType>,
    messageType: Option<MessageType>,
    templateName: Option<string>,
    templateContent: Option<string>,
    enabled: Option<bool>,
    createTime: Option<Instant>,
    updateTime: Option<Instant>)

  /** `ChannelConfigService.RateLimitConfig`: at most `count` sends per `window` `unit`s. */
  datatype RateLimitConfig = RateLimitConfig(count: Option<int>, window: Option<int>, unit: Option<string>)
}
