/** The enumerations of the domain: channel types, task and message statuses,
    template message types. `Code()` is the constant's Java `name()`, which is
    what `toString`, `%s` and fastjson print; `DisplayName()` is its `getName()`. */
module Enums {

  datatype ChannelType = Local | DingTalk | WeChatWork
  {
    function Code(): (s: string)
      ensures |s| >= 5
    {
      match this
      case Local => "LOCAL"
      case DingTalk => "DINGTALK"
      case WeChatWork => "WECHAT_WORK"
    }

    function DisplayName(): string
    {
      match this
      case Local => "本地消息"
      case DingTalk => "钉钉"
      case WeChatWork => "企业微信"
    }
  }

  /** Distinct channel types have distinct codes. */
  lemma ChannelCodeInjective(a: ChannelType, b: ChannelType)
    requires a.Code() == b.Code()
    ensures a == b
  {
  }

  /** No channel code contains a colon. */
  lemma ChannelCodeNoColon(c: ChannelType)
    ensures ':' !in c.Code()
  {
  }

  datatype TaskStatus = Pending | Sending | Success | Failed | Retry | Cancelled

  datatype MessageStatus = Pending | Processing | Success | PartialSuccess | Failed

  datatype MessageType = Text | Markdown | Card | Link
}
