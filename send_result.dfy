/** The answer of a send (`SendResult`), built by its two factories. */
module SendResults {
  import opened JavaLang

  datatype SendResult = SendResult(success: bool, messageId: Option<string>,
                                   errorCode: Option<string>, errorMessage: Option<string>)

  /** `SendResult.success(messageId)`: no error code or message. */
  function Success(messageId: Option<string>): (r: SendResult)
    ensures r.success && r.messageId == messageId
    ensures r.errorCode.None? && r.errorMessage.None?
  {
    SendResult(true, messageId, None, None)
  }

  /** `SendResult.fail(code, message)`: no message id. */
  function Fail(code: string, message: Option<string>): (r: SendResult)
    ensures !r.success && r.messageId.None?
    ensures r.errorCode == Some(code) && r.errorMessage == message
  {
    SendResult(false, None, Some(code), message)
  }
}
