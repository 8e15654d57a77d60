/** What one handler reports to the chain (`HandlerResult`), and what a call of
    `handle` can end in: a returned result or a thrown exception. */
module HandlerResults {
  import opened JavaLang
  import opened Context

  datatype HandlerResult = HandlerResult(continueChain: bool, success: bool,
                                         errorCode: Option<string>, errorMessage: Option<string>)

  /** `HandlerResult.success()`: go on, no code, no message. */
  function Success(): (r: HandlerResult)
    ensures r.continueChain && r.success && r.errorCode.None? && r.errorMessage.None?
  {
    HandlerResult(true, true, None, None)
  }

  /** `HandlerResult.fail(code, message)`: stop the chain and report. */
  function Fail(code: string, message: string): (r: HandlerResult)
    ensures !r.continueChain && !r.success
    ensures r.errorCode == Some(code) && r.errorMessage == Some(message)
  {
    HandlerResult(false, false, Some(code), Some(message))
  }

  /** `HandlerResult.skip()`: go on, with a note. */
  function Skip(): (r: HandlerResult)
    ensures r.continueChain && r.success && r.errorCode.None?
    ensures r.errorMessage == Some("跳过当前处理器")
  {
    HandlerResult(true, true, None, Some("跳过当前处理器"))
  }

  /** Built by one of the three factories. */
  predicate FromFactory(r: HandlerResult)
  {
    r == Success() || r == Skip() || (r.errorCode.Some? && r.errorMessage.Some? &&
                                      r == Fail(r.errorCode.value, r.errorMessage.value))
  }

  /** Every factory-built result continues exactly when it succeeds, and only
      a failure carries an error code. */
  lemma FactoryContinueIsSuccess(r: HandlerResult)
    requires FromFactory(r)
    ensures r.continueChain == r.success
    ensures r.errorCode.Some? <==> !r.success
  {
  }

  /** How a call of `handle` ends. */
  datatype Outcome = Returned(result: HandlerResult) | Threw(exception: JavaException)

  /** A call of `handle` on a context: how it ends, and the context after it. */
  datatype Handled = Handled(outcome: Outcome, state: ContextState)
}
