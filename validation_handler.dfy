/** `ValidationHandler` (order 100): the required fields and the JSON shape of
    the business data, checked in a fixed order; only the first failure is
    reported. It reads the context and never writes it. */
module ValidationHandler {
  import opened JavaLang
  import opened HandlerResults
  import opened Context

  const ORDER: int := 100
  const NAME: string := "消息验证处理器"
  const CODE: string := "VALIDATION_ERROR"

  const TENANT_MISSING: string := "租户ID不能为空"
  const TYPE_MISSING: string := "业务类型不能为空"
  const DATA_MISSING: string := "业务数据不能为空"
  const DATA_NOT_JSON: string := "业务数据必须是有效的JSON格式"

  /** `StrUtil.isBlank`: null is blank; otherwise the library's judgement. */
  predicate Blank(s: Option<string>, isBlank: string -> bool)
  {
    s.None? || isBlank(s.value)
  }

  /** `handle(context)`. `isBlank` is `StrUtil.isBlank` on a non-null string,
      `isJson(s)` says whether `JSON.parse(s)` returns rather than throws. */
  function Validate(c: ContextState, isBlank: string -> bool, isJson: string -> bool): (r: HandlerResult)
    ensures FromFactory(r)
    ensures r.success ==> r == HandlerResults.Success()
    ensures !r.success ==> r.errorCode == Some(CODE)
  {
    if c.tenantId.None? then Fail(CODE, TENANT_MISSING)
    else if Blank(c.businessType, isBlank) then Fail(CODE, TYPE_MISSING)
    else if Blank(c.businessData, isBlank) then Fail(CODE, DATA_MISSING)
    else if !isJson(c.businessData.value) then Fail(CODE, DATA_NOT_JSON)
    else HandlerResults.Success()
  }

  /** One validation rule: whether the context passes it, and the message it
      reports when it does not. */
  datatype Rule = Rule(passes: bool, message: string)

  /** The rules in the order they are checked. The JSON rule is only looked at
      once the data is known to be present. */
  function Rules(c: ContextState, isBlank: string -> bool, isJson: string -> bool): seq<Rule>
  {
    [Rule(c.tenantId.Some?, TENANT_MISSING),
     Rule(!Blank(c.businessType, isBlank), TYPE_MISSING),
     Rule(!Blank(c.businessData, isBlank), DATA_MISSING),
     Rule(c.businessData.Some? && isJson(c.businessData.value), DATA_NOT_JSON)]
  }

  /** The message of the first rule that fails, if any. */
  function FirstFailure(rules: seq<Rule>): Option<string>
  {
    if rules == [] then None
    else if !rules[0].passes then Some(rules[0].message)
    else FirstFailure(rules[1..])
  }

  /** Validation passes exactly when every rule passes, and otherwise reports
      the first failing rule's message, in the order tenant, type, data, JSON. */
  lemma ValidateIsFirstFailingRule(c: ContextState, isBlank: string -> bool, isJson: string -> bool)
    ensures var rules := Rules(c, isBlank, isJson);
      var r := Validate(c, isBlank, isJson);
      (r == HandlerResults.Success() <==> forall i :: 0 <= i < |rules| ==> rules[i].passes) &&
      (FirstFailure(rules).Some? ==> r == Fail(CODE, FirstFailure(rules).value)) &&
      (FirstFailure(rules).None? ==> r == HandlerResults.Success())
  {
    var rules := Rules(c, isBlank, isJson);
    assert FirstFailure(rules[3..]) == (if rules[3].passes then None else Some(DATA_NOT_JSON)) by {
      assert rules[3..][1..] == [];
    }
    assert FirstFailure(rules[2..]) == (if rules[2].passes then FirstFailure(rules[3..]) else Some(DATA_MISSING)) by {
      assert rules[2..][1..] == rules[3..];
    }
    assert FirstFailure(rules[1..]) == (if rules[1].passes then FirstFailure(rules[2..]) else Some(TYPE_MISSING)) by {
      assert rules[1..][1..] == rules[2..];
    }
    assert (forall i :: 0 <= i < |rules| ==> rules[i].passes) <==>
           rules[0].passes && rules[1].passes && rules[2].passes && rules[3].passes;
  }
}
