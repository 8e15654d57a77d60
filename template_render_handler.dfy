/** `TemplateRenderHandler` (order 500): renders the message once per target
    channel with that channel's template and stores the results, keyed by
    channel, in a fresh map on the context. */
module TemplateRenderHandler {
  import opened JavaLang
  import opened Enums
  import opened Entities
  import opened HandlerResults
  import opened Context

  const ORDER: int := 500
  const NAME: string := "模板渲染处理器"

  /** `MessageTemplateService.getTemplate(tenantId, businessType, channelType)`;
      null when there is no template. */
  type Templates = (Option<int>, Option<string>, ChannelType) -> Option<MessageTemplate>

  /** `MessageTemplateService.renderTemplate(template, businessData)`. */
  type Render = (Option<MessageTemplate>, Option<string>) -> Option<string>

  /** `supports(context)`: there are channels to render for. */
  predicate Supports(c: ContextState)
  {
    c.targetChannels.Some? && c.targetChannels.value != []
  }

  /** The rendered content for one channel. */
  function RenderFor(ch: ChannelType, c: ContextState, templates: Templates, render: Render): Option<string>
  {
    render(templates(c.tenantId, c.businessType, ch), c.businessData)
  }

  /** The map the loop builds after the channels `chs`: one `put` per channel,
      in order. */
  function RenderAll(chs: seq<ChannelType>, c: ContextState, templates: Templates, render: Render)
    : map<ChannelType, Option<string>>
  {
    if chs == [] then map[]
    else
      var last := chs[|chs| - 1];
      RenderAll(chs[..|chs| - 1], c, templates, render)[last := RenderFor(last, c, templates, render)]
  }

  /** `handle(context)`: the for-each over a null target list throws before
      anything is written; otherwise the new map replaces whatever was there. */
  function RenderStep(c: ContextState, templates: Templates, render: Render): Handled
  {
    match c.targetChannels
    case None => Handled(Threw(NullDereference()), c)
    case Some(chs) =>
      Handled(Returned(HandlerResults.Success()),
              c.(renderedMessages := Some(RenderAll(chs, c, templates, render))))
  }

  /** The handler object: the loop of the source over the target channels. */
  method Handle(ctx: MessageContext, templates: Templates, render: Render) returns (o: Outcome)
    modifies ctx
    ensures Handled(o, ctx.State()) == RenderStep(old(ctx.State()), templates, render)
  {
    if ctx.targetChannels.None? {
      return Threw(NullDereference());
    }
    var chs := ctx.targetChannels.value;
    var rendered: map<ChannelType, Option<string>> := map[];
    for i := 0 to |chs|
      invariant rendered == RenderAll(chs[..i], ctx.State(), templates, render)
    {
      var template := templates(ctx.tenantId, ctx.businessType, chs[i]);
      var content := render(template, ctx.businessData);
      assert chs[..i + 1][..i] == chs[..i];
      rendered := rendered[chs[i] := content];
    }
    assert chs[..|chs|] == chs;
    ctx.renderedMessages := Some(rendered);
    return Returned(HandlerResults.Success());
  }

  /** The rendered map has exactly the target channels as keys, and each
      channel's entry is its own template rendered with the business data. */
  lemma {:induction false} RenderAllCoversTargets(chs: seq<ChannelType>, c: ContextState,
                                                  templates: Templates, render: Render)
    ensures var m := RenderAll(chs, c, templates, render);
      m.Keys == (set ch | ch in chs) &&
      forall ch :: ch in chs ==> m[ch] == RenderFor(ch, c, templates, render)
  {
    if chs != [] {
      var init := chs[..|chs| - 1];
      RenderAllCoversTargets(init, c, templates, render);
      assert chs == init + [chs[|chs| - 1]];
      assert forall ch :: ch in chs <==> ch in init || ch == chs[|chs| - 1];
    }
  }

  /** With a target list the handler always succeeds and changes nothing but
      the rendered map, which it replaces as a whole: the old map has no
      bearing on the new one, which holds one entry per target channel. */
  lemma RenderReplacesMap(c: ContextState, templates: Templates, render: Render)
    requires c.targetChannels.Some?
    ensures var r := RenderStep(c, templates, render);
      r.outcome == Returned(HandlerResults.Success()) &&
      r.state.renderedMessages.Some? &&
      r.state == c.(renderedMessages := r.state.renderedMessages) &&
      r.state.renderedMessages.value.Keys == (set ch | ch in c.targetChannels.value) &&
      forall old_map :: RenderStep(c.(renderedMessages := old_map), templates, render).state == r.state
  {
    RenderAllCoversTargets(c.targetChannels.value, c, templates, render);
    forall old_map
      ensures RenderStep(c.(renderedMessages := old_map), templates, render).state == RenderStep(c, templates, render).state
    {
      RenderAllAgrees(c.targetChannels.value, c, c.(renderedMessages := old_map), templates, render);
    }
  }

  /** The rendering reads only the tenant, the business type and the data. */
  lemma {:induction false} RenderAllAgrees(chs: seq<ChannelType>, c: ContextState, d: ContextState,
                                           templates: Templates, render: Render)
    requires c.tenantId == d.tenantId && c.businessType == d.businessType && c.businessData == d.businessData
    ensures RenderAll(chs, c, templates, render) == RenderAll(chs, d, templates, render)
  {
    if chs != [] {
      RenderAllAgrees(chs[..|chs| - 1], c, d, templates, render);
    }
  }

  /** The rendering contract of the template service: the business data is
      returned unchanged when there is no template, when the template has no
      content, and when the data is not valid JSON. */
  ghost predicate FallsBackToData(render: Render, isJson: string -> bool)
  {
    (forall data :: render(None, data) == data) &&
    (forall t: MessageTemplate, data :: t.templateContent.None? ==> render(Some(t), data) == data) &&
    (forall t: MessageTemplate, s: string :: !isJson(s) ==> render(Some(t), Some(s)) == Some(s))
  }

  /** Under that contract, a channel without a usable template, or a message
      whose data is not JSON, has the raw business data as its rendered
      content. */
  lemma FallbackKeepsRawData(c: ContextState, templates: Templates, render: Render, isJson: string -> bool)
    requires FallsBackToData(render, isJson)
    requires c.targetChannels.Some?
    ensures var m := RenderStep(c, templates, render).state.renderedMessages.value;
      forall ch :: ch in c.targetChannels.value ==>
        ch in m &&
        (templates(c.tenantId, c.businessType, ch).None? ||
         templates(c.tenantId, c.businessType, ch).value.templateContent.None? ||
         (c.businessData.Some? && !isJson(c.businessData.value)) ==>
           m[ch] == c.businessData)
  {
    RenderAllCoversTargets(c.targetChannels.value, c, templates, render);
  }
}
