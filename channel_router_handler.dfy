/** `ChannelRouterHandler` (order 300): picks the configured, enabled channels
    that the request asks for and stores them in the context. */
module ChannelRouterHandler {
  import opened JavaLang
  import opened Enums
  import opened Entities
  import opened HandlerResults
  import opened Context

  const ORDER: int := 300
  const NAME: string := "渠道路由处理器"

  const NO_CHANNEL: string := "NO_CHANNEL"
  const NO_CHANNEL_MESSAGE: string := "未配置可用的发送渠道"
  const NO_MATCH_MESSAGE: string := "未找到匹配的发送渠道"

  /** `ChannelConfigRepository.getConfigs(tenantId, storeId, businessType)`. */
  type Configs = (Option<int>, Option<int>, Option<string>) -> Option<seq<ChannelConfig>>

  /** `xs` is `ys` with some elements left out and the rest in their order. */
  predicate IsSubsequence<T(==)>(xs: seq<T>, ys: seq<T>)
    decreases |ys|
  {
    if xs == [] then true
    else if ys == [] then false
    else if xs[0] == ys[0] then IsSubsequence(xs[1..], ys[1..])
    else IsSubsequence(xs, ys[1..])
  }

  /** Dropping the head of the longer sequence keeps an embedding. */
  lemma {:induction false} SubsequenceOfTail<T>(xs: seq<T>, ys: seq<T>)
    requires ys != [] && IsSubsequence(xs, ys[1..])
    ensures IsSubsequence(xs, ys)
    decreases |ys|, 0
  {
    if xs != [] && xs[0] == ys[0] {
      SubsequenceDropHead(xs, ys[1..]);
    }
  }

  /** Dropping the head of the shorter sequence keeps an embedding. */
  lemma {:induction false} SubsequenceDropHead<T>(xs: seq<T>, zs: seq<T>)
    requires xs != [] && IsSubsequence(xs, zs)
    ensures IsSubsequence(xs[1..], zs)
    decreases |zs|, 1
  {
    if xs[0] == zs[0] {
      SubsequenceOfTail(xs[1..], zs);
    } else {
      SubsequenceDropHead(xs, zs[1..]);
      SubsequenceOfTail(xs[1..], zs);
    }
  }

  lemma {:induction false} SubsequenceTransitive<T>(xs: seq<T>, ys: seq<T>, zs: seq<T>)
    requires IsSubsequence(xs, ys) && IsSubsequence(ys, zs)
    ensures IsSubsequence(xs, zs)
    decreases |zs|
  {
    if xs != [] && zs != [] {
      if ys[0] == zs[0] {
        if xs[0] == ys[0] {
          SubsequenceTransitive(xs[1..], ys[1..], zs[1..]);
        } else {
          SubsequenceTransitive(xs, ys[1..], zs[1..]);
        }
      } else {
        SubsequenceTransitive(xs, ys, zs[1..]);
        SubsequenceOfTail(xs, zs);
      }
    }
  }

  /** `configs.stream().filter(ChannelConfig::getEnabled)`: null when some
      `enabled` is null, which the unboxing turns into a NullPointerException. */
  function EnabledOnly(cfgs: seq<ChannelConfig>): Option<seq<ChannelConfig>>
  {
    if cfgs == [] then Some([])
    else if cfgs[0].enabled.None? then None
    else
      match EnabledOnly(cfgs[1..])
      case None => None
      case Some(rest) => Some((if cfgs[0].enabled.value then [cfgs[0]] else []) + rest)
  }

  /** The configurations whose channel type is one of `targets`. */
  function ForTargets(cfgs: seq<ChannelConfig>, targets: seq<ChannelType>): seq<ChannelConfig>
  {
    if cfgs == [] then []
    else (if Wanted(cfgs[0], targets) then [cfgs[0]] else []) + ForTargets(cfgs[1..], targets)
  }

  /** `targetChannels.contains(config.getChannelType())`; the list holds no
      nulls, so a configuration without a type never matches. */
  predicate Wanted(cfg: ChannelConfig, targets: seq<ChannelType>)
  {
    cfg.channelType.Some? && cfg.channelType.value in targets
  }

  /** `handle(context)`: the one field it writes is `channelConfigs`. */
  function Route(c: ContextState, configs: Configs): Handled
  {
    match configs(c.tenantId, c.storeId, c.businessType)
    case None => Handled(Returned(Fail(NO_CHANNEL, NO_CHANNEL_MESSAGE)), c)
    case Some(all) =>
      if all == [] then Handled(Returned(Fail(NO_CHANNEL, NO_CHANNEL_MESSAGE)), c)
      else
        match EnabledOnly(all)
        case None => Handled(Threw(NullDereference()), c)
        case Some(enabled) =>
          if enabled == [] then Handled(Returned(Fail(NO_CHANNEL, NO_CHANNEL_MESSAGE)), c)
          else
            var kept := if c.targetChannels.Some? && c.targetChannels.value != []
                        then ForTargets(enabled, c.targetChannels.value) else enabled;
            if kept == [] then Handled(Returned(Fail(NO_CHANNEL, NO_MATCH_MESSAGE)), c)
            else Handled(Returned(HandlerResults.Success()), c.(channelConfigs := Some(kept)))
  }

  /** The handler object: it sets the routed list on the context it is given. */
  method Handle(ctx: MessageContext, configs: Configs) returns (o: Outcome)
    modifies ctx
    ensures Handled(o, ctx.State()) == Route(old(ctx.State()), configs)
  {
    var c := ctx.State();
    var r := Route(c, configs);
    if r.state != c {
      ctx.channelConfigs := r.state.channelConfigs;
    }
    o := r.outcome;
  }

  /** Filtering for enabled configurations keeps, in order, exactly those
      whose `enabled` is true, and fails exactly when one is null. */
  lemma {:induction false} EnabledOnlyKeepsEnabled(cfgs: seq<ChannelConfig>)
    ensures EnabledOnly(cfgs).None? <==> exists i :: 0 <= i < |cfgs| && cfgs[i].enabled.None?
    ensures EnabledOnly(cfgs).Some? ==>
      IsSubsequence(EnabledOnly(cfgs).value, cfgs) &&
      forall x :: x in EnabledOnly(cfgs).value <==> x in cfgs && x.enabled == Some(true)
  {
    if cfgs != [] {
      EnabledOnlyKeepsEnabled(cfgs[1..]);
      assert forall i :: 1 <= i < |cfgs| ==> cfgs[i] == cfgs[1..][i - 1];
      if (exists i :: 0 <= i < |cfgs[1..]| && cfgs[1..][i].enabled.None?) {
        var i :| 0 <= i < |cfgs[1..]| && cfgs[1..][i].enabled.None?;
        assert cfgs[i + 1].enabled.None?;
      }
      assert cfgs == [cfgs[0]] + cfgs[1..];
      if EnabledOnly(cfgs).Some? {
        var rest := EnabledOnly(cfgs[1..]).value;
        if cfgs[0].enabled.value {
          assert ([cfgs[0]] + rest)[1..] == rest;
        } else {
          assert EnabledOnly(cfgs).value == rest;
          SubsequenceOfTail(rest, cfgs);
        }
      }
    }
  }

  /** Filtering by target keeps, in order, exactly the wanted configurations. */
  lemma {:induction false} ForTargetsKeepsWanted(cfgs: seq<ChannelConfig>, targets: seq<ChannelType>)
    ensures IsSubsequence(ForTargets(cfgs, targets), cfgs)
    ensures forall x :: x in ForTargets(cfgs, targets) <==> x in cfgs && Wanted(x, targets)
  {
    if cfgs != [] {
      ForTargetsKeepsWanted(cfgs[1..], targets);
      assert cfgs == [cfgs[0]] + cfgs[1..];
      var rest := ForTargets(cfgs[1..], targets);
      if Wanted(cfgs[0], targets) {
        assert ([cfgs[0]] + rest)[1..] == rest;
      } else {
        assert ForTargets(cfgs, targets) == rest;
        SubsequenceOfTail(rest, cfgs);
      }
    }
  }

  /** A successful route stores a non-empty list that keeps the repository's
      order and holds exactly the enabled configurations for the requested
      channels (all enabled ones when none are requested); nothing else in
      the context changes, and a failed or thrown route changes nothing. */
  lemma RouteSelectsRequestedEnabled(c: ContextState, configs: Configs)
    ensures var r := Route(c, configs);
      r.outcome.Returned? && r.outcome.result.success ==>
        var all := configs(c.tenantId, c.storeId, c.businessType).value;
        var kept := r.state.channelConfigs.value;
        var requested := c.targetChannels.Some? && c.targetChannels.value != [];
        r.state == c.(channelConfigs := Some(kept)) && kept != [] &&
        IsSubsequence(kept, all) &&
        forall x :: x in kept <==>
          x in all && x.enabled == Some(true) && (requested ==> Wanted(x, c.targetChannels.value))
    ensures var r := Route(c, configs);
      !(r.outcome.Returned? && r.outcome.result.success) ==> r.state == c
  {
    var r := Route(c, configs);
    if r.outcome.Returned? && r.outcome.result.success {
      var all := configs(c.tenantId, c.storeId, c.businessType).value;
      EnabledOnlyKeepsEnabled(all);
      var enabled := EnabledOnly(all).value;
      if c.targetChannels.Some? && c.targetChannels.value != [] {
        ForTargetsKeepsWanted(enabled, c.targetChannels.value);
        SubsequenceTransitive(ForTargets(enabled, c.targetChannels.value), enabled, all);
      }
    }
  }

  /** Routing fails with "no matching channel" exactly when channels were
      requested and no enabled configuration has one of them. */
  lemma NoMatchIffNothingWanted(c: ContextState, configs: Configs)
    requires configs(c.tenantId, c.storeId, c.businessType).Some?
    requires EnabledOnly(configs(c.tenantId, c.storeId, c.businessType).value).Some?
    requires EnabledOnly(configs(c.tenantId, c.storeId, c.businessType).value).value != []
    ensures var all := configs(c.tenantId, c.storeId, c.businessType).value;
      Route(c, configs).outcome == Returned(Fail(NO_CHANNEL, NO_MATCH_MESSAGE)) <==>
        c.targetChannels.Some? && c.targetChannels.value != [] &&
        forall x :: x in all && x.enabled == Some(true) ==> !Wanted(x, c.targetChannels.value)
  {
    var all := configs(c.tenantId, c.storeId, c.businessType).value;
    EnabledOnlyKeepsEnabled(all);
    var enabled := EnabledOnly(all).value;
    if c.targetChannels.Some? && c.targetChannels.value != [] {
      ForTargetsKeepsWanted(enabled, c.targetChannels.value);
      var kept := ForTargets(enabled, c.targetChannels.value);
      if kept != [] {
        assert kept[0] in kept;
      }
    }
  }
}
