/** What a whole run of the chain in its canonical order does: it succeeds
    only when every handler ran and succeeded, and it then leaves the message
    PROCESSING with one saved batch holding the dispatched tasks; a message
    without target channels never gets through. */
module Pipeline {
  import opened JavaLang
  import opened Enums
  import opened Context
  import opened HandlerResults
  import opened Stores
  import opened Handlers
  import opened HandlerChain
  import ChannelRouterHandler
  import RateLimitHandler
  import TemplateRenderHandler
  import ChannelDispatchHandler
  import StatusTrackingHandler

  /** The names of the handlers `hs`. */
  function Names(hs: seq<HandlerKind>): set<string>
  {
    if hs == [] then {} else {hs[0].Name()} + Names(hs[1..])
  }

  /** A run from `w` that recorded a result for every handler of `hs`, holds
      one settled task per routed configuration, marked the message
      PROCESSING (and changed no other row), and saved the final task list as
      one new batch. */
  ghost predicate FullRun(hs: seq<HandlerKind>, w: World, run: ChainRun)
  {
    var end := run.world;
    run.summary.handlerResults.Keys == Names(hs) &&
    end.ctx.messageId == w.ctx.messageId &&
    end.ctx.channelTasks.Some? && end.ctx.channelConfigs.Some? &&
    end.ctx.channelTasks.value != [] &&
    |end.ctx.channelTasks.value| == |end.ctx.channelConfigs.value| &&
    end.store.rows == WithStatus(w.store.rows, w.ctx.messageId, MessageStatus.Processing) &&
    end.store.batches == w.store.batches + [end.ctx.channelTasks.value]
  }

  /** A message with no target channels: none requested, or an empty list. */
  predicate NoTargets(c: ContextState)
  {
    c.targetChannels.None? || c.targetChannels == Some([])
  }

  /** A run that records handler `i` besides a full run from after it, which
      started with the message id, the table and the batches of `w`, is a
      full run from `i`. */
  lemma FullRunExtends(i: nat, w: World, w': World, run: ChainRun, rest: ChainRun)
    requires i < 6 && FullRun(AllKinds()[i + 1..], w', rest)
    requires w'.ctx.messageId == w.ctx.messageId
    requires w'.store.rows == w.store.rows && w'.store.batches == w.store.batches
    requires run.world == rest.world
    requires run.summary.handlerResults.Keys == {AllKinds()[i].Name()} + rest.summary.handlerResults.Keys
    ensures FullRun(AllKinds()[i..], w, run)
  {
    var hs := AllKinds();
    assert hs[i..][1..] == hs[i + 1..];
  }

  /** A handler that stops the chain makes the run fail: every handler
      result comes from a factory, and only `fail` stops. */
  lemma StopFails(k: HandlerKind, w: World, env: Env)
    requires k.Supports(w.ctx) && env.clock.Valid()
    ensures var s := HandleSpec(k, w, env);
      !Continues(s.outcome) ==> !Stopped(k, s.outcome).success
  {
    var s := HandleSpec(k, w, env);
    if s.outcome.Returned? {
      FactoryContinueIsSuccess(s.outcome.result);
    }
  }

  /** Status tracking, given tasks, always succeeds and is the last handler. */
  lemma FromStatusTracking(w: World, env: Env)
    requires env.clock.Valid() && StatusTrackingHandler.Supports(w.ctx)
    ensures var run := RunChain(AllKinds()[6..], w, env);
      run.summary.success && run.summary.handlerResults.Keys == Names(AllKinds()[6..]) &&
      run.world.ctx == w.ctx &&
      run.world.store.rows == WithStatus(w.store.rows, w.ctx.messageId, MessageStatus.Processing) &&
      run.world.store.batches == w.store.batches + [w.ctx.channelTasks.value]
  {
    var hs := AllKinds();
    ChainUnfold(hs, 6, w, env);
    assert hs[7..] == [] && hs[6..][1..] == hs[7..];
  }

  /** Dispatch with routed configurations and a rendered map goes on, with a
      settled task per configuration and nothing else changed that the later
      handlers or the run's result depend on. */
  lemma DispatchStep(w: World, env: Env)
    requires env.clock.Valid() && ChannelDispatchHandler.Supports(w.ctx) && w.ctx.renderedMessages.Some?
    ensures var s := HandleSpec(ChannelDispatch, w, env);
      Continues(s.outcome) && StatusTrackingHandler.Supports(s.world.ctx) &&
      |s.world.ctx.channelTasks.value| == |w.ctx.channelConfigs.value| &&
      s.world.ctx.channelConfigs == w.ctx.channelConfigs && s.world.ctx.messageId == w.ctx.messageId &&
      s.world.store.rows == w.store.rows && s.world.store.batches == w.store.batches
  {
    ChannelDispatchHandler.DispatchCreatesOneTaskPerConfig(w.ctx, env.now, env.adapters);
  }

  /** From dispatch on, with routed configurations and a rendered map, the
      run always succeeds and completes. */
  lemma FromDispatch(w: World, env: Env)
    requires env.clock.Valid() && ChannelDispatchHandler.Supports(w.ctx) && w.ctx.renderedMessages.Some?
    ensures var run := RunChain(AllKinds()[5..], w, env);
      run.summary.success && FullRun(AllKinds()[5..], w, run)
  {
    var hs := AllKinds();
    ChainUnfold(hs, 5, w, env);
    DispatchStep(w, env);
    FromStatusTracking(HandleSpec(hs[5], w, env).world, env);
    assert hs[5..][1..] == hs[6..];
  }

  /** Rendering, given target channels, goes on and changes only the
      rendered map, which it sets. */
  lemma RenderStep(w: World, env: Env)
    requires env.clock.Valid() && TemplateRenderHandler.Supports(w.ctx)
    ensures var s := HandleSpec(TemplateRender, w, env);
      Continues(s.outcome) && s.world.store == w.store &&
      s.world.ctx == w.ctx.(renderedMessages := s.world.ctx.renderedMessages) &&
      s.world.ctx.renderedMessages.Some?
  {
    TemplateRenderHandler.RenderReplacesMap(w.ctx, env.templates, env.render);
  }

  /** From rendering on, with target channels and routed configurations, the
      run always succeeds and completes. */
  lemma FromTemplateRender(w: World, env: Env)
    requires env.clock.Valid() && TemplateRenderHandler.Supports(w.ctx) && ChannelDispatchHandler.Supports(w.ctx)
    ensures var run := RunChain(AllKinds()[4..], w, env);
      run.summary.success && FullRun(AllKinds()[4..], w, run)
  {
    var hs := AllKinds();
    ChainUnfold(hs, 4, w, env);
    RenderStep(w, env);
    var s := HandleSpec(hs[4], w, env);
    var rest := RunChain(hs[5..], s.world, env);
    FromDispatch(s.world, env);
    FullRunExtends(4, w, s.world, Prefixed(map[hs[4].Name() := s.outcome.result], rest), rest);
  }

  /** The rate limiter goes on only for a non-empty target list, and then
      changes nothing but the counters. */
  lemma RateLimitStep(w: World, env: Env)
    requires env.clock.Valid() && RateLimitHandler.Supports(w.ctx)
    ensures var s := HandleSpec(RateLimit, w, env);
      Continues(s.outcome) ==>
        !NoTargets(w.ctx) && s.world.ctx == w.ctx &&
        s.world.store.rows == w.store.rows && s.world.store.batches == w.store.batches
  {
    RateLimitHandler.RateLimitOutcomes(w.ctx, env.rateLimits, env.clock, w.store.counters, w.store.ttls);
  }

  /** A handler from routing on that, when it lets the chain go on, keeps the
      message id, the table and the batches, followed by runs that complete
      when they succeed, gives a run that completes when it succeeds. */
  lemma StepExtends(i: nat, w: World, env: Env)
    requires 2 <= i < 6 && env.clock.Valid() && AllKinds()[i].Supports(w.ctx)
    requires var s := HandleSpec(AllKinds()[i], w, env);
      Continues(s.outcome) ==>
        s.world.ctx.messageId == w.ctx.messageId &&
        s.world.store.rows == w.store.rows && s.world.store.batches == w.store.batches &&
        var rest := RunChain(AllKinds()[i + 1..], s.world, env);
        (rest.summary.success ==> FullRun(AllKinds()[i + 1..], s.world, rest))
    ensures var run := RunChain(AllKinds()[i..], w, env);
      run.summary.success ==> FullRun(AllKinds()[i..], w, run)
  {
    var hs := AllKinds();
    ChainUnfold(hs, i, w, env);
    StopFails(hs[i], w, env);
    var s := HandleSpec(hs[i], w, env);
    if Continues(s.outcome) {
      var rest := RunChain(hs[i + 1..], s.world, env);
      if rest.summary.success {
        FullRunExtends(i, w, s.world, Prefixed(map[hs[i].Name() := s.outcome.result], rest), rest);
      }
    }
  }

  /** From the rate limiter on, with routed configurations, a successful run
      completes. */
  lemma FromRateLimit(w: World, env: Env)
    requires env.clock.Valid() && RateLimitHandler.Supports(w.ctx)
    ensures var run := RunChain(AllKinds()[3..], w, env);
      run.summary.success ==> FullRun(AllKinds()[3..], w, run)
  {
    RateLimitStep(w, env);
    var s := HandleSpec(RateLimit, w, env);
    if Continues(s.outcome) {
      FromTemplateRender(s.world, env);
    }
    StepExtends(3, w, env);
  }

  /** From the rate limiter on, a run without target channels fails. */
  lemma RateLimitNeedsTargets(w: World, env: Env)
    requires env.clock.Valid() && RateLimitHandler.Supports(w.ctx) && NoTargets(w.ctx)
    ensures !RunChain(AllKinds()[3..], w, env).summary.success
  {
    var hs := AllKinds();
    ChainUnfold(hs, 3, w, env);
    RateLimitStep(w, env);
    StopFails(hs[3], w, env);
  }

  /** Routing goes on only with a non-empty list of routed configurations,
      and changes nothing else. */
  lemma RouterStep(w: World, env: Env)
    requires env.clock.Valid()
    ensures var s := HandleSpec(ChannelRouter, w, env);
      Continues(s.outcome) ==>
        RateLimitHandler.Supports(s.world.ctx) && s.world.store == w.store &&
        s.world.ctx == w.ctx.(channelConfigs := s.world.ctx.channelConfigs)
  {
    ChannelRouterHandler.RouteSelectsRequestedEnabled(w.ctx, env.configs);
    var s := HandleSpec(ChannelRouter, w, env);
    if Continues(s.outcome) {
      FactoryContinueIsSuccess(s.outcome.result);
    }
  }

  /** From routing on, a successful run completes. */
  lemma FromChannelRouter(w: World, env: Env)
    requires env.clock.Valid()
    ensures var run := RunChain(AllKinds()[2..], w, env);
      run.summary.success ==> FullRun(AllKinds()[2..], w, run)
  {
    RouterStep(w, env);
    var s := HandleSpec(ChannelRouter, w, env);
    if Continues(s.outcome) {
      FromRateLimit(s.world, env);
    }
    StepExtends(2, w, env);
  }

  /** From routing on, a run without target channels fails: routing keeps
      the target list, and the rate limiter stops on it. */
  lemma RouterNeedsTargets(w: World, env: Env)
    requires env.clock.Valid() && NoTargets(w.ctx)
    ensures !RunChain(AllKinds()[2..], w, env).summary.success
  {
    var hs := AllKinds();
    assert hs[2] == ChannelRouter;
    ChainUnfold(hs, 2, w, env);
    RouterStep(w, env);
    StopFails(ChannelRouter, w, env);
    var s := HandleSpec(ChannelRouter, w, env);
    if Continues(s.outcome) {
      assert NoTargets(s.world.ctx);
      RateLimitNeedsTargets(s.world, env);
    }
  }

  /** A handler that only reads: the run from `i` is the run from `i + 1`
      when it lets the chain go on, a failure otherwise. */
  lemma ThroughReader(i: nat, w: World, env: Env)
    requires i < 2 && env.clock.Valid()
    ensures var run := RunChain(AllKinds()[i..], w, env);
      var rest := RunChain(AllKinds()[i + 1..], w, env);
      run.summary.success ==>
        rest.summary.success && run.world == rest.world &&
        run.summary.handlerResults.Keys == {AllKinds()[i].Name()} + rest.summary.handlerResults.Keys
  {
    var hs := AllKinds();
    ChainUnfold(hs, i, w, env);
    EarlyHandlersKeepTargets(hs[i], w, env);
    StopFails(hs[i], w, env);
  }

  /** A whole run in the canonical order succeeds only by running every
      handler: every handler's result is recorded, the message is PROCESSING,
      and the tasks (one per routed configuration) were saved as one batch. */
  lemma ChainSucceedsOnlyInFull(w: World, env: Env)
    requires env.clock.Valid()
    ensures var run := RunChain(AllKinds(), w, env);
      run.summary.success ==> FullRun(AllKinds(), w, run)
  {
    var hs := AllKinds();
    assert hs[0..] == hs;
    var run, run1, run2 := RunChain(hs, w, env), RunChain(hs[1..], w, env), RunChain(hs[2..], w, env);
    ThroughReader(0, w, env);
    ThroughReader(1, w, env);
    FromChannelRouter(w, env);
    if run.summary.success {
      FullRunExtends(1, w, w, run1, run2);
      FullRunExtends(0, w, w, run, run1);
    }
  }

  /** A message without target channels never gets through the chain. */
  lemma ChainNeedsTargets(w: World, env: Env)
    requires env.clock.Valid() && NoTargets(w.ctx)
    ensures !RunChain(AllKinds(), w, env).summary.success
  {
    var hs := AllKinds();
    assert hs[0..] == hs;
    ThroughReader(0, w, env);
    ThroughReader(1, w, env);
    RouterNeedsTargets(w, env);
  }
}
