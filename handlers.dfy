/** The seven `MessageHandler` beans as one closed set of kinds, with the
    order, name and `supports` of each, what one call of `handle` does to the
    whole observable state, and the dispatching call on the live objects. */
module Handlers {
  import opened JavaLang
  import opened Clock
  import opened Enums
  import opened Entities
  import opened HandlerResults
  import opened Context
  import opened Stores
  import opened TaskExecution
  import ValidationHandler
  import TimeWindowHandler
  import ChannelRouterHandler
  import RateLimitHandler
  import TemplateRenderHandler
  import ChannelDispatchHandler
  import StatusTrackingHandler

  datatype HandlerKind = Validation | TimeWindow | ChannelRouter | RateLimit
                       | TemplateRender | ChannelDispatch | StatusTracking
  {
    /** `getOrder()`. */
    function Order(): int
    {
      match this
      case Validation => ValidationHandler.ORDER
      case TimeWindow => TimeWindowHandler.ORDER
      case ChannelRouter => ChannelRouterHandler.ORDER
      case RateLimit => RateLimitHandler.ORDER
      case TemplateRender => TemplateRenderHandler.ORDER
      case ChannelDispatch => ChannelDispatchHandler.ORDER
      case StatusTracking => StatusTrackingHandler.ORDER
    }

    /** `getName()`. */
    function Name(): string
    {
      match this
      case Validation => ValidationHandler.NAME
      case TimeWindow => TimeWindowHandler.NAME
      case ChannelRouter => ChannelRouterHandler.NAME
      case RateLimit => RateLimitHandler.NAME
      case TemplateRender => TemplateRenderHandler.NAME
      case ChannelDispatch => ChannelDispatchHandler.NAME
      case StatusTracking => StatusTrackingHandler.NAME
    }

    /** `supports(context)`: the first three handlers always run. */
    predicate Supports(c: ContextState)
    {
      match this
      case Validation => true
      case TimeWindow => true
      case ChannelRouter => true
      case RateLimit => RateLimitHandler.Supports(c)
      case TemplateRender => TemplateRenderHandler.Supports(c)
      case ChannelDispatch => ChannelDispatchHandler.Supports(c)
      case StatusTracking => StatusTrackingHandler.Supports(c)
    }
  }

  /** The handlers in the order of their `getOrder()` values. */
  function AllKinds(): seq<HandlerKind>
  {
    [Validation, TimeWindow, ChannelRouter, RateLimit, TemplateRender, ChannelDispatch, StatusTracking]
  }

  /** The list's orders strictly increase. */
  lemma AllKindsInOrder()
    ensures forall i, j :: 0 <= i < j < |AllKinds()| ==> AllKinds()[i].Order() < AllKinds()[j].Order()
  {
  }

  /** No two handlers share an order value or a name. */
  lemma KindsDistinct(k: HandlerKind, l: HandlerKind)
    ensures k.Order() == l.Order() ==> k == l
    ensures k.Name() == l.Name() ==> k == l
  {
  }

  /** Everything outside the chain that a handler consults: the library
      predicates, the repositories and services it reads, and the one clock
      reading of the call (as a calendar time and as an instant). */
  datatype Env = Env(isBlank: string -> bool, isJson: string -> bool,
                     enabledConfigs: TimeWindowHandler.EnabledConfigs,
                     configs: ChannelRouterHandler.Configs,
                     rateLimits: RateLimitHandler.RateLimits,
                     templates: TemplateRenderHandler.Templates,
                     render: TemplateRenderHandler.Render,
                     clock: DateTime, now: Instant,
                     adapters: map<ChannelType, Adapter>)

  /** What the handlers can change outside the context: the Redis counters
      and expiries, the message table, and the task batches and single-task
      writes. */
  datatype Store = Store(counters: map<string, int>, ttls: map<string, int>,
                         rows: map<string, Message>,
                         batches: seq<seq<ChannelTask>>, updates: seq<ChannelTask>)

  /** The context and the stores at one moment. */
  datatype World = World(ctx: ContextState, store: Store)

  /** How one call of `handle` ends, and the world after it. */
  datatype Step = Step(outcome: Outcome, world: World)

  /** `handle(context)` of a handler that supports the context. */
  function HandleSpec(k: HandlerKind, w: World, env: Env): (s: Step)
    requires k.Supports(w.ctx) && env.clock.Valid()
    ensures s.outcome.Returned? ==> FromFactory(s.outcome.result)
  {
    var c, st := w.ctx, w.store;
    match k
    case Validation => Step(Returned(ValidationHandler.Validate(c, env.isBlank, env.isJson)), w)
    case TimeWindow => Step(TimeWindowHandler.Check(c, env.enabledConfigs, env.clock), w)
    case ChannelRouter =>
      var r := ChannelRouterHandler.Route(c, env.configs);
      Step(r.outcome, w.(ctx := r.state))
    case RateLimit =>
      var r := RateLimitHandler.RateLimit(c, env.rateLimits, env.clock, st.counters, st.ttls);
      Step(r.outcome, World(r.state, st.(counters := r.counters, ttls := r.ttls)))
    case TemplateRender =>
      var r := TemplateRenderHandler.RenderStep(c, env.templates, env.render);
      Step(r.outcome, w.(ctx := r.state))
    case ChannelDispatch =>
      var d := ChannelDispatchHandler.Dispatch(c, env.now, env.adapters);
      Step(d.handled.outcome, World(d.handled.state, st.(updates := st.updates + d.writes)))
    case StatusTracking =>
      var t := StatusTrackingHandler.Track(c, st.rows, st.batches);
      Step(t.handled.outcome, World(t.handled.state, st.(rows := t.rows, batches := t.batches)))
  }

  /** The live objects one call of `handle` may touch. */
  function Snapshot(ctx: MessageContext, redis: RedisCounters, messages: MessageRepository,
                    tasks: ChannelTaskRepository): World
    reads ctx, redis, messages, tasks
  {
    World(ctx.State(), Store(redis.counters, redis.ttls, messages.rows, tasks.batches, tasks.updates))
  }

  /** `handler.handle(context)` for the bean of kind `k`. */
  method Invoke(k: HandlerKind, ctx: MessageContext, redis: RedisCounters, messages: MessageRepository,
                executor: ChannelTaskExecutor, env: Env) returns (o: Outcome)
    requires k.Supports(ctx.State()) && env.clock.Valid()
    requires executor.adapters == env.adapters
    modifies ctx, redis, messages, executor.repository
    ensures Step(o, Snapshot(ctx, redis, messages, executor.repository)) ==
            HandleSpec(k, old(Snapshot(ctx, redis, messages, executor.repository)), env)
  {
    match k
    case Validation =>
      o := Returned(ValidationHandler.Validate(ctx.State(), env.isBlank, env.isJson));
    case TimeWindow =>
      o := TimeWindowHandler.Check(ctx.State(), env.enabledConfigs, env.clock);
    case ChannelRouter =>
      o := ChannelRouterHandler.Handle(ctx, env.configs);
    case RateLimit =>
      o := RateLimitHandler.Handle(ctx, redis, env.rateLimits, env.clock);
    case TemplateRender =>
      o := TemplateRenderHandler.Handle(ctx, env.templates, env.render);
    case ChannelDispatch =>
      o := ChannelDispatchHandler.Handle(ctx, executor, env.now);
    case StatusTracking =>
      o := StatusTrackingHandler.Handle(ctx, messages, executor.repository);
  }

  /** The first three handlers only read: they change neither the stores nor
      the target channels, and validation and the time window change nothing
      at all. */
  lemma EarlyHandlersKeepTargets(k: HandlerKind, w: World, env: Env)
    requires k in {Validation, TimeWindow, ChannelRouter} && env.clock.Valid()
    ensures var s := HandleSpec(k, w, env);
      s.world.store == w.store && s.world.ctx.targetChannels == w.ctx.targetChannels &&
      (k != ChannelRouter ==> s.world == w)
  {
  }
}
