/** `RateLimitHandler` (order 400): one Redis counter per channel, tenant,
    store and calendar bucket. Every target channel's counter is incremented
    in turn; the first one over its limit stops the handler. The buckets are
    fixed calendar periods (a minute, an hour, a day, or a slice of a minute),
    not sliding windows. */
module RateLimitHandler {
  import opened JavaLang
  import opened Text
  import opened Clock
  import opened Enums
  import opened Entities
  import opened HandlerResults
  import opened Context
  import opened TimeUnits
  import opened Stores

  const ORDER: int := 400
  const NAME: string := "频次控制处理器"
  const CODE: string := "RATE_LIMITED"
  const ALL_LIMITED_MESSAGE: string := "所有渠道均触发频次限制，消息发送失败"
  const KEY_PREFIX: string := "rate_limit:"

  /** `ChannelConfigService.getRateLimitConfig(tenantId, storeId, channelType)`. */
  type RateLimits = (Option<int>, Option<int>, ChannelType) -> Option<RateLimitConfig>

  /** `supports(context)`: only once channels have been routed. */
  predicate Supports(c: ContextState)
  {
    c.channelConfigs.Some? && c.channelConfigs.value != []
  }

  /** `now.getSecond() / window * window`, in `int` arithmetic. */
  function Slot(second: int, window: int): int
    requires window != 0
  {
    JavaDiv(second, window) * window
  }

  /** `calculateTimeWindow(config)`: the bucket label of the reading `now`.
      A null unit fails the `switch`, a null or zero window fails the
      division of the `SECOND` case; an unknown unit counts per minute. */
  function TimeWindow(cfg: RateLimitConfig, now: DateTime): Result<string>
    requires now.Valid()
  {
    match cfg.unit
    case None => Raised(NullDereference())
    case Some(unit) =>
      if unit == "SECOND" then
        match cfg.window
        case None => Raised(NullDereference())
        case Some(w) =>
          if w == 0 then Raised(DivisionByZero())
          else Value(FormatMinute(now) + "_" + IntToString(Slot(now.second, w)))
      else if unit == "MINUTE" then Value(FormatMinute(now))
      else if unit == "HOUR" then Value(FormatHour(now))
      else if unit == "DAY" then Value(FormatDay(now))
      else Value(FormatMinute(now))
  }

  /** `buildRateLimitKey`: `rate_limit:{channel}:{tenant}:{store}:{bucket}`,
      a null tenant or store printed as `null`. */
  function Key(channel: ChannelType, tenantId: Option<int>, storeId: Option<int>, bucket: string): string
  {
    KEY_PREFIX + (channel.Code() + ":" + (LongText(tenantId) + ":" + (LongText(storeId) + ":" + bucket)))
  }

  /** `getTTLSeconds(config)`: the window length in seconds. */
  function TtlSeconds(cfg: RateLimitConfig): int
    requires cfg.window.Some?
  {
    GetByCode(cfg.unit).ToSeconds(cfg.window.value)
  }

  /** The `RATE_LIMITED` message for a channel over its limit. */
  function LimitedMessage(channel: ChannelType, count: int, limit: int): string
  {
    "渠道" + channel.DisplayName() + "触发频次限制，当前窗口已发送" + IntToString(count) +
    "条，限制" + IntToString(limit) + "条"
  }

  /** What the loop body learns about a channel before it touches Redis:
      `getRateLimitConfig` returned null, `buildRateLimitKey` threw, or the
      key and the settings to count with. */
  datatype Probe = NoConfig | NoBucket(exception: JavaException)
                 | Ready(channel: ChannelType, key: string, cfg: RateLimitConfig)

  function ProbeChannel(ch: ChannelType, tenantId: Option<int>, storeId: Option<int>,
                        limits: RateLimits, now: DateTime): (p: Probe)
    requires now.Valid()
    ensures p.Ready? ==> p.channel == ch
  {
    match limits(tenantId, storeId, ch)
    case None => NoConfig
    case Some(cfg) =>
      match TimeWindow(cfg, now)
      case Raised(e) => NoBucket(e)
      case Value(bucket) => Ready(ch, Key(ch, tenantId, storeId, bucket), cfg)
  }

  /** The probe of every target channel, in order. */
  function Probes(chs: seq<ChannelType>, tenantId: Option<int>, storeId: Option<int>,
                  limits: RateLimits, now: DateTime): (ps: seq<Probe>)
    requires now.Valid()
    ensures |ps| == |chs|
    ensures forall j :: 0 <= j < |chs| ==> ps[j] == ProbeChannel(chs[j], tenantId, storeId, limits, now)
  {
    seq(|chs|, j requires 0 <= j < |chs| => ProbeChannel(chs[j], tenantId, storeId, limits, now))
  }

  /** How the loop over the target channels ends. */
  datatype Verdict = Allowed | Limited(channel: ChannelType, count: int, limit: int) | Crashed(exception: JavaException)

  /** The end of the loop: its verdict, the Redis state, and every key it
      incremented, in order. */
  datatype Throttle = Throttle(verdict: Verdict, counters: map<string, int>, ttls: map<string, int>,
                               incremented: seq<string>)

  /** One pass of the loop body: on to the next channel after incrementing
      `key`, or the end of the loop. */
  datatype ChannelStep = Next(key: string, counters: map<string, int>, ttls: map<string, int>)
                       | Stop(result: Throttle)

  /** The loop body for a probed channel, from the Redis state
      `counters`/`ttls`: `INCR`, `EXPIRE` on the first count (the TTL needs
      the window), then the comparison with the limit (which needs the count). */
  function CheckChannel(p: Probe, counters: map<string, int>, ttls: map<string, int>): ChannelStep
  {
    match p
    case NoConfig => Stop(Throttle(Crashed(NullDereference()), counters, ttls, []))
    case NoBucket(e) => Stop(Throttle(Crashed(e), counters, ttls, []))
    case Ready(ch, key, cfg) =>
      var n := Count(counters, key) + 1;
      var counters' := counters[key := n];
      if n == 1 && cfg.window.None? then Stop(Throttle(Crashed(NullDereference()), counters', ttls, [key]))
      else
        var ttls' := if n == 1 then ttls[key := TtlSeconds(cfg)] else ttls;
        if cfg.count.None? then Stop(Throttle(Crashed(NullDereference()), counters', ttls', [key]))
        else if n <= cfg.count.value then Next(key, counters', ttls')
        else Stop(Throttle(Limited(ch, n, cfg.count.value), counters', ttls', [key]))
  }

  /** The loop over the probed channels still to check. */
  function ThrottleAll(ps: seq<Probe>, counters: map<string, int>, ttls: map<string, int>): Throttle
  {
    if ps == [] then Throttle(Allowed, counters, ttls, [])
    else
      match CheckChannel(ps[0], counters, ttls)
      case Stop(t) => t
      case Next(key, counters', ttls') =>
        var rest := ThrottleAll(ps[1..], counters', ttls');
        rest.(incremented := [key] + rest.incremented)
  }

  /** The loop of `handle` over the target channels `chs`. */
  function ThrottleChannels(chs: seq<ChannelType>, tenantId: Option<int>, storeId: Option<int>,
                            limits: RateLimits, now: DateTime,
                            counters: map<string, int>, ttls: map<string, int>): Throttle
    requires now.Valid()
  {
    ThrottleAll(Probes(chs, tenantId, storeId, limits, now), counters, ttls)
  }

  /** The loop from position `i` on, as one step and the rest. */
  lemma ThrottleUnfold(ps: seq<Probe>, i: nat, counters: map<string, int>, ttls: map<string, int>)
    requires i < |ps|
    ensures match CheckChannel(ps[i], counters, ttls)
      case Stop(t) => ThrottleAll(ps[i..], counters, ttls) == t
      case Next(key, counters', ttls') =>
        var rest := ThrottleAll(ps[i + 1..], counters', ttls');
        ThrottleAll(ps[i..], counters, ttls) == rest.(incremented := [key] + rest.incremented)
  {
    assert ps[i..][0] == ps[i] && ps[i..][1..] == ps[i + 1..];
  }

  /** What one call of `handle` leaves behind. */
  datatype RateLimitStep = RateLimitStep(outcome: Outcome, state: ContextState,
                                         counters: map<string, int>, ttls: map<string, int>)

  /** `handle(context)` with every clock reading equal to `now`. */
  function RateLimit(c: ContextState, limits: RateLimits, now: DateTime,
                     counters: map<string, int>, ttls: map<string, int>): RateLimitStep
    requires now.Valid()
  {
    match c.targetChannels
    case None => RateLimitStep(Threw(NullDereference()), c, counters, ttls)
    case Some(chs) =>
      var t := ThrottleChannels(chs, c.tenantId, c.storeId, limits, now, counters, ttls);
      match t.verdict
      case Crashed(e) => RateLimitStep(Threw(e), c, t.counters, t.ttls)
      case Limited(ch, n, limit) =>
        RateLimitStep(Returned(Fail(CODE, LimitedMessage(ch, n, limit))), c, t.counters, t.ttls)
      case Allowed =>
        var o := if chs == [] then Returned(Fail(CODE, ALL_LIMITED_MESSAGE)) else Returned(HandlerResults.Success());
        RateLimitStep(o, c.(targetChannels := Some(chs)), t.counters, t.ttls)
  }

  /** The Redis state a step of the loop leaves behind. */
  predicate LeftBy(step: ChannelStep, counters: map<string, int>, ttls: map<string, int>)
  {
    match step
    case Next(_, counters', ttls') => counters == counters' && ttls == ttls'
    case Stop(t) => counters == t.counters && ttls == t.ttls
  }

  /** The loop body of `handle` for one probed channel: `INCR`, the `EXPIRE`
      of a new key and the comparison with the limit. */
  method CheckOne(redis: RedisCounters, p: Probe) returns (step: ChannelStep)
    modifies redis
    ensures step == CheckChannel(p, old(redis.counters), old(redis.ttls))
    ensures LeftBy(step, redis.counters, redis.ttls)
  {
    if p.NoConfig? {
      return Stop(Throttle(Crashed(NullDereference()), redis.counters, redis.ttls, []));
    }
    if p.NoBucket? {
      return Stop(Throttle(Crashed(p.exception), redis.counters, redis.ttls, []));
    }
    var n := redis.Increment(p.key);
    if n == 1 {
      if p.cfg.window.None? {
        return Stop(Throttle(Crashed(NullDereference()), redis.counters, redis.ttls, [p.key]));
      }
      redis.Expire(p.key, TtlSeconds(p.cfg));
    }
    if p.cfg.count.None? {
      step := Stop(Throttle(Crashed(NullDereference()), redis.counters, redis.ttls, [p.key]));
    } else if n <= p.cfg.count.value {
      step := Next(p.key, redis.counters, redis.ttls);
    } else {
      step := Stop(Throttle(Limited(p.channel, n, p.cfg.count.value), redis.counters, redis.ttls, [p.key]));
    }
  }

  /** The loop of `handle` over the target channels. */
  method ThrottleLoop(redis: RedisCounters, chs: seq<ChannelType>, tenantId: Option<int>, storeId: Option<int>,
                      limits: RateLimits, now: DateTime)
    returns (verdict: Verdict, ghost incremented: seq<string>)
    requires now.Valid()
    modifies redis
    ensures ThrottleChannels(chs, tenantId, storeId, limits, now, old(redis.counters), old(redis.ttls)) ==
            Throttle(verdict, redis.counters, redis.ttls, incremented)
  {
    ghost var ps := Probes(chs, tenantId, storeId, limits, now);
    ghost var whole := ThrottleAll(ps, redis.counters, redis.ttls);
    incremented := [];
    var i := 0;
    while i < |chs|
      modifies redis
      invariant 0 <= i <= |chs|
      invariant var rest := ThrottleAll(ps[i..], redis.counters, redis.ttls);
                whole == rest.(incremented := incremented + rest.incremented)
    {
      ThrottleUnfold(ps, i, redis.counters, redis.ttls);
      var p := ProbeChannel(chs[i], tenantId, storeId, limits, now);
      assert p == ps[i];
      var step := CheckOne(redis, p);
      if step.Stop? {
        return step.result.verdict, incremented + step.result.incremented;
      }
      ghost var rest := ThrottleAll(ps[i + 1..], redis.counters, redis.ttls);
      assert whole == rest.(incremented := (incremented + [step.key]) + rest.incremented);
      incremented := incremented + [step.key];
      i := i + 1;
    }
    assert ps[i..] == [];
    verdict := Allowed;
  }

  /** The handler: the loop of the source, with its Redis calls. Each
      allowed channel is appended to a new list that replaces the targets;
      since the loop only completes when every channel is allowed, that list
      is the one it started from. */
  method Handle(ctx: MessageContext, redis: RedisCounters, limits: RateLimits, now: DateTime)
    returns (o: Outcome)
    requires now.Valid()
    modifies ctx, redis
    ensures RateLimitStep(o, ctx.State(), redis.counters, redis.ttls) ==
            RateLimit(old(ctx.State()), limits, now, old(redis.counters), old(redis.ttls))
  {
    if ctx.targetChannels.None? {
      return Threw(NullDereference());
    }
    var chs := ctx.targetChannels.value;
    var verdict, _ := ThrottleLoop(redis, chs, ctx.tenantId, ctx.storeId, limits, now);
    match verdict
    case Crashed(e) =>
      o := Threw(e);
    case Limited(ch, n, limit) =>
      o := Returned(Fail(CODE, LimitedMessage(ch, n, limit)));
    case Allowed =>
      ctx.targetChannels := Some(chs);
      o := if chs == [] then Returned(Fail(CODE, ALL_LIMITED_MESSAGE)) else Returned(HandlerResults.Success());
  }

  // ----- The key -----

  /** Keys of different channels, tenants, stores or buckets never collide:
      each tenant's (and store's) counters are its own. */
  lemma KeyInjective(a: ChannelType, ta: Option<int>, sa: Option<int>, wa: string,
                     b: ChannelType, tb: Option<int>, sb: Option<int>, wb: string)
    requires Key(a, ta, sa, wa) == Key(b, tb, sb, wb)
    ensures a == b && ta == tb && sa == sb && wa == wb
  {
    var ra, rb := LongText(sa) + [':'] + wa, LongText(sb) + [':'] + wb;
    var qa, qb := LongText(ta) + [':'] + ra, LongText(tb) + [':'] + rb;
    var pa, pb := a.Code() + [':'] + qa, b.Code() + [':'] + qb;
    PrefixCancels(KEY_PREFIX, pa, pb);
    ChannelCodeNoColon(a);
    ChannelCodeNoColon(b);
    SeparatorSplit(a.Code(), qa, b.Code(), qb, ':');
    ChannelCodeInjective(a, b);
    LongTextNoColon(ta);
    LongTextNoColon(tb);
    SeparatorSplit(LongText(ta), ra, LongText(tb), rb, ':');
    LongTextInjective(ta, tb);
    LongTextNoColon(sa);
    LongTextNoColon(sb);
    SeparatorSplit(LongText(sa), wa, LongText(sb), wb, ':');
    LongTextInjective(sa, sb);
  }

  lemma PrefixCancels(p: string, x: string, y: string)
    requires p + x == p + y
    ensures x == y
  {
    assert x == (p + x)[|p|..] && y == (p + y)[|p|..];
  }

  // ----- The buckets -----

  /** For a non-negative second the bucket start is the second rounded down
      to a multiple of the window's magnitude. */
  lemma SlotIsFloor(second: int, window: int)
    requires 0 <= second && window != 0
    ensures Slot(second, window) == second - second % Abs(window)
  {
    var aw := Abs(window);
    assert (second / aw) * aw == second - second % aw;
    if window < 0 {
      assert JavaDiv(second, window) == -(second / aw);
      assert -(second / aw) * window == (second / aw) * aw;
    }
  }

  /** A `SECOND` bucket starts at most one window length before the current
      second and not after it; the sign of the window does not matter. */
  lemma SlotBounds(second: int, window: int)
    requires 0 <= second <= 59 && window != 0
    ensures Slot(second, window) == Slot(second, -window)
    ensures 0 <= Slot(second, window) <= second < Slot(second, window) + Abs(window)
  {
    SlotIsFloor(second, window);
    SlotIsFloor(second, -window);
  }

  /** Two readings fall in the same period of the unit. */
  predicate SamePeriod(unit: string, window: int, t: DateTime, u: DateTime)
    requires window != 0
  {
    var sameDay := t.year == u.year && t.month == u.month && t.day == u.day;
    var sameHour := sameDay && t.hour == u.hour;
    var sameMinute := sameHour && t.minute == u.minute;
    if unit == "SECOND" then sameMinute && Slot(t.second, window) == Slot(u.second, window)
    else if unit == "HOUR" then sameHour
    else if unit == "DAY" then sameDay
    else sameMinute
  }

  /** Readings of the same period share a bucket. */
  lemma SamePeriodSameBucket(cfg: RateLimitConfig, t: DateTime, u: DateTime)
    requires t.Valid() && u.Valid()
    requires cfg.unit.Some? && cfg.window.Some? && cfg.window.value != 0
    requires SamePeriod(cfg.unit.value, cfg.window.value, t, u)
    ensures TimeWindow(cfg, t) == TimeWindow(cfg, u)
  {
    var unit := cfg.unit.value;
    assert FormatDay(t) == FormatDay(u);
    if unit != "DAY" {
      assert FormatHour(t) == FormatHour(u);
      if unit != "HOUR" {
        assert FormatMinute(t) == FormatMinute(u);
      }
    }
  }

  /** Two readings share a bucket exactly when they fall in the same calendar
      period of the configured unit. */
  lemma BucketIsCalendarPeriod(cfg: RateLimitConfig, t: DateTime, u: DateTime)
    requires t.Valid() && u.Valid()
    requires cfg.unit.Some? && cfg.window.Some? && cfg.window.value != 0
    ensures TimeWindow(cfg, t).Value? && TimeWindow(cfg, u).Value?
    ensures TimeWindow(cfg, t) == TimeWindow(cfg, u) <==> SamePeriod(cfg.unit.value, cfg.window.value, t, u)
  {
    var unit, w := cfg.unit.value, cfg.window.value;
    if SamePeriod(unit, w, t, u) {
      SamePeriodSameBucket(cfg, t, u);
    } else if TimeWindow(cfg, t) == TimeWindow(cfg, u) {
      if unit == "SECOND" {
        var a, b := TimeWindow(cfg, t).value, TimeWindow(cfg, u).value;
        assert FormatMinute(t) == a[..12] && FormatMinute(u) == b[..12];
        assert IntToString(Slot(t.second, w)) == a[13..] && IntToString(Slot(u.second, w)) == b[13..];
        FormatMinuteInjective(t, u);
        IntToStringInjective(Slot(t.second, w), Slot(u.second, w));
      } else if unit == "HOUR" {
        FormatHourInjective(t, u);
      } else if unit == "DAY" {
        FormatDayInjective(t, u);
      } else {
        FormatMinuteInjective(t, u);
      }
    }
  }

  // ----- The counters -----

  /** The TTL recorded for a key, if any. */
  function TtlOf(ttls: map<string, int>, key: string): Option<int>
  {
    if key in ttls then Some(ttls[key]) else None
  }

  /** The change one `INCR` (and possibly `EXPIRE`) of `key` makes: the counter
      rises by one, and the TTL of no other key changes; the key's own TTL is
      set only when its counter was 0, and it is then present if `expired`. */
  ghost predicate Bumped(key: string, counters: map<string, int>, ttls: map<string, int>,
                         counters': map<string, int>, ttls': map<string, int>, expired: bool)
  {
    counters' == counters[key := Count(counters, key) + 1] &&
    (forall k :: k != key ==> TtlOf(ttls', k) == TtlOf(ttls, k)) &&
    (TtlOf(ttls', key) != TtlOf(ttls, key) ==> Count(counters, key) == 0) &&
    (expired && Count(counters, key) == 0 ==> key in ttls')
  }

  /** What one pass of the loop body does. */
  lemma CheckChannelEffect(p: Probe, counters: map<string, int>, ttls: map<string, int>)
    ensures match CheckChannel(p, counters, ttls)
      case Next(key, counters', ttls') =>
        p.Ready? && key == p.key && Bumped(key, counters, ttls, counters', ttls', true)
      case Stop(t) =>
        (t.verdict.Crashed? && t.incremented == [] && t.counters == counters && t.ttls == ttls) ||
        (p.Ready? && t.incremented == [p.key] &&
         Bumped(p.key, counters, ttls, t.counters, t.ttls, !t.verdict.Crashed?) &&
         (t.verdict.Crashed? ||
          (t.verdict.Limited? && t.verdict.channel == p.channel && t.verdict.count > t.verdict.limit)))
    ensures p.Ready? && Count(counters, p.key) == 0 && p.cfg.window.Some? ==>
      match CheckChannel(p, counters, ttls)
      case Next(_, _, ttls') => TtlOf(ttls', p.key) == Some(TtlSeconds(p.cfg))
      case Stop(t) => TtlOf(t.ttls, p.key) == Some(TtlSeconds(p.cfg))
    ensures p.Ready? && Count(counters, p.key) == 0 && p.cfg.window.None? ==>
      CheckChannel(p, counters, ttls).Stop? && CheckChannel(p, counters, ttls).result.verdict.Crashed?
    ensures match CheckChannel(p, counters, ttls)
      case Next(_, _, _) =>
        p.Ready? && p.cfg.count.Some? && Count(counters, p.key) + 1 <= p.cfg.count.value
      case Stop(t) =>
        t.verdict.Limited? ==>
          p.Ready? && p.cfg.count == Some(t.verdict.limit) && t.verdict.count == Count(counters, p.key) + 1 &&
          (p.cfg.window.Some? || Count(counters, p.key) != 0)
    ensures p.Ready? && p.cfg.count.Some? && (p.cfg.window.Some? || Count(counters, p.key) != 0) ==>
      var n := Count(counters, p.key) + 1;
      (CheckChannel(p, counters, ttls).Next? <==> n <= p.cfg.count.value) &&
      (n > p.cfg.count.value ==>
         CheckChannel(p, counters, ttls).Stop? &&
         CheckChannel(p, counters, ttls).result.verdict == Limited(p.channel, n, p.cfg.count.value))
  {
  }

  /** How many of the probes `ps` increment `key`. */
  function Hits(ps: seq<Probe>, key: string): nat
  {
    if ps == [] then 0 else (if ps[0].Ready? && ps[0].key == key then 1 else 0) + Hits(ps[1..], key)
  }

  /** The counter of the `i`-th channel's key just after its `INCR`, once
      every channel before it has been incremented. */
  function CountAt(ps: seq<Probe>, counters: map<string, int>, i: int): int
    requires 0 <= i < |ps| && ps[i].Ready?
  {
    Count(counters, ps[i].key) + Hits(ps[..i], ps[i].key) + 1
  }

  /** The `i`-th channel gets as far as the comparison with its limit: it has
      settings, a bucket and a count, and a window if its key is new. */
  predicate Compared(ps: seq<Probe>, counters: map<string, int>, i: int)
    requires 0 <= i < |ps|
  {
    ps[i].Ready? && ps[i].cfg.count.Some? && (ps[i].cfg.window.Some? || CountAt(ps, counters, i) != 1)
  }

  /** The `i`-th channel passes the loop body: its count after `INCR` is
      within its limit. */
  predicate Passes(ps: seq<Probe>, counters: map<string, int>, i: int)
    requires 0 <= i < |ps|
  {
    Compared(ps, counters, i) && CountAt(ps, counters, i) <= ps[i].cfg.count.value
  }

  /** The `i`-th channel is over its limit after its `INCR`. */
  predicate OverLimit(ps: seq<Probe>, counters: map<string, int>, i: int)
    requires 0 <= i < |ps|
  {
    Compared(ps, counters, i) && CountAt(ps, counters, i) > ps[i].cfg.count.value
  }

  /** After the first channel's `INCR`, the channels from the second on see
      the same counts as they do before it. */
  lemma CountAtShift(ps: seq<Probe>, counters: map<string, int>, counters': map<string, int>, i: int)
    requires 1 <= i < |ps| && ps[0].Ready? && ps[i].Ready?
    requires counters' == counters[ps[0].key := Count(counters, ps[0].key) + 1]
    ensures CountAt(ps[1..], counters', i - 1) == CountAt(ps, counters, i)
  {
    assert ps[1..][i - 1] == ps[i];
    assert ps[..i][1..] == ps[1..][..i - 1];
  }

  /** The same, for passing and for being over the limit. */
  lemma PassesShift(ps: seq<Probe>, counters: map<string, int>, counters': map<string, int>)
    requires ps != [] && ps[0].Ready?
    requires counters' == counters[ps[0].key := Count(counters, ps[0].key) + 1]
    ensures forall i :: 1 <= i < |ps| ==>
      ps[1..][i - 1] == ps[i] &&
      Passes(ps[1..], counters', i - 1) == Passes(ps, counters, i) &&
      OverLimit(ps[1..], counters', i - 1) == OverLimit(ps, counters, i) &&
      (ps[i].Ready? ==> CountAt(ps[1..], counters', i - 1) == CountAt(ps, counters, i))
  {
    forall i | 1 <= i < |ps|
      ensures ps[1..][i - 1] == ps[i]
      ensures ps[i].Ready? ==> CountAt(ps[1..], counters', i - 1) == CountAt(ps, counters, i)
    {
      if ps[i].Ready? {
        CountAtShift(ps, counters, counters', i);
      }
    }
  }

  /** The loop allows the message exactly when every channel passes the loop
      body, that is, has settings to compare with and is within its limit
      after its `INCR`. */
  lemma {:induction false} ThrottleAllowedIffAllPass(ps: seq<Probe>, counters: map<string, int>, ttls: map<string, int>)
    ensures ThrottleAll(ps, counters, ttls).verdict.Allowed? <==> forall i :: 0 <= i < |ps| ==> Passes(ps, counters, i)
  {
    if ps != [] {
      CheckChannelEffect(ps[0], counters, ttls);
      assert ps[..0] == [];
      match CheckChannel(ps[0], counters, ttls)
      case Stop(t) =>
        assert !Passes(ps, counters, 0);
      case Next(key, counters', ttls') =>
        assert Passes(ps, counters, 0);
        ThrottleAllowedIffAllPass(ps[1..], counters', ttls');
        PassesShift(ps, counters, counters');
        if forall i :: 0 <= i < |ps| - 1 ==> Passes(ps[1..], counters', i) {
          forall i | 0 <= i < |ps|
            ensures Passes(ps, counters, i)
          {
            if i > 0 {
              assert Passes(ps[1..], counters', i - 1);
            }
          }
        } else {
          var i :| 0 <= i < |ps| - 1 && !Passes(ps[1..], counters', i);
          assert !Passes(ps, counters, i + 1);
        }
    }
  }

  /** The first channel over its limit, every earlier one having passed, is
      the one the loop reports, with its count after `INCR` and its limit. */
  lemma {:induction false} ThrottleReportsFirstOverLimit(ps: seq<Probe>, counters: map<string, int>, ttls: map<string, int>,
                                                         j: int)
    requires 0 <= j < |ps| && OverLimit(ps, counters, j) && forall i :: 0 <= i < j ==> Passes(ps, counters, i)
    ensures ThrottleAll(ps, counters, ttls).verdict == Limited(ps[j].channel, CountAt(ps, counters, j), ps[j].cfg.count.value)
    decreases j
  {
    CheckChannelEffect(ps[0], counters, ttls);
    assert ps[..0] == [];
    if j > 0 {
      assert Passes(ps, counters, 0);
      var key, counters', ttls' := CheckChannel(ps[0], counters, ttls).key,
                                  CheckChannel(ps[0], counters, ttls).counters, CheckChannel(ps[0], counters, ttls).ttls;
      PassesShift(ps, counters, counters');
      forall i | 0 <= i < j - 1
        ensures Passes(ps[1..], counters', i)
      {
        assert Passes(ps, counters, i + 1);
      }
      ThrottleReportsFirstOverLimit(ps[1..], counters', ttls', j - 1);
    }
  }

  /** A channel the loop reports as limited is the last one it incremented,
      and it is the first channel over its limit: every earlier one passed. */
  lemma {:induction false} ThrottleLimitedIsFirstOverLimit(ps: seq<Probe>, counters: map<string, int>, ttls: map<string, int>)
    ensures var t := ThrottleAll(ps, counters, ttls);
      t.verdict.Limited? ==>
        var j := |t.incremented| - 1;
        0 <= j < |ps| && OverLimit(ps, counters, j) && (forall i :: 0 <= i < j ==> Passes(ps, counters, i)) &&
        t.verdict == Limited(ps[j].channel, CountAt(ps, counters, j), ps[j].cfg.count.value)
  {
    if ps != [] {
      CheckChannelEffect(ps[0], counters, ttls);
      assert ps[..0] == [];
      match CheckChannel(ps[0], counters, ttls)
      case Stop(t) =>
      case Next(key, counters', ttls') =>
        assert Passes(ps, counters, 0);
        ThrottleLimitedIsFirstOverLimit(ps[1..], counters', ttls');
        var rest := ThrottleAll(ps[1..], counters', ttls');
        if rest.verdict.Limited? {
          PassesShift(ps, counters, counters');
          var j := |rest.incremented|;
          forall i | 0 <= i < j
            ensures Passes(ps, counters, i)
          {
            if i > 0 {
              assert Passes(ps[1..], counters', i - 1);
            }
          }
        }
    }
  }

  /** The loop increments the keys of a prefix of the channels, one per
      channel and in order: all of them when every channel is allowed, and up
      to the limited channel, which is the last, when one is over its limit;
      that channel really is over its limit. */
  lemma {:induction false} ThrottleIncrementsPrefix(ps: seq<Probe>, counters: map<string, int>, ttls: map<string, int>)
    ensures var t := ThrottleAll(ps, counters, ttls);
      |t.incremented| <= |ps| &&
      (forall j :: 0 <= j < |t.incremented| ==> ps[j].Ready? && ps[j].key == t.incremented[j]) &&
      (t.verdict.Allowed? ==> |t.incremented| == |ps|) &&
      (t.verdict.Limited? ==> |t.incremented| > 0 &&
                              ps[|t.incremented| - 1].Ready? &&
                              ps[|t.incremented| - 1].channel == t.verdict.channel &&
                              t.verdict.count > t.verdict.limit)
  {
    if ps != [] {
      CheckChannelEffect(ps[0], counters, ttls);
      match CheckChannel(ps[0], counters, ttls)
      case Stop(t) =>
      case Next(key, counters', ttls') =>
        ThrottleIncrementsPrefix(ps[1..], counters', ttls');
        var rest := ThrottleAll(ps[1..], counters', ttls');
        forall j | 1 <= j < |rest.incremented| + 1
          ensures ps[j].Ready? && ps[j].key == ([key] + rest.incremented)[j]
        {
          assert ps[j] == ps[1..][j - 1];
        }
    }
  }

  /** Every counter rises by the number of times the loop incremented its key
      and every other counter is left alone (so with distinct channels each
      visited channel's counter rises by exactly one). */
  lemma {:induction false} ThrottleCountsIncrements(ps: seq<Probe>, counters: map<string, int>, ttls: map<string, int>)
    ensures var t := ThrottleAll(ps, counters, ttls);
      forall k :: Count(t.counters, k) == Count(counters, k) + multiset(t.incremented)[k]
  {
    if ps != [] {
      CheckChannelEffect(ps[0], counters, ttls);
      match CheckChannel(ps[0], counters, ttls)
      case Stop(t) =>
        if t.incremented != [] {
          OneIncrement(ps[0].key, counters, t.counters);
        }
      case Next(key, counters', ttls') =>
        OneIncrement(key, counters, counters');
        ThrottleCountsIncrements(ps[1..], counters', ttls');
        var rest := ThrottleAll(ps[1..], counters', ttls');
        assert multiset([key] + rest.incremented) == multiset([key]) + multiset(rest.incremented);
    }
  }

  /** One `INCR`, as a multiset of keys. */
  lemma OneIncrement(key: string, counters: map<string, int>, counters': map<string, int>)
    requires counters' == counters[key := Count(counters, key) + 1]
    ensures forall k :: Count(counters', k) == Count(counters, k) + multiset([key])[k]
  {
    forall k
      ensures Count(counters', k) == Count(counters, k) + multiset([key])[k]
    {
      if k != key {
        assert multiset([key])[k] == 0;
      }
    }
  }

  /** A TTL is only ever set on a key this loop incremented and whose counter
      was not positive before (in Redis: a key the loop created), and no TTL
      is removed. */
  lemma {:induction false} ThrottleExpiresOnlyNewKeys(ps: seq<Probe>, counters: map<string, int>, ttls: map<string, int>)
    ensures var t := ThrottleAll(ps, counters, ttls);
      (forall k :: TtlOf(t.ttls, k) != TtlOf(ttls, k) ==> k in t.incremented && Count(counters, k) <= 0) &&
      (forall k :: k in ttls ==> k in t.ttls)
  {
    if ps != [] {
      CheckChannelEffect(ps[0], counters, ttls);
      match CheckChannel(ps[0], counters, ttls)
      case Stop(s) =>
        assert forall k :: k in ttls ==> TtlOf(ttls, k).Some?;
      case Next(key, counters', ttls') =>
        ThrottleExpiresOnlyNewKeys(ps[1..], counters', ttls');
        var t := ThrottleAll(ps, counters, ttls);
        forall k | TtlOf(t.ttls, k) != TtlOf(ttls, k)
          ensures k in t.incremented && Count(counters, k) <= 0
        {
          if k != key {
            assert Count(counters', k) == Count(counters, k);
          }
        }
        forall k | k in ttls
          ensures k in t.ttls
        {
          assert TtlOf(ttls, k).Some?;
          if k != key || Count(counters, key) != 0 {
            assert TtlOf(ttls', k).Some?;
          }
        }
    }
  }

  /** Every key the loop creates (one whose counter was 0) has a TTL
      afterwards, unless the loop ended in an exception. */
  lemma {:induction false} ThrottleExpiresEveryNewKey(ps: seq<Probe>, counters: map<string, int>, ttls: map<string, int>)
    ensures var t := ThrottleAll(ps, counters, ttls);
      !t.verdict.Crashed? ==> forall k :: k in t.incremented && Count(counters, k) == 0 ==> k in t.ttls
  {
    if ps != [] {
      CheckChannelEffect(ps[0], counters, ttls);
      match CheckChannel(ps[0], counters, ttls)
      case Stop(s) =>
      case Next(key, counters', ttls') =>
        ThrottleExpiresEveryNewKey(ps[1..], counters', ttls');
        ThrottleExpiresOnlyNewKeys(ps[1..], counters', ttls');
        var t := ThrottleAll(ps, counters, ttls);
        var rest := ThrottleAll(ps[1..], counters', ttls');
        assert t.incremented == [key] + rest.incremented;
        if !t.verdict.Crashed? {
          forall k | k in t.incremented && Count(counters, k) == 0
            ensures k in t.ttls
          {
            if k != key {
              assert Count(counters', k) == 0;
            }
          }
        }
    }
  }

  /** The TTL of a key the loop creates is the window length, in seconds, of
      the settings of the channel that created it, so the key lasts exactly
      one window; later passes over the same key leave it alone. */
  lemma {:induction false} ThrottleNewKeyTtl(ps: seq<Probe>, counters: map<string, int>, ttls: map<string, int>)
    ensures var t := ThrottleAll(ps, counters, ttls);
      forall j :: 0 <= j < |t.incremented| && j < |ps| && ps[j].Ready? && ps[j].cfg.window.Some? &&
                  Count(counters, t.incremented[j]) == 0 && t.incremented[j] !in t.incremented[..j] ==>
                  TtlOf(t.ttls, t.incremented[j]) == Some(TtlSeconds(ps[j].cfg))
  {
    if ps != [] {
      CheckChannelEffect(ps[0], counters, ttls);
      match CheckChannel(ps[0], counters, ttls)
      case Stop(s) =>
      case Next(key, counters', ttls') =>
        ThrottleNewKeyTtl(ps[1..], counters', ttls');
        ThrottleExpiresOnlyNewKeys(ps[1..], counters', ttls');
        var t := ThrottleAll(ps, counters, ttls);
        var rest := ThrottleAll(ps[1..], counters', ttls');
        assert t.incremented == [key] + rest.incremented;
        forall j | 0 <= j < |t.incremented| && j < |ps| && ps[j].Ready? && ps[j].cfg.window.Some? &&
                   Count(counters, t.incremented[j]) == 0 && t.incremented[j] !in t.incremented[..j]
          ensures TtlOf(t.ttls, t.incremented[j]) == Some(TtlSeconds(ps[j].cfg))
        {
          if j == 0 {
            assert Count(counters', key) == 1;
          } else {
            var k := t.incremented[j];
            assert k == rest.incremented[j - 1] && ps[j] == ps[1..][j - 1];
            assert t.incremented[..j] == [key] + rest.incremented[..j - 1];
            assert k != key && Count(counters', k) == 0;
          }
        }
    }
  }

  // ----- The handler -----

  /** The handler fails with the all-channels message exactly when the target
      list is empty, and then touches no counter. When it succeeds the list
      was non-empty and every channel's key was incremented once, in order;
      the target list left behind is the one it was given. When it reports a
      limited channel, that channel is one of the targets and over its limit.
      A handler call never changes any other field of the context. */
  lemma RateLimitOutcomes(c: ContextState, limits: RateLimits, now: DateTime,
                          counters: map<string, int>, ttls: map<string, int>)
    requires now.Valid()
    ensures var r := RateLimit(c, limits, now, counters, ttls);
      r.state == c &&
      (r.outcome == Returned(Fail(CODE, ALL_LIMITED_MESSAGE)) <==> c.targetChannels == Some([])) &&
      (c.targetChannels == Some([]) ==> r.counters == counters && r.ttls == ttls)
    ensures var r := RateLimit(c, limits, now, counters, ttls);
      r.outcome == Returned(HandlerResults.Success()) ==>
        var chs := c.targetChannels.value;
        var t := ThrottleChannels(chs, c.tenantId, c.storeId, limits, now, counters, ttls);
        chs != [] && t.verdict == Allowed && |t.incremented| == |chs| &&
        forall j :: 0 <= j < |chs| ==>
          ProbeChannel(chs[j], c.tenantId, c.storeId, limits, now).Ready? &&
          ProbeChannel(chs[j], c.tenantId, c.storeId, limits, now).key == t.incremented[j]
    ensures var r := RateLimit(c, limits, now, counters, ttls);
      r.outcome.Returned? && r.outcome.result.errorCode == Some(CODE) && c.targetChannels != Some([]) ==>
        var t := ThrottleChannels(c.targetChannels.value, c.tenantId, c.storeId, limits, now, counters, ttls);
        t.verdict.Limited? && t.verdict.channel in c.targetChannels.value && t.verdict.count > t.verdict.limit &&
        r.outcome.result.errorMessage == Some(LimitedMessage(t.verdict.channel, t.verdict.count, t.verdict.limit))
  {
    if c.targetChannels.Some? {
      var chs := c.targetChannels.value;
      var ps := Probes(chs, c.tenantId, c.storeId, limits, now);
      ThrottleIncrementsPrefix(ps, counters, ttls);
      var t := ThrottleAll(ps, counters, ttls);
      if t.verdict.Limited? {
        var j := |t.incremented| - 1;
        assert ps[j] == ProbeChannel(chs[j], c.tenantId, c.storeId, limits, now);
        assert LimitedMessage(t.verdict.channel, t.verdict.count, t.verdict.limit) != ALL_LIMITED_MESSAGE by {
          assert LimitedMessage(t.verdict.channel, t.verdict.count, t.verdict.limit)[0] == '渠';
        }
      }
    }
  }

  /** The handler enforces the limits. It succeeds exactly when there are
      targets and every one passes its check within its limit after its
      `INCR`. The first channel over its limit (every earlier one having
      passed) fails it with `RATE_LIMITED` and a message naming that
      channel, its count and its limit; and a `RATE_LIMITED` failure other
      than the empty-list one always comes from such a first channel. */
  lemma RateLimitEnforcesLimits(c: ContextState, limits: RateLimits, now: DateTime,
                                counters: map<string, int>, ttls: map<string, int>)
    requires now.Valid()
    ensures c.targetChannels.Some? ==>
      var chs, r := c.targetChannels.value, RateLimit(c, limits, now, counters, ttls);
      var ps := Probes(chs, c.tenantId, c.storeId, limits, now);
      (r.outcome == Returned(HandlerResults.Success()) <==>
         chs != [] && forall i :: 0 <= i < |chs| ==> Passes(ps, counters, i)) &&
      (forall j :: 0 <= j < |chs| && OverLimit(ps, counters, j) && (forall i :: 0 <= i < j ==> Passes(ps, counters, i)) ==>
         r.outcome == Returned(Fail(CODE, LimitedMessage(chs[j], CountAt(ps, counters, j), ps[j].cfg.count.value))))
    ensures c.targetChannels.Some? ==>
      var chs, r := c.targetChannels.value, RateLimit(c, limits, now, counters, ttls);
      var ps := Probes(chs, c.tenantId, c.storeId, limits, now);
      r.outcome.Returned? && r.outcome.result.errorCode == Some(CODE) && chs != [] ==>
        exists j :: 0 <= j < |chs| && OverLimit(ps, counters, j) && (forall i :: 0 <= i < j ==> Passes(ps, counters, i)) &&
          r.outcome == Returned(Fail(CODE, LimitedMessage(chs[j], CountAt(ps, counters, j), ps[j].cfg.count.value)))
  {
    if c.targetChannels.Some? {
      var chs := c.targetChannels.value;
      var ps := Probes(chs, c.tenantId, c.storeId, limits, now);
      ThrottleAllowedIffAllPass(ps, counters, ttls);
      ThrottleLimitedIsFirstOverLimit(ps, counters, ttls);
      var t := ThrottleAll(ps, counters, ttls);
      forall j | 0 <= j < |chs| && OverLimit(ps, counters, j) && (forall i :: 0 <= i < j ==> Passes(ps, counters, i))
        ensures t.verdict == Limited(chs[j], CountAt(ps, counters, j), ps[j].cfg.count.value)
      {
        ThrottleReportsFirstOverLimit(ps, counters, ttls, j);
      }
      if t.verdict.Limited? {
        assert LimitedMessage(t.verdict.channel, t.verdict.count, t.verdict.limit)[0] == '渠';
      }
    }
  }
}
