/** `TimeWindowHandler` (order 200): refuses to send outside the allowed hours
    of any enabled channel that has a time window switched on. The first such
    channel whose window excludes the current hour decides. */
module TimeWindowHandler {
  import opened JavaLang
  import opened Text
  import opened Clock
  import opened Entities
  import opened HandlerResults
  import opened Context

  const ORDER: int := 200
  const NAME: string := "时间窗口处理器"

  const NO_CHANNEL: string := "NO_CHANNEL"
  const NO_CHANNEL_MESSAGE: string := "未配置可用的发送渠道"
  const CLOSED_CODE: string := "NOT_IN_TIME_WINDOW"

  /** `ChannelConfigRepository.getEnabledConfigs(tenantId, storeId)`; null when
      the repository returns null. */
  type EnabledConfigs = (Option<int>, Option<int>) -> Option<seq<ChannelConfig>>

  /** The first allowed hour; a missing start means midnight. */
  function StartHour(cfg: ChannelConfig): int
  {
    if cfg.timeWindowStartHour.Some? then cfg.timeWindowStartHour.value else 0
  }

  /** The last allowed hour; a missing end means 23. */
  function EndHour(cfg: ChannelConfig): int
  {
    if cfg.timeWindowEndHour.Some? then cfg.timeWindowEndHour.value else 23
  }

  /** The `Boolean` flags `enabled && timeWindowEnabled` can be unboxed
      (the second only when the first is true, by short-circuit). */
  predicate FlagsReadable(cfg: ChannelConfig)
  {
    cfg.enabled.Some? && (cfg.enabled.value ==> cfg.timeWindowEnabled.Some?)
  }

  /** The configuration restricts the hours. */
  predicate Gated(cfg: ChannelConfig)
  {
    cfg.enabled == Some(true) && cfg.timeWindowEnabled == Some(true)
  }

  predicate Outside(cfg: ChannelConfig, hour: int)
  {
    hour < StartHour(cfg) || hour > EndHour(cfg)
  }

  /** What the scan of the configurations decides. */
  datatype Gate = Open | Closed(start: int, end: int) | NullFlag

  /** The loop over the configurations, in list order. */
  function Scan(cfgs: seq<ChannelConfig>, hour: int): Gate
  {
    if cfgs == [] then Open
    else
      var cfg := cfgs[0];
      if cfg.enabled.None? then NullFlag
      else if !cfg.enabled.value then Scan(cfgs[1..], hour)
      else if cfg.timeWindowEnabled.None? then NullFlag
      else if cfg.timeWindowEnabled.value && Outside(cfg, hour) then Closed(StartHour(cfg), EndHour(cfg))
      else Scan(cfgs[1..], hour)
  }

  /** `String.format("...%02d:00-%02d:00", start, end)`. */
  function ClosedMessage(start: int, end: int): string
  {
    "当前时间不在允许发送的时间窗口内，允许时间：" + TwoDigits(start) + ":00-" + TwoDigits(end) + ":00"
  }

  /** `handle(context)` at the local time `now`. Reads the context, writes nothing. */
  function Check(c: ContextState, enabledConfigs: EnabledConfigs, now: DateTime): (o: Outcome)
    ensures o.Returned? ==> FromFactory(o.result)
    ensures o.Threw? ==> o.exception == NullDereference()
  {
    match enabledConfigs(c.tenantId, c.storeId)
    case None => Threw(NullDereference())
    case Some(cfgs) =>
      if cfgs == [] then Returned(Fail(NO_CHANNEL, NO_CHANNEL_MESSAGE))
      else
        match Scan(cfgs, now.hour)
        case Open => Returned(HandlerResults.Success())
        case Closed(start, end) => Returned(Fail(CLOSED_CODE, ClosedMessage(start, end)))
        case NullFlag => Threw(NullDereference())
  }

  /** A configuration that ends the scan: one whose flags cannot be read, or a
      gated one whose window excludes the hour. */
  predicate Decisive(cfg: ChannelConfig, hour: int)
  {
    !FlagsReadable(cfg) || (Gated(cfg) && Outside(cfg, hour))
  }

  /** What a decisive configuration makes the scan report. */
  function Verdict(cfg: ChannelConfig): Gate
  {
    if FlagsReadable(cfg) then Closed(StartHour(cfg), EndHour(cfg)) else NullFlag
  }

  /** The scan lets the message through exactly when no configuration is
      decisive, and otherwise reports the first decisive one: its window when
      it is gated, a null pointer when its flags are missing. */
  lemma {:induction false} ScanFindsFirstDecisive(cfgs: seq<ChannelConfig>, hour: int)
    ensures Scan(cfgs, hour) == Open <==> forall i :: 0 <= i < |cfgs| ==> !Decisive(cfgs[i], hour)
    ensures forall i :: 0 <= i < |cfgs| && Decisive(cfgs[i], hour) &&
                        (forall j :: 0 <= j < i ==> !Decisive(cfgs[j], hour)) ==>
                        Scan(cfgs, hour) == Verdict(cfgs[i])
  {
    if cfgs != [] {
      ScanFindsFirstDecisive(cfgs[1..], hour);
      assert forall i :: 1 <= i < |cfgs| ==> cfgs[i] == cfgs[1..][i - 1];
      if !Decisive(cfgs[0], hour) {
        forall i | 0 <= i < |cfgs| && Decisive(cfgs[i], hour) &&
                   (forall j :: 0 <= j < i ==> !Decisive(cfgs[j], hour))
          ensures Scan(cfgs, hour) == Verdict(cfgs[i])
        {
          assert i > 0;
          assert forall j :: 0 <= j < i - 1 ==> !Decisive(cfgs[1..][j], hour);
        }
      }
    }
  }

  /** When every configuration's flags are present, the handler fails with
      the window message exactly when some gated configuration excludes the
      current hour, and it never throws; the window it reports is that of the
      first such configuration. */
  lemma ClosedIffSomeWindowExcludes(c: ContextState, enabledConfigs: EnabledConfigs, now: DateTime)
    requires enabledConfigs(c.tenantId, c.storeId).Some?
    requires enabledConfigs(c.tenantId, c.storeId).value != []
    requires forall cfg :: cfg in enabledConfigs(c.tenantId, c.storeId).value ==> FlagsReadable(cfg)
    ensures var cfgs := enabledConfigs(c.tenantId, c.storeId).value;
      var o := Check(c, enabledConfigs, now);
      o.Returned? &&
      ((o.result.errorCode == Some(CLOSED_CODE)) <==>
         exists i :: 0 <= i < |cfgs| && Gated(cfgs[i]) && Outside(cfgs[i], now.hour))
    ensures var cfgs := enabledConfigs(c.tenantId, c.storeId).value;
      forall i :: 0 <= i < |cfgs| && Gated(cfgs[i]) && Outside(cfgs[i], now.hour) &&
                  (forall j :: 0 <= j < i ==> !(Gated(cfgs[j]) && Outside(cfgs[j], now.hour))) ==>
                  Check(c, enabledConfigs, now) ==
                  Returned(Fail(CLOSED_CODE, ClosedMessage(StartHour(cfgs[i]), EndHour(cfgs[i]))))
  {
    var cfgs := enabledConfigs(c.tenantId, c.storeId).value;
    ScanFindsFirstDecisive(cfgs, now.hour);
    if exists i :: 0 <= i < |cfgs| && Gated(cfgs[i]) && Outside(cfgs[i], now.hour) {
      var i := FirstDecisive(cfgs, now.hour);
      assert Scan(cfgs, now.hour) == Verdict(cfgs[i]);
    }
  }

  /** The index of the first gated configuration that excludes the hour. */
  function FirstDecisive(cfgs: seq<ChannelConfig>, hour: int): (i: nat)
    requires exists i :: 0 <= i < |cfgs| && Decisive(cfgs[i], hour)
    ensures i < |cfgs| && Decisive(cfgs[i], hour)
    ensures forall j :: 0 <= j < i ==> !Decisive(cfgs[j], hour)
  {
    if Decisive(cfgs[0], hour) then 0
    else
      assert exists i :: 0 <= i < |cfgs[1..]| && Decisive(cfgs[1..][i], hour) by {
        var k :| 0 <= k < |cfgs| && Decisive(cfgs[k], hour);
        assert cfgs[1..][k - 1] == cfgs[k];
      }
      1 + FirstDecisive(cfgs[1..], hour)
  }
}
