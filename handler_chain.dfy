/** `MessageHandlerChain`: the handlers sorted once by order, then run in
    that order on a context until one stops the chain or throws. */
module HandlerChain {
  import opened JavaLang
  import opened HandlerResults
  import opened Context
  import opened Stores
  import opened TaskExecution
  import opened Handlers
  import opened Sorting

  // ----- Sorting the handlers -----

  /** `Comparator.comparingInt(MessageHandler::getOrder)`: the sort key. */
  function ByOrder(k: HandlerKind): int
  {
    k.Order()
  }

  /** `handlers.sort(Comparator.comparingInt(MessageHandler::getOrder))`:
      a stable sort of the handlers by order. */
  function SortByOrder(hs: seq<HandlerKind>): seq<HandlerKind>
  {
    SortBy(hs, ByOrder)
  }

  /** The sorted handlers are ordered by `getOrder()` and are the injected
      ones, each as many times as it was injected; handlers of equal order
      keep their injection order, as `List.sort` is stable. */
  lemma SortByOrderSorts(hs: seq<HandlerKind>)
    ensures var sorted := SortByOrder(hs);
      multiset(sorted) == multiset(hs) &&
      forall i, j :: 0 <= i < j < |sorted| ==> sorted[i].Order() <= sorted[j].Order()
    ensures forall v :: WithKey(SortByOrder(hs), ByOrder, v) == WithKey(hs, ByOrder, v)
  {
    SortBySorts(hs, ByOrder);
    forall v
      ensures WithKey(SortByOrder(hs), ByOrder, v) == WithKey(hs, ByOrder, v)
    {
      SortByIsStable(hs, ByOrder, v);
    }
  }

  /** Whatever order the beans are injected in, sorting gives validation,
      time window, routing, rate limit, rendering, dispatch, status tracking. */
  lemma SortGivesCanonicalOrder(hs: seq<HandlerKind>)
    requires multiset(hs) == multiset(AllKinds())
    ensures SortByOrder(hs) == AllKinds()
  {
    var key := ByOrder;
    SortBySorts(hs, key);
    AllKindsInOrder();
    assert SortedBy(AllKinds(), key);
    forall x, y | key(x) == key(y)
      ensures x == y
    {
      KindsDistinct(x, y);
    }
    SortedUnique(SortByOrder(hs), AllKinds(), key);
  }

  // ----- Running the chain -----

  /** What a `ChainResult` reports, apart from its start and end times. */
  datatype Summary = Summary(success: bool, errorMessage: Option<string>,
                             handlerResults: map<string, HandlerResult>)

  /** A run of the chain: its result and the world it leaves. */
  datatype ChainRun = ChainRun(summary: Summary, world: World)

  /** The error message for a handler that threw. */
  function ExceptionMessage(k: HandlerKind, e: JavaException): string
  {
    "处理器[" + k.Name() + "]执行异常: " + Text(e.message)
  }

  /** The handler's call lets the chain go on. */
  predicate Continues(o: Outcome)
  {
    o.Returned? && o.result.continueChain
  }

  /** The result of a run that the handler `k` ended with `o`: a thrown
      exception leaves no entry for `k`, a stopping result is recorded. */
  function Stopped(k: HandlerKind, o: Outcome): Summary
    requires !Continues(o)
  {
    match o
    case Threw(e) => Summary(false, Some(ExceptionMessage(k, e)), map[])
    case Returned(r) => Summary(r.success, r.errorMessage, map[k.Name() := r])
  }

  /** A run with the results `earlier` recorded before it. */
  function Prefixed(earlier: map<string, HandlerResult>, run: ChainRun): ChainRun
  {
    run.(summary := run.summary.(handlerResults := earlier + run.summary.handlerResults))
  }

  /** `execute(context)` over the handlers `hs`, from the world `w`. */
  function RunChain(hs: seq<HandlerKind>, w: World, env: Env): ChainRun
    requires env.clock.Valid()
    decreases |hs|, 1
  {
    if hs == [] then ChainRun(Summary(true, None, map[]), w) else Advance(hs, w, env)
  }

  /** A pass of the loop on the first handler of `hs`, and the rest of the run:
      an unsupported handler is passed over, a stop ends the run, and a
      result that lets the chain go on is recorded before the rest. */
  function Advance(hs: seq<HandlerKind>, w: World, env: Env): ChainRun
    requires hs != [] && env.clock.Valid()
    decreases |hs|, 0
  {
    if !hs[0].Supports(w.ctx) then RunChain(hs[1..], w, env)
    else
      var s := HandleSpec(hs[0], w, env);
      if !Continues(s.outcome) then ChainRun(Stopped(hs[0], s.outcome), s.world)
      else Prefixed(map[hs[0].Name() := s.outcome.result], RunChain(hs[1..], s.world, env))
  }

  /** The run from position `i` on, as the handler at `i` and the rest. */
  lemma ChainUnfold(hs: seq<HandlerKind>, i: nat, w: World, env: Env)
    requires i < |hs| && env.clock.Valid()
    ensures !hs[i].Supports(w.ctx) ==> RunChain(hs[i..], w, env) == RunChain(hs[i + 1..], w, env)
    ensures hs[i].Supports(w.ctx) ==>
      var s := HandleSpec(hs[i], w, env);
      RunChain(hs[i..], w, env) ==
        if !Continues(s.outcome) then ChainRun(Stopped(hs[i], s.outcome), s.world)
        else Prefixed(map[hs[i].Name() := s.outcome.result], RunChain(hs[i + 1..], s.world, env))
  {
    assert hs[i..][0] == hs[i] && hs[i..][1..] == hs[i + 1..];
  }

  /** Recording results in two batches is recording them together. */
  lemma PrefixedTwice(a: map<string, HandlerResult>, b: map<string, HandlerResult>, run: ChainRun)
    ensures Prefixed(a, Prefixed(b, run)) == Prefixed(a + b, run)
  {
    assert a + (b + run.summary.handlerResults) == (a + b) + run.summary.handlerResults;
  }

  /** `MessageHandlerChain.ChainResult`. */
  class ChainResult {
    var success: bool
    var errorMessage: Option<string>
    var handlerResults: map<string, HandlerResult>

    /** A new result: successful, with no message and no handler results. */
    constructor ()
      ensures success && errorMessage.None? && handlerResults == map[]
    {
      success, errorMessage, handlerResults := true, None, map[];
    }

    /** `addHandlerResult(name, result)`: a later result under the same name
        replaces the earlier one. */
    method AddHandlerResult(handlerName: string, result: HandlerResult)
      modifies this
      ensures handlerResults == old(handlerResults)[handlerName := result]
      ensures success == old(success) && errorMessage == old(errorMessage)
    {
      handlerResults := handlerResults[handlerName := result];
    }

    function Report(): Summary
      reads this
    {
      Summary(success, errorMessage, handlerResults)
    }
  }

  /** The chain bean, with the stores its handlers write. */
  class MessageHandlerChain {
    var handlers: seq<HandlerKind>
    const redis: RedisCounters
    const messages: MessageRepository
    const executor: ChannelTaskExecutor

    constructor (handlers: seq<HandlerKind>, redis: RedisCounters, messages: MessageRepository,
                 executor: ChannelTaskExecutor)
      ensures this.handlers == handlers && this.redis == redis && this.messages == messages
      ensures this.executor == executor
    {
      this.handlers := handlers;
      this.redis := redis;
      this.messages := messages;
      this.executor := executor;
    }

    /** `init()`: sort the injected handlers by order. */
    method Init()
      modifies this
      ensures handlers == SortByOrder(old(handlers))
    {
      handlers := SortByOrder(handlers);
    }

    /** One pass of the loop body after `handle` returned or threw: record
        the result, and on a stop set the outcome of the chain. */
    static method Record(result: ChainResult, k: HandlerKind, o: Outcome) returns (stop: bool)
      requires result.success && result.errorMessage.None?
      modifies result
      ensures stop == !Continues(o)
      ensures stop ==> var r := Stopped(k, o);
        result.Report() == r.(handlerResults := old(result.handlerResults) + r.handlerResults)
      ensures !stop ==> result.success && result.errorMessage.None? &&
                        result.handlerResults == old(result.handlerResults) + map[k.Name() := o.result]
    {
      match o {
        case Threw(e) =>
          result.success := false;
          result.errorMessage := Some(ExceptionMessage(k, e));
          return true;
        case Returned(r) =>
          result.AddHandlerResult(k.Name(), r);
          if !r.continueChain {
            result.success := r.success;
            result.errorMessage := r.errorMessage;
            return true;
          }
          return false;
      }
    }

    /** `execute(context)`. */
    method Execute(ctx: MessageContext, env: Env) returns (result: ChainResult)
      requires env.clock.Valid() && executor.adapters == env.adapters
      modifies ctx, redis, messages, executor.repository
      ensures fresh(result)
      ensures var run := RunChain(handlers, old(Snapshot(ctx, redis, messages, executor.repository)), env);
        result.Report() == run.summary && Snapshot(ctx, redis, messages, executor.repository) == run.world
    {
      result := new ChainResult();
      var hs := handlers;
      ghost var whole := RunChain(hs, Snapshot(ctx, redis, messages, executor.repository), env);
      assert whole == Prefixed(map[], whole);
      var i := 0;
      while i < |hs|
        invariant 0 <= i <= |hs|
        invariant fresh(result) && result.success && result.errorMessage.None?
        invariant whole == Prefixed(result.handlerResults, RunChain(hs[i..], Snapshot(ctx, redis, messages, executor.repository), env))
      {
        var k := hs[i];
        ghost var w := Snapshot(ctx, redis, messages, executor.repository);
        ChainUnfold(hs, i, w, env);
        if k.Supports(ctx.State()) {
          ghost var before := result.handlerResults;
          var o := Invoke(k, ctx, redis, messages, executor, env);
          var stop := Record(result, k, o);
          if stop {
            return;
          }
          PrefixedTwice(before, map[k.Name() := o.result],
                        RunChain(hs[i + 1..], Snapshot(ctx, redis, messages, executor.repository), env));
        }
        i := i + 1;
      }
      assert hs[i..] == [];
    }
  }

  // ----- What a run reports -----

  /** A run succeeds exactly when it carries no error message; a successful
      run recorded only results that succeeded and let the chain go on; every
      recorded result is filed under the name of a handler of the chain. */
  lemma {:induction false} ChainSummaryFacts(hs: seq<HandlerKind>, w: World, env: Env)
    requires env.clock.Valid()
    ensures var r := RunChain(hs, w, env).summary;
      (r.success <==> r.errorMessage.None?) &&
      (r.success ==> forall n :: n in r.handlerResults ==>
                       r.handlerResults[n].success && r.handlerResults[n].continueChain) &&
      (forall n :: n in r.handlerResults ==> exists k :: k in hs && k.Name() == n)
    decreases |hs|
  {
    if hs != [] {
      assert forall k :: k in hs[1..] ==> k in hs;
      if !hs[0].Supports(w.ctx) {
        ChainSummaryFacts(hs[1..], w, env);
      } else {
        var s := HandleSpec(hs[0], w, env);
        if s.outcome.Returned? {
          FactoryContinueIsSuccess(s.outcome.result);
          if s.outcome.result.continueChain {
            ChainSummaryFacts(hs[1..], s.world, env);
          }
        }
      }
    }
  }

  /** One call of `handle` in a run: the handler and how the call ended. */
  datatype Call = Call(kind: HandlerKind, outcome: Outcome)

  /** The handlers a run over `hs` calls, in order, with their outcomes: the
      supported ones, up to and including the first that stops the chain. */
  function Calls(hs: seq<HandlerKind>, w: World, env: Env): seq<Call>
    requires env.clock.Valid()
    decreases |hs|
  {
    if hs == [] then []
    else if !hs[0].Supports(w.ctx) then Calls(hs[1..], w, env)
    else
      var s := HandleSpec(hs[0], w, env);
      if !Continues(s.outcome) then [Call(hs[0], s.outcome)]
      else [Call(hs[0], s.outcome)] + Calls(hs[1..], s.world, env)
  }

  /** The calls of a run over `hs`, as a pass over the first handler and
      the rest of the run, side by side with the run itself. */
  lemma CallsUnfold(hs: seq<HandlerKind>, w: World, env: Env)
    requires hs != [] && env.clock.Valid()
    ensures !hs[0].Supports(w.ctx) ==>
      Calls(hs, w, env) == Calls(hs[1..], w, env) && RunChain(hs, w, env) == RunChain(hs[1..], w, env)
    ensures hs[0].Supports(w.ctx) ==>
      var s := HandleSpec(hs[0], w, env);
      (!Continues(s.outcome) ==>
         Calls(hs, w, env) == [Call(hs[0], s.outcome)] &&
         RunChain(hs, w, env) == ChainRun(Stopped(hs[0], s.outcome), s.world)) &&
      (Continues(s.outcome) ==>
         Calls(hs, w, env) == [Call(hs[0], s.outcome)] + Calls(hs[1..], s.world, env) &&
         RunChain(hs, w, env) == Prefixed(map[hs[0].Name() := s.outcome.result], RunChain(hs[1..], s.world, env)))
  {
  }

  /** `results` holds exactly the results of the calls that returned: a name
      is a key iff some call of a handler of that name returned, and the
      result under it is the last such call's (`put` replaces). */
  ghost predicate RecordsReturns(results: map<string, HandlerResult>, calls: seq<Call>)
  {
    (forall n :: n in results <==>
       exists i :: 0 <= i < |calls| && calls[i].outcome.Returned? && calls[i].kind.Name() == n) &&
    (forall n :: n in results ==>
       exists i :: (0 <= i < |calls| && calls[i].outcome == Returned(results[n]) && calls[i].kind.Name() == n &&
                    forall l :: i < l < |calls| && calls[l].outcome.Returned? ==> calls[l].kind.Name() != n))
  }

  /** Recording one more returned call in front keeps `RecordsReturns`. */
  lemma RecordsExtend(k: HandlerKind, r: HandlerResult, results: map<string, HandlerResult>, tail: seq<Call>)
    requires RecordsReturns(results, tail)
    ensures RecordsReturns(map[k.Name() := r] + results, [Call(k, Returned(r))] + tail)
  {
    var calls := [Call(k, Returned(r))] + tail;
    var all := map[k.Name() := r] + results;
    assert forall i :: 1 <= i < |calls| ==> calls[i] == tail[i - 1];
    forall n | n in all
      ensures exists i :: (0 <= i < |calls| && calls[i].outcome == Returned(all[n]) && calls[i].kind.Name() == n &&
                           forall l :: i < l < |calls| && calls[l].outcome.Returned? ==> calls[l].kind.Name() != n)
    {
      if n in results {
        var i :| (0 <= i < |tail| && tail[i].outcome == Returned(results[n]) && tail[i].kind.Name() == n &&
                  forall l :: i < l < |tail| && tail[l].outcome.Returned? ==> tail[l].kind.Name() != n);
        assert calls[i + 1] == tail[i];
        forall l | i + 1 < l < |calls| && calls[l].outcome.Returned?
          ensures calls[l].kind.Name() != n
        {
          assert calls[l] == tail[l - 1];
        }
      } else {
        assert calls[0].outcome == Returned(all[n]);
        forall l | 0 < l < |calls| && calls[l].outcome.Returned?
          ensures calls[l].kind.Name() != n
        {
          assert calls[l] == tail[l - 1];
          assert tail[l - 1].outcome.Returned?;
        }
      }
    }
    forall n | exists i :: 0 <= i < |calls| && calls[i].outcome.Returned? && calls[i].kind.Name() == n
      ensures n in all
    {
      var i :| 0 <= i < |calls| && calls[i].outcome.Returned? && calls[i].kind.Name() == n;
      if i > 0 {
        assert tail[i - 1].outcome.Returned? && tail[i - 1].kind.Name() == n;
      }
    }
  }

  /** A run that its first call stops records exactly that call's result,
      if it returned one. */
  lemma RecordsStop(k: HandlerKind, o: Outcome)
    requires !Continues(o)
    ensures RecordsReturns(Stopped(k, o).handlerResults, [Call(k, o)])
  {
    var calls := [Call(k, o)];
    if o.Returned? {
      assert calls[0].outcome.Returned? && calls[0].kind.Name() == k.Name();
    }
  }

  /** The results recorded are exactly those of the handlers that were called
      and returned: a handler passed over by `supports`, or one that threw, has
      no entry, and every entry is the result the last called handler of that
      name returned. */
  lemma {:induction false} ChainRecordsCalls(hs: seq<HandlerKind>, w: World, env: Env)
    requires env.clock.Valid()
    ensures RecordsReturns(RunChain(hs, w, env).summary.handlerResults, Calls(hs, w, env))
    decreases |hs|
  {
    if hs != [] {
      CallsUnfold(hs, w, env);
      if !hs[0].Supports(w.ctx) {
        ChainRecordsCalls(hs[1..], w, env);
      } else {
        var s := HandleSpec(hs[0], w, env);
        if Continues(s.outcome) {
          ChainRecordsCalls(hs[1..], s.world, env);
          var rest, tail := RunChain(hs[1..], s.world, env), Calls(hs[1..], s.world, env);
          RecordsExtend(hs[0], s.outcome.result, rest.summary.handlerResults, tail);
        } else {
          RecordsStop(hs[0], s.outcome);
        }
      }
    }
  }

  /** The calls `calls` of a run over `hs` that reports `success`: every
      called handler is one of `hs`, all but the last let the chain go on,
      and the run succeeds exactly when every called handler let it go on. */
  ghost predicate CallsContinue(hs: seq<HandlerKind>, success: bool, calls: seq<Call>)
  {
    (forall i :: 0 <= i < |calls| ==> calls[i].kind in hs) &&
    (forall i :: 0 <= i < |calls| - 1 ==> Continues(calls[i].outcome)) &&
    (success <==> forall i :: 0 <= i < |calls| ==> Continues(calls[i].outcome))
  }

  /** A run that its first call stops. */
  lemma ContinueStop(hs: seq<HandlerKind>, k: HandlerKind, o: Outcome)
    requires k in hs && !Continues(o) && (o.Returned? ==> FromFactory(o.result))
    ensures CallsContinue(hs, Stopped(k, o).success, [Call(k, o)])
  {
    var calls := [Call(k, o)];
    if o.Returned? {
      FactoryContinueIsSuccess(o.result);
    }
    assert !Continues(calls[0].outcome);
  }

  /** One more call in front that lets the chain go on. */
  lemma ContinueExtend(hs: seq<HandlerKind>, k: HandlerKind, o: Outcome, success: bool, tail: seq<Call>)
    requires k in hs && Continues(o) && CallsContinue(hs[1..], success, tail)
    ensures CallsContinue(hs, success, [Call(k, o)] + tail)
  {
    var calls := [Call(k, o)] + tail;
    assert forall i :: 1 <= i < |calls| ==> calls[i] == tail[i - 1];
    assert forall k :: k in hs[1..] ==> k in hs;
    assert calls[0].kind in hs && Continues(calls[0].outcome);
    if forall i :: 0 <= i < |tail| ==> Continues(tail[i].outcome) {
      assert forall i :: 0 <= i < |calls| ==> Continues(calls[i].outcome);
    } else {
      var j :| 0 <= j < |tail| && !Continues(tail[j].outcome);
      assert !Continues(calls[j + 1].outcome);
    }
  }

  /** Every called handler is one of `hs`; all but the last let the chain go
      on, and the run succeeds exactly when every called handler let it go on. */
  lemma {:induction false} ChainCallsContinue(hs: seq<HandlerKind>, w: World, env: Env)
    requires env.clock.Valid()
    ensures CallsContinue(hs, RunChain(hs, w, env).summary.success, Calls(hs, w, env))
    decreases |hs|
  {
    if hs != [] {
      CallsUnfold(hs, w, env);
      if !hs[0].Supports(w.ctx) {
        ChainCallsContinue(hs[1..], w, env);
        assert forall k :: k in hs[1..] ==> k in hs;
      } else {
        var s := HandleSpec(hs[0], w, env);
        if !Continues(s.outcome) {
          ContinueStop(hs, hs[0], s.outcome);
        } else {
          ChainCallsContinue(hs[1..], s.world, env);
          var rest, tail := RunChain(hs[1..], s.world, env), Calls(hs[1..], s.world, env);
          ContinueExtend(hs, hs[0], s.outcome, rest.summary.success, tail);
        }
      }
    }
  }
}
