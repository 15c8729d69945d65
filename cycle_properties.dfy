/**
  What the trading cycle as written guarantees over single steps and over
  whole runs of timer ticks and settled awaits (src/index.ts:68-112).
 */
module CycleProperties {
  import opened Wrappers
  import opened Evaluator
  import opened Scheduler

  /** The guard is held and no callback is suspended: nothing can release it any more. */
  predicate Wedged(s: BotState)
  {
    s.inProgress && s.suspended == NoAwait
  }

  /** The number of timer ticks in a sequence of inputs. */
  function TickCount(inputs: seq<Input>): nat
  {
    if inputs == [] then 0
    else (if inputs[0] == TimerTick then 1 else 0) + TickCount(inputs[1..])
  }

  function Skips(n: nat): (r: seq<Event>)
  {
    if n == 0 then [] else [SkipNotice] + Skips(n - 1)
  }

  predicate NoGatewayCall(events: seq<Event>)
  {
    forall k :: 0 <= k < |events| ==> !IsGatewayCall(events[k])
  }

  // ---- single steps ----

  /** A tick while the guard is held only logs a skip: no call, flag unchanged. */
  lemma TickWhileBusySkips(c: Config, s: BotState)
    requires s.inProgress
    ensures Next(c, s, TimerTick) == s.(calls := s.calls + [SkipNotice])
  {
  }

  /** A tick on a free guard takes it before its first call, the balance fetch. */
  lemma TickWhileFreeTakesGuardFirst(c: Config, s: BotState)
    requires !s.inProgress
    ensures var t := Next(c, s, TimerTick);
            t.inProgress && t.suspended == AwaitBalance && t.calls == s.calls + [FetchBalance]
  {
  }

  /** Guard exclusivity: a tick while a cycle is suspended never starts a second cycle. */
  lemma TickDuringCycleSkips(c: Config, s: BotState)
    requires Inv(s) && s.suspended != NoAwait
    ensures Next(c, s, TimerTick) == s.(calls := s.calls + [SkipNotice])
  {
  }

  /** Every gateway call is made by a callback that holds the guard and now awaits that call. */
  lemma CallsHoldTheGuard(c: Config, s: BotState, i: Input)
    requires Inv(s)
    ensures var t := Next(c, s, i);
            |t.calls| == |s.calls| + 1 && IsGatewayCall(t.calls[|s.calls|])
            ==> t.inProgress && t.suspended != NoAwait
  {
  }

  /** Only the timer takes the guard. */
  lemma OnlyTickTakesGuard(c: Config, s: BotState, i: Input)
    requires Inv(s)
    ensures !s.inProgress && Next(c, s, i).inProgress <==> !s.inProgress && i == TimerTick
  {
  }

  /** The guard is released exactly when a submitted close order is accepted. */
  lemma ReleaseOnlyAfterAcceptedClose(c: Config, s: BotState, i: Input)
    requires Inv(s)
    ensures s.inProgress && !Next(c, s, i).inProgress
            <==> s.suspended.AwaitOrder? && s.suspended.order.ClosePosition? && i == OrderReply(true)
  {
  }

  /**
    A cycle that ends in any other way than an accepted close leaves the
    guard held: after a market order, accepted or not, and after any
    rejected await.
   */
  lemma CycleEndWedgesUnlessClosed(c: Config, s: BotState, i: Input)
    requires Inv(s) && s.suspended != NoAwait && Next(c, s, i).suspended == NoAwait
    ensures Wedged(Next(c, s, i))
            <==> !(s.suspended.AwaitOrder? && s.suspended.order.ClosePosition? && i == OrderReply(true))
  {
  }

  // ---- runs ----

  /** From a wedged state every input leaves it wedged, and each tick only logs a skip. */
  lemma {:induction false} WedgedStaysWedged(c: Config, s: BotState, inputs: seq<Input>)
    requires Wedged(s)
    ensures Run(c, s, inputs) == s.(calls := s.calls + Skips(TickCount(inputs)))
    decreases |inputs|
  {
    if inputs != [] {
      var t := Next(c, s, inputs[0]);
      WedgedStaysWedged(c, t, inputs[1..]);
      if inputs[0] == TimerTick {
        assert t.calls == s.calls + [SkipNotice];
        assert [SkipNotice] + Skips(TickCount(inputs[1..])) == Skips(TickCount(inputs));
      } else {
        assert t == s;
      }
    }
  }

  lemma {:induction false} SkipsAreNotCalls(n: nat)
    ensures |Skips(n)| == n && NoGatewayCall(Skips(n))
  {
    if n > 0 {
      SkipsAreNotCalls(n - 1);
    }
  }

  /** Once wedged, no later input causes a gateway call and the guard stays held. */
  lemma WedgedMakesNoCalls(c: Config, s: BotState, inputs: seq<Input>)
    requires Wedged(s)
    ensures var t := Run(c, s, inputs);
            t.inProgress && |s.calls| <= |t.calls| && t.calls[..|s.calls|] == s.calls
            && NoGatewayCall(t.calls[|s.calls|..])
  {
    WedgedStaysWedged(c, s, inputs);
    SkipsAreNotCalls(TickCount(inputs));
    var t := Run(c, s, inputs);
    assert t.calls[|s.calls|..] == Skips(TickCount(inputs));
  }

  /** After a market order settles, whatever follows makes no gateway call at all. */
  lemma NothingAfterOpen(c: Config, s: BotState, accepted: bool, later: seq<Input>)
    requires Inv(s) && s.suspended.AwaitOrder? && s.suspended.order.MarketOrder?
    ensures var t := Next(c, s, OrderReply(accepted));
            var u := Run(c, t, later);
            Wedged(t) && u.inProgress && |t.calls| <= |u.calls|
            && NoGatewayCall(u.calls[|t.calls|..])
  {
    WedgedMakesNoCalls(c, Next(c, s, OrderReply(accepted)), later);
  }

  /** After a rejected fetch or order, whatever follows makes no gateway call at all. */
  lemma NothingAfterFailure(c: Config, s: BotState, i: Input, later: seq<Input>)
    requires Inv(s)
    requires Next(c, s, i).calls == s.calls + [CycleFailed]
    ensures var t := Next(c, s, i);
            var u := Run(c, t, later);
            Wedged(t) && u.inProgress && |t.calls| <= |u.calls|
            && NoGatewayCall(u.calls[|t.calls|..])
  {
    assert Next(c, s, i).calls[|s.calls|] == CycleFailed;
    WedgedMakesNoCalls(c, Next(c, s, i), later);
  }

  /**
    Over any run of the bot from start: no gateway call follows a market
    order or a rejected await, so at most one market order is ever
    submitted and no order follows a failure.
   */
  lemma RunFromStart(c: Config, inputs: seq<Input>)
    ensures var calls := Run(c, Initial(), inputs).calls;
            && (forall k, j :: 0 <= k < j < |calls| && Wedging(calls[k]) ==> !IsGatewayCall(calls[j]))
            && (forall k, j :: 0 <= k < j < |calls| && calls[k].Submit? && calls[k].order.MarketOrder?
                  ==> !calls[j].Submit?)
            && (forall k, j :: 0 <= k < j < |calls| && calls[k] == CycleFailed ==> !calls[j].Submit?)
  {
    RunKeepsInv(c, Initial(), inputs);
  }

  /**
    A cycle that runs to completion on a free guard makes exactly the calls
    balance, position, one order, and holds the guard afterwards unless the
    order was an accepted close.
   */
  lemma CompleteCycle(c: Config, s: BotState, balance: real, position: Option<Position>, accepted: bool)
    requires Inv(s) && !s.inProgress
    ensures var o := Decide(c.pair, c.leverage, balance, position);
            Run(c, s, [TimerTick, BalanceReply(Ok(balance)), PositionReply(Ok(position)), OrderReply(accepted)])
            == BotState(!(accepted && HasOpenPosition(position)), NoAwait,
                        s.calls + [FetchBalance, GetPosition(c.pair), Submit(o)]
                                + (if accepted then [] else [CycleFailed]))
  {
    var inputs := [TimerTick, BalanceReply(Ok(balance)), PositionReply(Ok(position)), OrderReply(accepted)];
    var s1 := Next(c, s, inputs[0]);
    var s2 := Next(c, s1, inputs[1]);
    var s3 := Next(c, s2, inputs[2]);
    var s4 := Next(c, s3, inputs[3]);
    assert Run(c, s3, inputs[3..]) == s4 by {
      assert inputs[3..][1..] == [];
    }
    assert Run(c, s2, inputs[2..]) == Run(c, s3, inputs[3..]) by {
      assert inputs[2..][1..] == inputs[3..];
    }
    assert Run(c, s1, inputs[1..]) == Run(c, s2, inputs[2..]) by {
      assert inputs[1..][1..] == inputs[2..];
    }
  }

  /** A rejected balance fetch ends the cycle with no order and the guard held: the next tick skips. */
  lemma BalanceFailureBlocksNextTick(c: Config, s: BotState)
    requires Inv(s) && !s.inProgress
    ensures Run(c, s, [TimerTick, BalanceReply(Rejected), TimerTick])
            == BotState(true, NoAwait, s.calls + [FetchBalance, CycleFailed, SkipNotice])
  {
    var inputs := [TimerTick, BalanceReply(Rejected), TimerTick];
    assert inputs[1..][1..][1..] == [];
  }

  /**
    A client of the bot object: a cycle closes a position of 5 and frees the
    guard; a tick arriving while it awaits the position is skipped.
   */
  method CloseCycleScenario(pair: string, leverage: int)
  {
    var bot := new TradingBot(pair, leverage);
    bot.TimerFires();
    bot.BalanceSettles(Ok(1000.0));
    bot.TimerFires();
    assert bot.State() == BotState(true, AwaitPosition(1000.0), [FetchBalance, GetPosition(pair), SkipNotice]);
    bot.PositionSettles(Ok(Some(Position(5.0))));
    bot.OrderSettles(true);
    assert !bot.inProgress && bot.calls[3..] == [Submit(ClosePosition(pair, leverage, 5.0))];
  }

  /**
    A client of the bot object: a cycle finds no position and buys for 900
    out of 1000; the guard stays held and the next tick is skipped.
   */
  method OpenCycleScenario(pair: string, leverage: int)
  {
    var bot := new TradingBot(pair, leverage);
    bot.TimerFires();
    bot.BalanceSettles(Ok(1000.0));
    bot.PositionSettles(Ok(None));
    var open := MarketOrder(pair, Buy, 900.0, FOK, leverage);
    assert bot.State() == BotState(true, AwaitOrder(open), [FetchBalance, GetPosition(pair), Submit(open)]);
    bot.OrderSettles(true);
    bot.TimerFires();
    assert bot.inProgress && bot.calls[3..] == [SkipNotice];
  }
}
