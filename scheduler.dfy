/**
  The trading cycle run by the interval timer (src/index.ts:68-112).

  The callback is asynchronous: it suspends at each of its three awaits
  (balance, position, order). The model therefore takes as inputs the timer
  ticks and the settlement of whichever await is outstanding, so that ticks
  arriving while a cycle is suspended are part of the model. The only shared
  state is the guard flag `inProgress`; `suspended` records where the running
  callback is waiting, and `calls` is the observable trace of gateway calls,
  skip notices and rejected awaits.
 */
module Scheduler {
  import opened Wrappers
  import opened Evaluator

  /** The settlement of an awaited gateway call. */
  datatype Reply<+T> = Ok(value: T) | Rejected

  /** What the interval callback is suspended on, if it is suspended at all. */
  datatype Await =
    | NoAwait
    | AwaitBalance
    | AwaitPosition(available: real)
    | AwaitOrder(order: Order)

  /** What can be observed of a cycle. */
  datatype Event =
    | SkipNotice                       // "previous trading cycle is still in process"
    | FetchBalance                     // fetchAvailableBalance()
    | GetPosition(instrument: string)  // getPosition(pair)
    | Submit(order: Order)             // createClosePositionOrderV2 / createMarketOrderV2
    | CycleFailed                      // an await was rejected; the callback's promise rejects

  /** Something that happens to the bot: the timer fires, or the outstanding await settles. */
  datatype Input =
    | TimerTick
    | BalanceReply(balance: Reply<real>)
    | PositionReply(position: Reply<Option<Position>>)
    | OrderReply(accepted: bool)

  /** The configuration fixed at start-up. */
  datatype Config = Config(pair: string, leverage: int)

  datatype BotState = BotState(inProgress: bool, suspended: Await, calls: seq<Event>)

  function Initial(): BotState
  {
    BotState(false, NoAwait, [])
  }

  predicate IsGatewayCall(e: Event)
  {
    e.FetchBalance? || e.GetPosition? || e.Submit?
  }

  /**
    One step of the bot. A reply for an await that is not outstanding cannot
    arrive; such an input is ignored so that the step is total.
   */
  function Next(c: Config, s: BotState, i: Input): (r: BotState)
    ensures |s.calls| <= |r.calls| <= |s.calls| + 1 && r.calls[..|s.calls|] == s.calls
    ensures !s.inProgress && r.inProgress ==> i == TimerTick && r.calls == s.calls + [FetchBalance]
    ensures s.inProgress && !r.inProgress
            ==> s.suspended.AwaitOrder? && s.suspended.order.ClosePosition? && i == OrderReply(true)
    ensures s.inProgress && i == TimerTick ==> r == s.(calls := s.calls + [SkipNotice])
    ensures |r.calls| == |s.calls| + 1 && r.calls[|s.calls|].Submit?
            ==> s.suspended.AwaitPosition? && i.PositionReply? && i.position.Ok?
                && r.calls[|s.calls|].order == Decide(c.pair, c.leverage, s.suspended.available, i.position.value)
  {
    match i
    case TimerTick =>
      if s.inProgress then s.(calls := s.calls + [SkipNotice])
      else BotState(true, AwaitBalance, s.calls + [FetchBalance])
    case BalanceReply(r) =>
      if !s.suspended.AwaitBalance? then s
      else if r.Rejected? then s.(suspended := NoAwait, calls := s.calls + [CycleFailed])
      else s.(suspended := AwaitPosition(r.value), calls := s.calls + [GetPosition(c.pair)])
    case PositionReply(r) =>
      if !s.suspended.AwaitPosition? then s
      else if r.Rejected? then s.(suspended := NoAwait, calls := s.calls + [CycleFailed])
      else
        var o := Decide(c.pair, c.leverage, s.suspended.available, r.value);
        s.(suspended := AwaitOrder(o), calls := s.calls + [Submit(o)])
    case OrderReply(accepted) =>
      if !s.suspended.AwaitOrder? then s
      else if !accepted then s.(suspended := NoAwait, calls := s.calls + [CycleFailed])
      else if s.suspended.order.ClosePosition? then s.(inProgress := false, suspended := NoAwait)
      else s.(suspended := NoAwait)
  }

  /** The state after a sequence of inputs. */
  function Run(c: Config, s: BotState, inputs: seq<Input>): (r: BotState)
    ensures |s.calls| <= |r.calls| <= |s.calls| + |inputs| && r.calls[..|s.calls|] == s.calls
    decreases |inputs|
  {
    if inputs == [] then s else Run(c, Next(c, s, inputs[0]), inputs[1..])
  }

  /** An event after which the guard is never released: a market order or a rejected await. */
  predicate Wedging(e: Event)
  {
    e == CycleFailed || (e.Submit? && e.order.MarketOrder?)
  }

  predicate NoWedging(calls: seq<Event>)
  {
    forall k :: 0 <= k < |calls| ==> !Wedging(calls[k])
  }

  /** No gateway call follows a wedging event. */
  predicate QuietAfterWedging(calls: seq<Event>)
  {
    forall k, j :: 0 <= k < j < |calls| && Wedging(calls[k]) ==> !IsGatewayCall(calls[j])
  }

  /**
    The invariant of every reachable state: a suspended callback holds the
    guard; once a wedging event has happened the guard is held for good, the
    callback is at most waiting for the market order, and no gateway call
    has followed it.
   */
  predicate Inv(s: BotState)
  {
    && (s.suspended != NoAwait ==> s.inProgress)
    && QuietAfterWedging(s.calls)
    && (!NoWedging(s.calls) ==>
          s.inProgress &&
          (s.suspended == NoAwait || (s.suspended.AwaitOrder? && s.suspended.order.MarketOrder?)))
  }

  /**
    The bot as the source holds it: the guard flag is a mutable variable the
    timer callback reads and writes; each method is the part of the callback
    that runs between two awaits.
   */
  class TradingBot {
    const config: Config
    var inProgress: bool
    var suspended: Await
    var calls: seq<Event>

    function State(): BotState
      reads this
    {
      BotState(inProgress, suspended, calls)
    }

    predicate Valid()
      reads this
    {
      Inv(State())
    }

    constructor (pair: string, leverage: int)
      ensures Valid() && config == Config(pair, leverage) && State() == Initial()
    {
      config := Config(pair, leverage);
      inProgress := false;
      suspended := NoAwait;
      calls := [];
    }

    /** The timer fires: skip when a cycle holds the guard, else take it and fetch the balance. */
    method TimerFires()
      requires Valid()
      modifies this
      ensures Valid()
      ensures State() == Next(config, old(State()), TimerTick)
    {
      ghost var s := State();
      if inProgress {
        calls := calls + [SkipNotice];
        return;
      }
      inProgress := true;
      calls := calls + [FetchBalance];
      suspended := AwaitBalance;
      NextKeepsInv(config, s, TimerTick);
    }

    /** The balance fetch settles: on success fetch the position for the pair. */
    method BalanceSettles(r: Reply<real>)
      requires Valid() && suspended == AwaitBalance
      modifies this
      ensures Valid()
      ensures State() == Next(config, old(State()), BalanceReply(r))
    {
      ghost var s := State();
      NextKeepsInv(config, s, BalanceReply(r));
      if r.Rejected? {
        suspended := NoAwait;
        calls := calls + [CycleFailed];
        return;
      }
      var availableBalance := r.value;
      calls := calls + [GetPosition(config.pair)];
      suspended := AwaitPosition(availableBalance);
    }

    /** The position fetch settles: on success decide and submit exactly one order. */
    method PositionSettles(r: Reply<Option<Position>>)
      requires Valid() && suspended.AwaitPosition?
      modifies this
      ensures Valid()
      ensures State() == Next(config, old(State()), PositionReply(r))
    {
      ghost var s := State();
      NextKeepsInv(config, s, PositionReply(r));
      if r.Rejected? {
        suspended := NoAwait;
        calls := calls + [CycleFailed];
        return;
      }
      var botPosition := r.value;
      var order := Decide(config.pair, config.leverage, suspended.available, botPosition);
      calls := calls + [Submit(order)];
      suspended := AwaitOrder(order);
    }

    /** The order settles: only an accepted close releases the guard. */
    method OrderSettles(accepted: bool)
      requires Valid() && suspended.AwaitOrder?
      modifies this
      ensures Valid()
      ensures State() == Next(config, old(State()), OrderReply(accepted))
    {
      ghost var s := State();
      NextKeepsInv(config, s, OrderReply(accepted));
      if !accepted {
        suspended := NoAwait;
        calls := calls + [CycleFailed];
        return;
      }
      if suspended.order.ClosePosition? {
        inProgress := false;
      }
      suspended := NoAwait;
    }
  }

  /** Every step keeps the invariant. */
  lemma NextKeepsInv(c: Config, s: BotState, i: Input)
    requires Inv(s)
    ensures Inv(Next(c, s, i))
  {
    var t := Next(c, s, i);
    if !NoWedging(s.calls) {
      // the guard is held and the callback waits at most for a market order:
      // whatever happens, no gateway call is made
      assert forall j :: |s.calls| <= j < |t.calls| ==> !IsGatewayCall(t.calls[j]);
    } else {
      // a wedging event can only be the last one, with nothing after it
      assert forall k :: 0 <= k < |s.calls| ==> t.calls[k] == s.calls[k];
    }
  }

  /** Every run from a state satisfying the invariant ends in one. */
  lemma {:induction false} RunKeepsInv(c: Config, s: BotState, inputs: seq<Input>)
    requires Inv(s)
    ensures Inv(Run(c, s, inputs))
    decreases |inputs|
  {
    if inputs != [] {
      NextKeepsInv(c, s, inputs[0]);
      RunKeepsInv(c, Next(c, s, inputs[0]), inputs[1..]);
    }
  }
}
