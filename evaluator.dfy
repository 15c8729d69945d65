/**
  The close-vs-open decision the trading cycle takes once the balance and the
  position for the configured pair have been fetched (src/index.ts:88-111).
  The decision is a pure function of the configuration and the two snapshots.
 */
module Evaluator {
  import opened Wrappers

  /** A position snapshot as returned for the configured pair. */
  datatype Position = Position(quantity: real)

  datatype Side = Buy | Sell

  /** Good-till-cancelled, immediate-or-cancel, fill-or-kill. */
  datatype TimeInForce = GTC | IOC | FOK

  /** The single order a cycle submits to the exchange. */
  datatype Order =
    | ClosePosition(instrument: string, leverage: int, quantity: real)
    | MarketOrder(instrument: string, side: Side, cashQuantity: real,
                  timeInForce: TimeInForce, leverage: int)

  /** Fraction of the available balance that an opening order spends. */
  const SpendFraction: real := 0.9

  /** A position is closed only when one was returned and its quantity is positive. */
  predicate HasOpenPosition(position: Option<Position>)
  {
    position.Some? && position.value.quantity > 0.0
  }

  /**
    Close the open position with its full quantity, or else open a long
    fill-or-kill market order sized at 90% of the available balance.
   */
  function Decide(pair: string, leverage: int, availableBalance: real,
                  position: Option<Position>): (o: Order)
    ensures o.ClosePosition? <==> HasOpenPosition(position)
    ensures o.MarketOrder? <==> !HasOpenPosition(position)
    ensures o.instrument == pair && o.leverage == leverage
    ensures o.ClosePosition? ==> position.Some? && o.quantity == position.value.quantity && o.quantity > 0.0
    ensures o.MarketOrder? ==> o.side == Buy && o.timeInForce == FOK
    ensures o.MarketOrder? ==> o.cashQuantity * 10.0 == availableBalance * 9.0
  {
    if HasOpenPosition(position) then
      ClosePosition(pair, leverage, position.value.quantity)
    else
      MarketOrder(pair, Buy, availableBalance * SpendFraction, FOK, leverage)
  }

  /** An opening order on a non-negative balance spends part of it and keeps a tenth in reserve. */
  lemma OpenKeepsReserve(pair: string, leverage: int, availableBalance: real,
                         position: Option<Position>)
    requires availableBalance >= 0.0 && !HasOpenPosition(position)
    ensures var o := Decide(pair, leverage, availableBalance, position);
            0.0 <= o.cashQuantity <= availableBalance &&
            availableBalance - o.cashQuantity == availableBalance / 10.0
  {
  }

  /** A negative or zero quantity is not a position to close: the cycle buys instead. */
  lemma NonPositiveQuantityOpens(pair: string, leverage: int, availableBalance: real, q: real)
    requires q <= 0.0
    ensures Decide(pair, leverage, availableBalance, Some(Position(q))).MarketOrder?
  {
  }

  /** Balance 1000 and no position: a buy of cash quantity 900, fill-or-kill. */
  lemma OpenScenario(pair: string, leverage: int)
    ensures Decide(pair, leverage, 1000.0, None)
            == MarketOrder(pair, Buy, 900.0, FOK, leverage)
  {
  }

  /** A position of quantity 5: close exactly 5, whatever the balance. */
  lemma CloseScenario(pair: string, leverage: int, availableBalance: real)
    ensures Decide(pair, leverage, availableBalance, Some(Position(5.0)))
            == ClosePosition(pair, leverage, 5.0)
  {
  }
}
