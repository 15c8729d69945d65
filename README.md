# EVEDEX trading bot: trading cycle model

A Dafny model of `src/index.ts` of the EVEDEX demo trading bot. At start-up the
bot reads its command-line arguments and opens an exchange session. A timer
then fires every `interval` milliseconds. Each tick fetches the available
balance and the position for the configured pair. If a position with
positive quantity exists, the tick closes it. Otherwise it opens a
fill-or-kill market buy sized at 90% of the balance. A boolean guard,
`tradingInProcess`, keeps ticks from starting a cycle while another one
holds it.

Modules:

- `Wrappers` (`wrappers.dfy`): `Option`.
- `Evaluator` (`evaluator.dfy`): positions, orders and the pure close-vs-open
  decision `Decide`.
- `Launch` (`launch.dfy`): argument checking, defaults and session failure
  at start-up; `parseInt` on strings of decimal digits.
- `Scheduler` (`scheduler.dfy`): the timer callback as a state machine. The
  callback suspends at each of its three awaits. So the inputs are timer
  ticks and the settlement (fulfilled or rejected) of the outstanding await.
  `Next` and `Run` are the pure specification. The class `TradingBot` holds
  the guard flag, the current suspension point and the trace of calls. Each
  of its methods is the stretch of the callback between two awaits, proved
  equal to `Next`. `Inv` is the invariant of every reachable state.
- `CycleProperties` (`cycle_properties.dfy`): lemmas about single steps and
  whole runs, and two client scenarios on the class.

The guard is not released at the end of every cycle. The code clears it in
one place only, after an accepted close order (src/index.ts:99). It is
never cleared after the market order (src/index.ts:104-112). The callback
has no error handler, so a rejected await also leaves it set. The model
keeps this behaviour and proves its consequences. After the first market
order, or after the first rejected call, the guard stays held forever.
Every later tick only logs a skip, and no gateway call or order is ever
made again (`WedgedStaysWedged`, `NothingAfterOpen`, `NothingAfterFailure`,
`RunFromStart`).

## Model

| member | source | states |
|---|---|---|
| `Evaluator.Decide` | src/index.ts:88-111 | close exactly when a position is present with quantity > 0. Then close that exact quantity on the configured pair with the configured leverage. Otherwise a Buy, FOK market order on the pair with the leverage, cash quantity 9/10 of the available balance |
| `Evaluator.OpenKeepsReserve` | src/index.ts:104-108 | on a non-negative balance the opening order spends between 0 and the balance and leaves exactly a tenth unspent |
| `Evaluator.NonPositiveQuantityOpens` | src/index.ts:88 | a position with zero or negative quantity does not count as open: the cycle buys |
| `Evaluator.OpenScenario` | src/index.ts:104-111 | balance 1000 and no position give a Buy FOK market order for cash quantity 900 |
| `Evaluator.CloseScenario` | src/index.ts:88-95 | a position of quantity 5 gives a close order for exactly 5 |
| `Launch.ArgOr` | src/index.ts:21-25 | `args[k] ?? fallback`: a given argument is used as is, even empty; only an absent one falls back |
| `Launch.Start` | src/index.ts:7-55 | an absent or empty credential exits with status 1 before session set-up, so before the container is built. With both credentials, a failure anywhere in set-up (building the container included) exits with status 1. Otherwise the bot starts with the two credentials as given. The pair, leverage text and interval text are the third, fourth and fifth arguments when present, else `BTCUSDT:DEMO`, `100` and `60000` |
| `Launch.DefaultsWhenOmitted` | src/index.ts:21-25 | with only the two credentials, the pair is `BTCUSDT:DEMO`, the leverage parses to 100 and the interval to 60000 |
| `Launch.DefaultsParse` | src/index.ts:23-25 | the default texts `100` and `60000` parse to 100 and 60000 |
| `Launch.PairGivenOthersDefault` | src/index.ts:21-25 | with a third argument only, the pair is that argument and the leverage and interval still parse to 100 and 60000 |
| `Launch.GivenArgumentsKept` | src/index.ts:17-25 | when all five arguments are given, the settings are exactly those arguments in order |
| `Launch.ParseDecimal` | src/index.ts:23-25 | a value exactly for a non-empty string of decimal digits |
| `Launch.ShowParsesBack` | src/index.ts:23-25 | parsing the decimal text of any natural number gives that number back |
| `Scheduler.TradingBot.constructor` | src/index.ts:68 | the guard starts free, nothing is awaited, no call has been made |
| `Scheduler.TradingBot.TimerFires` | src/index.ts:70-80 | new state is `Next` of the old on a tick: skip notice if the guard is held. Otherwise the guard is taken, then the balance is fetched. The invariant is kept |
| `Scheduler.TradingBot.BalanceSettles` | src/index.ts:80-84 | new state is `Next` on the balance reply: the position fetch for the pair, or a failed cycle with the guard still held |
| `Scheduler.TradingBot.PositionSettles` | src/index.ts:84-111 | new state is `Next` on the position reply: exactly one order, the one `Decide` gives, or a failed cycle |
| `Scheduler.TradingBot.OrderSettles` | src/index.ts:91-112 | new state is `Next` on the order reply: the guard is freed only by an accepted close |
| `Scheduler.Next` | src/index.ts:70-112 | one tick or settlement. It adds at most one event and keeps the earlier trace. The guard is taken only by a tick, whose one call is the balance fetch. It is released only by an accepted close. A tick on a held guard only logs a skip. An order is submitted only when a position fetch succeeds, and it is the order `Decide` gives on the balance fetched before |
| `Scheduler.Run` | src/index.ts:70-112 | a sequence of ticks and settlements, one step per input. The trace only grows, by at most one event per input |
| `Scheduler.NextKeepsInv` | src/index.ts:70-112 | each step keeps the invariant. A suspended callback holds the guard. After a market order or a rejected await, the guard stays held and no gateway call follows |
| `Scheduler.RunKeepsInv` | src/index.ts:70-112 | every run from a state satisfying the invariant ends in one |
| `CycleProperties.TickWhileBusySkips` | src/index.ts:71-76 | a tick while the guard is held only logs a skip: no balance, position or order call, flag unchanged |
| `CycleProperties.TickWhileFreeTakesGuardFirst` | src/index.ts:78-80 | a tick on a free guard sets the flag, and its only call is the balance fetch |
| `CycleProperties.TickDuringCycleSkips` | src/index.ts:71-84 | a tick while a cycle is suspended on an await is skipped: no second cycle starts |
| `CycleProperties.CallsHoldTheGuard` | src/index.ts:78-111 | whenever a gateway call is made, the guard is held and the callback is awaiting it |
| `CycleProperties.OnlyTickTakesGuard` | src/index.ts:78 | the guard goes from free to held exactly on a timer tick |
| `CycleProperties.ReleaseOnlyAfterAcceptedClose` | src/index.ts:91-101 | the guard goes from held to free if and only if an outstanding close order is accepted |
| `CycleProperties.CycleEndWedgesUnlessClosed` | src/index.ts:91-112 | a cycle that ends leaves the guard held with nothing awaited, unless it ended with an accepted close. Both directions |
| `CycleProperties.WedgedStaysWedged` | src/index.ts:71-76 | with the guard held and nothing awaited, any inputs leave the state unchanged except one skip notice per tick |
| `CycleProperties.WedgedMakesNoCalls` | src/index.ts:71-76 | from such a state no later input causes a gateway call, and the guard stays held |
| `CycleProperties.NothingAfterOpen` | src/index.ts:104-112 | once a market order settles, accepted or rejected, no later tick makes a gateway call |
| `CycleProperties.NothingAfterFailure` | src/index.ts:78-111 | once a balance, position or order await is rejected, no later tick makes a gateway call |
| `CycleProperties.RunFromStart` | src/index.ts:68-112 | over any run from start: no gateway call follows a market order or a failure. At most one market order is ever submitted, and no order follows a failure |
| `CycleProperties.CompleteCycle` | src/index.ts:78-111 | a cycle run to completion on a free guard fetches the balance, then the position, then submits exactly the one order `Decide` gives. The guard is then free only after an accepted close |
| `CycleProperties.BalanceFailureBlocksNextTick` | src/index.ts:71-80 | after a rejected balance fetch no order is made and the next tick is skipped |

## Left out

- The exchange SDK and its transport (`DemoContainer`, `account`, the balance stream and its `listen`, `fetchMe`, the WebSocket): foreign code. Its results are inputs. At start-up, one `sessionOk` flag stands for all of set-up succeeding. In the cycle, each await is fulfilled or rejected.
- The update subscriptions (`onOrderUpdate`, `onPositionUpdate`) and all console logging: output only. The model keeps a skip notice and a failure event in the trace.
- The interval timer itself and the SIGINT handler (src/index.ts:114-120): process and timer plumbing. Ticks are inputs, and the interval text is only carried in the settings.
- Termination of the process by the runtime's unhandled-rejection handling after a rejected await: runtime behaviour outside the source. The model keeps the process alive with the guard held. Either way no later order is made.
- Settlement of an await that is not outstanding cannot happen. `Next` ignores such an input only to be total; the class methods require the matching await.
- Launch.ParseDecimal: models `parseInt` only on non-empty strings of decimal digits. Leading blanks, signs, trailing text, hexadecimal prefixes, NaN and 53-bit precision are library behaviour and are not modelled. The cycle takes the leverage as an already-parsed integer.
- Evaluator.Decide: `Number(availableBalance) * 0.9` is floating point; the model uses exact real arithmetic. Conversion of a non-numeric balance to NaN is not modelled.
- A check that the returned position belongs to the pair: the source relies on `getPosition(pair)` being scoped to the pair, and so does the model.
