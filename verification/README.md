# Proofs about the trading bot and its backtester

Models of the parts of the repository where order of events, retries, partial
results or fast forms of slow computations can go wrong, and proofs of what
those parts promise. To verify the project: `dafny verify dfyconfig.toml`.

## What is modelled

**Order sending** (`OrderSendProtocol`, `OrderSendRace`, `OrderSendWire`,
`OrderSender`). Threads that call `placeOrder` and the io thread are one machine of small steps:
authentication test, push, exchange of `startSending_`, post, each pop, the reset
of the flag, each recheck, the end of a write, an authentication reply, a
response. A run is any sequence of possible steps, under sequential consistency,
with one io handler at a time. A token is a thread about to post, a posted or
running `sendNext` before its reset, or an unfinished write. `OrderSender` is the
object itself; its methods are proved to be runs of the machine. The kick in
`checkStatus` does not take the flag: single flight therefore holds exactly when
every kick has been balanced, and otherwise some later interleaving rewrites the
buffer during a write.

**Trades** (`OrderIds`, `TradeMachine`, `TradeInvariants`, `TradeOrders`,
`TradeExchange`, `TradeOpening`, `TradeEndings`, `TradeLedger`, `TradePrices`,
`TradeCounterexamples`, `TradeReactions`, `TradeResponses`,
`TradeManager`). One transition function per entry point; the classes `Trade` and `TradeManager` refine it. A run is any sequence of calls,
each with the time and the sender's answer. `TradeInvariants`, `TradeOrders` and
the exact form in `TradeEndings` assume nothing of the exchange. `TradeExchange`
assumes that an opening order ends at most once, was sent before, and executes
between nothing and the default quantity. `TradeOpening` also assumes that a
filled or executed end of an opening order reports its quantity and price, and
`TradeLedger` that ends of close orders report a price for what they executed,
and a quantity of nothing or more than the epsilon. Runs show what the single
end, the quantity of an opening and the quantity of a close are needed for.
`TradeReactions` and `TradeResponses` assume nothing of the exchange either: they
say for every kind of call which order is sent, or that none is, without naming
the functions that decide it.

**Backtests** (`Backtest`, `BacktestExits`, `BacktestSchedule`, `BacktestRuns`,
`BacktestTrades`, `BacktestMetrics`). Exits and the schedule as functions, both
backtesters as loops that refine them; what each trade is in terms of bars,
scores and signals; time in position and drawdown.

**Strategy thread** (`StrategyHandOff`, `Strategy`). The wait loop, the mutex and
the two swapped queues as a machine of small steps; and the strategy object,
whose update serves the trade manager in a fixed order.

**Order book** (`OrderBookText`, `OrderBook`). Text as sequences of characters,
positions as `size_t` with wrap-around and `npos`. Levels are rendered with
decimal numerals, and the parser is proved to invert the rendering.

**One-second bars** (`Aggregation`). Chunks, row numbers, parts and their merge,
against one pass over the valid rows, and the resulting table against the rows.

**Price-flow divergence** (`Medians`, `PriceFlow`, `PriceFlowFormulas`). The ring
buffers against the array formulas, with the square root as an arbitrary function. The documentation
of `compute_pfd_components` says that it follows the C++ exactly; the code of the
two ends the flow window one interval apart, and the model follows the code:
`SameIntervalIff` says when they agree all the same.

## Model

| member | source | states |
|---|---|---|
| OrderSendProtocol.OnlyKnownOrdersAreSent | websocket_client/order_sender.cpp:54-70 | In every interleaving each queue holds orders of its own type only, so the token-dropping default branch of `sendOrder` is never reached from `sendNext` |
| OrderSendProtocol.TokenAccounting | websocket_client/order_sender.cpp:80-84 | In every interleaving the send tokens (posted or running `sendNext`, unfinished write) beyond the flag are exactly the authentication kicks that no token ending with the flag down has balanced, and are never negative |
| OrderSendProtocol.SingleFlightIff | websocket_client/order_sender.cpp:463-475 | There is at most one token and the flag says whether it exists, if and only if the kicks so far are balanced |
| OrderSendProtocol.SingleFlightWhenKickIsolated | websocket_client/order_sender.cpp:199-204 | With one authentication whose handler ends before any `placeOrder` passes its authentication test, there is never more than one token, also after write errors, and the write buffer is never rewritten during a write; the flag says whether the token exists except while the kick handler runs, which has one token, empty queues and the flag down until it rechecks |
| OrderSendRace.RaceIff | websocket_client/order_sender.cpp:199-244 | Between handlers, in every reachable state: some later interleaving without another kick and without a write error rewrites the buffer during a write, if and only if a kick is unbalanced |
| OrderSendProtocol.KickRaceClobbersBuffer | websocket_client/order_sender.cpp:199-204 | Without that hypothesis there is a run, free of write errors, in which the write buffer is rewritten during a write |
| OrderSendProtocol.NoOrderStranded | websocket_client/order_sender.cpp:232-244 | At rest (no thread between push and exchange, no handler, no token) all queues are empty if and only if no write error gave up while orders were queued; in every interleaving, kick hypothesis or not |
| OrderSendProtocol.NoOrderStrandedWithoutError | websocket_client/order_sender.cpp:52-84 | Without a write error, at rest all three queues are empty: reset-then-recheck loses no wake-up |
| OrderSendProtocol.ExactlyOnceInOrder | websocket_client/order_sender.cpp:213-230 | For each class, the accepted orders are always the orders handed to the socket, then the one in hand, then the queue, in that order |
| OrderSendProtocol.NoOvertaking | websocket_client/order_sender.cpp:216-230 | An order about to be sent never overtakes an order of a more urgent class that was accepted before the running `sendNext` began |
| OrderSendProtocol.ResponseMatchesRequest | websocket_client/order_sender.cpp:477-508 | A response to an outstanding id reports the request last handed to the socket under that id and closes it; any other response changes nothing |
| OrderSendProtocol.PendingRun | websocket_client/order_sender.cpp:247-250 | Every outstanding id maps to the latest request sent under it, and no id gets more results than requests |
| OrderSender.HandlerIsARun | websocket_client/order_sender.cpp:213-245 | A whole undisturbed io handler is a run of the step machine, so what holds of all runs holds of the object between calls |
| OrderSender.RunSendNext | websocket_client/order_sender.cpp:213-230 | One undisturbed `sendNext` sends the front of the most urgent nonempty queue, or goes on to the reset when all are empty |
| OrderSender.RunReset | websocket_client/order_sender.cpp:232-244 | The reset drops the flag when the queues are empty and otherwise takes it again and posts one `sendNext` |
| OrderSender.OrderSender.PlaceOrder | websocket_client/order_sender.cpp:46-87 | The object after `placeOrder` is the machine after that thread's steps; true is returned exactly for an order that was queued |
| OrderSender.OrderSender.SendOrder | websocket_client/order_sender.cpp:247-273 | One order: a nonzero id is registered, the buffer replaced and a write started; an unknown type only registers. BufferHoldsLastHanded says what the buffer then holds, PendingIsOutstanding what is registered |
| OrderSendWire.BufferHoldsLastHanded | websocket_client/order_sender.cpp:252-271 | In every interleaving the write buffer holds the order handed to the socket last, and nothing before the first |
| OrderSendWire.WritesCarryTheirOrders | websocket_client/order_sender.cpp:463-475 | With the kick isolated each write carries its own order until it ends: the buffer contents at the ends of the writes are the handed orders, in order and each once, and the one unfinished write still has its order in the buffer |
| OrderSendWire.PendingIsOutstanding | websocket_client/order_sender.cpp:247-250 | In every interleaving the registered ids are exactly those sent and not answered since, each with the request last sent under it |
| OrderSendWire.AuthenticatedIff | websocket_client/order_sender.cpp:199-211 | Orders are let in if and only if some authentication has succeeded |
| OrderSender.OrderSender.SendUrgent | websocket_client/order_sender.cpp:216-230 | The three pops send the front of the most urgent nonempty queue, if there is one, and nothing else |
| OrderSender.OrderSender.SendNext | websocket_client/order_sender.cpp:213-245 | The object afterwards is the machine after the handler's steps from the first pop |
| OrderSender.OrderSender.ResetAndRecheck | websocket_client/order_sender.cpp:232-244 | The same for the end of `sendNext` |
| OrderSender.OrderSender.OnWrite | websocket_client/order_sender.cpp:463-475 | An error drops the flag and leaves the queues; success goes on with `sendNext` |
| OrderSender.OrderSender.CheckStatus | websocket_client/order_sender.cpp:199-211 | A successful authentication runs `sendNext` without taking the flag; a failed one sends nothing |
| OrderSender.OrderSender.HandleOrderResponse | websocket_client/order_sender.cpp:477-509 | The result carries the request stored under the id, if there is one, and the id is removed |
| OrderIds.ReqIdsAreInjective | trading_strategy/trade_manager/trade.cpp:177-221 | `getOrderType` inverts `makeReqId`, the trade number can be read off an id, and ids of different trades or roles never collide |
| OrderIds.ReqIdsMeetWsIdsIff | trading_strategy/trade_manager/trade.cpp:196-221 | An order id can equal a websocket request id if and only if the trade number has reached 10^11 |
| OrderIds.LinkIdText | trading_strategy/trade_manager/trade.cpp:196-221 | The text of an order id is the trade number followed by the digit of its role |
| OrderIds.LinkIdRoundTrip | trading_strategy/trade_manager/trade_manager.cpp:193-200 | The id written as a decimal link id is read back from the text as the same id |
| TradeInvariants.StepKeeps | trading_strategy/trade_manager/trade_manager.cpp:193-300 | Every call keeps the phase invariant, whatever the event, the answer of the sender or the time |
| TradeInvariants.PhaseInvariant | trading_strategy/trade_manager/trade_manager.cpp:305-460 | After any sequence of calls, with an adversarial exchange: no side means no flag; a side means exactly one of waiting-open-limit, cancelling, waiting-open-market, open; at most one close flag and only when open; a registered close id with a side means open; every registered id is of the current trade |
| TradeInvariants.StaleEventsAreIgnored | trading_strategy/trade_manager/trade_manager.cpp:193-241 | Events and request results that name an order of another trade, or none, leave the whole state unchanged |
| TradeOrders.OrdersAreSized | trading_strategy/trade_manager/trade_manager.cpp:365-390 | Every call sends at most one order; a close order is reduce-only, on the opposite side, for exactly the open quantity less the booked partial closes, above the epsilon; an opening order is for the default quantity; all of the current trade |
| TradeOrders.OnlyEventsTouchTheBooks | trading_strategy/trade_manager/trade_manager.cpp:396-460 | Calls other than order events neither change quantities, prices and fees nor log a finished trade |
| TradeOrders.SizeIff | trading_strategy/trade_manager/trade_manager.cpp:497-524 | A call leaves an open trade with something to close if and only if it is not a second entry for a quantity that the booked closes exhaust |
| TradeExchange.OneEntryPerTrade | trading_strategy/trade_manager/trade_manager.cpp:616-648 | If each opening order ends at most once and only after it was sent, `enterTrade` runs at most once per trade |
| TradeExchange.FallbackOnlyAfterMiss | trading_strategy/trade_manager/trade_manager.cpp:474-491 | Then a market fallback is only sent for a trade whose opening limit has ended with no fill |
| TradeExchange.NoDoubleEntry | trading_strategy/trade_manager/trade_manager.cpp:650-666 | Then what is executed for both opening orders of a trade is at most the default quantity plus the epsilon |
| TradeOpening.OpenedAsExecuted | trading_strategy/trade_manager/trade_manager.cpp:616-648 | If executed ends of opening orders also report quantity and price: while a trade is open the exchange has executed exactly one of its opening orders, the booked quantity, price and fee are those of that execution, and the quantity is at most the default one |
| TradeOpening.BookedQtyIff | trading_strategy/trade_manager/trade_manager.cpp:616-648 | Entry books the executed quantity if and only if the end reports one above the epsilon |
| TradeEndings.OpenTradeEndsIff | trading_strategy/trade_manager/trade_manager.cpp:508-516 | Whatever the exchange does: a call ends an open trade without logging if and only if it is an unfilled end of the fallback that does not enter again; any other call leaves the trade open and logs nothing, or ends it and logs exactly one result |
| TradeEndings.NoTradeVanishes | trading_strategy/trade_manager/trade_manager.cpp:687-735 | If each opening order ends at most once, an open trade ends only by logging exactly one result |
| TradeExchange.RemainderStaysPositive | trading_strategy/trade_manager/trade_manager.cpp:526-614 | Then an open trade always has more than the epsilon left to close, so only fill handlers finish trades |
| TradeLedger.LedgerIdentity | trading_strategy/trade_manager/trade_manager.cpp:687-705 | When a trade finishes after any number of partial closes: one result is logged, by the event that ended a close order; its quantity is the sum of the close fills, its fees the entry fee plus all exit fees, and its gross result the signed difference between their turnover and the open price times that quantity, if and only if the end does not leave out its quantity after partial closes |
| TradeLedger.LedgerOfWholeTrade | trading_strategy/trade_manager/trade_manager.cpp:616-705 | The same with the entry read off the exchange too: one execution opened the trade, and the result is that execution against the close fills |
| TradeLedger.SilentEndIff | trading_strategy/trade_manager/trade_manager.cpp:526-614 | For all books and both close orders: a filled end without a quantity gets the right gross result if and only if nothing was closed before or nothing is pending |
| TradeLedger.BooksRun | trading_strategy/trade_manager/trade_manager.cpp:526-614 | Between events the booked partial quantity, turnover and exit fees of an open trade are the sums over its close fills |
| TradeLedger.GrossIsDifference | trading_strategy/trade_manager/trade_manager.cpp:687-700 | Closing price times quantity undoes the division by quantity: the gross result is a difference of turnovers |
| TradeCounterexamples.ReEntryLeavesNothingToClose | trading_strategy/trade_manager/trade_manager.cpp:508-516 | A second unfilled end of the fallback that reports a fill re-enters an open trade and leaves a negative remainder |
| TradeCounterexamples.SilentFillFalsifiesLedger | trading_strategy/trade_manager/trade_manager.cpp:575-614 | The witness of that condition: a run that keeps all assumptions about the exchange and in which a gain is logged as a loss |
| TradeCounterexamples.SilentOpeningBooksTooMuch | trading_strategy/trade_manager/trade_manager.cpp:616-648 | A filled opening limit that reports no quantity opens a trade for whatever quantity its order claims |
| TradeManager.TradeManager.Serve | trading_strategy/trade_manager/trade_manager.cpp:193-460 | Any entry point takes the object to the state of the transition function and keeps the invariant |
| TradeManager.TradeManager.SetOrderEvent | trading_strategy/trade_manager/trade_manager.cpp:193-226 | Refines the transition of an order event: unknown ids are ignored, known ones recorded and dispatched by role |
| TradeManager.TradeManager.OnOrderRequestResult | trading_strategy/trade_manager/trade_manager.cpp:228-300 | Refines the transition of a request result: only failed requests of registered orders act |
| TradeManager.TradeManager.MakeNewTrade | trading_strategy/trade_manager/trade_manager.cpp:305-327 | Refines the transition that starts a trade, or closes nothing and opens nothing when one is running |
| TradeManager.TradeManager.Close | trading_strategy/trade_manager/trade_manager.cpp:365-390 | Refines the transition that sends the closing limit, or finishes when nothing is left |
| TradeManager.TradeManager.CheckPrice | trading_strategy/trade_manager/trade_manager.cpp:396-460 | Refines the transition of a price; what that transition does is PricesAreActedOn |
| TradeReactions.PricesAreActedOn | trading_strategy/trade_manager/trade_manager.cpp:396-460 | After any sequence of calls a price does exactly one thing, by the first guard that holds: cancel an overdue opening or closing limit (again) by its link id; close by limit a trade held too long; try a due close again; stop a loss; take a win; otherwise nothing is sent and only the price is noted |
| TradeReactions.LossReaction | trading_strategy/trade_manager/trade_manager.cpp:787-801 | At or beyond the open price moved 0.5% against the side, with nothing else due: exactly one order, a reduce-only market order on the other side for the exact remainder, with reason StopLoss; the close is awaited if and only if the sender took it |
| TradeReactions.WinReaction | trading_strategy/trade_manager/trade_manager.cpp:803-818 | The same 2% the other way: a limit for the remainder at the passive price with reason TakeProfit, or the market when part is closed already |
| TradeReactions.TimeoutReaction | trading_strategy/trade_manager/trade_manager.cpp:396-460 | An open trade held longer than the timeout, without a close under way, is closed by one limit for the remainder with reason Timeout, or finished when nothing is left |
| TradeReactions.RetryReaction | trading_strategy/trade_manager/trade_manager.cpp:769-785 | A close that did not go through is tried again after the wait: a stopped loss by the market, any other by a limit, for the remainder and with its old reason |
| TradeReactions.OpenOverdueReaction | trading_strategy/trade_manager/trade_manager.cpp:737-751 | An overdue opening limit, or its unconfirmed cancel, gets one cancel that names it under a fresh request id; phase and clock move if and only if the sender took it |
| TradeReactions.CloseOverdueReaction | trading_strategy/trade_manager/trade_manager.cpp:753-767 | The same for the closing limit |
| TradeReactions.NoReaction | trading_strategy/trade_manager/trade_manager.cpp:396-460 | A price that meets none of the guards sends nothing and changes nothing else |
| TradeResponses.SignalResponse | trading_strategy/trade_manager/trade_manager.cpp:305-327 | Without a trade a signal sends one limit for the default quantity at the passive price of its side, and its trade waits for that order if and only if the sender took it; with a trade it sends nothing and at most extends the holding time |
| TradeResponses.CloseResponse | trading_strategy/trade_manager/trade_manager.cpp:365-390 | A request to close sends one limit for the remainder of an open trade without a close under way, at the passive price, or finishes a trade with nothing left; otherwise it does nothing |
| TradeResponses.InverseResponse | trading_strategy/trade_manager/trade_manager.cpp:345-363 | An opposite signal cancels a waiting opening limit by its link id or closes an open trade; one of the same side extends the wait |
| TradeResponses.FailureResponse | trading_strategy/trade_manager/trade_manager.cpp:228-300 | A failed request about an order that is waited for: an opening order gives the trade up, a closing limit is followed by a market order for the remainder, a failed market close is left to the retry; every other result changes nothing |
| TradeResponses.OrdersStayRegistered | trading_strategy/trade_manager/trade_manager.cpp:193-213 | While there is a trade no call forgets one of its orders, so their events are heard |
| TradeResponses.ProgressResponse | trading_strategy/trade_manager/trade_manager.cpp:193-226 | An event that is not an end, or that comes after the trade, only notes the status of a registered order |
| TradeResponses.OpenLimitResponse | trading_strategy/trade_manager/trade_manager.cpp:462-495 | The end of the opening limit opens the trade if anything was filled, and otherwise sends one market order for the default quantity; refused, there is no trade |
| TradeResponses.OpenMarketResponse | trading_strategy/trade_manager/trade_manager.cpp:497-524 | The end of the fallback opens the trade if anything was filled, and otherwise there is no trade |
| TradeResponses.CloseLimitResponse | trading_strategy/trade_manager/trade_manager.cpp:526-573 | The end of the closing limit finishes and logs the trade with its reason, or books the partial fill and sends one market order for what remains |
| TradeResponses.CloseMarketResponse | trading_strategy/trade_manager/trade_manager.cpp:575-614 | The end of the closing market order finishes and logs the trade, or books what it filled and leaves the rest to the retry |
| TradeManager.TradeManager.CheckInverse | trading_strategy/trade_manager/trade_manager.cpp:345-363 | Refines the transition of an opposite signal |
| TradePrices.LimitIsPassive | trading_strategy/trade_manager/trade_manager.cpp:115-133 | A limit price lies on a tick, less than a tick and the offset away, and on the passive side of the price: always for a buy, and for a sell if and only if the price is zero or not vanishingly small |
| TradePrices.StopsBracketThePrice | trading_strategy/trade_manager/trade.cpp:115-132 | Stop-loss and take-profit lie on either side of the price they were set from; no price hits both, and a hit is on the losing or winning side |
| Backtest.UpperBound | research_on_data/pfd_optimizer/pfd_optimizer/backtest.py:170-176 | The index that searchsorted from the right returns: everything before it is at most the value, the element at it is larger |
| Backtest.FirstHit | research_on_data/pfd_optimizer/pfd_optimizer/backtest.py:202-207 | The first hit, or -1 if and only if there is none |
| BacktestExits.FastExitIsScan | research_on_data/pfd_optimizer/pfd_optimizer/backtest.py:185-246 | The vectorised argmax exit is the exit of a bar-by-bar scan |
| BacktestExits.TrailIsScan | research_on_data/pfd_optimizer/pfd_optimizer/backtest.py:399-451 | If no price short of a positive take-profit tightens the stop, the trailing exit is the same scan |
| BacktestExits.TrailingEqualsFastIff | research_on_data/pfd_optimizer/pfd_optimizer/backtest.py:301-481 | For positive settings, over all bars: the trailing exit is the plain exit if and only if the window has less than two bars, or the activation is at least the take-profit, or the trailed stop at the take-profit is still no tighter than the initial one |
| BacktestExits.EarlyActivationDiffers | research_on_data/pfd_optimizer/pfd_optimizer/backtest.py:426-439 | A pair of bars on which they differ |
| BacktestExits.TieDominanceIff | research_on_data/pfd_optimizer/pfd_optimizer/backtest.py:237-246 | The stop price is no better than the take-profit price if and only if take-profit plus stop-loss is not negative |
| BacktestExits.FastDominance | research_on_data/pfd_optimizer/pfd_optimizer/backtest.py:237-246 | Preferring the stop on ties keeps the exit time and makes the price no better |
| BacktestExits.TrailDominance | research_on_data/pfd_optimizer/pfd_optimizer/backtest.py:405-424 | The same for the trailing stop |
| BacktestExits.EarlyDominance | research_on_data/pfd_optimizer/pfd_optimizer/backtest.py:252-268 | The early exit by score keeps that relation |
| BacktestExits.StopStaysInside | research_on_data/pfd_optimizer/pfd_optimizer/backtest.py:426-439 | The stop never falls behind the initial stop and never passes the best price seen, nor the take-profit |
| BacktestExits.StopNeverRetreats | research_on_data/pfd_optimizer/pfd_optimizer/backtest.py:426-439 | The stop never moves against the position |
| BacktestExits.BestSeenIsBest | research_on_data/pfd_optimizer/pfd_optimizer/backtest.py:426-435 | The running best price is the best of the entry and all bars so far |
| BacktestExits.StopClosedForm | research_on_data/pfd_optimizer/pfd_optimizer/backtest.py:426-439 | At every bar the stop is the initial stop until activation, and afterwards the better of it and the best price times one minus or plus the distance |
| BacktestExits.StopOutIsBounded | research_on_data/pfd_optimizer/pfd_optimizer/backtest.py:453-455 | A stop-out loses at most the stop-loss and two fees |
| BacktestExits.TimeoutInWindow | research_on_data/pfd_optimizer/pfd_optimizer/backtest.py:209-217 | A timeout lies between the entry and the end of the window, and is that end whenever a bar was checked |
| BacktestExits.ScanInWindow | research_on_data/pfd_optimizer/pfd_optimizer/backtest.py:217-246 | Every exit by threshold or timeout lies between the entry and the end of the window |
| BacktestExits.TrailInWindow | research_on_data/pfd_optimizer/pfd_optimizer/backtest.py:399-451 | The same for the trailing exit |
| BacktestExits.EarlyInWindow | research_on_data/pfd_optimizer/pfd_optimizer/backtest.py:252-268 | The early exit stays inside the window |
| BacktestMetrics.DrawdownIsDeepestFall | research_on_data/pfd_optimizer/pfd_optimizer/metrics.py:21-28 | The maximum drawdown is the deepest fall of the equity curve between a moment and a later one: an upper bound of all falls, and one of them |
| BacktestMetrics.NoDrawdownIff | research_on_data/pfd_optimizer/pfd_optimizer/metrics.py:21-28 | It is never negative, and zero if and only if no trade lost |
| BacktestSchedule.TradesComeFromSignals | research_on_data/pfd_optimizer/pfd_optimizer/backtest.py:155-168 | The trades are the exits of an increasing list of eligible signals |
| BacktestSchedule.TradesDoNotOverlap | research_on_data/pfd_optimizer/pfd_optimizer/backtest.py:164-165 | For every list of signals no trade starts before the one before it has ended |
| BacktestSchedule.SkippedSignalsAreCovered | research_on_data/pfd_optimizer/pfd_optimizer/backtest.py:155-168 | Every eligible signal is taken or lies strictly before the exit of an earlier trade |
| BacktestSchedule.TradesInHoldingWindow | research_on_data/pfd_optimizer/pfd_optimizer/backtest.py:170-176 | Once the exits lie in their windows, as FastRunIsWellScheduled and TrailRunIsWellScheduled prove of both backtesters, each trade satisfies start <= entry <= exit <= the smaller of entry plus holding time and the end of the fold |
| BacktestSchedule.CoveredIsHeld | research_on_data/pfd_optimizer/pfd_optimizer/metrics.py:31-47 | The time in position of trades inside the fold is the sum of their exit times less their entry times |
| BacktestSchedule.TimeInPositionFitsFold | research_on_data/pfd_optimizer/pfd_optimizer/metrics.py:31-47 | The time in position never exceeds the length of the fold |
| BacktestSchedule.SameExitsSameSchedule | research_on_data/pfd_optimizer/pfd_optimizer/backtest.py:155-283 | Two backtests that agree on the exits of eligible signals take the same trades |
| BacktestSchedule.DominatedSchedule | research_on_data/pfd_optimizer/pfd_optimizer/backtest.py:155-283 | Exits at equal times and no better prices give a run with the same entries, exits and sides and no larger PnL per trade |
| BacktestRuns.RunBacktest | research_on_data/pfd_optimizer/pfd_optimizer/backtest.py:71-298 | The loop over the signals returns the scheduled trades, which FastTradesMean describes, and fails if and only if there is something to do and rates or scores do not match |
| BacktestRuns.ScanPosition | research_on_data/pfd_optimizer/pfd_optimizer/backtest.py:395-451 | The loop over the bars, stop and best updated in place, returns the trailing exit |
| BacktestRuns.RunBacktestTrailing | research_on_data/pfd_optimizer/pfd_optimizer/backtest.py:301-484 | The loop over the signals with the bar loop of each position returns the scheduled trades, which TrailTradesMean describes |
| BacktestTrades.FastTradesMean | research_on_data/pfd_optimizer/pfd_optimizer/backtest.py:153-283 | For every list of signals, in terms of bars, scores and signals alone: each trade comes from a tradable signal, and ends by the first bar that touches a threshold at that threshold (the stop first on a conservative tie), or untouched at the window's end at the close of the last bar in the window, or without a bar where it began; by the first turned score at its price when that is earlier; it records that exit and its net result, and every tradable signal it skips lies before the exit of an earlier trade |
| BacktestTrades.TrailTradesMean | research_on_data/pfd_optimizer/pfd_optimizer/backtest.py:357-467 | The same for the trailing run, whose stop at a bar is the tightest of the initial one and those that the earlier bars have led to; the reason says whether it had moved |
| BacktestTrades.FastExitIs | research_on_data/pfd_optimizer/pfd_optimizer/backtest.py:185-246 | The vectorised exit of any one signal is that first touch or timeout |
| BacktestTrades.TrailExitIs | research_on_data/pfd_optimizer/pfd_optimizer/backtest.py:399-451 | The bar loop's exit of any one signal is the first touch of the trailed stop or the take-profit, or the timeout, for every distance and activation |
| BacktestTrades.ScoreExitIs | research_on_data/pfd_optimizer/pfd_optimizer/backtest.py:250-268 | The exit by score is at the first score in the window at least the threshold against the side, at its price, if strictly earlier than the exit it replaces |
| BacktestTrades.MadeTradeRecords | research_on_data/pfd_optimizer/pfd_optimizer/backtest.py:270-282 | A trade records entry, exit, side and reason, whole seconds held, and a net result that undoes to the price difference less two fees |
| BacktestRuns.TrailingRefinesFast | research_on_data/pfd_optimizer/pfd_optimizer/backtest.py:301-481 | With a positive take-profit, a trailing backtest whose activation is at least the take-profit, or whose stop tightens for no signal before it, returns exactly the trades of the fast one |
| BacktestRuns.FastRunIsWellScheduled | research_on_data/pfd_optimizer/pfd_optimizer/backtest.py:153-283 | For every list of signals: trades one at a time, in their windows, together no longer than the fold |
| BacktestRuns.TrailRunIsWellScheduled | research_on_data/pfd_optimizer/pfd_optimizer/backtest.py:357-467 | The same for the trailing backtest |
| BacktestRuns.ConservativeFastRunIsDominated | research_on_data/pfd_optimizer/pfd_optimizer/backtest.py:237-283 | Switching the tie rule leaves every entry, exit time and side unchanged and makes no trade's PnL larger under the conservative setting |
| BacktestRuns.ConservativeTrailRunIsDominated | research_on_data/pfd_optimizer/pfd_optimizer/backtest.py:405-467 | The same for the trailing backtest with non-negative take-profit, stop-loss and distance |
| StrategyHandOff.DeliveredOnceInOrder | trading_strategy/imbalance_and_large/imbalance_and_large.cpp:96-136 | In every interleaving what was pushed to a queue is what was delivered, then what is in hand, then the queue: exactly once and in push order |
| StrategyHandOff.SleepingMeansDrained | trading_strategy/base_trading_strategy.cpp:26-47 | While the strategy sleeps with the flag down and no producer is between push and store, everything pushed has been delivered |
| StrategyHandOff.NoWakeUpIsLost | trading_strategy/base_trading_strategy.cpp:15-47 | A sleeping strategy with work, or one that was stopped, still has a notification coming |
| StrategyHandOff.ExitedMeansStopped | trading_strategy/base_trading_strategy.cpp:26-47 | The strategy thread exits only after a stop |
| StrategyHandOff.LeftAloneItSettles | trading_strategy/base_trading_strategy.cpp:38-56 | Left alone a running thread falls asleep, having delivered everything pushed unless a producer has yet to raise the flag; a stopped one that is not on its way to sleep exits |
| Strategy.ImbalanceAndLarge.Serve | trading_strategy/imbalance_and_large/imbalance_and_large.cpp:114-182 | The manager is always in the state of the run of all calls it has served, so everything proved of runs holds of it; each call sends at most one order, and that one is sized to the trade |
| Strategy.ImbalanceAndLarge.DrainOrderRequestResults | trading_strategy/imbalance_and_large/imbalance_and_large.cpp:114-124 | The queue is emptied and every result in it served once, in order |
| Strategy.ImbalanceAndLarge.DrainOrderUpdates | trading_strategy/imbalance_and_large/imbalance_and_large.cpp:126-136 | The queue is emptied and every event in it served once, in order |
| Strategy.ImbalanceAndLarge.OnMarketUpdate | trading_strategy/imbalance_and_large/imbalance_and_large.cpp:147-182 | One update serves all request results, then all order events, then the price, then a new signal, nothing else, and leaves both queues empty |
| Strategy.ImbalanceAndLarge.CheckSignal | trading_strategy/imbalance_and_large/imbalance_and_large.cpp:159-182 | A signal acts once, when its version is new, at the ask for a buy and at the bid for a sell |
| OrderBookText.ConvertToDouble | json_parser/base_json_parser.cpp:104-136 | The loop computes the left-to-right reading of the characters |
| OrderBookText.ConvertReadsNumerals | json_parser/base_json_parser.cpp:104-136 | A decimal numeral, signed or not, with or without fraction, is read as the number it denotes |
| OrderBookText.QuotedPair | json_parser/base_json_parser.cpp:97-102 | Two quoted texts are cut out of a pair whatever they contain, as long as the first has no comma |
| OrderBookText.PairTextReads | json_parser/base_json_parser.cpp:97-102 | A rendered price level is read back as its price and volume |
| OrderBook.TailIsCut | json_parser/orderbook_json_parser.cpp:88-104 | The cursor loop cuts a joined list exactly where it was joined |
| OrderBook.ParsingAppliesLevels | json_parser/orderbook_json_parser.cpp:88-104 | Parsing a rendered list of levels applies exactly those updates, in order |
| OrderBook.SectionsAreFound | json_parser/orderbook_json_parser.cpp:68-83 | Both arrays are cut out of a rendered data section as they were rendered, empty ones included |
| OrderBook.MessageApplies | json_parser/orderbook_json_parser.cpp:25-41 | A snapshot applies its levels to an empty book, a delta to the book before it |
| OrderBook.BookIsFoldSinceSnapshot | json_parser/orderbook_json_parser.cpp:36-40 | After a snapshot and any messages each side is the fold of the updates since that snapshot, whatever the book was before |
| OrderBook.BookReflectsFeed | json_parser/base_json_parser.h:56-63 | Then each side holds exactly the prices whose last update had a volume, with that volume and never zero |
| OrderBook.OrderBookJsonParser.ParseArray | json_parser/orderbook_json_parser.cpp:88-104 | The loop ends, and its side holds what the cut pairs make of it; the other side is untouched; a pair that throws leaves the pairs before it applied |
| OrderBook.OrderBookJsonParser.ParseSection | json_parser/orderbook_json_parser.cpp:68-83 | Cuts one array out of the section and parses it unless it is empty |
| OrderBook.OrderBookJsonParser.Parse | json_parser/orderbook_json_parser.cpp:25-41 | An unknown type changes nothing, a snapshot clears first, bids are parsed before asks |
| Aggregation.TradeOf | research_on_data/aggregate_1s.py:89-111 | The bucket of a row is the second its time lies in; the side field decides, the tick direction only without it, and no row counts as both a purchase and a sale |
| Aggregation.AggregateFile | research_on_data/aggregate_1s.py:187-248 | For any split of the log, from the usable rows alone: a second is in the table if and only if it has one; its open and close are the prices of its first and last in log order, high and low its attained extremes, buy and sell volume the sums over exactly its purchases and sales, volume, count and weighted price likewise; rows, skipped rows and unknown sides are counted; it fails if and only if no row is usable |
| Aggregation.OnePassIsTable | research_on_data/aggregate_1s.py:82-125 | One pass over the rows meets the same description |
| Aggregation.RowsAreCounted | research_on_data/aggregate_1s.py:203-214 | The counters of read, skipped and side-less rows are the numbers of such rows |
| Aggregation.ReadChunk | research_on_data/aggregate_1s.py:203-221 | One chunk adds at most one part, numbered so that its last valid row has the number of the last row read |
| Aggregation.PartIs | research_on_data/aggregate_1s.py:112-125 | A part has a second if and only if the chunk has a trade in it, with the aggregates of exactly those trades |
| Aggregation.MergeIsOnePass | research_on_data/aggregate_1s.py:234-244 | For every split the merged entries of a second are the one-pass bar of its trades: open from the earliest, close from the latest, extremes, sums and counts |
| Aggregation.MergedIsOnePass | research_on_data/aggregate_1s.py:233-248 | The same for all seconds at once, with the volume-weighted price |
| Aggregation.ChunkInvariance | research_on_data/aggregate_1s.py:187-248 | Two ways to split the same log give the same bars |
| Aggregation.SidesAddUp | research_on_data/aggregate_1s.py:98-111 | Buy and sell volume fall short of the volume by exactly the volume of unknown side |
| Aggregation.VwapInRange | research_on_data/aggregate_1s.py:245-247 | With volume the volume-weighted price lies between low and high, and without it is zero |
| Medians.SelectedIsNth | trading_strategy/indicators/price_flow_divergence/price_flow_divergence.cpp:195-197 | Any arrangement that nth_element may leave has the middle value of the sorted window at its middle |
| Medians.LowerMaximumIsPrevious | trading_strategy/indicators/price_flow_divergence/price_flow_divergence.cpp:198-203 | The maximum of its lower half is the value before the middle one in the sorted window |
| Medians.MedianBySelection | trading_strategy/indicators/price_flow_divergence/price_flow_divergence.cpp:194-203 | Partial selection and maximum of the lower half give the true median, for odd and even sizes |
| Medians.MedianHalves | trading_strategy/indicators/price_flow_divergence/price_flow_divergence.cpp:194-203 | At least half of the window is at most the median, and at least half is at least it |
| Medians.MedianMirror | trading_strategy/indicators/price_flow_divergence/price_flow_divergence.cpp:194-203 | Negating the window negates its median, so the mean of the two middle values is taken for even sizes |
| PriceFlow.ReturnVariance | trading_strategy/indicators/price_flow_divergence/price_flow_divergence.cpp:113-123 | The two loops over the price buffer give the sample variance of its returns |
| PriceFlow.CalcLastStats | trading_strategy/indicators/price_flow_divergence/price_flow_divergence.cpp:156-176 | The two loops give mean and sample variance of the last values of a buffer |
| PriceFlow.BuffersHoldWindow | trading_strategy/indicators/price_flow_divergence/price_flow_divergence.cpp:97-115 | The full ring buffers hold the prices, returns and flows that the array formulas read at the last interval |
| PriceFlow.ConfirmLoop | research_on_data/pfd_optimizer/pfd_optimizer/pfd_indicator.py:292-305 | The nested loops confirm a signal if and only if it and the n before it are the same side |
| PriceFlow.Confirm | trading_strategy/indicators/price_flow_divergence/price_flow_divergence.cpp:220-233 | The early-exit loop confirms a raw signal if and only if the buffer is full of it |
| PriceFlow.BufferConfirmsAsLoop | research_on_data/pfd_optimizer/pfd_optimizer/pfd_indicator.py:292-305 | The ring of the last n raw signals confirms as the array loop does over the whole stream, whose first w signals are unknown |
| PriceFlow.BandIsRegime | trading_strategy/indicators/price_flow_divergence/price_flow_divergence.cpp:205-207 | The multiplied test of the volatility band is the test of the ratio to the median |
| PriceFlow.CheckMedian | trading_strategy/indicators/price_flow_divergence/price_flow_divergence.cpp:205-207 | The computed test is the ratio test |
| PriceFlow.SilentWhenInvalid | trading_strategy/indicators/price_flow_divergence/price_flow_divergence.cpp:133-144 | An interval with a too small deviation gives no raw signal |
| PriceFlow.ValidWindowIsPlain | trading_strategy/indicators/price_flow_divergence/price_flow_divergence.cpp:184-188 | If the last n intervals are valid, the window of valid volatilities is the plain window of the arrays |
| PriceFlow.FlowLagsByOne | research_on_data/pfd_optimizer/pfd_optimizer/pfd_indicator.py:158-174 | At each interval the streamed total return and volatility are those of the arrays, and the streamed flow terms are those of the arrays one interval later |
| PriceFlow.SameIntervalIff | research_on_data/pfd_optimizer/pfd_optimizer/pfd_indicator.py:147-174 | At the same interval the mean flow, and with it all components and the score, of the two programs agree if and only if the flow that enters the streamed window equals the one that has left it |
| PriceFlow.FlowTermsDiffer | research_on_data/pfd_optimizer/pfd_optimizer/pfd_indicator.py:158-174 | A series on which they differ |
| PriceFlow.SignalIff | trading_strategy/indicators/price_flow_divergence/price_flow_divergence.cpp:210-243 | For any components: the signal is to buy exactly when the interval is tradable and the scores are high, to sell exactly when they are low |
| PriceFlow.SidesShareVolume | trading_strategy/indicators/price_flow_divergence/price_flow_divergence.cpp:47-54 | The bought and the sold volume of a batch add up to its volume, and a side without trades has none |
| PriceFlowFormulas.MeanIff | trading_strategy/indicators/price_flow_divergence/price_flow_divergence.cpp:156-164 | A number is the computed mean if and only if the values deviate from it by nothing in sum |
| PriceFlowFormulas.VarianceIsPairwise | trading_strategy/indicators/price_flow_divergence/price_flow_divergence.cpp:113-123 | The computed variance times n(n - 1) is the sum of the squared differences of all pairs |
| PriceFlowFormulas.FlowIsShare | trading_strategy/indicators/price_flow_divergence/price_flow_divergence.cpp:97-99 | The flow times the volume is what was bought less what was sold, and without volume it is zero |
| PriceFlowFormulas.WindowMeans | research_on_data/pfd_optimizer/pfd_optimizer/pfd_indicator.py:147-174 | The window of an interval holds the growth of the price over its length and from each interval to the next, and the flows of its last intervals |
| PriceFlowFormulas.ComponentsMean | trading_strategy/indicators/price_flow_divergence/price_flow_divergence.cpp:109-149 | With a true square root both deviations are roots of their variances, and the score cleared of denominators is momentum less flow; without deviations it is zero |
| PriceFlowFormulas.ValidVolsAre | trading_strategy/indicators/price_flow_divergence/price_flow_divergence.cpp:184-188 | The volatilities kept for the regime are those of exactly the valid intervals, each once and in order |
| PriceFlow.PriceFlowDivergence.AddTrades | trading_strategy/indicators/price_flow_divergence/price_flow_divergence.cpp:47-54 | The volumes of a batch of trades are added by side |
| PriceFlow.PriceFlowDivergence.UpdateVolatilityRegime | trading_strategy/indicators/price_flow_divergence/price_flow_divergence.cpp:178-208 | A valid volatility enters the ring; trading is allowed if and only if the filter is off, or the ring is full and the ratio to its median lies in the band |
| PriceFlow.PriceFlowDivergence.CheckSignal | trading_strategy/indicators/price_flow_divergence/price_flow_divergence.cpp:210-243 | The raw signal enters the ring; the confirmed one is published unless the regime forbids it; the version grows by one. SignalIff says which score buys |
| PriceFlow.PriceFlowDivergence.CalcStats | trading_strategy/indicators/price_flow_divergence/price_flow_divergence.cpp:109-131 | The statistics from the buffers are those of the array formulas at the last interval |
| PriceFlow.PriceFlowDivergence.Judge | trading_strategy/indicators/price_flow_divergence/price_flow_divergence.cpp:133-154 | The published signal is the one computed from the components of all intervals so far |
| PriceFlow.PriceFlowDivergence.RollInterval | trading_strategy/indicators/price_flow_divergence/price_flow_divergence.cpp:97-154 | For any stream: buffers are the last windows of the stream; the signal is Buy if and only if the last interval is valid and in the regime and its score and those of the confirming intervals before it exist and are all at least sigma, and Sell if and only if they are all at most minus sigma; the version counts the intervals with a full window |

## Left out

- Arithmetic is exact: rounding of doubles, NaN and infinities are not modelled; prices in the indicator are positive, since a zero mid price divides to infinity in the source.
- Weak memory ordering and the inside of the lock-free queues: queues are linearizable, bounded and first-in first-out.
- Reconnects and a second life of `OrderSender`: one lifetime, in which a write error is an event and nothing is sent again by a reconnect.
- Websocket, TLS, ping, signing, subscription, timers and the wiring of `ConnectionManager`: plumbing.
- JSON text of outgoing orders and `getFieldValue`: an order is its type, id and body, and the type of a book message is an input; the header numbers `u`, `seq`, `ts` and `cts` are not read.
- Unsigned wrap-around of trade numbers and ids after 2^64.
- Exceptions thrown inside `onMarketUpdate`, and starting a strategy again after a stop.
- `replaceLimitOpenOrder` and `moveOpenOrderToPrice`: nothing in the repository calls the latter, and it alone calls the former.
- Log counters, percentages, timestamps and text in the logs: reporting.
- `setPosition` and the queries `hasOpenBuyTrade` and `hasOpenSellTrade`: empty or only easy claims.
- TradeManager.TradeManager.Serve: flags, amounts and times are fields of three records, where the source has one field each.
- TradeManager.TradeManager.Serve: the sender's answer to the one order a call may send is an input of the call.
- TradeManager.TradeManager.Close: no claim that a close succeeds in time or that the closed quantity equals the opened one, because retries reuse link ids and a market close can run beside a live limit close whose cancel was refused.
- TradeLedger.LedgerIdentity: a filled end of a close order that reports no quantity counts as an execution of what the manager has pending; an end that reports no price for what it executed is excluded, because then the exchange's report does not say what the true result is.
- TradeOpening.OpenedAsExecuted: assumes that a filled opening order reports its quantity; `BookedQtyIff` says that this is needed.
- OrderSendProtocol.SingleFlightWhenKickIsolated: needs the kick hypothesis; `KickRaceClobbersBuffer` is what happens otherwise, and `RaceIff` when.
- OrderSender.OrderSender.PlaceOrder: one call with no other thread in between; interleavings are in the step machine.
- BacktestRuns.RunBacktest: signal directions are -1, 0 or 1, bars and scores are sorted by time, and bar values are numbers.
- BacktestRuns.ConservativeTrailRunIsDominated: bars have non-negative lows.
- TradeResponses.OpenLimitResponse: the side of the trade is Buy or Sell, as every signal's is.
- OrderSendWire.WritesCarryTheirOrders: needs the kick hypothesis, for the reason `KickRaceClobbersBuffer` gives.
- OrderBook.BookReflectsFeed: the text before the arrays has no lower-case a or b, as with the upper-case symbols of the exchange, and a message is shorter than `npos`.
- `parseDataMessage`: the cut of the data section out of the message; the section is an input.
- OrderBook.OrderBookJsonParser.Parse: a throwing pair ends the call with the pairs before it applied; what a caller does with the exception is not modelled.
- Medians.NthElement: any arrangement that meets the promise of nth_element may be returned; the body sorts.
- Aggregation.AggregateFile: reading and skipping of malformed lines, the cut at the first null byte and the printing of bars are left out; the side text is an input after trimming and lower-casing.
- PriceFlow.PriceFlowDivergence.RollInterval: the test of the elapsed time in `maybeRollInterval` is left out, so an interval ends when the caller says so; the window is at least two and the threshold positive, as in the settings.
- PriceFlow.FlowLagsByOne: the scores of the two programs are equal at the same interval only as `SameIntervalIff` says, and during the warm-up the volatility window of the arrays holds zeros; equality is claimed for the price terms and for windows of valid intervals.
- `backtest_on_intervals`, the other metrics, walk-forward search, the disabled order-book and trade-flow indicators, dashboards, decoders and loggers: reporting, or only easy claims.
