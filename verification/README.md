# Prediction-market maker: a verified model

A Dafny model of the trading core of hft_pm: the order book with queue tracking, the two engines
that drive it, the strategy layer on top, and the numeric and data tools around them.

**The book** (`OrderBook`, `BookInvariant`, `TradePriority`, `BookRuns`, `FillBracket`,
`TradeSplitting`, `PublicBook`, class `L2OrderBook`). A public price-level book plus our resting
orders. Each order remembers the public size at its level when it was placed and the volume in
front of it; trades and level changes move it forward. Python dictionaries iterate in insertion
order and keep a key's place on overwrite: the class holds an ordered id sequence beside the three
maps.

**The desk** (`TradingDesk`, `DeskInvariant`, `Fees`, `Arrivals`, `Callbacks`, `MarkedPnl`). What
both engines share, as values: accounts, the stable queue of timed events, the effect of every
event and strategy action. Strategies are deterministic callbacks from their state, their view of
the simulator, the event and its sequence number to actions; a latency is a function from draw
number and decision time to arrival time.

**The backtester** (`Backtest`, `BacktestRuns`, `TakerPriority`, `EventOrder`, `NoLookAhead`,
`SequenceNumbers`, `Termination`, class `Backtester`). A state machine whose step is one iteration
of the main loop, theorems about all its runs, and the class with its heap proved to follow it.

**The quoting strategy** (`Quoting`, `OneOrderPerSide`, `StandingQuotes`, `KeptQuotes`,
`OrderLifetimes`, `Withdrawal`, class `QuotingStrategy`, `SimulatorInterface`). Cancel-and-replace
with an arbitrary pricing function, on either engine.

**The paper trader** (`KillSwitches`, `KillSwitchHistory`, `Paper`, `HaltProtocol`, `TraderHalts`,
`EngineEquivalence`, `ConstantDelay`, `HarmfulTies`, `NumberedEngines`, `TieBreak`, class
`PaperTrader`). Two tasks, the feed and the heartbeat, whose turns interleave arbitrarily; a halt
protocol; and the theorems that say when it agrees with the backtester and when it does not.

**Tools** (`Replay`, `ReplayScan`, `AssetStreams`, `PurgedCv`, `Combinatorics`, `Hawkes`, `Vpin`,
`Ofi`). Loops and incremental forms against their from-scratch definitions.

Prices, sizes and cash are exact reals, times are natural numbers of milliseconds. Each class keeps
the fields of the original, and its methods are tied to a specification function on values; the
laws are proved about those functions and hold for every run. `dafny verify dfyconfig.toml` checks
everything.

Where code and documentation disagree the model follows the code: a trade and the level change that
reports it are both counted (`TradeSplitting.ReportedTradeCountsTwice`), price-time priority does
not hold against a crossing arrival (`TakerPriority.PassedOverIffTaken`), event numbers tell a
strategy whether the tape goes on (`SequenceNumbers.NumbersTellNothingIff`), buckets record the
volume before the carry (`Vpin.RecordsOneBucketIff`), a daily-loss halt does not clear on the next
day and the halt reason is overwritten by later trips (`KillSwitchHistory.HaltedIffBreached`), the
scan forgets the previous timestamp at each shard, not at each asset
(`AssetStreams.ReportedIffBoundariesKept`), the final inventory is reported as it is and not
rounded (`MarkedPnl.ResultReports`).

## Model

| member | source | states |
|---|---|---|
| L2OrderBookClass.L2OrderBook.ApplyBookSnapshot | src/hft_pm/orderbook/l2_book.py:67-79 | The public book becomes exactly the snapshot without its zero-size levels (of several pairs for a price the last positive one wins); our orders and their queue estimates stay as they were. |
| L2OrderBookClass.L2OrderBook.ApplyLevelChange | src/hft_pm/orderbook/l2_book.py:81-91 | A BUY change touches only the bids, a SELL change only the asks; a size that is not positive removes the level. |
| L2OrderBookClass.L2OrderBook.AddOurOrder | src/hft_pm/orderbook/l2_book.py:120-141 | Refused, with nothing changed, exactly for an empty size or an id already tracked; otherwise the order goes to the end of the dictionary with the public size at its level as queue and as snapshot. |
| L2OrderBookClass.L2OrderBook.RemoveOurOrder | src/hft_pm/orderbook/l2_book.py:143-147 | The id disappears from all three dictionaries; every other order keeps its place. |
| L2OrderBookClass.L2OrderBook.ProcessTrade | src/hft_pm/orderbook/l2_book.py:153-224 | In-place loop over the three dictionaries: new book and reported fills are those of the recursive walk `OrderBook.Walk`, about which the laws below are proved. |
| L2OrderBookClass.L2OrderBook.WalkOrders | src/hft_pm/orderbook/l2_book.py:182-223 | Invariant of the loop: orders already visited are as the walk leaves them, orders ahead untouched, the consumed-at-price table and the remaining trade volume those of the walk. |
| L2OrderBookClass.L2OrderBook.HitOrder | src/hft_pm/orderbook/l2_book.py:183-223 | One pass of the loop body, every branch: skip, absorbed by the queue (and stop), partly filled, filled and popped (and stop when nothing is left). |
| L2OrderBookClass.L2OrderBook.AbsorbTrade | src/hft_pm/orderbook/l2_book.py:200-206 | The queue in front absorbs the rest of the trade: the order is overwritten in place with its new queue and level snapshot. |
| L2OrderBookClass.L2OrderBook.FillOrder | src/hft_pm/orderbook/l2_book.py:208-221 | A filled order is popped from all three dictionaries, a partly filled one overwritten in place with queue zero and the current public size. |
| L2OrderBookClass.L2OrderBook.QueuePositionOf | src/hft_pm/orderbook/l2_book.py:230-243 | None exactly for an untracked id; otherwise the stored queue less what the level has lost since its snapshot, never below zero. |
| OrderBook.Highest | src/hft_pm/orderbook/l2_book.py:97-101 | The best bid is the greatest price of the side. |
| OrderBook.Lowest | src/hft_pm/orderbook/l2_book.py:103-107 | The best ask is the least price of the side. |
| OrderBook.LastPositivePairWins | src/hft_pm/orderbook/l2_book.py:77-78 | A price is in the dictionary a snapshot builds if and only if some pair gives it a positive size, and then with the size of the last such pair. |
| PublicBook.BestBidIs | src/hft_pm/orderbook/l2_book.py:97-101 | None exactly without bids; otherwise a bid with none above it, with the size of its level. |
| PublicBook.BestAskIs | src/hft_pm/orderbook/l2_book.py:103-107 | None exactly without asks; otherwise an ask with none below it, with the size of its level. |
| PublicBook.MidIs | src/hft_pm/orderbook/l2_book.py:109-115 | None exactly when a side is empty; otherwise half the sum of the highest bid and the lowest ask. |
| PublicBook.LastChangeWins | src/hft_pm/orderbook/l2_book.py:81-91 | A list of level changes, at every side and price: what the last change naming it says (present exactly if its size is positive), and what was there before if none names it. |
| PublicBook.FreshQueuePosition | src/hft_pm/orderbook/l2_book.py:120-243 | A fresh order comes last, behind all that is public at its level; whatever the public book becomes before a trade, its queue position is the lesser of that and what is public then. |
| PublicBook.FirstInReach | src/hft_pm/orderbook/l2_book.py:182-224 | A SELL trade reaches bids at its price or higher, a BUY trade asks at its price or lower, in the same tick level. The first of our orders in reach is filled by what exceeds the public volume in front of it, up to its size, and rests on with what is left of it, moved up by the volume traded. |
| PublicBook.OutOfReachUntouched | src/hft_pm/orderbook/l2_book.py:182-187 | An order out of reach is neither filled nor changed. |
| BookRuns.QueueStateInvariant | src/hft_pm/orderbook/l2_book.py:67-224 | After any sequence of snapshots, level changes, tick changes, placements, cancels and trades: positive level sizes, distinct ids, positive order sizes, 0 <= stored queue <= stored level size, and queue position between zero and the current public size. |
| BookRuns.QueueNeverGrows | src/hft_pm/orderbook/l2_book.py:120-224 | As long as an order stays in the book - attempts to place its id again included - its side, price and arrival time are fixed, and its size and stored queue never increase. |
| BookRuns.OpKeepsWf | src/hft_pm/orderbook/l2_book.py:67-224 | Every single operation keeps the invariant and, except for an arrival, only removes orders or moves them on, in the same order. |
| BookRuns.OwnActionsLeavePublicBook | src/hft_pm/orderbook/l2_book.py:120-224 | Placing, cancelling and trades change neither bids nor asks nor the tick. |
| BookInvariant.WalkEvolves | src/hft_pm/orderbook/l2_book.py:182-221 | What a trade leaves of our orders is a subsequence of them, each shrunk or moved forward, still well formed. |
| BookInvariant.WalkConserves | src/hft_pm/orderbook/l2_book.py:207-221 | For each order, size before the trade = fills reported for it + size after. |
| TradePriority.WalkFillsAreDue | src/hft_pm/orderbook/l2_book.py:177-224 | Each fill is exactly what the order can take of the volume left after the queues and fills before it, and nothing is due to the first reachable order that was not filled. |
| TradePriority.FilledInPriorityOrder | src/hft_pm/orderbook/l2_book.py:177-224 | The filled orders are a prefix of the reachable orders in arrival order, all but the last filled completely; fills plus queue volume never exceed the trade. |
| TradePriority.OlderOrderFirst | src/hft_pm/orderbook/l2_book.py:182-224 | If an order is filled, every older order of the same side and price is filled to its full size and gone. |
| FillBracket.FillsAreBracketed | src/hft_pm/orderbook/l2_book.py:182-243 | An order of size S placed behind Q, alone at its level, after trades of total T mixed with any other operations: min(S, max(0, T-Q)) <= filled <= min(S, T), the left one an equality if the public size never shrank; while it rests, queue position <= min(public size, max(0, Q-T)). |
| TradeSplitting.ReportedTradeCountsTwice | src/hft_pm/orderbook/l2_book.py:201-203 | For any lone order and any trade of v in its reach, followed by the level change that reports it: the order survives iff v leaves some of it, and its position p becomes max(0, p-2v); that is the true max(0, p-v) if and only if v = 0 or v >= p. |
| TradeSplitting.LoneOrderSplitsTrades | src/hft_pm/orderbook/l2_book.py:182-224 | With one order of ours in reach, two trades of v and w leave exactly the book that one trade of v+w leaves, and the same fills. |
| TradeSplitting.PairSplitsIff | src/hft_pm/orderbook/l2_book.py:182-224 | With two orders in reach, in arrival order, v then w fills both as one trade of v+w if and only if they rest at different prices, or v fills the older with volume to spare, or v = 0, or what v ate lies in front of both, or the younger gets nothing or everything either way; the older one is always filled alike. |
| TradeSplitting.SecondPrintAddsUp | src/hft_pm/orderbook/l2_book.py:182-223 | The arithmetic of that condition on the closed forms of what each order gets from each print. |
| TradeSplitting.PairTraded | src/hft_pm/orderbook/l2_book.py:182-223 | What a trade fills of two orders and leaves of them, in closed form: the younger hears of it only if the older is filled with volume to spare. |
| TradeSplitting.SplittingMattersForTwo | src/hft_pm/orderbook/l2_book.py:206 | The failing case: two fresh orders behind the same queue, and a first print that the queue absorbs and the loop stops at. |
| Prelude.RoundIsNearest | src/hft_pm/orderbook/l2_book.py:252 | Within one half of its argument, and even when two integers are equally near. |
| BacktestRuns.SameTickIsWithinATick | src/hft_pm/orderbook/l2_book.py:246-252 | Prices that snap to the same tick index differ by at most one tick. |
| BacktesterClass.Backtester.PlaceLimit | src/hft_pm/simulator/engine.py:150-167 | A size that is not positive is refused with no effect; otherwise the next id, one pending place and one arrival at the sampled time, after everything already queued for that time. |
| BacktesterClass.Backtester.Cancel | src/hft_pm/simulator/engine.py:169-171 | One cancel arrival at the sampled time, for any id; nothing else changes. |
| BacktesterClass.Backtester.PushEvent | src/hft_pm/simulator/engine.py:177-188 | A push with the next sequence number is an insertion into the stable queue. |
| BacktesterClass.Backtester.RecordFill | src/hft_pm/simulator/engine.py:313-356 | Cash, inventory, fees, rebates and the fill list all move by exactly this fill. |
| BacktesterClass.Backtester.ApplyMarketEvent | src/hft_pm/simulator/engine.py:230-267 | Each kind of market event: book, fills, accounting and last mid afterwards. |
| PublicBook.PriceChangeLeaves | src/hft_pm/simulator/engine.py:241-245 | A price_change message on either engine: every level as its last change says, our orders, tick and fills untouched. |
| PublicBook.SnapshotLeaves | src/hft_pm/simulator/engine.py:234-239 | A book message: at every price the bids hold the last positive pair of its bids, the asks that of its asks, nothing else; our orders, tick and fills untouched. |
| PublicBook.TickChangeLeaves | src/hft_pm/simulator/engine.py:265-267 | A tick_size_change sets the tick and touches nothing else, not even the mid. |
| PublicBook.TradeBooksMakerFills | src/hft_pm/simulator/engine.py:247-263 | Every fill a trade adds is a maker fill at its price and time, one per order filled, without a fee and with the rebate of the category; the public levels stay. |
| BacktesterClass.Backtester.HandlePlaceArrival | src/hft_pm/simulator/engine.py:278-307 | Nothing if the order was cancelled on its way; otherwise the taker fill against the opposite top of book with the rest resting at the limit, or the whole order resting. |
| PublicBook.CrossesIff | src/hft_pm/simulator/engine.py:400-405 | A price crosses the spread if and only if some opposing level is there or better. |
| Arrivals.ArrivalTrades | src/hft_pm/simulator/engine.py:278-307 | An accepted arrival takes if and only if it is not post-only and some opposing level is at its limit or better. Then it is filled once, as a taker, at the lowest such ask or highest such bid, for the lesser of its size and that level, with the taker fee; what is left, otherwise all of it, comes to rest last at the limit, behind what is public there. |
| Arrivals.ArrivalInRun | src/hft_pm/simulator/engine.py:208-307 | So does every step of a backtest that delivers an order not cancelled on its way; a cancelled one changes neither book nor accounts. |
| Arrivals.ArrivalInTrader | src/hft_pm/live/paper_trade.py:362-439 | The same arrival drained by the paper trader, at its own time or the clock if that is later. |
| BacktesterClass.Backtester.Apply | src/hft_pm/simulator/engine.py:230-276 | Applying any popped event, cancel arrivals included, is `TradingDesk.Apply`; the book is never asked to add an order it would refuse. |
| BacktesterClass.Backtester.CallStrategy | src/hft_pm/simulator/engine.py:219 | The callback sees the state after the event and the refill, the event and its sequence number; its actions are performed in order up to the first refused placement. |
| Callbacks.StepCalls | src/hft_pm/simulator/engine.py:208-219 | Every step of a backtest calls the strategy once, on the event and number it delivers, showing the clock at the event, the net inventory of all fills, and the book, both as the step leaves them. |
| Callbacks.EventCalls | src/hft_pm/live/paper_trade.py:335-360 | The paper trader calls the strategy once per market event, with the same view, unless it is halted by then. |
| Callbacks.ActionBecomes | src/hft_pm/simulator/engine.py:150-188 | An action adds exactly one arrival, at the time its latency draw says: a placement with the next id, pending until then, or a cancel. |
| Callbacks.RefusalEndsRun | src/hft_pm/simulator/engine.py:150-224 | A placement whose size is not positive ends the run: the actions before it are performed, those after it are not, and no further step changes anything. |
| BacktesterClass.Backtester.Advance | src/hft_pm/simulator/engine.py:208-217 | Pop, clock, apply, refill: the popped event is the head of the queue, and everything on the heap afterwards was there before or is the next market event. |
| BacktesterClass.Backtester.Iterate | src/hft_pm/simulator/engine.py:208-219 | One iteration of the main loop is one step of the state machine `Backtest.Step`, and keeps pops strictly increasing. |
| BacktesterClass.Backtester.Run | src/hft_pm/simulator/engine.py:194-224 | For any number of iterations: the state of the state machine after as many (or when it ended before), whether the run has ended by then, and if so the result computed from that state, PnL series included if asked for, None if the strategy raised; on a sorted tape with causal latency all popped events are in strictly increasing (timestamp, seq) order. |
| Backtest.SeriesFollowsRun | src/hft_pm/simulator/engine.py:219-222 | The PnL series has one snapshot per iteration, the i-th of the state after iteration i, the last one with the PnL of the result. |
| BacktesterClass.Backtester.Finalise | src/hft_pm/simulator/engine.py:372-385 | Maker and taker counts split the fills, PnL is cash plus inventory at the last mid, and the recorded series is handed over. |
| MarkedPnl.ReportedPnl | src/hft_pm/simulator/engine.py:358-385 | In every reachable state the PnL that result and snapshot report is the cash of the fills plus their inventory times m, m being half the sum of highest bid and lowest ask after the last event that left a two-sided book; just the cash if there was none. |
| MarkedPnl.SeriesIsMarked | src/hft_pm/simulator/engine.py:219-222 | Entry i of the series is that PnL, with cash, inventory and clock, after i + 1 steps. |
| MarkedPnl.ResultReports | src/hft_pm/simulator/engine.py:372-385 | The result counts maker and taker fills by their indices and hands over cash, inventory, fees and rebates as the sums over the fills, unrounded. |
| MarkedPnl.FillMovesPnl | src/hft_pm/simulator/metrics.py:55-59 | A fill at p with mid m moves the reported PnL by sign * size * (m - p) + rebate - fee. |
| Fees.FeeIsParabola | src/hft_pm/fees/polymarket.py:50-61 | The taker fee is the parabola 4p(1-p) times its peak at one half, symmetric, and zero at 0, at 1 and beyond. |
| Fees.FeesAreTable | src/hft_pm/fees/polymarket.py:27-48 | Fee and rebate per 100 contracts at the peak, for every category. |
| Fees.FeeScales | src/hft_pm/fees/polymarket.py:50-66 | Fee and rebate are proportional to the size. |
| Fees.FeesAreOrdered | src/hft_pm/fees/polymarket.py:50-66 | 0 <= rebate <= fee <= fee at one half. |
| BacktesterClass.Backtester.Deliver | src/hft_pm/simulator/engine.py:209-212 | Pop, clock, apply: the popped event is the head of the queue with its number, and the desk is as `DeliverHead` says. |
| BacktesterClass.Backtester.Refill | src/hft_pm/simulator/engine.py:214-217 | The next market event, if any, joins the heap under the next number. |
| EventHeap.Push | src/hft_pm/simulator/engine.py:177-188 | heappush with a fresh sequence number keeps the heap strictly ordered and is the stable insertion. |
| EventHeap.Pop | src/hft_pm/simulator/engine.py:209 | heappop returns the least event under (timestamp, seq) and leaves the others. |
| EventOrder.EnqueueIsStable | src/hft_pm/simulator/engine.py:177-188 | An event goes in right behind everything not later than it and before everything later: first come, first served among equal times. |
| EventOrder.ClockNeverGoesBack | src/hft_pm/simulator/engine.py:208-217 | On a sorted tape with causal latency the simulated clock is monotone over the whole run. |
| BacktestRuns.RunConsistent | src/hft_pm/simulator/engine.py:208-307 | The inductive invariant of every reachable state: registered ids, positions, size accounts, folds, limits, arrival order, and every pending order with its arrival on the queue. |
| BacktestRuns.StepIsDelivery | src/hft_pm/simulator/engine.py:208-219 | A step changes book and accounts only by applying the head of the queue; refill and callback cannot touch them. |
| BacktestRuns.EveryOrderAccountedFor | src/hft_pm/simulator/engine.py:150-307 | Every id handed out is in exactly one of pending, resting, dead; uncancelled: placed size = fills + pending or resting size, and dead means filled completely; cancelled: dead, filled between 0 and its size. |
| BacktestRuns.CancelledNeverTrades | src/hft_pm/simulator/engine.py:273-282 | Once a cancel has arrived - even before the placement it cancels - the order is dead and its fills never change in any later state. |
| BacktestRuns.ArrivalIsAccepted | src/hft_pm/simulator/engine.py:278-307 | `add_our_order` never raises: whenever a pending order arrives its size is positive and its id new to the book. |
| BacktestRuns.AccountsAreFolds | src/hft_pm/simulator/engine.py:313-356 | In every reachable state cash, inventory, fees and rebates equal their sums over the fill list, and every fill is no worse than its order's limit. |
| BacktestRuns.MakerFillsWithinATick | src/hft_pm/simulator/engine.py:247-262 | Every maker fill a step adds is within one current tick of its order's limit. |
| BacktestRuns.OlderFilledFirst | src/hft_pm/simulator/engine.py:247-262 | Among resting orders: when a step fills one, every live order of the same side and price that came to rest before it is filled completely by that step. |
| TakerPriority.PassedOverIffTaken | src/hft_pm/simulator/engine.py:278-307 | When a step fills an order, resting or still on its way, while an older one of the same side and limit rests: the older one is gone and full if and only if the event is a trade; it is passed over, untouched, if and only if the event is the arrival of the younger, not post-only and through the spread. |
| TakerPriority.OlderPassedOver | src/hft_pm/simulator/engine.py:284-305 | A reachable run in which that happens: two bids through the same ask of 10, the first rests with 5 of its 15 left while the second takes 5. |
| NoLookAhead.RunsAgree | src/hft_pm/simulator/engine.py:194-224 | For a strategy that does not read sequence numbers: two runs on sorted tapes that agree up to T are, step by step, in the same state (book, accounts, orders, callbacks but for their numbers, strategy state) as long as they handle events up to T. |
| NoLookAhead.DecisionsDependOnThePastOnly | src/hft_pm/strategies/base.py:48-55 | For such a strategy, whatever the tapes hold after T and however far both runs have gone beyond it, callbacks (event, what was seen, what was done) and fills up to T are identical. |
| SequenceNumbers.NumberedRunsAgree | src/hft_pm/simulator/engine.py:208-219 | For every strategy: the runs are the same, numbers included, as long as they handle events up to T, if the tapes have the same length or both outlast the steps taken. |
| SequenceNumbers.NumberedDecisionsDependOnThePastOnly | src/hft_pm/orderbook/events.py:31-41 | For every strategy, on tapes of the same length or longer than the runs: callbacks with their numbers and fills up to T are identical. |
| SequenceNumbers.NumbersTellNothingIff | src/hft_pm/simulator/engine.py:214-219 | Of two sorted tapes that agree up to T, with an event by then: no strategy and latency is brought to act differently by T if and only if the tapes have the same length. |
| SequenceNumbers.UnequalTapesShow | src/hft_pm/simulator/engine.py:214-219 | For every pair of such tapes of different length, on any book, a strategy that reads numbers is led to a different action by T on the same event in the same circumstances. |
| SequenceNumbers.NextEventShows | src/hft_pm/simulator/engine.py:177-219 | The smallest case, any delay: the order placed on the first event arrives under number 1 if the tape ends there and under number 2 if another event follows, however late. |
| SequenceNumbers.StepKeepsPlace | src/hft_pm/simulator/engine.py:177-219 | Events of one time are served in queue order under their numbers whatever each step adds. |
| Termination.StepUsesWork | src/hft_pm/simulator/engine.py:208-219 | Each iteration strictly decreases queued plus future work. |
| Termination.BoundedRunEnds | src/hft_pm/simulator/engine.py:208-224 | A strategy taking at most b actions per market event and none on arrivals ends an N-event tape within (b+1)N iterations. |
| Termination.QuotingRunEnds | src/hft_pm/strategies/quoting.py:62-91 | A quoting strategy with the default kinds ends within 5N iterations. |
| Metrics.RealisedCash | src/hft_pm/simulator/metrics.py:31-43 | The accumulator loop computes the cash fold. |
| Metrics.InventoryFromFills | src/hft_pm/simulator/metrics.py:46-52 | The accumulator loop computes the inventory fold. |
| QuotingStrategyClass.QuotingStrategy.Reconcile | src/hft_pm/strategies/quoting.py:69-91 | Cancel if there is a quote off target, place if none is left: effect on either engine, remembered id and price. |
| SimulatorInterface.Simulator.PlaceLimit | src/hft_pm/strategies/base.py:32-40 | Either engine: refusal without effect, or the next id and the placement on its desk. |
| SimulatorInterface.Simulator.Cancel | src/hft_pm/strategies/base.py:42-43 | Either engine: one cancel under way on its desk. |
| SimulatorInterface.Simulator.Look | src/hft_pm/strategies/base.py:25-30 | Either engine shows clock, inventory and book of its desk. |
| QuotingStrategyClass.QuotingStrategy.ReconcileSide | src/hft_pm/strategies/quoting.py:69-91 | The same on the fields of one side, the other side untouched. |
| QuotingStrategyClass.QuotingStrategy.OnEvent | src/hft_pm/strategies/quoting.py:62-67 | The callback has, on either engine, exactly the effect of the actions the strategy function `Quoting.OnEvent` answers with, bid before ask. |
| Quoting.QuoterIsWellBehaved | src/hft_pm/strategies/quoting.py:62-91 | For any pricing function: at most four actions, none refused, none on an event that is not a requote kind. |
| Quoting.DefaultKindsAre | src/hft_pm/strategies/quoting.py:38-44 | By default a requote happens on snapshots, price changes and trades, and on nothing else. |
| KeptQuotes.StepRequotes | src/hft_pm/strategies/quoting.py:62-91 | Every step of a backtest, any latency. At a requote, a side whose quote is less than half a tick from its target keeps id and price, and nothing is placed or cancelled on it; on any other side a cancel is asked for the remembered id, if there is one, and one order of full size is placed exactly at the target, if there is one, and remembered; bid before ask. At other events nothing is placed or cancelled. |
| KeptQuotes.TraderRequotes | src/hft_pm/strategies/quoting.py:62-91 | The same for every market message of a paper run that is not halted after it. |
| OneOrderPerSide.RunTracked | src/hft_pm/strategies/quoting.py:69-91 | The arrivals still to come for a side always alternate with what rests there, ending in the quote the strategy remembers. |
| OneOrderPerSide.AtMostOneQuotePerSide | src/hft_pm/strategies/quoting.py:69-91 | With constant latency, in every reachable state each side has at most one order of ours in the book, and an order of the side is without a cancel request if and only if it is the one remembered as current quote. |
| StandingQuotes.RememberedQuoteStandsIff | src/hft_pm/strategies/quoting.py:69-91 | In every reachable state of a backtest, on any tape and with any latency, the quote remembered on a side is an order of the remembered price and the full size, and it is under way or in the book if and only if it has not been filled completely. |
| StandingQuotes.TraderQuoteStandsIff | src/hft_pm/strategies/quoting.py:69-91 | The same on the paper trader, under every interleaving of its tasks, as long as it has not halted. |
| StandingQuotes.QuotingAtTargetIff | src/hft_pm/strategies/quoting.py:62-91 | After every requote: a side has a remembered quote if and only if it has a target; the quote was placed within half a tick of the target, and stands if and only if it has not been filled completely, so that, and nothing else, is when the strategy is not quoting at its target. |
| OrderLifetimes.LifeIsBracketed | src/hft_pm/simulator/engine.py:247-307 | The fill bracket in a backtest: any order, from the step that brings it to rest behind Q with S to fill until its cancel arrives, as long as trades at its level reach no other order of ours: fills between min(S, max(0, T-Q)) and min(S, T), the former if the public size never shrank. |
| OrderLifetimes.QuoteLifeIsBracketed | src/hft_pm/strategies/quoting.py:69-91 | Every quote of a quoting strategy with constant latency satisfies that bracket over its whole life, with no assumption on the other orders. |
| Withdrawal.NoFillAfterWithdrawal | src/hft_pm/strategies/quoting.py:80-82 | If from a requote at time s on no quote is wanted, every later fill carries a timestamp of at most s + latency. |
| Withdrawal.InJumpWindow | src/hft_pm/strategies/avellaneda_stoikov.py:246-255 | The early-breaking scan of the schedule (sorted at construction, line 167) returns True exactly when some window contains now. |
| Withdrawal.GateWithdraws | src/hft_pm/strategies/avellaneda_stoikov.py:194-208 | Inside a window the gated quoter wants no quote on either side, whatever signals and pricing say. |
| Withdrawal.GatedIff | src/hft_pm/strategies/avellaneda_stoikov.py:194-208 | The gated quoter withdraws exactly if a side of the book is empty, the flow is toxic or a window contains now, and prices otherwise. |
| Withdrawal.NoFillInsideJumpWindow | src/hft_pm/strategies/avellaneda_stoikov.py:204-208 | From the first requote inside a window until the window ends, no fill later than one latency after that requote. |
| KillSwitches.KillSwitch.Tick | src/hft_pm/risk/limits.py:106-140 | All fields after a tick: peak, day anchor and loss, and a trip by drawdown before daily loss. |
| KillSwitches.KillSwitch.NoteWsMessage | src/hft_pm/risk/limits.py:142-158 | Only the last sign of life changes. |
| KillSwitches.KillSwitch.HeartbeatCheck | src/hft_pm/risk/limits.py:160-165 | Trips exactly when there was a sign of life and it is too long ago. |
| KillSwitches.KillSwitch.Trip | src/hft_pm/risk/limits.py:193-195 | Halted with this reason, whatever it was before. |
| KillSwitches.KillSwitch.Reset | src/hft_pm/risk/limits.py:182-191 | Back to the freshly armed state. |
| KillSwitchHistory.StateTracksHistory | src/hft_pm/risk/limits.py:106-165 | The running fields are the historical quantities: running peak, first tick of the current same-day run, last sign of life. |
| KillSwitchHistory.UtcDayIs | src/hft_pm/risk/limits.py:122-126 | The day number is d if and only if the time lies in [86400 d, 86400 (d + 1)). |
| KillSwitchHistory.HaltedIffBreached | src/hft_pm/risk/limits.py:106-165 | Halted if and only if some event of the history breached a rule stated on the history alone (max(0, running max) - PnL above the drawdown limit, loss since the first tick of the same-day run, silence); the reason is that of the last breach; halted if and only if a reason is set. |
| KillSwitchHistory.HaltLatches | src/hft_pm/risk/limits.py:123-126 | A halt persists over every later event, next UTC day included. |
| TraderHalts.RunHaltedIffBreached | src/hft_pm/live/paper_trade.py:519-539 | Over all inputs of a paper run: halted if and only if some tick (marked PnL after a market event) or heartbeat breached a rule, judged by all the switch had heard by then; the reason is that of the last breach. |
| TraderHalts.SwitchHasHeard | src/hft_pm/live/paper_trade.py:300-360 | The switch of a run is the switch told of the run's messages, marked PnL and watchdog turns, in order. |
| MarkedPnl.TickIsMarked | src/hft_pm/live/paper_trade.py:519-525 | A market message of a paper run tells the switch of a sign of life and of a tick with the cash of the fills plus their inventory at the mid of the last two-sided book, and with that inventory. |
| PaperTraderClass.PaperTrader.PlaceLimit | src/hft_pm/live/paper_trade.py:215-244 | As in the backtester, on the arrivals heap. |
| PaperTraderClass.PaperTrader.Cancel | src/hft_pm/live/paper_trade.py:246-256 | One cancel arrival, nothing else. |
| PaperTraderClass.PaperTrader.RecordFill | src/hft_pm/live/paper_trade.py:451-492 | Accounts move by this fill, and the id is forgotten exactly when the book no longer has the order. |
| PaperTraderClass.PaperTrader.ApplyMarketEvent | src/hft_pm/live/paper_trade.py:374-407 | Book, fills, accounts and last mid as in the backtester; ids of completely filled orders dropped. |
| PaperTraderClass.PaperTrader.HandlePlaceArrival | src/hft_pm/live/paper_trade.py:409-439 | As in the backtester, and the id is tracked exactly when the order rests afterwards. |
| PaperTraderClass.PaperTrader.HandleCancelArrival | src/hft_pm/live/paper_trade.py:441-445 | Off the book, off the tracked ids, off the pending orders. |
| PaperTraderClass.PaperTrader.DeliverDue | src/hft_pm/live/paper_trade.py:364-372 | Pops the earliest arrival, moves the clock to it but never back, and applies it. |
| PaperTraderClass.PaperTrader.DrainArrivalsUpTo | src/hft_pm/live/paper_trade.py:362-372 | Exactly the arrivals not later than the event are handled, in order. |
| PaperTraderClass.PaperTrader.ApplyOnTime | src/hft_pm/live/paper_trade.py:340-345 | Clock never back, then the event applied. |
| PaperTraderClass.PaperTrader.TickKillSwitch | src/hft_pm/live/paper_trade.py:519-525 | The switch is ticked with the marked PnL and the inventory. |
| PaperTraderClass.PaperTrader.OnHalt | src/hft_pm/live/paper_trade.py:541-578 | First call: our orders off the book, pending and arrivals emptied, one halt record; any later call changes nothing. |
| PaperTraderClass.PaperTrader.ProcessMarketEvent | src/hft_pm/live/paper_trade.py:335-360 | Drain, apply, tick, then either halt or callback. |
| PaperTraderClass.PaperTrader.OnWsEvent | src/hft_pm/live/paper_trade.py:300-321 | Every message is a sign of life; only one about this asset that parses is processed. |
| PaperTraderClass.PaperTrader.HeartbeatTurn | src/hft_pm/live/paper_trade.py:527-539 | One turn of the watchdog, including its end after a halt or a stop. |
| Callbacks.StopEndsWatchdog | src/hft_pm/live/paper_trade.py:527-539 | A stop request changes nothing by itself, and after it the watchdog has at most one turn left. |
| Callbacks.WatchdogEndsIffHalted | src/hft_pm/live/paper_trade.py:527-539 | Otherwise the watchdog ends with a turn if and only if the switch is halted then. |
| Callbacks.TraderClockNeverGoesBack | src/hft_pm/live/paper_trade.py:335-372 | Whatever order the feed delivers in, the clock is the latest time seen. |
| PaperTraderClass.PaperTrader.Stop | src/hft_pm/live/paper_trade.py:290-294 | Only the stop flag changes; the watchdog sees it at its next turn. |
| HaltProtocol.AlwaysAtRest | src/hft_pm/live/paper_trade.py:335-578 | Under every interleaving of feed and heartbeat turns the trader is consistent between turns and a tripped switch has been acted upon. |
| HaltProtocol.IdsAreRestingOrders | src/hft_pm/live/paper_trade.py:433-492 | Between turns the tracked ids are exactly the ids resting in the book, and every order satisfies the lifecycle law. |
| HaltProtocol.HaltIsAbsorbing | src/hft_pm/live/paper_trade.py:541-578 | After a halt there is exactly one halt record and nothing of ours rests, pends or is under way, and no later turn of either task changes fills, cash, inventory, placed orders or calls the strategy. |
| EngineEquivalence.ArrivalLinked | src/hft_pm/live/paper_trade.py:362-372 | Draining one arrival corresponds to one step of the backtester. |
| EngineEquivalence.MarketLinked | src/hft_pm/live/paper_trade.py:335-358 | Applying one market event with its callback corresponds to one step of the backtester. |
| EngineEquivalence.EnginesAgree | src/hft_pm/live/paper_trade.py:335-445 | For every interleaving of inputs whose market events are a prefix of the sorted tape, without a trip, with a strategy acting on market events only and (unless the tape has at most one event) not reading numbers, and no callback scheduling an arrival for the time of an event the backtester has already off the tape: some state of the backtest has handled the same events and has the same book, accounts, fills, pending and placed orders, arrivals under way, clock and strategy state. |
| EngineEquivalence.NoTieSuffices | src/hft_pm/live/paper_trade.py:335-360 | That condition holds in particular if no arrival is ever under way at the time of a coming market event. |
| ConstantDelay.NoEchoNoTie | src/hft_pm/simulator/latency.py:40-50 | With a constant delay L, if no market event comes exactly L after an earlier one, no input sequence ever has an arrival under way at the time of a coming event. |
| ConstantDelay.NoHarmNoneOvertaken | src/hft_pm/simulator/latency.py:40-50 | With a constant delay L: if the tape has no harmful pair, that is no event exactly L after an earlier one that is either the event before it or itself at least L after the first event, then no callback of any untripped run schedules an arrival for the time of an event already off the tape. |
| ConstantDelay.EnginesAgreeOnTape | src/hft_pm/live/paper_trade.py:335-445 | Hence, on a tape without a harmful pair, the engines agree on every untripped run. |
| HarmfulTies.HarmSeparates | src/hft_pm/live/paper_trade.py:335-372 | On every sorted tape with a harmful pair, from any book and under any limits, a strategy acting on market events only and reading no numbers is brought by the paper trader into a state that the backtest of the tape never reaches. |
| HarmfulTies.HarmlessAgree | src/hft_pm/live/paper_trade.py:335-445 | The other half for strategies of any state type: without a harmful pair every untripped run agrees with some state of the backtest. |
| HarmfulTies.AgreementIff | src/hft_pm/live/paper_trade.py:335-445 | With a constant delay: no such strategy, no limits and no untripped run of the tape tell the two engines apart if and only if the tape has no harmful pair. |
| NumberedEngines.SecondNumberSeparates | src/hft_pm/live/paper_trade.py:344 | On every sorted tape of two events or more, under any latency and any limits: a strategy acting on market events only reads number 1 on the second event in the backtester and 2 in the paper trader, and sizes its order by it. |
| NumberedEngines.ReadersAgreeIff | src/hft_pm/live/paper_trade.py:335-445 | For strategies that may read numbers: nothing tells the engines apart if and only if the tape has at most one event. |
| EngineEquivalence.QuotersActOnMarketOnly | src/hft_pm/strategies/quoting.py:62-67 | Quoting strategies with the default kinds meet the hypothesis on the strategy. |
| TieBreak.TiesMakeEnginesDiffer | src/hft_pm/live/paper_trade.py:338 | The smallest harmful tape, spelled out: two events of one millisecond after which the backtester has no fill and the paper trader has one. |
| TieBreak.NumbersMakeEnginesDiffer | src/hft_pm/live/paper_trade.py:344 | The smallest case of the numbers, without any tie: the second market event gets 1 in the backtester and 2 in the paper trader. |
| Replay.ReadNext | src/hft_pm/data/replay.py:139-157 | The lazy shard reader yields the next event and skips exactly the lines that do not parse. |
| Replay.PopLeast | src/hft_pm/data/replay.py:144 | Extract-min under (timestamp, receive time, tie number). |
| Replay.Prime | src/hft_pm/data/replay.py:129-141 | Every shard with an event has exactly its first event on the heap. |
| Replay.Merge | src/hft_pm/data/replay.py:114-157 | The output is an interleaving of the shards (each in its own order, nothing lost or duplicated), has as many events as the shards together, and it, and with it the tape handed to the engine, is non-decreasing in time if and only if no shard regresses. |
| Replay.AllOrderedIffNoRegression | src/hft_pm/data/replay.py:187-200 | Zero counted regressions is the same as every shard being sorted, pair by pair. |
| Replay.OrderedIsSortedTape | src/hft_pm/simulator/engine.py:194-200 | Replayed records are in order of time if and only if they make the sorted tape the engine relies on. |
| ReplayScan.ScanShard | src/hft_pm/data/replay.py:174-200 | One shard: counters and gap list grow by exactly what its lines hold, the previous timestamp starting afresh. |
| ReplayScan.GapsAreExact | src/hft_pm/data/replay.py:188-199 | A gap is reported for a line if and only if its event is earlier than the event before it in the shard, with the right line number and timestamps. |
| ReplayScan.GapsNameLines | src/hft_pm/data/replay.py:188-199 | A gap is reported exactly for a line whose event is earlier than that of the last line with an event before it, with asset, file, line number from 1 and both times. |
| ReplayScan.LinesCounted | src/hft_pm/data/replay.py:174-187 | The counters are the numbers of lines with an event, of undecodable or invalid lines, and of lines of unknown type. |
| ReplayScan.VerifyNoGaps | src/hft_pm/data/replay.py:159-201 | Event, bad-line and unknown-type counts over all shards; the out-of-order count is the number of regressions and of gaps. |
| ReplayScan.ReplayAndVerify | src/hft_pm/data/replay.py:114-201 | Merge length = reported events, and the merge is sorted if and only if the scan reports zero out of order. |
| AssetStreams.StreamRegressions | src/hft_pm/data/replay.py:159-200 | For every asset: the regressions of its stream, shard after shard, are the gaps the scan reports for it plus the shard boundaries at which its time goes back. |
| AssetStreams.ReportedIffBoundariesKept | src/hft_pm/data/replay.py:159-171 | So the scan reports all the regressions of an asset, as documented, if and only if wherever its stream goes on in another shard the first event there is not earlier than the last one before. |
| AssetStreams.StreamsInOrderIff | src/hft_pm/data/replay.py:159-200 | Every asset has its stream in order if and only if the scan reports zero out of order and every such boundary is kept. |
| AssetStreams.CleanScanIff | src/hft_pm/data/replay.py:159-200 | Given a zero: the streams are in order if and only if the boundaries are kept. |
| AssetStreams.BoundaryRegressionGoesUnreported | src/hft_pm/data/replay.py:169-171 | The failing case: two dates of one asset, the second beginning before the first ends; zero reported, no gap, one regression in the stream. |
| PurgedCv.PurgedCpcvSplits | src/hft_pm/validation/purged_cv.py:49-77 | Rejected exactly for the listed argument errors, in their order; otherwise C(G,k) splits, the j-th for the j-th combination, every sample tested in exactly C(G-1,k-1) of them. |
| PurgedCv.TestIndices | src/hft_pm/validation/purged_cv.py:67-69 | The test indices are exactly the samples of the chosen groups, ascending. |
| PurgedCv.Forbidden | src/hft_pm/validation/purged_cv.py:70-74 | The forbidden set is exactly the samples within a chosen group widened by the purge before and the embargo after. |
| PurgedCv.TrainIndices | src/hft_pm/validation/purged_cv.py:75 | Training is the ascending complement of the forbidden set. |
| PurgedCv.GroupsPartition | src/hft_pm/validation/purged_cv.py:60-64 | The group ranges partition the samples, the last one taking the remainder. |
| PurgedCv.GroupSizes | src/hft_pm/validation/purged_cv.py:60-64 | All groups but the last have n // G samples, the last has the remainder as well. |
| PurgedCv.TrainAvoidsTest | src/hft_pm/validation/purged_cv.py:33-35 | No training sample is within the purge window before or the embargo after any test sample. |
| PurgedCv.TestedEqually | src/hft_pm/validation/purged_cv.py:66-76 | Every sample is tested in exactly C(G-1,k-1) splits. |
| Combinatorics.ListsCombinations | src/hft_pm/validation/purged_cv.py:66 | The enumeration lists exactly the ascending k-tuples of the range. |
| Combinatorics.CombinationsDiffer | src/hft_pm/validation/purged_cv.py:66 | No combination is listed twice. |
| Combinatorics.ListedInOrder | src/hft_pm/validation/purged_cv.py:66 | The listing is in strict lexicographic order. |
| Combinatorics.CountCombinations | src/hft_pm/validation/purged_cv.py:66 | There are C(n,k) of them. |
| Combinatorics.CountContaining | src/hft_pm/validation/purged_cv.py:66 | Each index lies in C(n-1,k-1) of them. |
| Combinatorics.ChooseIsBinomial | src/hft_pm/validation/purged_cv.py:32 | Those counts are the binomial coefficients: C(n,k) k! (n-k)! = n!. |
| Hawkes.FillRecurrence | src/hft_pm/hawkes/mle.py:58-63 | The recurrence fills the array with the double sum R_i = sum over j<i of exp(-beta (t_i - t_j)). |
| Hawkes.HawkesLogLikelihood | src/hft_pm/hawkes/mle.py:49-74 | The value in terms of the double sum; infinite if and only if the parameters are out of range, so the guard on non-positive intensities never fires. |
| Hawkes.HawkesIntensity.Create | src/hft_pm/hawkes/intensity.py:41-52 | A tracker exists exactly for mu >= 0, alpha >= 0, beta > 0. |
| Hawkes.HawkesIntensity.Update | src/hft_pm/hawkes/intensity.py:54-74 | Refused, with nothing changed, exactly when time goes back; otherwise mu plus the kernel sum over all events reported so far. |
| Hawkes.TrackerAgrees | src/hft_pm/hawkes/intensity.py:66-72 | Fed the events of the likelihood, the tracker holds alpha (R_i + 1) after event i. |
| Hawkes.IntensityIsTracked | src/hft_pm/hawkes/mle.py:64-68 | The intensity in the likelihood at event i is what the tracker fed the earlier events shows at that time. |
| Hawkes.TailsGrow | src/hft_pm/hawkes/mle.py:69-73 | The compensator over a stretch is what the kernel sum has decayed by in it. |
| Hawkes.QuietCallsAreInvisible | src/hft_pm/hawkes/intensity.py:66-73 | Calls without an event inserted anywhere never change a later value. |
| Vpin.VPINCalculator.AddTrade | src/hft_pm/signals/vpin.py:50-82 | Closed form of the loop: the buckets closed, with their volumes, common sell share and mean price, the residual, and the price sum and count the next trade goes on from; nothing for a volume that is not positive. |
| Vpin.VPINCalculator.Drain | src/hft_pm/signals/vpin.py:61-82 | The closing loop closes as many buckets as fit in the volume present; afterwards price sum and count are untouched (none closed), the mean and one (something left over) or zero (nothing left). |
| Vpin.VPINCalculator.CloseBucket | src/hft_pm/signals/vpin.py:63-65 | The kept buckets are the trailing n_buckets of all ever closed. |
| Vpin.ClosedCountIsWhole | src/hft_pm/signals/vpin.py:61-82 | Total volume = bucket volume x buckets ever closed + residual with 0 <= residual < bucket volume, so the count depends on the total only; min(n_buckets, closed) are kept. |
| Vpin.RecordsOneBucketIff | src/hft_pm/signals/vpin.py:63 | A bucket records more than one bucket volume, except, and only then, the last of a trade that leaves nothing over. |
| Vpin.Value | src/hft_pm/signals/vpin.py:84-97 | Zero without a closed bucket, else the mean of the terms of the kept buckets. |
| Vpin.TermIs | src/hft_pm/signals/vpin.py:84-97 | The term of a bucket times its volume times sqrt(p(1-p)), p kept a millionth away from 0 and 1, is |buy - sell|. |
| Vpin.MeanIs | src/hft_pm/signals/vpin.py:61-64 | The price of a bucket is the average of the prices added up for it. |
| Vpin.OverstatementCancels | src/hft_pm/signals/vpin.py:92-97 | The overstated volumes do not show: the terms of the kept buckets, whatever trades closed them, are those of buckets of exactly one bucket volume with the same shares and prices. |
| Vpin.TradeTermsAreEqual | src/hft_pm/signals/vpin.py:63-97 | All buckets one trade closes have the same term. |
| Ofi.OFICalculator.Update | src/hft_pm/signals/ofi.py:47-82 | The value is the sum of the queue, and the sum of e_n over exactly the later observations in [now - window, now] whenever the times are orderly, so whenever time does not go back. |
| Ofi.OFICalculator.Evict | src/hft_pm/signals/ofi.py:88-92 | Drops the longest stale prefix and keeps the running sum equal to the sum of the queue. |
| Ofi.AlwaysExactIff | src/hft_pm/signals/ofi.py:76-92 | Over whole histories: the queue is exactly the window after every update if and only if, by the times alone, a stale observation has only stale ones before it and stays stale. |
| Ofi.QueueIsWindowIff | src/hft_pm/signals/ofi.py:76-92 | One update in any history: the queue is exactly the window if and only if every event evicted before is still stale and no stale one waits behind a fresh one. |
| Ofi.EvictionExactIff | src/hft_pm/signals/ofi.py:88-92 | For any times: popping stale events off the front keeps exactly those inside the window if and only if no event inside the window waits in front of a stale one. |
| Ofi.TimeGoingBackKeepsStaleFlow | src/hft_pm/signals/ofi.py:88-92 | When time goes back the value need not be the window sum: a four-observation example. |
| Ofi.FlowAntisymmetric | src/hft_pm/signals/ofi.py:61-75 | Exchanging bid and ask of the market negates the flow. |
| Ofi.FlowWithIndicators | src/hft_pm/signals/ofi.py:61-75 | The flow equals the indicator form of Cont, Kukanov and Stoikov. |
| Ofi.QuietFlowsTelescope | src/hft_pm/signals/ofi.py:47-82 | While the best prices stay, flows add up to what the bid gained less what the ask gained. |

## Left out

- BacktesterClass.Backtester.Run: is given a number of iterations to stop after, since a strategy that keeps acting on its own arrivals never ends; it is any number, and `Termination.BoundedRunEnds` gives one within which other runs have ended.
- Binary heap layout: a heap is a sequence ordered by (timestamp, seq) with insertion and extract-min; the array layout of heapq is not modelled.
- Quoting.OnEvent: the quoting strategies of the repository do not read the event's sequence number, so the pricing function of the model is not given it.
- Randomness: `GaussianLatency` is any latency function of the draw number; the synthetic tape generators and the shuffle test are left out.
- Floating point: rounding error is not modelled; `exp`, `log` and `sqrt` are functions with the laws that the proofs name.
- Input ranges: trade sizes are non-negative, ticks positive and timestamps non-negative by their types; malformed values of these are not modelled.
- Runs start from a book with public levels but no orders of ours, as both engines create it.
- Input and output: WebSocket client, reconnects, asyncio scheduling inside a turn, JSON and configuration parsing, log records other than the number of halt records.
- `client.stop()`: a halted trader may go on receiving turns in the model, which only makes the halt theorem stronger.
- Pricing: the Avellaneda-Stoikov, GLT and constant-spread formulas and microprice are one arbitrary function; only their withdraw gates are modelled. GLT snaps after its range guard, so no claim is made that quotes lie inside (0, 1).
- `KillSwitch.can_open`: no strategy and no engine calls it, so there is no inventory cap to prove over runs.
- Statistics and fitting: `fit_hawkes`, calibration, deflated Sharpe, Diebold-Mariano, backtest overfitting, Sharpe ratios.
- Strategy factory, configuration merging, shard discovery on disk and the command line: little structure.
