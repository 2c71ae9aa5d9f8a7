# Exchange back end: a verified model

The project models the parts of the exchange that compute: the matching engine and the order book it publishes, the
ticker engine, the on-chain transaction pipeline, and the fee and chart arithmetic. Decimal numbers are exact
rationals; the one explicit rounding of the engine, the floor of a purchased quantity to 15 decimals, and the
tolerance of 10^-7 are modelled as they are.

**Matching engine.** `Orders`, `Matching`, `Fills` and `Queues` hold the order, the matching loop as a small-step system
with the greedy fold it computes, what the trades account for, and the price-time ranking. `EngineModel` is the engine
as a transition system over values (books, expiry queue, priority map, received actions, pending inputs, outputs,
order-book events); `EngineInvariant`, `EngineRuns`, `EngineReturns`, `EngineDeltas`, `EngineHistory`, `EngineLedger`
and `Accounting` prove what every step and every run keeps, and when a tick returns at all. `EnginePriority` says in
what order orders stand, trade and are processed, by price, update and arrival; `EngineOutputs` what every step puts out
and how every order ends. `Entities`, `EngineLoop` and `MatchingEngine` are the mutable order entity, priority queue and
engine, each method proved to take the step of the model and to hold no order objects but those it held or was given.
`OutputStream` stores trades, `Orderbook` keeps the published rows, `AsyncQueue` is the queue between the threads, and
`PublishedBook` puts engine and stream together: what is published is what rests. `EngineCalls` is the engine from
outside, messages and the halves of ticks in any order (a tick awaits its input, so messages may come in between), and
shows that they make runs of the model; `EngineConsole` is the command that creates the engine object, loads orders into
it, runs it and publishes, so that the theorems about runs hold of the objects. `EngineExamples` holds concrete runs.

**Ticker.** `Tickers` defines what a second's data has to say about the trades so far; `TickerSeries` says what one
update does to any cache and when the entries stay such a series, late trades, gaps and expiring entries included;
`TickerEngine` is the cache-backed engine, each method proved to make that update; `TickerRuns` follows whole runs of
arrivals, empty trades and ticks from start-up; `TickerArrivals` says what the series show of the trades that arrived;
`TickerExamples` holds a concrete run.

**Pipeline.** `Pipeline` is the four worker processes per network as interleaved reads and writes of shared rows, with
crashes.

**Fees and charts.** `StellarFees`, `FeeBars` and `Chart`.

Where the code falls short of what one would expect of it, the exact condition is proved or a concrete input is given:

- the matching loop can run for ever on prices above 10^8 (`Matching.SettlesIff`,
  `EngineReturns.UnsafePriceStalls`), and never does when all prices are at most that (`EngineReturns.TicksReturn`);
- a cancel of an order that has left the book publishes an event with nothing behind it
  (`EngineDeltas.CancelAgreesIff`, `EngineDeltas.StaleCancelLeavesPhantomRow`), or a row of zero
  (`PublishedBook.SpentCancelLeavesEmptyRow`, `EngineExamples.SpentOrderIsCancelled`);
- a dequeued cancel that shows the wrong side of a resting order leaves it in the book, unknown to the maps
  (`EngineInvariant.CancelKeepsIff`, `EngineExamples.WrongSideCancelStrands`); the back end sends cancels with the
  order's own row (src/modules/orders/orders.service.ts:91), whose side does not change, so it sends no such cancel;
- published levels are rounded away below the tolerance (`Orderbooks.AlwaysExactIff`, `Orderbooks.DriftIsBounded`,
  `PublishedBook.SmallRestIsNotShown`);
- orders loaded at start-up are not checked for duplicates, and one streamed before it is loaded rests twice
  (`EngineRuns.PreProcessReceivesIff`, `EngineRuns.PreProcessKeepsIff`, `EngineExamples.StreamedThenLoaded`); trades
  loaded by the ticker are counted again when they are streamed (`TickerArrivals.EachCountsOnceIff`);
- a late ticker trade that runs into seconds a process before has left takes LAST with it
  (`TickerSeries.LateTradeKeepsIff`, `TickerExamples.OldEntriesTakeLast`); from the first round of empty trades on none
  can, so the trades that come before it decide (`TickerArrivals.EarlyTradesDecide`, `TickerRuns.RestartCalm`);
- the Stellar fees of a limit order that has a total are charged by amount and refunded by total
  (`StellarFees.ConservedIff`, `StellarFees.LimitWithTotalLosesHalf`), and those of an order whose amount was raised
  after a trade are refunded by the new amount (`StellarFees.RaisedAmountCharges`, `StellarFees.RaisedConservedIff`,
  `StellarFees.RaisedAmountIsRefunded`);
- two pickers, two signers or two senders on one network can put two transactions in process
  (`Pipeline.OneAtATimeIff`).

What is assumed of the surroundings: orders have a positive price and a fee rate in [0, 1); one clock reading serves one
call and clocks do not go back; in the runs of the engine a dequeued cancel shows the side of the order it names. In the
runs of the ticker each method is configured once and not empty, loaded trades come in order of time as the query sorts
them, every trade is handled within 36 hours of its second and not before it, streamed trades are rows of one table and
lie in the span the series began with, and after a restart within the life of the old entries no late trade meets one of
them. Ids of streamed trades come from an auto-increment column (src/models/entities/trade.entity.ts:6-7), so the id 0
that the duplicate test would let through does not occur. Trades and bar boundaries of the fee statistics come in order
of time; chart rows have distinct times aligned to the interval; the reading database connection sees the latest writes.

## Model

| member | source | states |
|---|---|---|
| `Orders.FillAccounts` | src/models/entities/order.entity.ts:113-119 | a fill keeps the order well formed and adds exactly the quantity and its quote value, net of the fee, to what the order had filled; only an amount-type order loses remaining |
| `Orders.SafePriceIff` | src/modules/matching-engine/engine/matching-engine.ts:306-317 | 10^8 is exactly the price up to which every budget the loop guard lets through buys a positive quantity after the floor to 15 decimals |
| `Matching.QuantityFacts` | src/modules/matching-engine/engine/matching-engine.ts:306-317 | a trade never exceeds the maker, never overspends the budget, leaves less than one unit of price when the taker is limiting, and is positive for an amount-type taker |
| `Matching.LoopComputesGreedyFill` | src/modules/matching-engine/engine/matching-engine.ts:226-249 | where it ends, the peek/poll/re-add loop ends in the state of the recursive fold over the sorted makers, within one iteration per maker |
| `Matching.LoopTerminatesIff` | src/modules/matching-engine/engine/matching-engine.ts:228-249 | the matching loop terminates if and only if every maker visited is used up or leaves the taker unable to match |
| `Matching.SettlesIff` | src/modules/matching-engine/engine/matching-engine.ts:228-249 | the same condition read off the book before the call: it fails exactly at a maker reached with at least EPSILON left whose floored purchase leaves at least EPSILON unspent |
| `Matching.AmountTakerSettles` | src/modules/matching-engine/engine/matching-engine.ts:228-249 | for an amount-type taker the loop always ends |
| `Matching.SafePricesSettle` | src/modules/matching-engine/engine/matching-engine.ts:228-249 | with all maker prices at most 10^8 the loop ends for every taker |
| `EngineReturns.TicksReturn` | src/modules/matching-engine/engine/matching-engine.ts:163-185 | in every state a run can reach on orders priced at most 10^8, every tick returns, at any clock |
| `EngineReturns.UnsafePriceStalls` | src/modules/matching-engine/engine/matching-engine.ts:215-249 | a concrete run from the start: an ask at 2*10^8 comes to rest, a market order with a total of 10^-7 arrives, and until it expires no dequeue returns |
| `Fills.FillIsAccounted` | src/modules/matching-engine/engine/matching-engine.ts:280-304 | after matching, taker and every maker differ from before by exactly the trades that name them |
| `Fills.FillInPriority` | src/modules/matching-engine/engine/matching-engine.ts:226-249 | trades go to the makers in queue order, each for what its remainder dropped by, all but the last are used up, the rest is untouched |
| `Fills.AmountTakerTakesMinimum` | src/modules/matching-engine/engine/matching-engine.ts:306-317 | an amount-type taker gets the smaller of what it wants and what the book offers within its limit |
| `Fills.BudgetSpent` | src/modules/matching-engine/engine/matching-engine.ts:338-343 | the budget left is the budget minus the value traded and is never negative |
| `Fills.LevelsSpent` | src/modules/matching-engine/engine/matching-engine.ts:236-244 | at every price what stood in the book is what was traded there plus what is left |
| `Queues.RankingIsStrictAndTotal` | src/modules/matching-engine/engine/matching-engine.ts:23-44 | among live orders price, time and arrival priority make a strict total order; which one it is says `EnginePriority.PriceTimePriority` |
| `Queues.InsertedInPlace` | src/modules/matching-engine/engine/matching-engine.ts:23-44 | what stands in front of an order added has no worse price and, at its price, no later update; what stands next has no better |
| `EnginePriority.PriceTimePriority` | src/modules/matching-engine/engine/matching-engine.ts:23-44 | in every reachable state a side stands by price, bids from the highest, asks from the lowest, at one price by earlier update, and at one time of update in the order in which the creates came |
| `EnginePriority.EarlierIsUsedUp` | src/modules/matching-engine/engine/matching-engine.ts:226-249 | after any run, if an order trades with the create processed next, every order that comes before it by price, update and arrival trades all it had left in the same call and leaves the book |
| `EnginePriority.FirstInFirstOut` | src/modules/matching-engine/engine/matching-engine.ts:101-140 | after any run what waits is, in order, what was accepted (an id's first create, then its first cancel), less as many from the front as were dequeued |
| `Queues.InsertKeepsRanking` | src/modules/matching-engine/util/fast-priority-queue.ts:11-13 | adding an order keeps the queue ranked |
| `Queues.RemoveFacts` | src/modules/matching-engine/engine/matching-engine.ts:345-350 | removal takes out the order with the id and no other |
| `EngineInvariant.CancelKeeps` | src/modules/matching-engine/engine/matching-engine.ts:187-198 | a cancel removes the id from the book, the expiry queue and the priority map together |
| `EngineInvariant.CancelKeepsIff` | src/modules/matching-engine/engine/matching-engine.ts:187-198 | a cancel of anything not pending keeps the invariant if and only if the id does not rest on the other side |
| `EngineInvariant.ReceiveKeeps` | src/modules/matching-engine/engine/matching-engine.ts:101-134 | any input, new, repeated or unknown, keeps the engine invariant |
| `EngineInvariant.MatchKeeps` | src/modules/matching-engine/engine/matching-engine.ts:226-254 | matching keeps books ranked, uncrossed and in agreement with maps and expiry queue |
| `EngineInvariant.OpenTakerDoesNotCross` | src/modules/matching-engine/engine/matching-engine.ts:228-249 | where the loop ends with a limit taker still open, no maker left reaches its price |
| `EngineInvariant.SubmitKeeps` | src/modules/matching-engine/engine/matching-engine.ts:212-270 | processing a live order keeps the invariant whenever the loop ends |
| `EngineRuns.SweepKeeps` | src/modules/matching-engine/engine/matching-engine.ts:200-210 | after the sweep no expired order rests |
| `EngineRuns.StepKeeps` | src/modules/matching-engine/engine/matching-engine.ts:163-185 | a step the engine returns from keeps the invariant if and only if it is not a cancel that shows the wrong side of a resting order |
| `EngineRuns.BookNeverCrossed` | src/modules/matching-engine/engine/matching-engine.ts:212-270 | in every reachable state each bid is strictly below each ask and only open limit orders rest |
| `EngineRuns.BookkeepingAgrees` | src/modules/matching-engine/util/helper.ts:168-173 | in every reachable state the ids in the books are those in the expiry queue; the priority map holds these and the pending creates, so with nothing pending all counts agree |
| `EngineRuns.PreProcessReceivesIff` | src/modules/matching-engine/engine/matching-engine.ts:142-148 | loading orders without the duplicate check equals receiving them one by one if and only if no id repeats or was seen before |
| `EngineRuns.PreProcessKeepsIff` | src/modules/matching-engine/engine/matching-engine.ts:142-148 | loading keeps the invariant if and only if no id repeats, is live or is named by a pending input |
| `EngineDeltas.CancelAgreesIff` | src/modules/matching-engine/engine/matching-engine.ts:187-198 | a dequeued cancel keeps published events and book in agreement if and only if it carries what its order still has in the book, at its price |
| `EngineDeltas.StepAgreesIff` | src/modules/matching-engine/engine/matching-engine.ts:163-185 | a step from agreement keeps agreement if and only if it is not a cancel of the other kind |
| `EngineDeltas.EventsDescribeBook` | src/modules/matching-engine/engine/matching-engine.ts:187-270 | after any run of such steps the events at each side and price sum to the remaining amounts resting there |
| `EngineDeltas.StaleCancelLeavesPhantomRow` | src/modules/matching-engine/engine/matching-engine.ts:187-198 | a concrete run: cancelling an order that has expired publishes -1 with nothing behind it |
| `EngineHistory.AcceptedHistories` | src/modules/matching-engine/engine/matching-engine.ts:101-134 | for every id a run enqueues nothing, a create, or a create and then a cancel |
| `EngineHistory.TradesHaveMakers` | src/modules/matching-engine/engine/matching-engine.ts:226-249 | every trade is with an order that was resting when the taker was processed |
| `EngineHistory.TickTradesOnlyUnexpired` | src/modules/matching-engine/engine/matching-engine.ts:163-210 | no maker that was expired when the tick swept trades in that tick |
| `EngineOutputs.ProcessedOutputs` | src/modules/matching-engine/engine/matching-engine.ts:212-270 | processing an order puts out its trades in one match, if there are any, then its cancel exactly if it was expired or is a market order of which something is left: of an amount more than was traded, of a total at least EPSILON; a live limit order is never cancelled |
| `EngineOutputs.StepOutputs` | src/modules/matching-engine/engine/matching-engine.ts:101-210 | a message puts out a cancel exactly if it cancels an order never created, a sweep one for each order swept, a dequeued cancel one; nothing else but processing an order puts out anything |
| `EngineOutputs.SweptAreExpired` | src/modules/matching-engine/engine/matching-engine.ts:200-210 | a sweep takes exactly the expired orders out of the book |
| `EngineOutputs.CreatesAreTaken` | src/modules/matching-engine/engine/matching-engine.ts:136-140 | over any run every order created still waits or has been processed |
| `EngineOutputs.EveryOrderEnds` | src/modules/matching-engine/engine/matching-engine.ts:212-270 | over any run a processed order has its cancel among the outputs, or has traded all it asked for (of a total all but EPSILON), or, a limit order, rests with what it has left |
| `EngineLedger.StepLedger` | src/modules/matching-engine/engine/matching-engine.ts:280-343 | every step keeps, for every order ever submitted, its state equal to its submission plus its trades, and every trade within both limits |
| `Accounting.CreatedIsConserved` | src/modules/orders/orders.service.ts:188-192 | an order as created satisfies filled*(1-fee) + remaining = amount*(1-fee), with nothing filled |
| `Accounting.AmountIsConserved` | src/modules/matching-engine/engine/matching-engine.ts:330-336 | over any run that relation holds at the end if and only if it held when the order came, new or part-filled; what was filled in the run is the sum of its trades and at most what it still asked for |
| `Accounting.AverageIsWeightedPrice` | src/modules/matching-engine/engine/matching-engine.ts:323-336 | over any run average*filled, net of the fee, grows by the sum of price*quantity of the trades |
| `Accounting.AverageRespectsLimit` | src/modules/matching-engine/engine/matching-engine.ts:323-336 | over any run an order whose average was within its limit, or that had filled nothing, ends with an average within its limit |
| `Accounting.TotalNeverOverspent` | src/modules/matching-engine/engine/matching-engine.ts:220-245 | over any run a total-type order trades at most total*(1-fee), and what it spent, fees included, grows by at most the total |
| `Accounting.FeesMatchFills` | src/modules/matching-engine/output/order-output-stream.ts:102-106 | over any run the sell fees of an order are fee times what it filled in the run, the buy fees fee times what that was worth |
| `Accounting.AcrossRestarts` | src/modules/matching-engine/matching-engine.console.ts:46-48 | over any number of engine runs, each loading the order as the one before left it, it differs from its first submission by exactly all its trades, and conservation and the limit on its average carry over |
| `Accounting.AmountStatus` | src/models/entities/order.entity.ts:203-215 | over any run an amount-type order shows fillable, filling or fulfilled according to how much of what it asked for was traded, in this run or before |
| `Accounting.LeftoverDecides` | src/modules/matching-engine/engine/matching-engine.ts:256-261 | the budget left decides: below EPSILON*(1-fee) fulfilled, from there partially filled, and a cancel only from EPSILON on |
| `Accounting.LeftoverIsCancelled` | src/modules/matching-engine/engine/matching-engine.ts:252-261 | a total-type order never rests, and a cancel follows its trades exactly when at least EPSILON is left |
| `Accounting.StatusByLeftover` | src/models/entities/order.entity.ts:203-215 | the status of a total-type order in terms of what its fills leave of the budget |
| `EngineLoop.ProgressStep` | src/modules/matching-engine/engine/matching-engine.ts:228-249 | an iteration in the running engine does one step of the fold and trades a positive quantity |
| `Entities.OrderEntity.UpdateStatus` | src/models/entities/order.entity.ts:198-201 | stores and returns the status of the current state and changes nothing else |
| `Entities.OrderEntity.UpdateAverageAndFilledAmount` | src/modules/matching-engine/engine/matching-engine.ts:330-336 | the entity becomes the filled order |
| `Entities.FastPriorityQueue.Add` | src/modules/matching-engine/util/fast-priority-queue.ts:11-13 | the queue becomes the insertion of the order behind all it does not precede; where that is says `Queues.InsertedInPlace` |
| `Entities.FastPriorityQueue.Poll` | src/modules/matching-engine/util/fast-priority-queue.ts:27-29 | returns and removes the first of the ranking |
| `Entities.FastPriorityQueue.RemoveOne` | src/modules/matching-engine/util/fast-priority-queue.ts:15-17 | removes the one item with the id, keeps the rest in order |
| `MatchingEngines.MatchingEngine.OnNewOrderAction` | src/modules/matching-engine/engine/matching-engine.ts:101-134 | takes the step of the model and keeps the object valid; the queues hold nothing new but the order of a create, and exactly an accepted input joins the pending ones |
| `MatchingEngines.MatchingEngine.CancelOrder` | src/modules/matching-engine/engine/matching-engine.ts:187-198 | one cancel of the order is put out, resting or not; queues, maps and, for a resting one, the event change as the model's cancel, with the remaining the object shows |
| `MatchingEngines.MatchingEngine.CancelExpiredOrders` | src/modules/matching-engine/engine/matching-engine.ts:200-210 | the loop cancels expired orders in order of expiry until none is left |
| `MatchingEngines.MatchingEngine.MatchOrders` | src/modules/matching-engine/engine/matching-engine.ts:280-304 | buyer and seller, the maker's price and the quantity; both entities filled; the engine untouched |
| `MatchingEngines.MatchingEngine.TakeFront` | src/modules/matching-engine/engine/matching-engine.ts:229-244 | one iteration on the queues equals one step of the loop on values |
| `MatchingEngines.MatchingEngine.MatchMakers` | src/modules/matching-engine/engine/matching-engine.ts:228-249 | the whole loop computes the greedy fold and the engine state after it |
| `MatchingEngines.MatchingEngine.ProcessOrder` | src/modules/matching-engine/engine/matching-engine.ts:212-270 | trades, book, maps, outputs and events are those of the model, whose outputs `EngineOutputs.ProcessedOutputs` spells out; the queues hold nothing new but the order processed |
| `MatchingEngines.MatchingEngine.ProcessNext` | src/modules/matching-engine/engine/matching-engine.ts:174-180 | dequeues the next input and takes its step; the object stays valid exactly if it is not a cancel showing the wrong side; it holds no order object it did not hold |
| `MatchingEngines.MatchingEngine.OnTick` | src/modules/matching-engine/engine/matching-engine.ts:163-185 | a sweep, then the next input; valid afterwards on the same condition; it writes only to what it holds and holds nothing new |
| `MatchingEngines.MatchingEngine.PreProcess` | src/modules/matching-engine/engine/matching-engine.ts:142-148 | enqueues any creates without the duplicate check; valid afterwards exactly if no id repeats, is live or pending; it then holds exactly the inputs' objects besides its own |
| `MatchingEngines.MatchingEngine.OnMessage` | src/modules/matching-engine/engine/matching-engine.ts:66-73 | a message, read into an object of its own, is received as in the model, and the object of an accepted cancel keeps showing what the message showed |
| `MatchingEngines.MatchingEngine.Load` | src/modules/matching-engine/engine/matching-engine.ts:142-148 | loading rows with ids not received before is receiving them as messages |
| `MatchingEngines.MatchingEngine.Start` | src/modules/matching-engine/engine/matching-engine.ts:150-161 | any interleaving of messages, sweeps and inputs that return the object goes through is played by the model; the object stays valid and holds nothing but what it held and what came |
| `EngineCalls.TickPlays` | src/modules/matching-engine/engine/matching-engine.ts:163-185 | a tick no message comes into is a sweep and then an input |
| `EngineCalls.CallsAreRun` | src/modules/matching-engine/engine/matching-engine.ts:101-185 | whatever the engine goes through call by call is a legal run of the model, one in which cancels name resting orders and carry their own remainder if the messages do |
| `EngineConsole.OrdinaryEngineReturns` | src/modules/matching-engine/engine/matching-engine.ts:163-185 | from start-up on, with orders priced at most 10^8 and cancels that show their order's side, every call of every interleaving returns |
| `EngineConsole.StartEngine` | src/modules/matching-engine/matching-engine.console.ts:30-49 | a new engine, messages that come early, the loaded orders and any further interleaving are one sequence of calls the objects play, and all events are published |
| `EngineConsole.QueuesNeverCross` | src/modules/matching-engine/engine/matching-engine.ts:150-185 | however the calls go, in the engine object's queues every bid is below every ask and only open limit orders wait |
| `EngineConsole.QueuesStandInOrder` | src/modules/matching-engine/engine/matching-engine.ts:23-44 | however the calls go, the objects in a queue stand by price, then update, then arrival of their creates |
| `EngineConsole.RowsShowQueues` | src/modules/matching-engine/output/redis-orderbook-stream.ts:62-77 | once all events are published the row at a price is what the objects in the queue have left there together, and there is none exactly where there is no such object |
| `EngineExamples.SpentOrderIsCancelled` | src/modules/matching-engine/engine/matching-engine.ts:187-198 | a concrete run: an order is bought out and then cancelled, and a row of zero stands where nothing rests |
| `EngineExamples.WrongSideCancelStrands` | src/modules/matching-engine/engine/matching-engine.ts:187-198 | a concrete run: a cancel that shows the wrong side leaves the order in the book, out of the maps and the expiry queue |
| `EngineExamples.StreamedThenLoaded` | src/modules/matching-engine/engine/matching-engine.ts:136-148 | a concrete run: an order streamed before it is loaded comes to rest twice |
| `MatchingEngines.FrontStaysInFront` | src/modules/matching-engine/engine/matching-engine.ts:240-241 | re-adding a partly filled maker puts it back in front |
| `OutputStreams.OrderOutputStream.PublicTrades` | src/modules/matching-engine/output/order-output-stream.ts:52-78 | per trade one row, with the trade's orders, price, quantity and taker, and one settlement of it, all in order; every order shows the status of its state |
| `OutputStreams.OrderOutputStream.CancelOrder` | src/modules/orders/orders.service.ts:280-293 | an order with nothing filled becomes canceled, another partially filled, and one settlement of it is stored |
| `OutputStreams.OrderOutputStream.Publish` | src/modules/matching-engine/output/order-output-stream.ts:39-50 | a match stores its trades, a cancel its order and no trade |
| `OutputStreams.StoredForRun` | src/modules/matching-engine/output/order-output-stream.ts:87-101 | over any run the amounts stored for an order add up to what it filled and price times amount to what that was worth, both less the fee |
| `OutputStreams.StoredWithinLimits` | src/modules/matching-engine/output/order-output-stream.ts:87-101 | over any run every stored row is between a buy and a sell order, at a price within the limits of both |
| `OutputStreams.StoredFees` | src/modules/matching-engine/output/order-output-stream.ts:87-107 | the fees stored for an order are those its trades amount to |
| `OutputStreams.FeesStoredForRun` | src/modules/matching-engine/output/order-output-stream.ts:87-107 | over any run the sell fees stored for an order that sells are its rate times what it filled, the buy fees stored for one that buys its rate times what that was worth, and nothing of it is stored on the other side |
| `Orderbooks.RedisOrderbookStream.FindCurrentRow` | src/modules/matching-engine/output/redis-orderbook-stream.ts:105-125 | the row at the price, or the place where one keeps the order; -1 in an empty book |
| `Orderbooks.RedisOrderbookStream.Publish` | src/modules/matching-engine/output/redis-orderbook-stream.ts:62-77 | bids stay strictly sorted from the highest price, asks from the lowest; the event's level changes as stated, no other level or side changes |
| `Orderbooks.RedisOrderbookStream.Drain` | src/modules/matching-engine/engine/matching-engine.ts:90-99 | publishing a queue of events in order leaves every level as its history says |
| `Orderbooks.DriftIsBounded` | src/modules/matching-engine/output/redis-orderbook-stream.ts:69-75 | a level differs from the sum of its events by at most EPSILON per near-zero removal |
| `Orderbooks.AlwaysExactIff` | src/modules/matching-engine/output/redis-orderbook-stream.ts:62-77 | a level is exact after every event if and only if no event starts an empty level with nothing or leaves one strictly between zero and EPSILON |
| `PublishedBook.PublishedBookIsTheBook` | src/modules/matching-engine/output/redis-orderbook-stream.ts:62-77 | after any run in which cancels name resting orders and carry their own remaining, a level is the sum of what rests there, and absent exactly where nothing rests |
| `PublishedBook.StreamShowsBook` | src/modules/matching-engine/output/redis-orderbook-stream.ts:62-77 | the same for the rows of the stream itself |
| `PublishedBook.SpentCancelLeavesEmptyRow` | src/modules/matching-engine/output/redis-orderbook-stream.ts:66-68 | an event of amount zero leaves a row of zero |
| `PublishedBook.SmallRestIsNotShown` | src/modules/matching-engine/output/redis-orderbook-stream.ts:69-75 | a concrete run without cancels: 5*10^-8 rests at a price at which no row is published |
| `AsyncQueues.AsyncBlockingQueue.Enqueue` | src/modules/matching-engine/util/async-blocking-queue.ts:17-20 | the value resolves the earliest promise without one |
| `AsyncQueues.AsyncBlockingQueue.Dequeue` | src/modules/matching-engine/util/async-blocking-queue.ts:22-25 | the i-th call returns the i-th promise |
| `AsyncQueues.AsyncBlockingQueue.IsEmpty` | src/modules/matching-engine/util/async-blocking-queue.ts:27-29 | true exactly when every value has been claimed |
| `AsyncQueues.AsyncBlockingQueue.OneListIsEmpty` | src/modules/matching-engine/util/async-blocking-queue.ts:9-25 | promises or resolvers wait, never both |
| `AsyncQueues.Perform` | src/modules/matching-engine/util/async-blocking-queue.ts:9-29 | under every interleaving the i-th promise handed out is resolved with the i-th value, if there is one |
| `Tickers.LatestIsLatest` | src/modules/ticker/engine/ticker-engine.ts:190-225 | the fold finds the latest-timed trade, the last to arrive among equals |
| `Tickers.CountsCount` | src/modules/ticker/engine/ticker-engine.ts:156-167 | the counts per method are the numbers of trades |
| `Tickers.VenueTakes` | src/shares/enums/trading-method.ts:1-7 | the series of Stellar, BSC or the pool takes that venue's trades only, the combined one those of Stellar and BSC |
| `Tickers.OrderIndependent` | src/modules/ticker/engine/ticker-engine.ts:112-141 | sums and counts do not depend on the order of arrival |
| `TickerSeries.UpdateKeeps` | src/modules/ticker/engine/ticker-engine.ts:112-225 | from a series that is the summary of its trades, an update leaves one that is the summary with the trade added if its second is the last or still served, and unchanged otherwise; newer, simultaneous, late and empty trades |
| `TickerSeries.InTimeIsTaken` | src/modules/ticker/engine/ticker-engine.ts:190-206 | a series with no entry written before its second takes every trade that comes less than 36 hours after its second |
| `TickerSeries.LateTradeKeepsIff` | src/modules/ticker/engine/ticker-engine.ts:190-225 | on a cache with entries of a process before, a late trade leaves LAST at the end of the series if and only if nothing is served right behind it, and then the series takes the trade; one from before the series changes LAST and its second if and only if that second is served |
| `TickerSeries.CurrentBegins` | src/modules/ticker/engine/ticker-engine.ts:117-123 | a trade of the second before a series that has not begun makes it begin one second earlier, with that trade alone |
| `TickerSeries.ExpiryRemovesPrefix` | src/modules/ticker/engine/ticker-engine.ts:248-250 | an entry of a series is served for 36 hours after it was written, and write times do not fall, so expiry removes a prefix |
| `TickerEngines.TickerEngine.AddMissingTickerData` | src/modules/ticker/engine/ticker-engine.ts:169-188 | every second strictly between gets the last data without new trades, nothing else changes |
| `TickerEngines.TickerEngine.UpdateOldTickerData` | src/modules/ticker/engine/ticker-engine.ts:190-225 | on any cache the walk ends at the first second not served; every second before it has the trade worked in and LAST shows the last of them |
| `TickerEngines.TickerEngine.UpdateTickerData` | src/modules/ticker/engine/ticker-engine.ts:112-141 | on any cache the update is that of a newer, simultaneous, late or empty trade, to the entries of the method only; false exactly where LAST is not served; what the entries then add up to says `TickerArrivals.VolumesAreSums` |
| `TickerEngines.TickerEngine.UpdateAll` | src/modules/ticker/engine/ticker-engine.ts:75-79 | the trade updates exactly the methods it concerns; false exactly where one of their LASTs is not served |
| `TickerEngines.TickerEngine.OnTick` | src/modules/ticker/engine/ticker-engine.ts:70-81 | the first trade waiting leaves the queue and updates exactly its methods |
| `TickerEngines.TickerEngine.PreloadData` | src/modules/ticker/engine/ticker-engine.ts:83-110 | on any cache: blank LASTs, then one update per loaded trade, none missed; received ids and queue stay as they are |
| `TickerEngines.TickerEngine.OnNewTrade` | src/modules/ticker/engine/ticker-engine.ts:45-54 | a non-zero id seen before changes nothing, any other trade joins the end of the queue and its id is remembered; no two trades waiting ever share a positive id |
| `TickerEngines.TickerEngine.AddEmptyTrades` | src/modules/ticker/engine/ticker-engine.ts:227-235 | one empty trade per method joins the end of the queue, in order |
| `TickerEngines.TickerEngine.Start` | src/modules/ticker/engine/ticker-engine.ts:56-68 | any interleaving of ticks, rounds and arrivals the object goes through is a run of the model |
| `TickerRuns.PreloadShows` | src/modules/trades/trades.service.ts:182-191 | after the preload, on whatever the cache held, each series is the summary of exactly the loaded trades of its method, written in order, and only what survived can still be served beyond it |
| `TickerRuns.RunShows` | src/modules/ticker/engine/ticker-engine.ts:56-81 | along every run with clocks not going back and trades handled in time, each series shows what it showed plus every trade handled of its method; no order of the trades matters unless another process left entries |
| `TickerRuns.RestartCalm` | src/modules/ticker/engine/ticker-engine.ts:60-61 | with entries left by another process, the first round of empty trades puts every LAST behind them, so that no trade ever meets them if none that came before that round does |
| `TickerRuns.Fifo` | src/modules/ticker/engine/ticker-engine.ts:45-81 | what was handled, then what waits, is what waited at first, then what came, in order |
| `TickerArrivals.LoadTickerData` | src/modules/ticker/ticker.console.ts:53-79 | where nothing throws, a new engine, its preload and its loop under any interleaving end in the final state of a run, as the results below take it |
| `TickerArrivals.EarlyTradesDecide` | src/modules/ticker/engine/ticker-engine.ts:30-38 | after a restart, with the input connected before the preload, a run is one the results below speak of if no trade that came before the first round of empty trades meets an old entry |
| `TickerExamples.OldEntriesTakeLast` | src/modules/ticker/engine/ticker-engine.ts:190-225 | a concrete run on a surviving cache: a late trade runs into an old second, and LAST shows that second and the volume counted there before |
| `TickerArrivals.ShowsHandled` | src/modules/ticker/engine/ticker-engine.ts:70-110 | from start-up on, in every state of every run, each series shows exactly the trades loaded and handled |
| `TickerArrivals.ShowsArrivals` | src/modules/ticker/engine/ticker-engine.ts:45-110 | with the queue empty each series shows exactly the trades loaded and those that arrived, repeats dropped |
| `TickerArrivals.CountsOnce` | src/modules/ticker/engine/ticker-engine.ts:45-54 | however often a streamed trade arrives, it is among the trades once |
| `TickerArrivals.EachCountsOnceIff` | src/modules/ticker/engine/ticker-engine.ts:102-108 | every trade counts once if and only if no loaded trade is streamed again |
| `TickerArrivals.RepeatDroppedIff` | src/modules/ticker/engine/ticker-engine.ts:48-52 | a second arrival changes nothing if and only if the id is not 0 |
| `TickerArrivals.NeverThrows` | src/modules/ticker/engine/ticker-engine.ts:116-117 | while no method has gone 36 hours without a new second no tick throws |
| `TickerArrivals.ArrivalOrderDoesNotMatter` | src/modules/ticker/engine/ticker-engine.ts:45-225 | two runs in which the same trades arrive, in any order and any number of times, between any empty trades and clocks, show the same sums, counts and flags at every second |
| `TickerArrivals.PriceIsLatest` | src/modules/ticker/engine/ticker-engine.ts:190-225 | price and method at a second are those of the latest trade, loaded or arrived, by then; the flag says whether one fell into it |
| `TickerArrivals.VolumesAreSums` | src/modules/ticker/engine/ticker-engine.ts:112-167 | after any run volume, quote volume and counts at a second are the sums of amounts, of prices times amounts, and of numbers of the method's trades by then |
| `TickerArrivals.CombinedSeriesIsSum` | src/shares/enums/trading-method.ts:1-7 | after any run the combined series is the sum of the Stellar and the BSC series at every second |
| `TickerArrivals.DayAgoIsServed` | src/modules/trades/trades.constant.ts:1-2 | in every state of a run the entry of 24 hours ago and LAST are still served |
| `TickerArrivals.DayTicker` | src/modules/ticker/ticker.console.ts:178-260 | after any run the ticker volume is that of the trades of the last 24 hours and its method bits tell which order books traded |
| `Pipeline.StepKeeps` | src/modules/transactions/picker-console.ts:255-286 | every read, write, new row or crash keeps: one transaction in process per network, every worker's row as it read it, rows only forward |
| `Pipeline.SingleWriter` | src/modules/transactions/sender-console.ts:61-75 | no row is ever in the hands of two workers |
| `Pipeline.OneTransactionAtATime` | src/modules/transactions/picker-console.ts:255-314 | over all interleavings at most one transaction per network is in process and none is written more than four times |
| `Pipeline.StatusesMoveForward` | src/modules/transactions/verifier-console.ts:29-60 | over all interleavings statuses move forward only; complete and failed stay |
| `Pipeline.WritesAreBounded` | src/modules/transactions/signer-console.ts:66-76 | a run writes at most four times per transaction created |
| `Pipeline.OneAtATimeIff` | src/modules/transactions/picker-console.ts:255-286 | on a network with a picker, a signer and a sender, at most one transaction is in process along every run if and only if no two pickers, signers or senders share it |
| `Pipeline.LifecycleIff` | src/modules/transactions/picker-console.ts:255-314 | with one worker of each kind, a transaction gets into exactly these statuses after so many writes: unsigned, signed and sent after one, two and three, complete after four, failed after three or four, and on Stellar after one |
| `Pipeline.EveryTransactionCanEnd` | src/modules/transactions/verifier-console.ts:29-60 | after any run, crashes included, every transaction can still be brought to an end |
| `StellarFees.GetAverage` | src/modules/orders/offer.helper.ts:51-68 | quote over base amounts, in the orientation of the trades |
| `StellarFees.QuoteIsWorth` | src/modules/trades/trades.console.ts:176-181 | price times amount is the quote amount in either orientation |
| `StellarFees.FeesAreShare` | src/modules/trades/trades.console.ts:234-249 | the fees charged add up to the order's share filled, times the fee paid in |
| `StellarFees.Fixed7Rounds` | src/modules/transactions/picker-console.ts:217-227 | the refund is rounded to the nearest seventh decimal, of two equally near the one farther from zero |
| `StellarFees.FeesAreConserved` | src/modules/transactions/picker-console.ts:217-227 | fees, each on the amount the order had then, and refund give back the fee paid in to within half a unit of the seventh decimal, and an excess that is zero exactly if fees go by the total, no fee was paid or the amount was never raised after a trade |
| `StellarFees.ConservedIff` | src/modules/transactions/picker-console.ts:217-227 | without rounding and with an amount never raised they do exactly when fee and refund use the same basis, nothing was filled, no fee was paid, or the total is the amount at the average price |
| `StellarFees.LimitWithTotalLosesHalf` | src/modules/transactions/picker-console.ts:217-227 | a concrete half-filled limit order with a total is charged half its fee and gets nothing back |
| `StellarFees.RaisedAmountCharges` | src/models/entities/order.entity.ts:184-188 | what is charged beyond what the final amount asks for is never negative, and zero exactly if fees go by the total, no fee was paid or the amount was never raised after a trade |
| `StellarFees.RaisedConservedIff` | src/modules/orders/offer.service.ts:108 | without rounding and with each fee on the amount of its time, when exactly fees and refund make up the fee paid in, for every kind of order |
| `StellarFees.RaisedAmountIsRefunded` | src/modules/transactions/picker-console.ts:217-227 | a concrete order filled, raised to twice its amount and cancelled is charged its whole fee and gets half of it back |
| `FeeBars.GetCollectedFeeInRange` | src/modules/admin/admin.services.ts:233-256 | the plain sum over the range, and the index of the first trade behind it |
| `FeeBars.GetCollectedFees` | src/modules/admin/admin.services.ts:192-204 | each bar, over boundaries given or the default ones, is the plain sum of the fees in its range |
| `FeeBars.BoundariesFacts` | src/modules/admin/admin.services.ts:182-190 | the default boundaries begin at the start, stay in the span and leave less than an interval of it uncovered |
| `FeeBars.BarsTotal` | src/modules/admin/admin.services.ts:192-204 | the bars together hold the fees of the whole span, each trade once |
| `Chart.AddLostTime` | src/modules/trades/trades.service.ts:96-150 | one bar per window: its row, or a flat bar at the last close; opens moved to the close before |
| `Chart.RowIsFirst` | src/modules/trades/trades.service.ts:96-150 | the row of a window is the first one that lies in it |
| `Chart.ChartIsSeamless` | src/modules/trades/trades.service.ts:96-150 | times increase, each open is the close before, gaps are flat without volume |
| `Chart.ChartVolume` | src/modules/trades/trades.service.ts:96-150 | total volume is that of the rows in the windows covered |

## Left out

- MatchingEngines.MatchingEngine.ProcessOrder: required to be called on an order for which the matching loop ends (`Settles`, exact by `Matching.SettlesIff`), because on the others the source does not return.
- MatchingEngines.MatchingEngine.MatchOrders: the average of an order that has filled nothing and trades nothing is 0, where the source gets NaN; such a trade happens only where the loop does not end.
- TickerArrivals.ShowsHandled: on a cache another process left within the life of its entries, runs in which a late trade meets one of them are left to `TickerSeries.LateTradeKeepsIff`, because there LAST goes where the other process left it (`TickerExamples.OldEntriesTakeLast`).
- TickerRuns.RunShows: trades handled 36 hours or more after their second, or from before the start of the series, are not among those a run handles, because whether their entry is still there depends on what was written since; `TickerSeries.UpdateKeeps` says what each does.
- Pipeline.OneTransactionAtATime: the effects on the chains, the note and payload columns and the update of trade ids by the verifier are not part of the rows.
- Kafka, Redis, sockets, TypeORM, HTTP, Horizon and web3 calls, logging, sleeps and the testing flags: foreign calls, replaced by parameters or sequences.
- The three asynchronous queues inside the engine are sequences there; that the queue class behaves as such is proved in `AsyncQueues`.
- The heap inside the priority queue: the class keeps a ranked sequence; among equal expiries the model leaves the order of the sweep open.
- The missing-price exception of order comparison, and precision limits of the decimal library.
- Sum and price columns of the 24-hour ticker other than volume and traded methods, liquidity, and the order-book side of the ticker command: one-line expressions over the same entries.
- The status decision of Stellar offers, asset comparison of offers, `isBuyOffer` (its code and its test disagree) and order creation beyond the initial remaining amount.
- Profit-and-loss and balance crawlers, users, wallets, mail, controllers and migrations.
