# Matching engine, registry, sessions and event reactions

A Dafny model of the exchange's matching core and of the processes around it, with proofs of
what its tests and documentation promise. `dafny verify dfyconfig.toml` checks everything.

The model has five parts.

1. **The price-level book and its oracle.** `book_side.dfy` and `order_book.dfy` are the fast
   book with its shared entry objects: sorted price keys, one FIFO queue per price with lazily
   deleted entries, an id index, running totals, compaction and expiry by a clock.
   `book_spec.dfy` says what a book does on two sorted lists, and `reference_book.dfy` is the
   list book the repository keeps as an oracle. Both classes are proved against the same
   specification, so they answer alike on every run (`differential.dfy`). `book_runs.dfy` proves
   what holds along every run of requests, `book_service.dfy` ties each request on the object to
   one move of such a run, and `service_runs.dfy` whole runs with their replies and their cost;
   `lazy_cost.dfy` says what a lazy deletion is bound to cost.
2. **The registry and the session date.** `registry.dfy` keeps real books in a map next to the
   id-to-symbol map fed by their callbacks; `registry_map.dfy` shows the map is exact.
   `registry_steps.dfy` is the concurrent view: any interleaving of submits, cancels, look-ups,
   roll-overs and resets at lock granularity, and `registry_progress.dfy` that requests finish.
   `order_entry.dfy` puts the endpoint guards and `market_session.dfy` the trading hours on top;
   `entry_runs.dfy` serves whole days of requests, `trade_dates.dfy` and `entry_dates.dfy` decide
   which submissions and which runs trade across dates, and `weekend_rollover.dfy` does so for two
   orders and shows a run that mixes dates.
3. **Shards and routing.** `sharding.dfy`: which process owns a symbol, and that the gateway
   sends a request there.
4. **Event reactions.** `events.dfy` (the planner), `traders.dfy` (a trader consuming a plan),
   `accounting.dfy` and `ledger_runs.dfy` (the ledger of planned orders, entry by entry and over
   runs), `event_memory.dfy` (what is remembered of events and how that judges the next one),
   `coordinator.dfy` (the coordinator and its fixture source), `coordinator_runs.dfy` (any run of
   polls, ticks, hand-outs and reports), `fixture_collision.dfy` (a run that loses a fixture),
   `inbox.dfy` and `inbox_runs.dfy` (the inbox and at-least-once delivery).
5. **The runner.** `runner_slots.dfy` (HTTP slots under any interleaving) and `round_robin.dfy`
   (which participants a tick considers).

Reading the contracts:

* A book's `notices` are the calls it makes to `on_rest` and `on_close`, in order. The
  sequential registry applies them right after the book call, which no one can observe because
  a book never reads the map. The concurrent model runs each callback as its own steps.
* Clock readings, random draws, new order ids and whether a message arrives are parameters. Book
  clocks never go backwards and submitted ids are new, as with the monotonic clock and UUIDs of
  the source. `Dice` is any deterministic stream whose draws stay in range, together with any
  hash. `ghost` results such as `gone`, `mv` and `moves` name the choice that was made (the order in which
  equally old orders expired, the model moves a call amounted to), `given` and `applied` the
  reactions of the plans that were made, `swept` and `entries` what went into the ledger.
* A run is a list of states in which each step is a predicate on values (`BookRuns.Moved`,
  `EntryRuns.Answered`, `CoordinatorRuns.Served`); the methods that serve whole runs return the
  replies and promise that they are the ones these steps determine.
* What lazy deletion has cost is counted together with the dead entries a live one waits behind, which
  are bound to be popped (`OrderBook.Spent`): only removals and arrivals change that sum.
* `work` and `removals` on a side, `acceptedOn`, `seen` and `onDate` at the endpoints,
  `unreported`, `ignored` and `prompt` on the coordinator and `log` on the scheduler are ghost
  history; the source does not have them.
* The coordinator's steps are atomic here. In the source the tick thread applies polled events
  outside the lock that `after_submit` takes; the two then write different counters.

Findings the proofs rest on or expose:

* The level drop inside `_Side.best` is never taken by an `OrderBook`: there every level always
  holds a live order, and `Best` leaves keys and levels alone. `Best` is proved without that
  assumption as well.
* A run can be marked complete while its last order is handed out and unreported
  (`Accounting.CompletesEarly`); its counts balance exactly when nothing is unreported
  (`Accounting.CompletedBalance`).
* A report is ignored when its trader was planned anew without being activated in the meantime
  (`Accounting.IgnoresLateReport`). If each trader is planned anew only after everything it handed
  out was reported, nothing is ignored and every event balances by itself
  (`CoordinatorRuns.Whole`).
* An event polled from the inbox is refused as a conflict exactly when the planner knows its id
  with another event, which takes a fixture's id (`InboxRuns.VerdictOnDelivery`, and
  `InboxRuns.CollidingDelivery` for a run in which it happens).
* The fixtures due at a tick are all applied exactly when they agree with one another and with what
  the planner knows. Otherwise the first one that conflicts ends `before_tick`: it and the due
  fixtures behind it are lost, because the source has moved past them, and nothing is dropped or
  completed (`EventCoordinator.BeforeTick`, `CoordinatorRuns.LostFixture`, and
  `FixtureCollision.Collide` for such a run).
* "No trade joins two dates" is false of the code: an order whose opening check passed on a weekday
  and whose roll-over read a weekend rests without belonging to the session, and the next session
  may trade with it (`WeekendRollover.Weekend`). A run keeps to it if and only if no accepted order
  reached an opposing order of another date (`EntryDates.MixesExactly`); for two crossing orders without an age limit,
  if and only if the dates agree or both are weekdays (`WeekendRollover.TwoOrders`). It holds
  whenever each request reads the wall clock once (`EntryRuns.OneReading`).

## Model

| member | source | states |
|---|---|---|
| ListBook.SortAppended | backend/exchange/orderbook/reference_book.py:146-159 | appending and sorting a sorted list is inserting the order behind everything that precedes it |
| ListBook.SortSorted | backend/exchange/orderbook/reference_book.py:146-159 | sorting an already sorted list changes nothing |
| ReferenceBook.ReferenceOrderBook.Submit | backend/exchange/orderbook/reference_book.py:49-91 | the list book's result and new state are those of the specification; a wrong symbol is an error and changes nothing |
| ReferenceBook.ReferenceOrderBook.MatchLoop | backend/exchange/orderbook/reference_book.py:58-80 | the matching loop of the list book computes the recursive match |
| ReferenceBook.ReferenceOrderBook.Rest | backend/exchange/orderbook/reference_book.py:146-159 | the remainder is inserted in priority order under the next sequence number |
| ReferenceBook.ReferenceOrderBook.Cancel | backend/exchange/orderbook/reference_book.py:109-117 | the order with the id leaves its list and is returned; an unknown id is an error |
| ReferenceBook.ReferenceOrderBook.TakeSnapshot | backend/exchange/orderbook/reference_book.py:128-134 | the snapshot aggregates the sorted lists by price |
| ReferenceBook.ReferenceOrderBook.Levels | backend/exchange/orderbook/reference_book.py:161-171 | the grouping loop computes the aggregation of the whole list |
| MatchFacts.MatchTakesPrefix | backend/exchange/orderbook/book.py:206-226 | the makers of one submit are a prefix of the opposing side in priority order, all but the last fully filled, each at its own price and within the taker's limit |
| MatchFacts.MatchConserves | backend/exchange/orderbook/book.py:206-234 | what is traded leaves the taker and the makers alike, every trade is positive, and matching stops only at a price that does not cross |
| MatchFacts.TradesWithReached | backend/exchange/orderbook/book.py:206-226 | an order trades with exactly those makers that cross and stand behind less quantity than it has |
| BookSides.BookSide.Add | backend/exchange/orderbook/book.py:72-81 | adding an entry inserts it in price-time order in the flattened view and keeps the representation invariant; dead entries that trailed in its queue now have a live one behind them |
| BookSides.BookSide.Best | backend/exchange/orderbook/book.py:83-95 | even where levels hold nothing live, the entry returned heads the flattened view and is live; none exactly when the view is empty; the view is unchanged; exactly the slots popped are added to the cost; from a valid side keys and levels are unchanged too, and each pop is of a dead entry with a live one behind it |
| BookSides.BookSide.FillBest | backend/exchange/orderbook/book.py:97-109 | the head of the view is reduced or removed, and the level with it when nothing live is left there; the dead entries with a live one behind them stay as many |
| BookSides.BookSide.Remove | backend/exchange/orderbook/book.py:111-125 | exactly this entry leaves the view, whether by a dead mark, a compaction or a dropped level; the queues afterwards and the cost are those of the queues before, and no level is left mostly dead beyond the threshold |
| LazyCost.StrikeAt | backend/exchange/orderbook/book.py:111-125 | a removal changes the dead entries bound to be popped by what its queue shows: none are left where the level is dropped or rebuilt, and a rebuild costs the queue's length |
| LazyCost.ArrivalLeads | backend/exchange/orderbook/book.py:72-81 | an arrival makes exactly the dead entries that trailed in its queue bound to be popped |
| LazyCost.FillLeads | backend/exchange/orderbook/book.py:97-109 | a fill changes nothing in that, whether order and level stay or go |
| BookSides.BookSide.LiveEntries | backend/exchange/orderbook/book.py:127-131 | iterating keys and queues yields the flattened view |
| BookSides.BookSide.BookLevels | backend/exchange/orderbook/book.py:133-138 | the running level quantities equal the aggregation of the view |
| BookSides.BookSide.DropLevel | backend/exchange/orderbook/book.py:140-144 | the bisected key and the level disappear together |
| BookSides.BookSide.TotalIsRunning | backend/exchange/orderbook/book.py:51-64 | the running total of a side is the sum over its live orders |
| BookSides.BookSide.ListedIffLive | backend/exchange/orderbook/book.py:51-64 | the live entries are exactly the orders of the view |
| ServiceRuns.WorkIsBounded | backend/exchange/orderbook/book.py:83-125 | at any point of a run dead entries popped, plus lengths of compacted queues, plus twice the dead entries still queued are at most twice the orders canceled or expired |
| OrderBooks.OrderBook.constructor | backend/exchange/orderbook/book.py:165-194 | a new book is empty and satisfies the invariant |
| OrderBooks.OrderBook.MatchLoop | backend/exchange/orderbook/book.py:206-226 | the loop over the best entries computes the recursive match, closes exactly the filled makers in order, and terminates; it pays for exactly the dead entries that stop being in front of a live one |
| OrderBooks.OrderBook.Submit | backend/exchange/orderbook/book.py:196-234 | expiry, matching, resting and the trade history together do what the specification does, with the same reports to the registry; a wrong symbol is an error and changes nothing; the cost is exactly that of the removals and of the arrival, read off the queues before |
| OrderBooks.OrderBook.Cancel | backend/exchange/orderbook/book.py:252-261 | expired orders leave first, then exactly the named order; an unknown or just expired id is an error; the cost is exactly that of these removals in turn |
| OrderBooks.OrderBook.Rest | backend/exchange/orderbook/book.py:307-320 | the remainder rests under the next sequence number in side, index and arrival list, and is reported |
| OrderBooks.OrderBook.Close | backend/exchange/orderbook/book.py:322-325 | the id leaves the index and the close is reported |
| OrderBooks.OrderBook.Expire | backend/exchange/orderbook/book.py:327-341 | looking only at the head of the arrival queue removes exactly the live orders that have reached the age limit, each reported once and paid for exactly |
| OrderBooks.OrderBook.GetOpenOrder | backend/exchange/orderbook/book.py:263-268 | the resting order of the id after expiry, if any |
| OrderBooks.OrderBook.OpenOrders | backend/exchange/orderbook/book.py:244-250 | the live orders of a side in price-time order after expiry |
| OrderBooks.OrderBook.TakeSnapshot | backend/exchange/orderbook/book.py:270-277 | both sides aggregated by price after expiry |
| OrderBooks.OrderBook.TotalQuantity | backend/exchange/orderbook/book.py:279-283 | the sum of the live quantities of a side after expiry |
| OrderBooks.OrderBook.BestPrice | backend/exchange/orderbook/book.py:285-289 | the price at the head of the side after expiry |
| OrderBooks.OrderBook.OpenOrderCount | backend/exchange/orderbook/book.py:291-293 | the number of resting ids, without running expiry |
| OrderBooks.OrderBook.RecentTrades | backend/exchange/orderbook/book.py:236-242 | as many trades as the limit and the history allow, counted backwards from the last one; an error exactly for a limit below one |
| BookFacts.SubmitOk | backend/exchange/orderbook/book.py:196-234 | a submission keeps the lists sorted, positive and free of duplicates, and changes the resting ids by the filled makers and the rested taker |
| BookFacts.CancelOk | backend/exchange/orderbook/book.py:252-261 | a cancel keeps the lists well formed and removes exactly its id |
| BookFacts.ForgetOk | backend/exchange/orderbook/book.py:327-341 | expiry keeps the lists well formed and removes exactly the expired ids |
| Differential.RunBoth | backend/exchange/orderbook/test_book_structure.py:24-65 | with expiry off, the fast book and the list book give the same replies on every run of submits, cancels and questions: trades, remainders, errors, snapshots, open orders |
| BookRuns.RunKeeps | backend/exchange/orderbook/book.py:196-341 | every run keeps the book uncrossed, conserves quantity and closes no order twice |
| BookRuns.NeverCrossed | backend/exchange/orderbook/book.py:206-226 | on every run the best bid is strictly below the best ask |
| BookRuns.NoStaleTrade | backend/exchange/orderbook/book.py:196-205 | no submit trades with an order whose age has reached the limit |
| BookRuns.SubmitQuantity | backend/exchange/orderbook/book.py:206-234 | resting quantity grows by the submitted quantity less twice the traded quantity |
| BookService.Serve | backend/exchange/orderbook/book.py:196-293 | one request to the object, of any kind the book has, is one move of the model run, or none if it leaves expiry alone; the reply is that of the lists, and the cost is exactly that of the move |
| ServiceRuns.ServeAll | backend/exchange/orderbook/book.py:147-341 | any run of any requests on a new book object, wrong symbols, best prices and open orders included: one reply per request, all those of a model run that the requests fit; the totals submitted, traded and canceled are read off requests and replies; the book ends uncrossed with quantity conserved, and lazy deletion has cost at most two per canceled or expired order |
| ServiceRuns.RunTallied | backend/exchange/orderbook/book.py:196-261 | along any run the submitted, traded and canceled totals grow by what the requests ask and the replies report, and orders are removed by cancels and expiries only |
| RegistrySteps.RunKeeps | backend/exchange/orderbook/registry.py:41-112 | every interleaving of steps keeps the locks, the boards and what each thread relies on in order |
| RegistrySteps.RestingIsFindable | backend/exchange/orderbook/registry.py:41-112 | under any interleaving, whenever a registered book's lock is free every id resting in it is mapped to its symbol, even after roll-overs in the middle of submissions |
| RegistrySteps.RestsOnce | backend/exchange/orderbook/registry.py:59-94 | no order ever rests in two books, registered or orphaned |
| RegistrySteps.NoDeadlock | backend/exchange/orderbook/registry.py:76-112 | while a request is unfinished some thread can step |
| RegistrySteps.LockOrder | backend/exchange/orderbook/registry.py:59-112 | a thread that waits for a book holds no lock, the holder of the registry lock can always step, and no thread holds two books |
| RegistryProgress.StepDescends | backend/exchange/orderbook/registry.py:41-112 | every step uses up some of a bound on the work left, closing resting orders included |
| RegistryProgress.EveryRequestFinishes | backend/exchange/orderbook/registry.py:41-112 | from any reachable state, without new requests the threads take boundedly many steps, and when none can step every request is finished |
| RegistrySteps.CanceledIsOff | backend/exchange/orderbook/registry.py:96-112 | after a cancel no registered book holds the id, so dropping it from the map is safe |
| RegistryMap.MoveHeard | backend/exchange/orderbook/registry.py:80-88 | the callbacks of one call keep the map in step with that book and touch no other book's orders |
| RegistryMap.MovedRegistry | backend/exchange/orderbook/registry.py:80-112 | through fills, expiries, rests and cancels the map stays exactly the union of all books' resting ids under their own symbols |
| RegistryMap.MoveFor | backend/exchange/orderbook/registry.py:90-94 | a book only ever holds orders of its own symbol |
| RegistryMap.BooksDisjoint | backend/exchange/orderbook/registry.py:14-19 | with an exact map no id rests in two books |
| RegistryMap.GoneEverywhere | backend/exchange/orderbook/registry.py:96-112 | an id that is not mapped rests in no book |
| Registries.OrderBookRegistry.Get | backend/exchange/orderbook/registry.py:59-74 | finds or creates the book of an owned symbol, refuses others, and disturbs no other book |
| Registries.OrderBookRegistry.Submit | backend/exchange/orderbook/registry.py:90-94 | the order goes to its own book only, and the exact map afterwards holds what rests |
| Registries.OrderBookRegistry.Cancel | backend/exchange/orderbook/registry.py:96-112 | the mapped book answers, the id leaves the map whether found or not; an unmapped id is an error and changes nothing |
| Registries.OrderBookRegistry.Look | backend/exchange/orderbook/registry.py:59-88 | a snapshot or a side's total, after an expiry the map has heard of |
| Registries.OrderBookRegistry.Rollover | backend/exchange/orderbook/registry.py:41-57 | only a strictly later date clears books and map; the first date is just remembered |
| Registries.OrderBookRegistry.ResetBooks | backend/exchange/orderbook/registry.py:32-39 | everything including the date is cleared |
| OrderEntry.MatcherApi.RollOver | backend/exchange/views.py:49-57 | on a trading date the active session is that date afterwards, and books go exactly when a newer session starts |
| OrderEntry.MatcherApi.CreateOrder | backend/exchange/views.py:130-165 | the guards apply in order; an accepted order is served by its book after the roll-over, and the depth gauges then expire twice more; its session is its own date exactly when the roll-over read a weekday; while all roll-overs before it did, its trades join one date exactly when its own did or no unexpired opposing order crosses |
| OrderEntry.MatcherApi.CancelOrder | backend/exchange/views.py:237-266 | the book the id map names answers, and only a success is followed by the gauges; after a cancel that was not refused the id rests in no book; already closed is an answer, not an error |
| OrderEntry.MatcherApi.UpdateDepth | backend/exchange/views.py:71-79 | the totals of both sides, each read after an expiry of its own |
| OrderEntry.MatcherApi.BookDetail | backend/exchange/views.py:168-175 | the snapshot of the rolled-over book of an owned symbol |
| EntryRuns.ServeAll | backend/exchange/views.py:130-266 | any run of requests on a new process: one answer per request and one state after each, all as the guards and books determine; in scheduled mode every trade in the answers joins orders accepted on one date, if the roll-over of each accepted order read a weekday, and so if each request reads the wall clock once |
| EntryRuns.OneReading | backend/exchange/views.py:49-57 | with one wall-clock reading per request every accepted order was accepted on a trading date |
| EntryDates.MixesExactly | backend/exchange/views.py:49-165 | any run, in either market mode: no trade joins orders of two dates if and only if no accepted order reached, in the book it found, an opposing order accepted on another date |
| TradeDates.DatesDecide | backend/exchange/orderbook/book.py:196-226 | a submission's trades join one date exactly when every opposing order it reaches was accepted on its own date |
| TradeDates.TradesIfFound | backend/exchange/orderbook/book.py:196-226 | a submission trades exactly when some opposing order that is not too old crosses |
| TradeDates.OtherDate | backend/exchange/orderbook/book.py:196-226 | against a book of another date its trades join one date exactly when it has none |
| WeekendRollover.TwoOrders | backend/exchange/views.py:49-57 | two crossing orders on a new process without an age limit: their trade joins one date exactly when the roll-overs read the same date or both read weekdays |
| WeekendRollover.Weekend | backend/exchange/views.py:49-57 | a run whose first roll-over reads Saturday and in which a trade joins two dates |
| OrderEntry.SameDate | backend/exchange/views.py:131-155 | no trade joins orders accepted on two session dates |
| MarketSessions.NextOpen | backend/exchange/market_session.py:42-54 | the least open instant not before t: open, and nothing in between is |
| MarketSessions.ClosedUntil | backend/exchange/market_session.py:26-33 | from a shut instant the market stays shut until the opening of the next weekday |
| Sharding.KeepsEveryNth | backend/exchange/sharding.py:16-32 | shard i's j-th ticker is the universe's (i + j * n)-th, in order and complete |
| Sharding.BalancedShards | backend/exchange/sharding.py:16-32 | shard sizes differ by at most one |
| Sharding.OneOwner | backend/exchange/sharding.py:35-44 | without duplicates a symbol is owned by exactly the shard the lookup names |
| Sharding.RoutedToItsOwner | gateway/gateway/routing.py:55-86 | a routed symbol goes to the one shard whose ownership check accepts it |
| Sharding.RoutesAreShards | gateway/gateway/routing.py:55-147 | every route names an existing shard, and a symbol is refused exactly when it is outside the universe |
| ReactionPlanning.ActivationIsRounded | backend/exchange/participants/events.py:507-513 | the count is in 1..n and within half a unit of the share, except exactly when a share below one half is forced up to one |
| ReactionPlanning.ActivatesItsShare | backend/exchange/participants/events.py:352-405 | exactly the rounded share of the eligible candidates is activated |
| ReactionPlanning.PermutedCandidates | backend/exchange/participants/events.py:352-405 | the plan, or the refusal of repeated users, does not depend on the order of the candidates |
| ReactionPlanning.EligibleFacts | backend/exchange/participants/events.py:357-363 | the eligible are those of the event's symbol, each once, in user order |
| ReactionPlanning.ReactionIsValid | backend/exchange/participants/events.py:407-483 | every reaction passes its constructor's checks; delay and order count stay in the preset's ranges, the interval between the preset's least and the larger of its greatest and the candidate's own, quantities and lifetimes in the candidate's; the first order comes on the first ticks after event and delay, the others at that interval |
| ReactionPlanning.PlanIsValid | backend/exchange/participants/events.py:287-306 | every event plan passes its constructor's checks |
| ReactionPlanning.CeilDiv | backend/exchange/participants/events.py:521-522 | the least multiple at or above the value |
| ReactionPlanning.TicksForInterval | backend/exchange/participants/types.py:60-67 | the least positive number of ticks that covers the interval |
| ReactionPlanning.ReactionPlanner.PlanOnce | backend/exchange/participants/events.py:337-350 | a new id is planned and remembered, the same event again is a duplicate, anything else under the id a conflict |
| ReactiveTraders.EventReactiveTrader.ApplyPlan | backend/exchange/participants/traders.py:153-159 | a plan for another user or symbol is refused; an accepted one starts unconsumed |
| ReactiveTraders.EventReactiveTrader.DropLateOrders | backend/exchange/participants/traders.py:168-186 | exactly the unconsumed orders beyond the lag limit are consumed and counted |
| ReactiveTraders.EventReactiveTrader.NextIntents | backend/exchange/participants/traders.py:188-229 | exactly the unconsumed orders due at the tick are handed out, in plan order |
| ReactiveTraders.OncePerPlan | backend/exchange/participants/traders.py:168-201 | however ticks and late drops follow one another under one plan, each order is handed out or dropped at most once, and exactly once if it was consumed on the way |
| ReactiveTraders.UseAll | backend/exchange/participants/traders.py:168-229 | a trader put to any series of ticks and late drops consumes exactly those orders, and as many leave the plan as were handed out or dropped |
| Accounting.ReportOk | participant-runner/participant_runner/coordinator.py:188-217 | a report keeps every planned order accounted for exactly once: submitted, dropped, remaining, unreported or ignored |
| Accounting.HandOutOk | backend/exchange/participants/traders.py:188-201 | handing orders out keeps the account |
| Accounting.DropLateOk | participant-runner/participant_runner/coordinator.py:293-313 | dropping late orders keeps the account, in total and per event |
| Accounting.TakeOk | participant-runner/participant_runner/coordinator.py:269-283 | planning keeps the account, in total and per event |
| Accounting.VacateOk | participant-runner/participant_runner/coordinator.py:285-291 | taking an empty plan away keeps the account |
| Accounting.CompleteOk | participant-runner/participant_runner/coordinator.py:315-333 | completion keeps the account, and a completed run has nothing left to hand out |
| Accounting.CompletedBalance | participant-runner/participant_runner/coordinator.py:315-333 | a completed event has all orders submitted or dropped if and only if none is unreported |
| Accounting.CompletesEarly | participant-runner/participant_runner/coordinator.py:315-333 | a run can be completed with an order still unreported |
| Accounting.IgnoresLateReport | participant-runner/participant_runner/coordinator.py:188-191 | a report after a re-plan without activation is ignored |
| Coordination.SyntheticEventSource.DueEvents | participant-runner/participant_runner/coordinator.py:65-80 | every started fixture is returned once, in order of start, and none is left behind |
| Coordination.EventCoordinator.constructor | participant-runner/participant_runner/coordinator.py:86-117 | the coordinator starts with a balanced, empty account, empty memories and the fixtures sorted, ready for polls and ticks |
| Coordination.EventCoordinator.EveryOrderAccounted | participant-runner/participant_runner/coordinator.py:188-313 | in every state planned orders are at least submitted, dropped, remaining and unreported together, with equality, in total and per event, when nothing is planned anew with an order unreported |
| LedgerRuns.Totals | participant-runner/participant_runner/coordinator.py:188-313 | over any run of ledger entries the counters are the sums of what was planned, dropped late, handed out and reported, of the events started and of the traders activated, and promptness is that every re-planned trader had everything reported |
| LedgerRuns.PromptRunsBalance | participant-runner/participant_runner/coordinator.py:188-313 | if every trader had everything reported whenever it was planned anew, no report is ignored and every event balances |
| CoordinatorRuns.Whole | participant-runner/participant_runner/coordinator.py:86-333 | any run of polls, ticks, hand-outs and reports on a new coordinator: the answers are those its state determines; planned orders are submitted, dropped, ignored, waiting or handed out and not reported; the events received are those the planner knows, and the duplicates, activated traders and largest lag are those of the operations; under prompt reports every event balances |
| CoordinatorRuns.LostFixture | participant-runner/participant_runner/coordinator.py:72-80 | a fixture that was passed over and not planned is not planned later, unless its id comes again |
| FixtureCollision.Lost | participant-runner/participant_runner/coordinator.py:180-186 | after a polled event with a fixture's id the tick fails; a second, innocent fixture due then is not planned, and the source is past it |
| FixtureCollision.NeverPlanned | participant-runner/participant_runner/coordinator.py:72-80 | however such a run goes on, the second fixture is never planned, unless an event is polled under its id |
| EventMemory.AcceptedIffAgreeing | participant-runner/participant_runner/coordinator.py:180-186 | due fixtures are all accepted exactly when they agree with one another and with the events known |
| Coordination.EventCoordinator.ApplyEvent | participant-runner/participant_runner/coordinator.py:231-267 | a new event is planned for exactly the idle traders; a trader with orders left keeps its plan, nothing is dropped, and the ledger gets exactly the entries of the plan |
| Coordination.EventCoordinator.AssignPlans | participant-runner/participant_runner/coordinator.py:269-283 | every named trader gets its reaction and no other desk changes, the counters grow by exactly the planned orders and activated traders of the ledger's entries, no old plan loses an order, and promptness is lost exactly if a named trader has an order unreported |
| Coordination.EventCoordinator.AbandonPrevious | participant-runner/participant_runner/coordinator.py:285-291 | the leftover of the old plan is counted as dropped there; with no leftover nothing is |
| Coordination.EventCoordinator.DropLateOrders | participant-runner/participant_runner/coordinator.py:293-309 | each trader loses exactly its late orders on its event's own clock, and none is late afterwards |
| Coordination.EventCoordinator.HandOutIntents | participant-runner/participant_runner/runner.py:244-257 | exactly the due intents are handed out, exactly their indexes are consumed, and they become unreported, sent or lost |
| Coordination.EventCoordinator.AfterSubmit | participant-runner/participant_runner/coordinator.py:188-217 | a report is charged once, to the trader's present event, or ignored without one; the largest lag takes in that of a submitted order, which is nothing for a live event |
| Coordination.EventCoordinator.MaybeComplete | participant-runner/participant_runner/coordinator.py:315-333 | a run is marked complete exactly when it has planned orders and none remains |
| Coordination.EventCoordinator.ApplyMarketEvent | participant-runner/participant_runner/coordinator.py:125-178 | a repeated delivery at any later tick is recognised and counted; it is never planned twice and conflicts only on a different payload or a fixture's id; a fresh one is planned for the idle traders |
| Coordination.EventCoordinator.BeforeTick | participant-runner/participant_runner/coordinator.py:180-186 | the tick succeeds exactly when the due fixtures agree with one another and with the events known; then all are planned or recognised and counted, exactly the late orders are dropped, and every finished run is complete; otherwise the fixtures before the conflict are applied and nothing else happens |
| EventInbox.Inbox.Ingest | backend/exchange/views.py:333-362 | the first payload is kept; a repeat is a duplicate or a mismatch and changes nothing |
| EventInbox.Inbox.MarkStale | backend/exchange/views.py:431-438 | exactly the pending rows older than the limit become stale |
| EventInbox.Inbox.PendingEvents | backend/exchange/views.py:376-398 | while open, the first hundred pending rows of the symbols by detection time and id, after aging; nothing at all while shut |
| EventInbox.Inbox.Acknowledge | backend/exchange/views.py:401-419 | only a pending row becomes dispatched; repeats are harmless and stale rows refused |
| EventInbox.FirstHundred | backend/exchange/views.py:387-398 | cutting the ordered list keeps the earliest rows |
| InboxRuns.VerdictOnDelivery | participant-runner/participant_runner/coordinator.py:153-178 | on every reachable state a first delivery is planned and a repeat recognised; it is refused exactly when the planner knows its id with another event, which takes a fixture's id |
| InboxRuns.CollidingDelivery | participant-runner/participant_runner/runner.py:166-186 | a run in which a polled event whose id a fixture used is refused and stays pending |
| InboxRuns.DispatchedWasPlannedOnce | participant-runner/participant_runner/runner.py:166-193 | on any run with lost replies and acknowledgements, a dispatched event has been planned, and exactly once |
| InboxRuns.RunAdvances | backend/exchange/views.py:376-438 | rows are never lost or rewritten and leave pending at most once |
| InboxRuns.RunKeeps | participant-runner/participant_runner/runner.py:151-193 | inbox, planner and coordinator memories agree along every run |
| RunnerSlots.WithinTheLimit | participant-runner/participant_runner/runner.py:261-288 | under any interleaving running jobs, pending jobs, slots held and the limit are ordered so |
| RunnerSlots.ReleasedOnce | participant-runner/participant_runner/runner.py:229-288 | each acquired slot is released at most once, and exactly once when its job is over, on every path |
| RunnerSlots.AllBack | participant-runner/participant_runner/runner.py:265-288 | all permits are back exactly when every job has released its slot |
| RunnerSlots.IdleMeansIdle | participant-runner/participant_runner/runner.py:139-146 | with nothing pending no job runs or waits to run |
| RunnerSlots.EverySlotComesBack | participant-runner/participant_runner/runner.py:229-288 | any run takes at most seven steps per acquired slot, and only another acquisition can follow exactly when every slot is back; nothing is pending then |
| RunnerSlots.RunIsBounded | participant-runner/participant_runner/runner.py:229-288 | from any state the steps of a run are bounded by the steps its slots have left and seven per acquisition |
| RoundRobin.Scheduler.EnqueueDueIntents | participant-runner/participant_runner/runner.py:229-259 | ticks cut short by missing slots continue one unbroken cycle of participants |
| RoundRobin.FairTurns | participant-runner/participant_runner/runner.py:229-259 | the consideration counts of two participants never differ by more than one |

## Left out

- Coordination.EventCoordinator.ApplyMarketEvent: runs as one atomic step; races between the tick thread and a reporting worker inside it are not modelled.
- OrderEntry.MatcherApi.UpdateDepth: the gauges' values are computed but no metric is kept, and the open-order gauge, which expires nothing, is left out.
- Registries.OrderBookRegistry.Rollover: cleared symbols are a set, without the order of the source's tuple.
- RegistrySteps.RunKeeps: inside a book's lock an order leaves or enters the index at any point; which orders do is settled by the sequential proofs. Reads that change nothing are not steps there.
- RunnerSlots.ReleasedOnce: participants do not raise between acquiring a slot and handing over the job, as the source assumes; intents dropped because no slot is free are counted as unreported in the coordinator's account.
- Trade ids, execution times and user ids in trades: generated per call or copied, and left out of trade equality as in the repository's own differential test.
- Constructor errors of books and orders (blank symbols, capacities below one, negative ages, non-positive prices): preconditions.
- The order of equal clock readings is kept, but time is a real number without floating-point rounding.
- `run_until_stopped` and the cancellation of open orders at the close: a loop over operations modelled elsewhere.
- Noise, momentum, mean-reversion and liquidity-provider prices: one-branch formulas.
- The gateway's regular expressions and JSON parsing: a request arrives already recognised.
- HTTP, serializers, database, metrics, logging, the trader profile endpoints, KRX import and the front end.
