# Trade lifecycle: model and proofs

A Dafny model of the trading system's order and position lifecycle: the order
state machine and its dispatch over a lossy network, the paper broker, the
adaptive exit engine with its two stop adapters, and a handful of numeric and
stateful kernels around them. `dafny verify dfyconfig.toml` checks all of it.

## How the model is built

Each object the system updates in place is a class (`Broker`, `Server`,
`Adapter`, `ExitManager`, `ManagedPosition`, `OrderRecord`, `OrderBook`,
`Router`, `Window`, `Guard`, `Aggregator`, `AuditLog`, `JsonlAuditLog`,
`PortfolioHeatManager`). Next to it stands a function from the old state to the
new one, as a value; every method is proved to move the object exactly as the
function moves the value, and on calls that raise, to stop exactly where the
exception leaves it (`ExitEngine.Step` carries the state at the raise). The
theorems are then about those functions: one step, and whole runs of steps.

A function and the method that follows it could be wrong together. So the rules
are stated once more on results alone, with every number written out in the inputs
and without the names of the functions that compute it: `ExitRules` (stops, exits,
reports, ladder, lock, trail), `StopRules` (adapter calls), `FillHistory` (prices and
costs), `Dispatch.DispatchRule`, `OrderAccounting.CallRule`,
`PositionSizer.SizeRule`, `AnomalyGuard.TriggerRule`, `OrderSlicer.PlanRule`.

Prices, cash, quantities and times are exact reals. Each pure parameter stands
for code outside the model: the impact fraction `slip` and the cost schedule
(`PaperBroker.Market`), the logarithm in the Kelly search (any function with
log 1 = 0 that lies strictly below its tangents), the hash of the audit log
(SHA-256, section 6.2 of FIPS 180-4), its canonical serialisation and the writing
and reading of its lines.

## The main theorem

The engine and the broker each keep their own copy of what is held, where the
stop is and which order rests. The broker fires stops tick by tick; the engine
sees one window of ticks at a time, and on a stop hit sends no order because
the resting stop has already sold. `TradeRun` composes both over whole runs of
ticks, bars, entries, forced stop changes, manual closes and restarts, at any
moment and for any number of symbols. `TradeRun.RunAgreesIff` says that the two
agree in every state of a run if and only if every event meets its condition in
`TradeRun.Allowed` - for any configuration and any impact and cost functions, and
for every run in which a tick reaches the broker and exactly one window of the
engine (`BarWindows.UnseenTickAgreesIff` for a tick that does not). The code
enforces none of the conditions. Each is about the state before the call:

- an entry is refused by the broker, or it is for a symbol of which nothing is
  held, with inputs and a fill price that attach accepts (a whole quantity on the
  exchange leg), and no tick already in the symbol's open window reaches the new
  stop (`TradeRun.EntryAgreesIff`);
- a forced stop is not taken, comes after the old one has fired, or is at a level
  that can be placed - any on the exchange leg, above zero on the MT5 leg, whose
  server takes anything else for "cancel" - and that no tick of the open window
  reaches (`BarWindows.ForceMidWindowAgreesIff`);
- an active exit (a manual close, a weekend flatten, a time stop) of a position
  whose stop has not fired is of whole lots and its market close goes through;
  once the stop has fired, the close must be of nothing or not go through
  (`BarWindows.MidWindowExitFlatIff`, `BarWindows.ExitFlattensIff`);
- a bar that manages a position asks the broker, stage by stage, for nothing that
  breaks the agreement (`Agreement.ManageAgreesIff`): each partial is smaller than
  what remains and goes through, or is refused where the refusal is seen
  (`Agreement.SaleAgreesIff`), and the profit lock and the trail are at levels that
  can be placed (`Agreement.RatchetAgreesIff`);
- a restart, which loses the open windows, does not happen while a live position's
  stop has fired in one of them (`TradeRun.RestartAgreesIff`).

Ticks and stop hits need no condition, nor do bars, forced changes and manual
closes of a symbol that is not in a trade. If the partial percentages are not negative and sum to less than 100,
trail factors are not negative and a profit lock is not above its trigger, all
that is left of the condition of a managing bar is that its partials can be
carried out and, on the MT5 leg, that the stop is above zero:
`ConfiguredLadder.ConfiguredBarIsAllowed`.

## What turned out false of the code

Each with its exact condition, or the input that shows it.

- A forced stop change in the middle of a window can move the stop past a tick the
  window already holds. The next bar calls it a stop hit and sends nothing while
  the broker still holds everything: `BarWindows.ForceMidWindowAgreesIff`,
  `BarWindows.ForcedPastATick`. An entry into an open window has the same flaw
  (`TradeRun.EntryAgreesIff`).
- A forced level at or below zero cancels the stop on the MT5 leg. A long is left
  without one; a short besides is reported as stopped out at the next bar, while
  all of it is still held: `BarWindows.ForcedToCancel`. A trail or lock level at or
  below zero does the same (`Agreement.RatchetAgreesIff`).
- An active exit closes whole lots only, after cancelling the stop. An odd
  remainder stays at the broker with no stop and no manager:
  `BarWindows.ExitFlattensIff`, `BarWindows.OddLotIsLeftBehind`.
- attach refuses inputs after the order has been filled, and then nothing manages
  the fill: `TradeRun.EntryAgreesIff`.
- A partial of the whole remainder leaves the old stop resting, and the MT5 side
  reports a refused close as success: `BarWindows.PartialAgreesIff`.
- A restart forgets the open windows: `TradeRun.RestartAgreesIff`.
- The replay sends each day's opening price to the broker before the day's first
  window starts (scripts/research_replay.py:293), so an overnight gap through a
  stop is not in any window the engine sees: `BarWindows.UnseenTickAgreesIff`.
- `equity()` is not always cash plus marked holdings: a fill that carries a long
  straight into a short leaves its price as a basis that is added again.
  `Ledger.EquityExactIffNoFlippedShort` gives the exact condition,
  `Ledger.FlipOverstatesEquity` a run of three calls.
- A failed attempt may be retried more than once, and then two orders of one
  chain can reach the broker: `PlacementProtocol.RetryKeepsIff`,
  `PlacementProtocol.SecondRetryPlacesTwice`. The transition table also lets a SENT
  record be posted again: `PlacementProtocol.SecondPostFillsIff`,
  `PlacementProtocol.SecondPostFillsTwice`.
- A lookup's "unknown order" proves nothing about a request that is still
  travelling: it can arrive after its order was written off and retried.
  `PlacementProtocol.LateArrivalIff`, `PlacementProtocol.LateArrivalPlacesTwice`.
- An untouched audit log need not reload: a row whose text changes when it is
  written and read - a dictionary with the integer keys 2 and 10 is sorted as
  numbers when appended and as strings when read - is reported as tampered, and a
  date comes back as a string. `AuditChain.RunsReloadIff`,
  `AuditChain.ReloadsTheSameIff`, `AuditChain.LostRowBreaksReload`. A line that is
  not a JSON object makes `verify_chain` raise instead of answering no:
  `AuditChain.JsonlAuditLog.VerifyChain`.
- The last slice of a TWAP plan can exceed the participation cap:
  `OrderSlicer.LastSliceWithinCapIff`, `OrderSlicer.LastSliceCanExceedTheCap`.
- A weekend flatten is reported before the bar's extremes are taken in, so it
  can claim more than the best excursion: `ExitTelemetry.WeekendReportWithinIff`.
- Two actions with the same ex-bar make the second dividend factor see an
  adjusted close, unless the adjustment is below the rounding:
  `CorporateActions.FactorSeesRawCloseIff`.
- The cost gate looks at the quantity before lot flooring, and the floored order
  need not clear its costs: `PositionSizer.CostsSurviveFlooringIff`,
  `PositionSizer.FlatFeeCanEatTheFlooredOrder`.
- A fill on an order that was never sent, or was closed without being filled, is
  refused as an illegal transition and yet booked:
  `OrderAccounting.RefusedFillIsBookedIff`.
- The Kelly search stops at 0.999 of the survivable range, and the best fraction
  can lie beyond, as for one loss of 1 and 2000 wins of 1:
  `KellySearch.SearchCoversTheBestIff`, `KellySearch.BestBeyondTheSearchIff`.
- The Kelly report is rounded to four decimals, and a rounded fraction need not
  survive the worst trade: `KellySearch.RoundedSurvivesIff`,
  `KellySearch.RoundedWipesOut`.
- The Indian session scan announces an open even when the session is configured
  to close before it opens: `MarketClock.IndiaNextOpen`.

## Model

| member | source | states |
|---|---|---|
| PaperBroker.Broker.OnTick | src/core/paper_broker.py:60-81 | Moves the broker's fields exactly as the specification's tick: every resting order of the symbol that the price crosses is removed and filled, in placement order, at the worse of trigger and price |
| PaperBroker.Broker.PlaceOrder | src/core/paper_broker.py:83-107 | Replies and moves the fields as the specification: refusals, margin check on buys after the id is used up, stop orders rest, market orders fill in full |
| PaperBroker.Broker.ModifyOrder | src/core/paper_broker.py:109-114 | Rewrites the trigger of the one order with that id, in its place in the queue; an unknown id changes nothing |
| PaperBroker.Broker.CancelOrder | src/core/paper_broker.py:116-121 | Removes exactly the order with that id; an unknown id changes nothing |
| PaperBroker.Broker.RecordFill | src/core/paper_broker.py:123-152 | Cash, holding with its average rule (flip branch first), cost total and fill log after one fill |
| PaperBroker.Broker.ComputeEquity | src/core/paper_broker.py:165-172 | The two-pass formula, summed over the holdings in listing order |
| Ledger.LedgerIsFoldOfFills | src/core/paper_broker.py:60-152 | In every reachable state cash, costs and every holding are the fold of the fill log, no order id is filled twice, and no filled id still rests |
| Ledger.DeadIdNeverFiresAgain | src/core/paper_broker.py:60-121 | An id that was fired, filled or cancelled never fills again over any further run, and the fill log only grows |
| Ledger.TickFiresExactlyTheCrossedStops | src/core/paper_broker.py:60-81 | A tick fires exactly the resting stops it crosses, oldest first, each in full at the tick price, and leaves every other order alone |
| Ledger.StopNeverBeatsTrigger | src/core/paper_broker.py:60-81 | With non-negative impact a fired stop never fills better than its trigger, nor better than the tick |
| Ledger.EquityGap | src/core/paper_broker.py:165-172 | equity() overstates cash plus marked holdings by the basis carried on shorts, no more and no less |
| Ledger.EquityExactIffNoFlippedShort | src/core/paper_broker.py:123-172 | On every run, for any impact and costs, equity() is cash plus marked holdings if no open short came out of a long in one fill; and only then as long as every fill had a positive price, otherwise it is larger |
| Ledger.FillPricePositiveIff | src/core/paper_broker.py:123-130 | A fill has a positive price exactly when a sale's impact stays below 100 percent |
| Ledger.FlipOverstatesEquity | src/core/paper_broker.py:138-172 | The run buy 1, sell 2 at 100 leaves equity() 100 too high |
| FillHistory.EveryFillIsExplained | src/core/paper_broker.py:60-135 | On every run each fill of the log was made by one operation from the book as it was then: of a market order at the last price, or of a stop then resting at the price of the tick that reached it, moved by the impact of its own symbol and quantity against its own side, and charged the schedule's cost for its own side, quantity and price |
| StopAdapters.Server.Mt5Order | src/ops/paper_server.py:71-81 | Places at market and records the reply under the client's order id exactly when it was accepted |
| StopAdapters.Server.Mt5Lookup | src/ops/paper_server.py:83-88 | The reply given when the order was accepted; not found exactly for ids that were never accepted |
| StopAdapters.Server.Mt5Stop | src/ops/paper_server.py:90-105 | Rests a stop on the closing side of the open position |
| StopAdapters.Server.Mt5Modify | src/ops/paper_server.py:107-127 | A level at or below zero cancels; otherwise the trigger moves and the quantity shrinks to what is held |
| StopAdapters.Server.Mt5Close | src/ops/paper_server.py:129-136 | Closes at market; a refusal by the broker is still reported as success |
| StopAdapters.Adapter.Place | src/exits/adapters/india_stops.py:29-36 | Protective stop on either leg, refused on the exchange leg for fractional quantities |
| StopAdapters.Adapter.Modify | src/exits/adapters/india_stops.py:38-41 | The trigger moves in place on either leg; a failure of the broker is reported |
| StopAdapters.Adapter.Replace | src/exits/adapters/india_stops.py:48-53 | Cancel then place under a new id on the exchange leg; modify in place under the same id on the MT5 leg |
| StopAdapters.Adapter.Cancel | src/exits/adapters/mt5_stops.py:27-31 | Cancel on the exchange leg; stop level zero on the MT5 leg |
| StopAdapters.Adapter.Exit | src/exits/adapters/india_stops.py:55-61 | Market order on the closing side; refusals are visible on the exchange leg and swallowed on the MT5 leg |
| StopRules.PlaceStopRule | src/exits/adapters/india_stops.py:29-36 | A stop is placed exactly for a positive quantity, on the exchange leg a whole one, and then rests last with the given quantity and trigger; it closes the trade's direction there and the open position on the MT5 leg |
| StopRules.ModifyStopRule | src/ops/paper_server.py:107-127 | From any book with increasing ids a stop change succeeds exactly if the order rests; it keeps its place, and on the MT5 leg is cut to what is held, or cancelled by a level at or below zero; no other order changes |
| StopRules.CancelStopRule | src/exits/adapters/mt5_stops.py:27-31 | On either leg a cancellation succeeds exactly if the order rests, and removes only it |
| StopRules.ReplaceStopRule | src/exits/adapters/india_stops.py:48-53 | Re-placing a stop fails exactly if the old one does not rest or the exchange leg would not take the new one; by then the exchange leg has cancelled |
| StopRules.ExitMarketRule | src/exits/adapters/india_stops.py:55-61 | A market close succeeds exactly if it added one fill of the whole quantity on the closing side, and on the MT5 leg always; no resting order changes |
| ExitEngine.ExitManager.AttachStop | src/exits/exit_manager.py:90-111 | Refused inputs raise; otherwise the widest stop is placed first and the position recorded only if that succeeded |
| ExitEngine.ExitManager.RatchetStop | src/exits/exit_manager.py:113-128 | A stop moves only in the improving direction, small steps past RISK_ON are batched away, a forced widening raises, and a failed broker call leaves the engine's level moved |
| ExitEngine.ExitManager.SellPartial | src/exits/exit_manager.py:153-170 | Lot-floored slice of the original quantity sold, stop re-placed for the rest; where an exception leaves both sides |
| ExitEngine.ExitManager.Close | src/exits/exit_manager.py:172-198 | Report, EXITED, and unless the reason is a stop hit, cancel then close the lot-floored remainder |
| ExitEngine.ExitManager.ManualExit | src/exits/exit_manager.py:200-217 | Raises for an unknown or exited symbol with nothing touched; otherwise the active exit, other positions unchanged |
| ExitEngine.ExitManager.ReachBreakeven | src/exits/exit_manager.py:260-270 | From RISK_ON at the configured R: stop to entry, first partial unless taken, BREAKEVEN; an exception part-way leaves the phase |
| ExitEngine.ExitManager.ReachTrailing | src/exits/exit_manager.py:272-279 | From BREAKEVEN at the second rung: second partial unless taken, TRAILING |
| ExitEngine.ExitManager.LockProfit | src/exits/exit_manager.py:281-290 | Once at the lock's R the stop is ratcheted to the locked level and the flag set, whether or not the stop moved |
| ExitEngine.ExitManager.TrailStop | src/exits/exit_manager.py:292-299 | Past breakeven or once locked, the stop is ratcheted to the chandelier level of the current factor |
| ExitEngine.ExitManager.HandleBar | src/exits/exit_manager.py:219-301 | One bar in the code's order of tests, every other position unchanged |
| ExitEngine.ExitManager.ForceStopChange | src/exits/exit_manager.py:130-135 | The forced ratchet of a managed symbol, other positions unchanged |
| ExitEngine.Restart | src/exits/exit_manager.py:305-317 | Saving and restoring round trip: same symbols, every position without an exit report comes back exactly, an exited one loses its report and nothing else |
| ExitEngine.ExitManager.FromSnapshot | src/exits/exit_manager.py:312-317 | The restored engine manages exactly the snapshot's positions |
| ExitRules.AttachRule | src/exits/exit_manager.py:90-111 | Attach succeeds exactly on positive inputs (a whole quantity on the exchange leg); the stop is on the losing side at the larger of k_sl ATRs and the structure level's distance, which is the initial risk, and rests at the broker for the whole quantity |
| ExitRules.ExitRule | src/exits/exit_manager.py:232-255 | A bar exits exactly on a crypto weekend to be flattened, else on a touched stop, else after the configured bars without a new extreme; price, realized R, best R and captured share of the report in each case |
| ExitRules.ExitIsReported | src/exits/exit_manager.py:222-255 | A bar that exits and returns reports exactly that action; a corrupt bar is reported and moves nothing, and an exited position is left alone |
| ExitRules.ProgressRule | src/exits/exit_manager.py:244-250 | A bar that does not exit leaves the best price seen and the number of bars since it was last improved, and no report |
| ExitRules.BarRule | src/exits/exit_manager.py:257-301 | The whole position and the reported actions after a bar that returns without exiting, each number written out in the configuration, the position and the bar: which rungs are taken and in what whole lots, phase, remainder, breakeven stop, profit lock and trail |
| ExitRules.TrailedStop | src/exits/exit_manager.py:292-299 | A bar that reports a trail leaves the stop k ATRs behind the best price seen; k is SHOCK's entry on a shock bar, else the trend's own, else RANGE's, halved for a near event and halved again for a weekend to be tightened, and once locked no more than the lock's own |
| Agreement.RatchetAgreesIff | src/exits/exit_manager.py:113-128 | Any stop change of a protected position, forced or not, keeps it protected if and only if it is not taken or its level can be placed (on the MT5 leg: above zero); it raises if and only if it is forced and not improving |
| Agreement.ReplaceStopAgrees | src/exits/adapters/india_stops.py:48-53 | After a partial sale, re-placing the stop on either adapter leaves one order for exactly the rest, under the id it returns |
| Agreement.SellAndReplaceAgrees | src/exits/adapters/mt5_stops.py:33-45 | Selling part and re-placing the stop leaves exactly the rest held under exactly one stop for the rest, on either adapter |
| Agreement.SaleAgreesIff | src/exits/exit_manager.py:153-170 | Selling a carved quantity raises if and only if the exchange leg refuses it, and keeps the agreement if and only if it is nothing, or goes through and is less than what remains, or is refused on the exchange leg; otherwise the engine has written off more than was sold |
| Agreement.ManageAgreesIff | src/exits/exit_manager.py:255-301 | Breakeven, second rung, profit lock and trail in turn keep the agreement if and only if each stage reached is given what it asks for, and then raise only where the exchange leg refuses a partial; otherwise the books are apart or the stop is gone |
| ConfiguredLadder.ConfiguredManageOk | src/exits/exit_manager.py:255-301 | With partials of less than 100 percent together, trails not negative and a lock below its trigger, a managed bar meets that condition and returns once its partials can be carried out and the stop can be placed |
| ConfiguredLadder.ConfiguredBarIsAllowed | src/exits/exit_manager.py:219-301 | So does every managing bar after any agreed run: the ladder never sells the whole position and no level falls to zero |
| BarWindows.TickInWindow | src/core/paper_broker.py:60-81 | One tick keeps: closed, with the stop's id used up, once some tick of the window reached the stop; protected until then |
| BarWindows.ExitFlattensIff | src/exits/exit_manager.py:172-198 | An active exit of a protected position leaves nothing held and nothing resting if and only if what remains is whole lots and its market close goes through (on the exchange leg: a whole quantity); then it returns |
| BarWindows.OddLotIsLeftBehind | src/exits/exit_manager.py:185-198 | Otherwise the part that is no whole lot stays held, with no order for it, while the engine is EXITED and the call returned |
| BarWindows.BarAgreesIff | src/exits/exit_manager.py:219-301 | The bar that closes an agreed window leaves the books matching - flat if EXITED, protected otherwise - if and only if its active exit ends flat or its stages are given what they ask; it then reports stop_hit iff the broker's stop fired inside, a weekend flatten after the stop apart |
| BarWindows.PartialAgreesIff | src/exits/exit_manager.py:153-170 | A partial returns with the rest protected if and only if it sells nothing, or less than the remainder with the close going through and the stop at a level that can be placed again |
| BarWindows.MidWindowExitFlatIff | src/exits/exit_manager.py:172-242 | An active exit inside a window ends flat if and only if: before the stop has fired, the remainder is whole lots and its close goes through; after it has fired, the close is of nothing or does not go through |
| BarWindows.ForceMidWindowAgreesIff | src/exits/exit_manager.py:113-135 | A forced stop change inside a window, to any level, keeps the agreement if and only if it is not taken, the old stop has fired, or the level can be placed and no tick of the window reaches it |
| BarWindows.ForcedPastATick | src/exits/exit_manager.py:113-135 | If a tick reaches it, the closing bar reports a stop hit and exits the position while the broker still holds everything, under a live stop or, if the level cancelled it, under none |
| BarWindows.ForcedToCancel | src/ops/paper_server.py:107-127 | If the level cannot be placed, the whole position stays held without a stop over any further ticks, and a short is then reported as stopped out by the next bar |
| UsedIds.BarStaysDead | src/exits/exit_manager.py:219-301 | No bar, whatever fails in it, brings a used-up order id back |
| BarWindows.UnseenTickAgreesIff | scripts/research_replay.py:293 | A tick sent to the broker outside any window of the engine keeps the agreement if and only if it does not reach the stop |
| TradeRun.StepAgreesIff | scripts/research_replay.py:319-343 | From an agreed state any event - tick, bar, entry, forced stop, manual close, restart - leads to one that agrees in every symbol if and only if it meets its condition |
| TradeRun.RunAgreesIff | scripts/research_replay.py:319-343 | Over any run, engine and broker agree in every state if and only if every event meets its condition |
| TradeRun.EngineAndBrokerAgree | scripts/research_replay.py:319-343 | In every state of such a run, inside windows and between bars: a live position whose stop has not fired is held in exactly its remaining quantity under exactly one order, the engine's stop; in any other symbol nothing is held and nothing rests |
| TradeRun.NoPhantomPosition | scripts/research_replay.py:319-343 | No holding of a managed trade ever has the wrong sign or exceeds its entry size, no fill crosses zero, and once a trade is over its fills cancel out |
| TradeRun.StopHitReportedIffFired | src/exits/exit_manager.py:232-242 | On every such run a bar reports a stop hit exactly when the broker's holding is already gone; a weekend flatten never reports one, and only the exchange leg raises, with the holding still there |
| TradeRun.RestartAgreesIff | src/exits/exit_manager.py:305-317 | A restart keeps every live position exactly and loses the windows; it keeps the agreement if and only if no live position's stop has fired in a lost one |
| TradeRun.EntryAgreesIff | src/exits/exit_manager.py:90-111 | Any entry keeps the agreement if and only if the broker refuses it, or nothing is held of the symbol, attach accepts the fill and no tick already in the open window reaches the new stop |
| TradeRun.EquityExactOnManagedRuns | src/core/paper_broker.py:165-172 | On every such run equity() is cash plus marked holdings |
| TradeRun.WindowIsTicksSince | scripts/research_replay.py:319-343 | On any run, agreed or not, the window a bar of a symbol closes is made of exactly the positive ticks of that symbol since its last bar or the last restart |
| ExitDiscipline.BarImproves | src/exits/exit_manager.py:219-301 | Whatever the broker answers, a bar never widens a stop, goes back a phase or grows a position, and past RISK_ON the stop is at entry or better |
| ExitDiscipline.HeatFalls | src/risk/portfolio_heat.py:29-36 | A position that improved in stop, phase and size carries no more heat than before, and never a negative one |
| ExitDiscipline.StopsAndHeatOnlyImprove | src/risk/portfolio_heat.py:29-57 | Over any run without new entries, failures and restarts included, stops and phases only improve, the book's currency heat never rises, and no position past RISK_ON carries any |
| ExitDiscipline.NoHeatPastRiskOn | src/risk/portfolio_heat.py:29-57 | In every state any run can reach, entries included and agreement not required, a position past RISK_ON carries no heat |
| PortfolioHeat.PortfolioHeatManager.CurrentHeat | src/risk/portfolio_heat.py:45-57 | Times equity it is the summed loss-if-stopped of the open positions; infinite exactly for a worthless account |
| PortfolioHeat.PortfolioHeatManager.Check | src/risk/portfolio_heat.py:59-74 | Admits exactly the non-negative risks that keep the book, in currency, within the cap and its tolerance |
| PortfolioHeat.HeatIsLossAtStop | src/risk/portfolio_heat.py:29-36 | An open position's heat is what its remainder cost less what its stop would fetch, for a short the other way round, and nothing where that is no loss |
| PortfolioHeat.HeatAdds | src/risk/portfolio_heat.py:45-57 | The summed heat of two lists of positions is the sum of theirs, and of one position its own |
| ExitTelemetry.ReportsAreBounded | src/exits/exit_manager.py:172-301 | Over any regular bars the stop stays between initial risk and extreme; stop and time exits report at most the best excursion and 100 percent captured, a stop hit never worse than -1R |
| ExitTelemetry.AttachedIsSound | src/exits/exit_manager.py:90-111 | A position attached with its stop on the losing side meets the bounds at the start |
| ExitTelemetry.WeekendReportWithinIff | src/exits/exit_manager.py:232-236 | A weekend flatten reports within the bounds if and only if the close is not beyond the extreme seen so far |
| OrderStateMachine.OrderRecord.Move | src/core/order_state_machine.py:103-107 | Refuses a transition outside the table, otherwise records and moves; repeating the state is allowed |
| OrderStateMachine.TableIff | src/core/order_state_machine.py:36-78 | The states each state is entered from, and the terminal states are those that nothing leaves |
| OrderStateMachine.OrderBook.Create | src/core/order_state_machine.py:122-131 | A new record in CREATED is added under its id, every other record stays |
| OrderStateMachine.OrderBook.Ack | src/core/order_state_machine.py:136-140 | A repeated acknowledgement changes nothing; another one is stored before the transition check |
| OrderStateMachine.OrderBook.Fill | src/core/order_state_machine.py:142-156 | Refuses non-positive and excess fills; otherwise books quantity and weighted price before the transition check |
| OrderStateMachine.OrderBook.Reject | src/core/order_state_machine.py:158-160 | The reason is stored before the transition check |
| OrderStateMachine.OrderBook.ReconcileUnknown | src/core/order_state_machine.py:171-206 | Only UNKNOWN is reconciled; a failed lookup keeps it, absence fails it, a fill or status is adopted with the broker's own reject reason |
| OrderStateMachine.OrderBook.RetryAsNew | src/core/order_state_machine.py:208-218 | Only a proven absence may be retried, as a new record under a new id |
| OrderStateMachine.OrderBook.OpenExposure | src/core/order_state_machine.py:220-227 | Per symbol, the signed sum of filled quantities over all records |
| OrderAccounting.OrderIsAccounted | src/core/order_state_machine.py:136-206 | Over any calls on a new order, refused ones included: filled is the sum of booked fills within the request's tolerance, the average is their weighted price and between any bounds on them, FILLED means filled |
| OrderAccounting.FillsOnlyGrowAndTerminalStays | src/core/order_state_machine.py:36-78 | Over any calls the filled quantity never falls and a terminal state never changes |
| OrderAccounting.RefusedFillIsBookedIff | src/core/order_state_machine.py:142-156 | A fill is refused as an illegal transition if and only if it is bookable and the order is CREATED, CANCELLED, REJECTED or FAILED_NOT_PLACED; then the state stays and the fill is counted |
| OrderAccounting.CallRule | src/core/order_state_machine.py:133-206 | On an accounted order, which calls are invalid, in which states each call is refused, and the state it leads to otherwise; a reconciliation adopts what the broker says, fills first |
| OrderAccounting.NotesRule | src/core/order_state_machine.py:136-206 | Which broker id and which reject reason the record has after a call, refused ones included |
| OrderAccounting.HistoryIsAWalk | src/core/order_state_machine.py:103-107 | Over any calls the history is a walk through the table from CREATED to the state the order is in |
| Dispatch.Router.Dispatch | src/core/order_router.py:260-285 | The record and the broker after one uninterrupted dispatch, for a lost request, a lost reply and a delivered one, and when the order is reported as accepted in each |
| Dispatch.Router.TakeReply | src/core/order_router.py:274-285 | A refusal rejects; an acceptance is acknowledged and its fill booked, at the entry price when the reply names none |
| Dispatch.Router.SettleUnknown | src/core/order_router.py:265-273 | UNKNOWN, one lookup at the server, one reconcile; accepted exactly in ACKED, PARTIAL or FILLED |
| Dispatch.DispatchRule | src/core/order_router.py:260-285 | A new order ends FILLED with the broker's own id, price and quantity exactly if it was taken and a reply or a lookup said so, REJECTED or FAILED_NOT_PLACED exactly if it was not and this was said, and UNKNOWN exactly if nothing was said, whatever the network does |
| PlacementProtocol.StepConsistentIff | src/core/order_router.py:263-297 | Posting, arrival, loss, reply, timeout (the request still travelling or not), lookup, adoption and retry are separate steps in any interleaving; a step keeps the protocol's invariant if and only if ids are fresh, a failure is retried once, a SENT record is posted again only after its request was lost, and no request is taken after its sender was told that the broker does not have it |
| PlacementProtocol.AtMostOnePlacedPerChain | src/core/order_router.py:263-297 | On every run of such steps over any number of orders at most one attempt of a retry chain was ever placed |
| PlacementProtocol.DispatchIsARun | src/core/order_router.py:234-285 | The uninterrupted dispatch is the run of those steps with nothing in between |
| PlacementProtocol.BrokerRunsFreely | src/core/order_router.py:263-297 | Any run of the broker by itself is a run of the protocol with nothing else in it: what happens at the broker meanwhile is not restricted |
| PlacementProtocol.SettledTellsTheTruth | src/core/order_state_machine.py:165-206 | In any interleaving an order neither SENT nor UNKNOWN is FILLED if and only if the broker has it, and then in the full requested quantity |
| PlacementProtocol.RetryKeepsIff | src/core/order_state_machine.py:208-218 | Retrying a failed attempt under a fresh id keeps the invariant - one live end per chain - if and only if it has not been retried before |
| PlacementProtocol.SecondRetryPlacesTwice | src/core/order_state_machine.py:208-218 | Retrying one failed attempt twice places two orders of the same chain |
| PlacementProtocol.SecondPostFillsIff | src/core/order_state_machine.py:103-107 | Posting a record and the arrival of that request add a second fill under its id if and only if it was SENT, already placed, and the broker accepts again |
| PlacementProtocol.SecondPostFillsTwice | src/core/order_state_machine.py:103-107 | It can happen to the first order ever sent |
| PlacementProtocol.LateArrivalIff | src/core/order_router.py:262-273 | A request that arrives after its order was written off as never placed makes the record wrong if and only if the broker accepts it; what else of its chain was placed stays placed |
| PlacementProtocol.LateArrivalPlacesTwice | src/core/order_router.py:262-273 | A timeout before arrival, a truthful "unknown order", a retry and then the arrival: two orders of one chain |
| RouterExposure.ExposureIsBrokerTruth | src/core/order_state_machine.py:220-227 | At any moment of any interleaving the broker's signed fills of the router's orders are open exposure plus what the SENT and UNKNOWN orders have placed; equal when there are none |
| KellySearch.GrowthPerTrade | src/ops/risk_optimizer.py:52-65 | Mean log growth; none exactly for a negative fraction or one that some trade would wipe out |
| KellySearch.GrowthOfOne | src/ops/risk_optimizer.py:52-65 | Of one trade, growth is the log of what the trade leaves, and none exactly when it leaves nothing |
| KellySearch.GrowthOfBoth | src/ops/risk_optimizer.py:52-65 | Of two lists of trades together, growth is the mean of theirs weighted by their lengths, and some exactly when both are |
| KellySearch.KellyFraction | src/ops/risk_optimizer.py:68-102 | The four outcomes and when; the report rounds a fraction that survives every trade, its growth and f_max, and any fraction further than phi^80 * f_max / 2 plus half a unit of the fourth decimal from the reported one is strictly beaten by one within that distance |
| KellySearch.RoundedSurvivesIff | src/ops/risk_optimizer.py:86-102 | Every fraction of the searched range survives every trade after rounding if and only if the rounded f_max does |
| KellySearch.RoundedSurvives | src/ops/risk_optimizer.py:86-102 | It does as long as no trade lost 20 times its risk |
| KellySearch.RoundedWipesOut | src/ops/risk_optimizer.py:86-102 | After a loss of 15000 times the risk the reported f_max does not survive |
| KellySearch.MiddleBeatsAnEnd | src/ops/risk_optimizer.py:68-71 | Strict concavity of growth: of three fractions the middle one is never the worst |
| KellySearch.DomainSurvives | src/ops/risk_optimizer.py:86-90 | Every fraction up to f_max keeps every trade's wealth positive |
| KellySearch.SearchCoversTheBestIff | src/ops/risk_optimizer.py:86-90 | No survivable fraction beyond f_max grows faster than f_max if and only if growth does not rise at f_max |
| KellySearch.BestBeyondTheSearchIff | src/ops/risk_optimizer.py:86-90 | For one loss of 1 and n wins of 1 a faster survivable fraction lies beyond f_max if and only if n is at least 2000 |
| PositionSizer.CalculatePositionSize | src/core/position_sizer.py:41-117 | Result and reason, branch by branch, as the closed form |
| PositionSizer.RefusalRule | src/core/position_sizer.py:55-96 | Which of the refusals is given, exactly when, in terms of the inputs: no edge for a Kelly fraction at or below zero, VaR at limit for a current VaR at or above the daily limit |
| PositionSizer.SizeRule | src/core/position_sizer.py:65-117 | With an edge and VaR to spare, the size is the largest whole number of lots within the largest quantity whose share of the VaR limit fits what is not in use of the smaller of the edge-scaled risk budget and the position cap, and whose loss on a gap through the stop fits the daily budget - unless that quantity does not earn its costs |
| PositionSizer.SizeIsLargestLotMultiple | src/core/position_sizer.py:66-117 | Without a cost gate the size is the largest lot multiple not above the ideal quantity |
| PositionSizer.SizeMeetsAllBudgets | src/core/position_sizer.py:66-117 | Every size meets the position cap, the per-trade risk budget and the gap-loss budget at once |
| PositionSizer.SizeIsMonotone | src/core/position_sizer.py:66-117 | More balance, less VaR in use, a lower ATR and a closer stop never shrink the size |
| PositionSizer.CostsSurviveFlooringIff | src/core/position_sizer.py:104-117 | For any limits and cost function, every accepted order still clears its costs after flooring if and only if flooring to lots never raises the cost per unit |
| PositionSizer.ProportionalCostsSurviveFlooring | src/core/position_sizer.py:104-117 | Costs proportional to quantity meet that condition on every accepted input |
| PositionSizer.FlatFeeCanEatTheFlooredOrder | src/core/position_sizer.py:104-117 | Under a flat fee it need not |
| MarketClock.IndiaNextOpen | src/ops/market_clock.py:75-94 | The opening time of the first allowed day of the range that opens after now, and none exactly when there is no such day; while closed, no instant before it is open, and it is open iff the session opens before it closes |
| MarketClock.OpenHoursIff | src/ops/market_clock.py:75-82 | Open exactly on a configured weekday that is no holiday, from the opening time on and before the closing time |
| MarketClock.NextCloseEndsTheSession | src/ops/market_clock.py:96-103 | Open throughout up to the next close, and no longer open at it |
| MarketClock.FxNextOpen | src/ops/market_clock.py:105-126 | After now, with no open instant before it while closed, open there iff the week window is not empty; fails only for a weekday that does not exist |
| MarketClock.FxHoursIff | src/ops/market_clock.py:107-116 | Open exactly from the week's opening instant to its closing instant, and in no week of a window that closes before it opens |
| TickWindow.Window.Push | src/intel/anomaly_guard.py:66-70 | Appends and drops from the front exactly the leading ticks older than the cutoff |
| TickWindow.Window.Return | src/intel/anomaly_guard.py:72-85 | The return from the last tick before the scan passes the target |
| TickWindow.Window.Volume | src/intel/anomaly_guard.py:87-91 | The volume of the ticks inside the span |
| TickWindow.VolumeRefinesStream | src/intel/anomaly_guard.py:61-91 | For ticks in time order the volume over any span the window covers is that of the whole stream |
| TickWindow.ReturnRefinesStream | src/intel/anomaly_guard.py:61-91 | The return is measured from the stream's latest tick at or before the start of the span if that tick is at most the window's age old, and is none otherwise |
| AnomalyGuard.Guard.ProcessTick | src/intel/anomaly_guard.py:138-183 | Window, cool-off state, recorded events and triggers after one tick; other symbols untouched |
| AnomalyGuard.TriggerRule | src/intel/anomaly_guard.py:145-171 | For ticks in time order: the first band whose price has moved, up or down, by more than k sigma since the stream's latest tick one horizon ago, if that is at most a minute old; a spread beyond its multiple of the median; the volume of the last 30 seconds beyond its multiple of the usual; in this order and nothing else |
| AnomalyGuard.ActedRule | src/intel/anomaly_guard.py:138-183 | The guard acts on all that is found exactly when the symbol is primed and no acted shock is less than a cool-off ago |
| AnomalyGuard.ShocksAreApart | src/intel/anomaly_guard.py:121-183 | Over any stream of ticks, baselines primed or changed between them, any two acted shocks of a symbol are at least one cool-off apart |
| AnomalyGuard.GuardWindow | src/intel/anomaly_guard.py:138-140 | The guard's window is the sliding window of the symbol's stream, whatever was triggered |
| AnomalyGuard.VolumeSpikeSeesTheStream | src/intel/anomaly_guard.py:163-170 | The volume trigger fires exactly when the last 30 seconds of the whole stream exceed the threshold |
| BarAggregator.Aggregator.OnTick | src/data/bar_aggregator.py:40-60 | A non-positive price raises with nothing changed; otherwise open bar and emitted bar as the group step |
| BarAggregator.Aggregator.Flush | src/data/bar_aggregator.py:62-64 | Hands out the open bar and forgets it |
| BarAggregator.BucketHolds | src/data/bar_aggregator.py:37-38 | A tick lies in its bucket's interval, and the bucket is a multiple of the interval |
| BarAggregator.BarsAreGroups | src/data/bar_aggregator.py:37-64 | For ticks in any order the emitted bars and the open one are exactly the first/max/min/last/sum of the accepted ticks per bucket, buckets strictly increasing |
| BarAggregator.VolumeIsConserved | src/data/bar_aggregator.py:40-60 | The bars' volumes add up to the accepted ticks' volumes |
| BarAggregator.StaleIff | src/data/bar_aggregator.py:48-51 | A tick is dropped if and only if an earlier tick belongs to a later bucket |
| CorporateActions.AdjustBars | src/data/corporate_actions.py:41-63 | The loops compute the actions applied one after another in ex-date order, prices and logged factors rounded to six decimals, or raise where one is refused |
| CorporateActions.FactorRule | src/data/corporate_actions.py:29-38 | A split or bonus divides by its own factor, refused exactly at or below 1; a dividend turns the close before it into what is left of it, refused exactly unless it is positive and below that close |
| CorporateActions.SortKeeps | src/data/corporate_actions.py:49 | Sorting by ex-date loses and invents no action |
| CorporateActions.AdjustedIsClosedForm | src/data/corporate_actions.py:41-63 | Every price of every bar is the raw price divided by the product of the factors of the applied actions that go ex after it, within half a millionth for each of them; the volume is the raw volume times that product exactly |
| CorporateActions.TradedValueUnchanged | src/data/corporate_actions.py:41-63 | Price times volume is unchanged for every bar and every price, within half a millionth of the adjusted volume for each action that covers the bar |
| CorporateActions.FactorSeesRawCloseIff | src/data/corporate_actions.py:29-63 | The close an action's factor is computed from is the raw close if and only if every earlier applied action that goes ex on the same bar leaves that close as it is within rounding |
| AuditChain.AuditLog.Append | src/risk/pre_trade_gate.py:23-31 | Appends the one row that links to the head |
| AuditChain.AuditLog.VerifyChain | src/risk/pre_trade_gate.py:33-43 | True if and only if every row links to the one before and carries its own hash |
| AuditChain.JsonlAuditLog.Load | src/ops/persistence.py:33-45 | The rows of the file's lines, or the exception of the first bad one: tampered, or not a JSON object |
| AuditChain.LoadedVerifies | src/ops/persistence.py:33-45 | What loads is a verifying chain |
| AuditChain.JsonlAuditLog.Append | src/ops/persistence.py:47-60 | Memory gains the one row that links to the head, the file gains that row's text |
| AuditChain.JsonlAuditLog.VerifyChain | src/ops/persistence.py:62-67 | True if and only if the file loads, false if and only if it is tampered with, an exception if and only if its first bad line is not a JSON object |
| AuditChain.AppendVerifies | src/ops/persistence.py:47-60 | A verifying chain still verifies after an append, whatever the row |
| AuditChain.LoadWritten | src/ops/persistence.py:33-60 | A written chain loads as its rows read back, or as tampered at the first row whose hash no longer fits after writing and reading |
| AuditChain.RunsReloadIff | src/ops/persistence.py:33-67 | A run of appends and reloads raises nowhere if and only if at every reload all rows appended before survive writing and reading; then file and memory hold the chain of the appended bodies, and one more load succeeds if and only if all survive |
| AuditChain.ReloadsTheSameIff | src/ops/persistence.py:33-60 | A chain reloads to the same rows if and only if every body reads back as itself, as JSON bodies do |
| AuditChain.SurvivesIffSameText | src/ops/persistence.py:38-58 | Without a collision a row survives if and only if its serialisation is the same after reading |
| AuditChain.LostRowBreaksReload | src/ops/persistence.py:38-58 | One append of a body that does not survive, then a reload: the untouched log raises |
| AuditChain.SameHeadSameRows | src/ops/persistence.py:33-67 | Two verifying chains of JSON rows with the same last hash have identical rows, unless the hash collides on a string one of them hashes |
| AuditChain.SameHeadSameFiles | src/ops/persistence.py:33-67 | So do two files that load |
| OrderSlicer.PlanInLots | src/core/order_slicer.py:31-52 | The plan in lots: quotient per child, remainder on the last, one child when the quotient is zero |
| OrderSlicer.PlanRule | src/core/order_slicer.py:31-52 | For every request of at least one lot, in terms of the request: the cap on a child, the fewest children within it up to the limit, their sizes, and the first child's share of the interval's volume |
| OrderSlicer.NoPlanIff | src/core/order_slicer.py:31-52 | No child exactly for a request below a lot or without positive quantity, lot and volume; a division by zero exactly with no slices allowed or an interval of no length |
| OrderSlicer.SlicesConserveTheParent | src/core/order_slicer.py:31-52 | For every request of at least one lot the children are positive lot multiples that sum to the executable quantity, all but the last equal, the last larger by at most n-1 lots |
| OrderSlicer.EqualSlicesWithinCap | src/core/order_slicer.py:36-48 | When the slice limit does not bind, the equal children are within the participation cap |
| OrderSlicer.LastSliceWithinCapIff | src/core/order_slicer.py:48-50 | The last child is within the cap if and only if quotient plus remainder of the parent's lots is |
| OrderSlicer.LastSliceCanExceedTheCap | src/core/order_slicer.py:48-50 | 29 lots under a cap of 10 leave 11 for the last child |

## Left out

- Floating point, NaN and infinity screens, decimal rounding other than the Kelly report's and the corporate actions', the heat threshold's representation, and wall-clock reads: exact reals and explicit time arguments instead.
- The margin product (MIS or CNC), limit orders, and the journal fields of orders and fills (time, note, product): they do not steer any modelled branch.
- The cost schedule and the square-root impact: arbitrary functions of symbol, side, quantity and price.
- Callbacks of the engine (on_partial, on_exit) and its count of modify calls.
- HTTP status codes, JSON parsing and authentication; adapters call the broker directly, and a proxy error that is neither a timeout nor a broker reply is not distinguished from a rejection.
- Several lookups of one order at a time, and replies that overtake each other: one answer is under way per attempt.
- The exchange leg's lookup: its order payload carries no client id (src/core/broker_payloads.py:27-38), so the placement theorems are about the MT5 leg.
- The router's pre-trade checks, audit rows and market classification; the guards, gates, reconciler and session checks around it.
- Actions of the anomaly guard (pausing entries, alerts, tightening stops) and the statistics that prime it.
- Restoring a snapshot older than the current state, and ticks the broker sees while the process is down: a restart resumes at once from the state it saved (BarWindows.UnseenTickAgreesIff says what an unseen tick does).
- Audit lines that are JSON objects with hashes that are not texts: they count as a line whose hashes are missing, which is tampered with in either case.
- Time zones: instants are given on each leg's own clock.
- Feeding the engine whole-candle highs and lows instead of the ticks the broker saw (scripts/run_paper.py).
- Monte Carlo and edge reports, and the filter for missing R values, around the Kelly search.
- Cockpit, dashboards, news, statistics and language-model adapters, and storage other than the audit log.
- TradeRun.EngineAndBrokerAgree: assumes the conditions listed under "The main theorem", none of which the code enforces; TradeRun.RunAgreesIff shows that they are exactly what agreement takes.
- PlacementProtocol.AtMostOnePlacedPerChain: assumes the conditions of PlacementProtocol.Allowed, which the state machine and the network do not enforce; PlacementProtocol.StepConsistentIff shows that they are exactly what keeps the invariant.
- AuditChain.SameHeadSameRows: is about JSON rows, as a file holds them; in memory a date and its text have one serialisation.
