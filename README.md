# Portfolio and benchmark engines, modelled in Dafny

This project models the two calculation engines of a personal stock-portfolio
dashboard.

- **`PortfolioEngine`** (`js/portfolioEngine.js`) turns trade rows
  (`Date, Action, Stock, Quantity, Price, Total_Value`) and cashflow rows
  (`Date, Type, Amount`) into one event list and sorts it chronologically. It
  then replays the events against a ledger: cash balance, total deposits,
  positions, average cost and latest purchase price per stock. After every
  event it records a history row (cash, NAV at latest purchase prices,
  portfolio value, P&L). It reports summary statistics, including a simple
  return and the XIRR-based CAGR.
- **`BenchmarkEngine`** (`js/benchmarkEngine.js`) models a buy-and-hold shadow
  portfolio. Every external capital injection buys index units at that day's
  price. The engine chains a time-weighted return (TWR) over the resulting
  history, annualises it, and reports the benchmark's own XIRR.

Both engines are Dafny classes whose fields mirror the source's fields. Each
method is proved against a pure specification function:

- `Run`, `History` and `Annotated` for the portfolio;
- `Walk`, `TwrPeriod` and `TwrPoints` for the benchmark.

The lemmas then state what the source promises about those functions:

- cash conservation;
- deposits never decreasing;
- realized P&L against the average cost;
- fully sold positions leaving NAV;
- the walk's totals and entry shape;
- a TWR that starts at 0 % and telescopes over a sub-period.

Files:

| file | contents |
|---|---|
| `basics.dfy` | `Option`, `Abs` |
| `xirr.dfy` | XIRR flows, the solver outcome, the ±10000 % fail-safe |
| `sorted_keys.dfy` | sorted map keys (`Object.keys(..).sort()` on day numbers) |
| `portfolio_events.dfy` | row normalisation, the event comparator, the in-place sort |
| `portfolio_ledger.dfy` | the ledger as values: applying events, snapshots, NAV, the CAGR schedule |
| `portfolio_laws.dfy` | properties of the ledger, and the engine's test scenarios |
| `portfolio_engine.dfy` | class `PortfolioEngine` |
| `benchmark_spec.dfy` | the benchmark walk and the TWR chain as values |
| `benchmark_laws.dfy` | properties of the walk |
| `twr_laws.dfy` | properties of the TWR chain |
| `benchmark_engine.dfy` | class `BenchmarkEngine` |

Dates are day numbers (`int`). ISO date strings sort in date order, so the
ordering comparisons of the source are preserved. Amounts are exact `real`s.

## Model

| member | source | states |
|---|---|---|
| Basics.Abs | js/portfolioEngine.js:126-128 | `Math.abs` is non-negative and is the value or its negation |
| Xirr.RateToPercent | js/portfolioEngine.js:279-282 | the fail-safe: NaN or a rate beyond 100 reports 0, any other rate is reported ×100, so the result lies in [-10000, 10000] |
| SortedKeys.MinOf | js/benchmarkEngine.js:57-58 | the least day of a non-empty set is in the set and below every member |
| SortedKeys.AscendingSpec | js/benchmarkEngine.js:45 | the sorted key list has the set's size, exactly its members, is strictly increasing, and starts at the least key |
| SortedKeys.SortedDates | js/benchmarkEngine.js:20 | the sorted key list of a price map is the ascending list of its keys |
| PortfolioEvents.TradeEvent | js/portfolioEngine.js:19-30 | a trade row becomes a Trade event carrying date, action, stock, quantity, price and total value verbatim |
| PortfolioEvents.CashflowEvent | js/portfolioEngine.js:33-58 | a Deposit is credited with the row's magnitude and sign +, a Withdrawal with sign −, any other type keeps the row's amount |
| PortfolioEvents.Compare | js/portfolioEngine.js:62-78 | the comparator answers −1, 0 or 1, and on different dates never 0, negative exactly when the first is earlier; its full meaning is given by `ChronologicalIffComparator` and `CompareAgreesWithKey` |
| PortfolioEvents.ChronologicalIffComparator | js/portfolioEngine.js:62-78 | a sequence is in chronological order (dates ascending, cashflows before trades, no buy after a sell on a day) exactly when the comparator never ranks a later element before an earlier one |
| PortfolioEvents.KeySortedIsChronological | js/portfolioEngine.js:62-78 | events ordered by (date, rank) are in chronological order |
| PortfolioEvents.CompareAgreesWithKey | js/portfolioEngine.js:62-78 | without zero-quantity trades, the comparator's sign is exactly the (date, rank) order: negative when strictly before, positive when strictly after, zero on equal keys |
| PortfolioEvents.SwapKeepsKeyOrder | js/portfolioEngine.js:62-78 | exchanging two neighbours that are strictly out of key order leaves the order of the events of every key unchanged |
| PortfolioEvents.StableSortUnique | js/portfolioEngine.js:62-78 | two key-sorted sequences that keep the same order within every key are equal: a stable sort by the comparator has exactly one result |
| PortfolioEvents.InsertOne | js/portfolioEngine.js:62-78 | one insertion pass extends the key-sorted prefix by one element, permutes the array and keeps the order within every key |
| PortfolioEvents.SortEvents | js/portfolioEngine.js:62-78 | sorting in place leaves the events in key order (hence chronological), a permutation of the input, with the input order kept among events of equal date and rank (a stable sort) |
| PortfolioLedger.Touch | js/portfolioEngine.js:103-104 | a stock seen for the first time gets a zero position and zero average cost; quantities and costs of known stocks are unchanged |
| PortfolioLedger.AverageCost | js/portfolioEngine.js:112-116 | the new average cost times the new quantity equals the old cost basis plus everything paid (fees included) |
| PortfolioLedger.SnapDust | js/portfolioEngine.js:141-142 | a position is either kept or, when below 0.0001 in magnitude, set to exactly 0; no result is a non-zero dust value |
| PortfolioLedger.Apply | js/portfolioEngine.js:84-147 | applying any event keeps the ledger well formed (every position has an average cost) |
| PortfolioLedger.RealizedPnL | js/portfolioEngine.js:127-134 | exactly the sells get a realized P&L; its value (proceeds minus the sold quantity at the prior average cost, 0 when none) is stated by `SellEffect` |
| PortfolioLedger.NavOf | js/portfolioEngine.js:151-156 | NAV as the NAV loop sums it over the held stocks; `ClosedPositionAddsNothing`, `NavOfLongOnly` and `NetAssetValue` state its properties |
| PortfolioLedger.Snapshot | js/portfolioEngine.js:158-169 | a history row carries the state's cash and deposits, NAV over the positions at latest purchase prices, value = cash + NAV, P&L = value − deposits, a copy of the positions |
| PortfolioLedger.Run | js/portfolioEngine.js:84-171 | replaying any event sequence keeps the ledger well formed |
| PortfolioLedger.History | js/portfolioEngine.js:84-171 | one history row per processed event |
| PortfolioLedger.Annotated | js/portfolioEngine.js:81 | one processed-event record per event |
| PortfolioLedger.SimpleReturn | js/portfolioEngine.js:182-186 | 0 without positive deposits; otherwise the return times deposits is 100 × the gain, positive exactly when value exceeds deposits and 0 exactly when they are equal |
| PortfolioLedger.CashflowXirrAmount | js/portfolioEngine.js:213-225 | a deposit enters the XIRR schedule as money in (≤ 0), anything else as money out (≥ 0), always with the row's magnitude |
| PortfolioLedger.BuyFlows | js/portfolioEngine.js:231-245 | the fallback schedule has at most one flow per trade, each money in (≤ 0) |
| PortfolioLedger.BuyFlowsHasEveryBuy | js/portfolioEngine.js:234-239 | every trade of positive quantity contributes the flow minus its total value, on its date |
| PortfolioLedger.BuyFlowsOnlyBuys | js/portfolioEngine.js:234-239 | every flow of the fallback schedule is minus the total value of some trade of positive quantity, on that trade's date |
| PortfolioLaws.CashflowEffect | js/portfolioEngine.js:87-91 | a cashflow moves cash by its amount, adds it to deposits only when positive, and leaves positions, costs and purchase prices unchanged |
| PortfolioLaws.TradeEffect | js/portfolioEngine.js:97-147 | a trade moves cash by its total value, leaves deposits and every other stock unchanged, and moves its own position by the quantity (dust-snapped on a sell) |
| PortfolioLaws.BuyEffect | js/portfolioEngine.js:106-120 | a buy sets the cost basis to the old basis plus the magnitude of the total value, records the trade price as the latest purchase price, and realizes nothing |
| PortfolioLaws.SellEffect | js/portfolioEngine.js:122-145 | a sell keeps the average cost and purchase price and realizes proceeds − the sold quantity × the average cost held before it (0 when none) |
| PortfolioLaws.FullSellClosesPosition | js/portfolioEngine.js:137-145 | selling a whole position (to within the dust threshold) leaves it at exactly 0, contributing nothing to NAV |
| PortfolioLaws.RunDeposits | js/portfolioEngine.js:87-91 | total deposits end as the start plus the sum of the positive cashflows |
| PortfolioLaws.DepositsNeverDecrease | js/portfolioEngine.js:87-91 | total deposits after a prefix never exceed those after a longer prefix |
| PortfolioLaws.RunCash | js/portfolioEngine.js:87-98 | cash ends as the start plus every cashflow amount and every trade total value |
| PortfolioLaws.HistoryAt | js/portfolioEngine.js:158-169 | history row i is the snapshot of the ledger right after event i, dated by it |
| PortfolioLaws.HistoryRowsConsistent | js/portfolioEngine.js:158-169 | every history row has its event's date, value = cash + NAV and P&L = value − deposits |
| PortfolioLaws.AnnotatedAt | js/portfolioEngine.js:81-147 | processed event i is event i with the realized P&L computed in the state just before it |
| PortfolioLaws.EventsOfAnnotated | js/portfolioEngine.js:81-147 | the processed events are the events in order, and exactly the sells carry a realized P&L |
| PortfolioLaws.ClosedPositionAddsNothing | js/portfolioEngine.js:151-156 | a zero position adds nothing to NAV whatever its purchase price |
| PortfolioLaws.NavOfLongOnly | js/portfolioEngine.js:151-156 | with non-negative positions and purchase prices, NAV is non-negative |
| PortfolioLaws.TouchKeepsKeyOrder | js/portfolioEngine.js:103-104 | a new stock is appended to the key order; a known one leaves it unchanged; the order lists every position once |
| PortfolioLaws.ApplyKeepsKeyOrder | js/portfolioEngine.js:151-156 | every event keeps each position listed exactly once, so NAV counts every holding once |
| PortfolioLaws.RunKeepsKeyOrder | js/portfolioEngine.js:151-156 | the key order invariant holds along a whole run |
| PortfolioLaws.RunSnoc | js/portfolioEngine.js:84-171 | one more event extends the ledger, the history and the processed events by exactly that event |
| PortfolioLaws.ScenarioRuns | tests/portfolioEngine.test.js:50-64 | deposit 1000 then buy 10 ABC at 50 for 500: cash 500, 10 ABC held at average cost 50, history rows for both events |
| PortfolioLaws.ScenarioDepositBuySell | tests/portfolioEngine.test.js:67-82 | deposit 1000, buy 10 ABC at 50 for 500, sell 5 at 60 for 300: cash 800, 5 ABC held, and the sell realizes 50 |
| PortfolioLaws.ScenarioDepositBuySellHistory | tests/portfolioEngine.test.js:67-82 | the same scenario's history: value 1000 after the deposit, cash 500 and value 1000 after the buy, value 1050 after the sell |
| PortfolioLaws.ScenarioWithdrawal | tests/portfolioEngine.test.js:85-98 | deposit 1000, withdraw 200: cash and value 800, deposits stay 1000 |
| PortfolioLaws.ScenarioFeeShowsAsLoss | js/portfolioEngine.js:151-159 | NAV at the unit price makes a buy's fee show as a loss: 992.59 deposited and spent on 11 units at 90.10 values at 991.10, a simple return of −149/992.59 % |
| Portfolio.PortfolioEngine.constructor | js/portfolioEngine.js:3-12 | stores the rows; empty ledger, history and processed events |
| Portfolio.PortfolioEngine.UnifyEvents | js/portfolioEngine.js:16-59 | every trade row then every cashflow row, normalised, in input order |
| Portfolio.PortfolioEngine.ApplyEvent | js/portfolioEngine.js:86-147 | the fields become the ledger after the event, and the returned P&L is the event's realized P&L |
| Portfolio.PortfolioEngine.ApplyTrade | js/portfolioEngine.js:97-147 | the trade branch: the fields become the ledger after the trade, with its realized P&L |
| Portfolio.PortfolioEngine.ApplyBuy | js/portfolioEngine.js:106-120 | the buy branch: the fields become the ledger after the buy |
| Portfolio.PortfolioEngine.ApplySell | js/portfolioEngine.js:122-145 | the sell branch: the fields become the ledger after the sell, with its realized P&L |
| Portfolio.PortfolioEngine.Reduce | js/portfolioEngine.js:127-142 | realized P&L is proceeds − the sold quantity × average cost, and the position moves by the quantity, dust-snapped |
| Portfolio.PortfolioEngine.TouchStock | js/portfolioEngine.js:103-104 | the fields become the ledger with the stock opened |
| Portfolio.PortfolioEngine.NetAssetValue | js/portfolioEngine.js:151-156 | NAV is the sum over held stocks of quantity × latest purchase price |
| Portfolio.PortfolioEngine.TakeSnapshot | js/portfolioEngine.js:158-169 | appends exactly the snapshot of the current state |
| Portfolio.PortfolioEngine.Process | js/portfolioEngine.js:14-173 | the processed events are a permutation of the normalised rows, in key order (hence chronological) and in input order among equal keys, which is the one result of the source's stable sort; the ledger, the processed events and the appended history are those of replaying them in that order; the key order invariant is kept |
| Portfolio.PortfolioEngine.Replay | js/portfolioEngine.js:84-171 | the loop: the ledger, processed events and appended history are those of replaying the array |
| Portfolio.PortfolioEngine.Step | js/portfolioEngine.js:84-170 | one iteration applies one event, records it with its realized P&L and appends its snapshot |
| Portfolio.PortfolioEngine.CagrSchedule | js/portfolioEngine.js:209-245 | the XIRR schedule: the signed cashflow rows in input order, then the final value, then (only when there are no cashflow rows) the buys as money in |
| Portfolio.PortfolioEngine.CalculateCagr | js/portfolioEngine.js:202-283 | the solver's rate on that schedule through the fail-safe, within ±10000 % |
| Portfolio.PortfolioEngine.GetStats | js/portfolioEngine.js:175-200 | nothing exactly when there is no history; otherwise the last row's value, cash and NAV, the simple return against total deposits, the CAGR, and the current holdings and purchase prices |
| BenchmarkSpec.InjectedOn | js/benchmarkEngine.js:48-55 | the total injected on a day is non-negative |
| BenchmarkSpec.CapitalMap | js/benchmarkEngine.js:48-55 | every injection-map amount is non-negative |
| BenchmarkSpec.FirstCapitalDate | js/benchmarkEngine.js:57-58 | the first injection day is a flow day and on or before every flow |
| BenchmarkSpec.WalkStep | js/benchmarkEngine.js:64-89 | a day before the first injection changes nothing; units and invested change only on an injection day; the day appends at most one entry and keeps the earlier ones |
| BenchmarkSpec.Walk | js/benchmarkEngine.js:60-89 | the walk emits at most one entry per price date |
| BenchmarkSpec.Chain | js/benchmarkEngine.js:207-235 | after an entry the period has started exactly when it had already or the day is an injection day, and then starts at the day's value; the last injection day is set exactly when one has been seen; the factor is stated by `ChainRatio` |
| BenchmarkSpec.TwrPeriod | js/benchmarkEngine.js:196-241 | a period has started exactly when an injection has been seen, and then starts at the latest entry's value |
| BenchmarkSpec.TwrPoints | js/benchmarkEngine.js:201-241 | one TWR point per history entry |
| BenchmarkSpec.AnnualizedTwr | js/benchmarkEngine.js:118-134 | 0 for an empty TWR list and when no time has elapsed |
| BenchmarkSpec.BenchmarkSchedule | js/benchmarkEngine.js:138-148 | every capital flow as it is, in order, then the final value at the end date |
| BenchmarkLaws.CapitalMapSnoc | js/benchmarkEngine.js:48-55 | adding a flow adds its magnitude to its day's total and leaves every other day unchanged |
| BenchmarkLaws.WalkSnoc | js/benchmarkEngine.js:64-89 | walking one more date is one more walk step |
| BenchmarkLaws.WalkEntryShape | js/benchmarkEngine.js:77-87 | every entry is a walked day on or after the first injection, with positive units, value = units × price, price the day's price |
| BenchmarkLaws.WalkEntriesAscending | js/benchmarkEngine.js:64-89 | over ascending dates the history's dates are strictly increasing |
| BenchmarkLaws.WalkStepGrows | js/benchmarkEngine.js:69-75 | with positive prices, units and invested never decrease, grow strictly on an injection day from the first injection on, and are unchanged on any other day |
| BenchmarkLaws.WalkMonotone | js/benchmarkEngine.js:64-89 | the totals after a prefix of the dates never exceed the final totals |
| BenchmarkLaws.WalkInvested | js/benchmarkEngine.js:69-75 | total invested is the sum of the injections on the walked days from the first injection on |
| BenchmarkLaws.WalkIgnoresUnpriced | js/benchmarkEngine.js:64-75 | an injection on a day without a price is never invested |
| BenchmarkLaws.WalkEntriesTrackTotals | js/benchmarkEngine.js:64-92 | no entries exactly leaves nothing bought; otherwise units are positive, the first entry is an injection day and the last entry carries the final totals |
| BenchmarkLaws.WalkEntryTotals | js/benchmarkEngine.js:79-87 | every entry is the entry of some walked day and carries that day's running totals: the units held after walking up to it, and the injections invested from the first injection day up to it |
| BenchmarkLaws.WalkFirstEntryOnInjection | js/benchmarkEngine.js:64-87 | whatever the prices, with non-negative injections, no positive holding exists before the first entry, and the first entry is on an injection day |
| TwrLaws.TwrPointsAt | js/benchmarkEngine.js:237-240 | point k is entry k's date with the factor chained over the first k+1 entries |
| TwrLaws.TwrFirstPointZero | js/benchmarkEngine.js:219-222 | a history opening on an injection day starts at 0 % |
| TwrLaws.BenchmarkTwrStartsAtZero | js/benchmarkEngine.js:219-222 | for every price history the engine accepts (every walked day priced, non-zero price on injection days) and non-negative injections, the benchmark's own history opens at 0 % TWR |
| TwrLaws.ChainRatio | js/benchmarkEngine.js:207-235 | each branch of one TWR step as a ratio: a later injection day multiplies by (value − injection)/start when the start is positive, a regular day by value/start; the first injection resets to 1; nothing moves before it |
| TwrLaws.TwrTelescopes | js/benchmarkEngine.js:201-241 | over one sub-period the chained factor is last value / first value: the daily returns telescope |
| TwrLaws.ChainRegular | js/benchmarkEngine.js:228-232 | a regular day carries "factor × first value = period start" over to the next day |
| Benchmark.BenchmarkEngine.constructor | js/benchmarkEngine.js:2-10 | stores flows and prices; empty history, zero totals, empty TWR |
| Benchmark.BenchmarkEngine.GetOmxPrice | js/benchmarkEngine.js:13-36 | the day itself when it has a non-zero price; otherwise the latest priced day on or before it; otherwise the earliest priced day; nothing exactly when there are no prices |
| Benchmark.BenchmarkEngine.LatestOnOrBefore | js/benchmarkEngine.js:20-29 | over ascending days: none exactly when every day is after the target, else the latest day on or before it |
| Benchmark.BenchmarkEngine.ChainEntry | js/benchmarkEngine.js:203-235 | one history entry of the TWR loop is exactly one chain step |
| Benchmark.BenchmarkEngine.BuildCapitalByDate | js/benchmarkEngine.js:48-55 | the injection map: each flow day to the total magnitude of its flows |
| Benchmark.BenchmarkEngine.Process | js/benchmarkEngine.js:38-94 | without flows nothing changes; otherwise the walk from the first injection day over the ascending price dates is appended to the history and its totals are stored |
| Benchmark.BenchmarkEngine.WalkDate | js/benchmarkEngine.js:64-89 | one price date of the loop is exactly one walk step |
| Benchmark.BenchmarkEngine.CalculateTwr | js/benchmarkEngine.js:182-245 | nothing without history or flows; otherwise one chained point per history entry, stored |
| Benchmark.BenchmarkEngine.CalculateCagr | js/benchmarkEngine.js:136-180 | 0 without flows; otherwise the solver's rate on the flows plus the final value, through the fail-safe, within ±10000 % |
| Benchmark.BenchmarkEngine.GetStats | js/benchmarkEngine.js:96-116 | nothing exactly when there is no history; otherwise the last value, the annualised TWR from first to last entry, the CAGR, and the stored totals; `twrHistory` becomes the TWR chain when there are history and flows, and is left unchanged otherwise |

## Left out

- The XIRR Newton iteration (`js/portfolioEngine.js:247-277`, `js/benchmarkEngine.js:152-175`) and `Math.pow` are floating-point numerics. They are the parameters `solve` and `pow`. Only the schedule handed to the solver and the fail-safe around its result are modelled.
- `js/utils.js`, `js/dataService.js`, `js/dashboard.js`, `js/main.js` and `js/config.js` (formatting, CSV loading, charts, DOM wiring) are not part of this model.
- Floating point: amounts are exact reals, so rounding and `Number` precision are not modelled.
- Dates are day numbers. Parsing date strings and milliseconds-per-day arithmetic are not modelled.
- `BenchmarkEngine`'s `buyEvents` constructor argument is stored by the source but never read; the model leaves it out.
- The test suite calls `new PortfolioEngine(list)` with one combined list of rows. The model keeps the constructor's two-list signature, so the scenarios are stated with trade rows and cashflow rows.
- PortfolioLedger.AverageCost: when the held quantity plus the bought quantity is 0, the source divides by zero (NaN or ±Infinity). The model stores 0 there and its contract says nothing about that case.
- PortfolioEvents.SortEvents: on one date the comparator calls a zero-quantity trade equal to a buy and equal to a sell, yet puts the buy before the sell, so it is not a consistent order there and the source's result depends on the engine's sort algorithm. The model ranks a zero-quantity trade with the buys. Without zero-quantity trades the comparator is exactly the model's key order (`CompareAgreesWithKey`), and the model's stable sort gives the one result a stable sort can give (`StableSortUnique`).
- JavaScript truthiness: a purchase price of 0 or NaN is treated as "no price" in NAV. The model has no NaN and treats a missing or zero price as contributing nothing.
- The processed-events list: the source mutates each event object, adding `realizedPnL`. The model records each event together with its realized P&L as a new value.
- Benchmark.BenchmarkEngine.GetOmxPrice: with no prices the source returns an object with undefined fields; the model returns None.
- Benchmark.BenchmarkEngine.Process: it requires every price date to have a price and every injection day a non-zero price (`Walkable`). The source would divide by zero and store Infinity or NaN there.
- Benchmark.BenchmarkEngine.CalculateTwr: it requires a non-zero previous value on every regular day (`TwrDefined`). The source divides by that value only once an injection has been seen, so this also rules out zero values before the first injection, which the source tolerates.
- Benchmark.BenchmarkEngine.GetStats: it carries the same `TwrDefined` requirement as `CalculateTwr`.
- Portfolio.PortfolioEngine.CalculateCagr: the final value follows the cashflow flows; when there are no cashflow rows, the buy flows come after it. The source has no "fewer than two flows" guard here, so a schedule holding only the final value (no cashflow rows and no buys) is handed to the solver, as in the source.
- The Newton solver's own iteration count and tolerances are not modelled, so no property of the CAGR beyond the fail-safe bound and its schedule is stated.
