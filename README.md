# Pairs-trading decision engine: a Dafny model

This project models the deterministic core of a pairs-trading system for Binance futures and proves properties of it.

- **execution.py, `execution_model`.** For each trading pair it runs the per-bar position state machine (Flat, long the spread, short the spread) over the pair's z-scores. It sizes the two legs from the position size, the live prices and the instruments' lot sizes and minimum notionals. It reconciles the quantities held from the `orders` ledger. It chooses at most one of close-long, close-short, open-long and open-short from the last two states, submits the two legs and writes one ledger record per leg.
- **monthly_pair_testing.py.** It builds the monthly test windows, which end on the 25th of each following month. It drops symbols with fewer than 30 price rows. It enumerates the candidate pairs and names each one `symbol_1-symbol_2`.
- **data_fetch.py.** It selects the TRADING symbols and inserts the new ones into the asset table. Each asset row takes its lot size from the `LOT_SIZE` filter and its minimum notional from the `MIN_NOTIONAL` filter. It decides which price histories to fetch again. It batches the inserts into commits of 10 (assets) and 20 (prices).

The modules:

| file | module | models |
|---|---|---|
| wrappers.dfy | Wrappers | `Option` and `Result` |
| decimals.dfy | Decimals | Python `Decimal.quantize` with `ROUND_UP` and `ROUND_HALF_EVEN`, on exact rationals |
| position_state_machine.dfy | PositionStateMachine | the state machine loop, its suffix overwrites of the frame, and `position_change` |
| order_sizing.dfy | OrderSizing | target quantities, the allocation threshold and the two validations |
| ledger.dfy | Ledger | ledger records, the pair's rows, and the reconciliation of held quantities |
| execution.dfy | Execution | action selection, two-leg submission and records, one pair's turn, and the loop over pairs |
| date_windows.dfy | DateWindows | the `date_ranges` loop |
| pair_universe.dfy | PairUniverse | the 30-row filter, 2-combinations and pair names |
| ingestion.dfy | Ingestion | data_fetch's selection, filter lookup, re-fetch rule and commit batching |

How the model treats the source:

- **State machine: a method on arrays.** `RunStateMachine` keeps the source's form: every transition rewrites the rest of the state column and two of the leg columns. It is proved equal to the left-to-right scan `StateAt`.
- **Loops: methods proved against recursive specifications.** The pair loop, the window loop and the two ingestion loops are each a method whose result equals a recursive specification function (`RunSpec`, `Ranges`, `AssetSteps`, `PriceSteps`). The source's promises are lemmas about those functions.
- **The database: the statements issued to it.** For ingestion the model records the statements in order: inserts, commits and rollbacks.
- **External answers: inputs.** The exchange's and the database's answers are parameters: order responses, insert outcomes, fetch outcomes and stored coverage. So are the z-scores, thresholds, prices and position size.

Behaviours of the code worth knowing, each followed by the model:

- **Closing with nothing open.** The code closes whenever the latest ledger row's status is `NEW` and the last two states call for a close (execution.py:332-335), whatever that row's spread label. When that label is neither long nor short, the reconciled quantities are 0 (execution.py:321-324), so the close orders carry quantity 0. `Execution.CloseSizedFromLedger` states this.
- **Order id 0.** When the first leg's order id is 0 the code logs "Order 1 ID is 0 should not execute order 2" (execution.py:645-646) and then submits leg 2 all the same. `Execution.Submit` ignores the order id.
- **Rounding below one lot.** For a lot below 1 the code quantizes to the lot's own decimal exponent (execution.py:269), not to a multiple of the lot. A lot of 0.005 therefore gives multiples of 0.001. `OrderSizing.TargetQuantity` follows this.
- **The allocation threshold.** The code multiplies the leg allocation by 1.15 (the comment at execution.py:219 gives the margin's rationale) and rounds the product to cents, half-even (execution.py:220). The comparison in the validations is against that rounded value.

## Model

| member | source | states |
|---|---|---|
| Decimals.RoundUp | execution.py:269 | ROUND_UP goes away from zero: for x >= 0 the result is the least integer not below x, and for x < 0 the greatest not above it |
| Decimals.RoundHalfEven | execution.py:277 | the result is within one half of x, and on a tie it is even |
| Decimals.RoundHalfEvenUnique | execution.py:277 | any integer within one half of x that is even on a tie is RoundHalfEven(x), so the two properties define ROUND_HALF_EVEN |
| Decimals.QuantizeUpBounds | execution.py:269 | quantizing x >= 0 to exponent e with ROUND_UP gives a value q with x <= q < x + 10^e |
| Decimals.QuantizeUpLeast | execution.py:269 | that q is not above any multiple of 10^e that is at least x, so it is the least such multiple |
| Decimals.QuantizeHalfEvenBounds | execution.py:277 | quantizing with ROUND_HALF_EVEN moves x by at most half a unit 10^e |
| Decimals.QuantizeHalfEvenTies | execution.py:220 | when x lies exactly half a unit 10^e from the result, the result is an even multiple of 10^e |
| PositionStateMachine.MakeBar | execution.py:162-163 | the entry threshold is half the rolling std and the exit threshold a quarter of the rolling mean; each is undefined exactly when its statistic is |
| PositionStateMachine.StepTable | execution.py:181-199 | from Flat, the long entry (z <= -entry) is tried before the short entry (z >= entry); long exits to Flat iff z >= exit; short exits to Flat iff z <= -exit; a held spread never turns into the other; an undefined threshold never fires |
| PositionStateMachine.StateAt | execution.py:174-199 | the state at each bar is one of -1, 0 and 1 |
| PositionStateMachine.SetStateFrom | execution.py:183 | `df.loc[i:, 'in_position'] = v` sets every row from i on to v and keeps the rows before i |
| PositionStateMachine.SetLongSpreadFrom | execution.py:182 | writes the long-spread leg columns from row i on and keeps the other columns and the earlier rows |
| PositionStateMachine.SetShortSpreadFrom | execution.py:192 | writes the short-spread leg columns from row i on and keeps the other columns and the earlier rows |
| PositionStateMachine.EnterLongSpread | execution.py:181-184 | when the long entry fires at bar i of a Flat suffix, the suffix becomes long with legs (1, -1) and the scan so far extends to bar i |
| PositionStateMachine.ExitLongSpread | execution.py:186-189 | when the long exit fires at bar i of a long suffix, the suffix becomes Flat with all legs 0 and the scan extends to bar i |
| PositionStateMachine.EnterShortSpread | execution.py:191-194 | when the short entry fires at bar i of a Flat suffix (the long entry did not), the suffix becomes short with legs (-1, 1) and the scan extends to bar i |
| PositionStateMachine.ExitShortSpread | execution.py:196-199 | when the short exit fires at bar i of a short suffix, the suffix becomes Flat with all legs 0 and the scan extends to bar i |
| PositionStateMachine.RunStateMachine | execution.py:168-207 | the loop with suffix overwrites leaves state[0] = 0 and state[i] = Step(state[i-1], bar i-1); the leg columns are (1,-1), (-1,1) or zeros exactly as the state is 1, -1 or 0; `position_change` is computed over those columns |
| PositionStateMachine.NoDirectReversal | execution.py:181-199 | adjacent bars never go straight from 1 to -1 or from -1 to 1 |
| PositionStateMachine.FlatThroughWarmUp | execution.py:155-199 | when bars 0..19 have no thresholds (shift plus a 20-bar window), bars 0..20 are all Flat |
| PositionStateMachine.LongHeldUntilExit | execution.py:186-189 | once long, the state stays long through every bar until one meets the exit |
| PositionStateMachine.ShortHeldUntilExit | execution.py:196-199 | once short, the state stays short through every bar until one meets the exit |
| PositionStateMachine.FlatHeldUntilEntry | execution.py:181-194 | while no bar meets either entry, a Flat state stays Flat |
| PositionStateMachine.ChangeMarksTransitions | execution.py:201-207 | for i >= 1, `position_change[i]` holds iff state[i] differs from state[i-1]; row 0 is always marked |
| OrderSizing.AllocationThreshold | execution.py:219-220 | the threshold is within half a cent of 1.15 times the leg allocation and is a whole number of cents; when the product lies exactly half a cent from it, that number of cents is even |
| OrderSizing.HalfCentTieExample | execution.py:219-220 | an allocation whose product with 1.15 is 10.125 gets the threshold 10.12 |
| OrderSizing.FractionalLotRoundsUp | execution.py:264-269 | for a lot below 1, the quantity is alloc/price rounded up at the lot's decimal exponent: never below alloc/price and less than one unit above it |
| OrderSizing.FractionalLotIsLeast | execution.py:264-269 | no smaller multiple of that unit reaches alloc/price |
| OrderSizing.WholeLotRoundsHalfEven | execution.py:271-277 | for a lot of 1 or more, the quantity is the whole number nearest alloc/price, a tie going to even |
| OrderSizing.ThousandthLotExample | execution.py:264-269 | a 0.001 lot and a ratio of 1.2345 give 1.235 |
| OrderSizing.WholeLotTieExample | execution.py:271-277 | a whole lot and a ratio of 2.5 give 2 |
| OrderSizing.SizeLegs | execution.py:294-308 | the pair is rejected for the allocation iff a leg value exceeds the threshold, else for the minimum notional iff a leg value is below its instrument's; otherwise the result carries both target quantities and leg values |
| OrderSizing.AcceptedLegsWithinBounds | execution.py:303-308 | an accepted sizing keeps each leg value between its minimum notional and 1.15 times the allocation plus half a cent |
| OrderSizing.OverAllocationExample | execution.py:303-305 | an allocation of 100 has threshold 115, and a leg worth 120 is rejected |
| Ledger.PairRows | execution.py:223-230 | the pair's rows are exactly the ledger rows tagged with the pair |
| Ledger.PairRowsAppend | execution.py:223-230 | the rows of a longer ledger are the old rows of the pair followed by the new ones |
| Ledger.PairRowsOfOthers | execution.py:226 | rows of other pairs contribute nothing |
| Ledger.PairRowsOfOwn | execution.py:226 | rows all tagged with the pair are all kept, in order |
| Ledger.LastQty | execution.py:314 | no quantity iff the symbol has no rows; otherwise the `orig_qty` of the symbol's last row |
| Ledger.Reconcile | execution.py:311-324 | when the latest row is NEW with spread long or short, each balance is the symbol's last `orig_qty`, and a symbol without rows is an IndexError; otherwise both balances are 0 |
| Ledger.ReconcileAfterPair | execution.py:313-324 | after a leg pair is appended, reconciliation reads back its two quantities when the second record is an open spread, and 0 otherwise |
| Execution.LastTwoAre | execution.py:335 | a successful answer is true iff there are two or more states and the last two are `last` and `prev`; it raises IndexError exactly when Python's short-circuit reaches `iloc[-2]` or `iloc[-1]` of an empty series, so one state other than `last` answers false |
| Execution.ChooseAction | execution.py:311-807 | a close-long or close-short iff reconciliation succeeds, the ledger is non-empty with latest status NEW and the last two states are (1,0) or (-1,0); an open-long or open-short iff reconciliation succeeds and the last two states are (0,1) or (0,-1), whatever the ledger holds; the run fails, always with IndexError, exactly when reconciliation fails, the frame has no states, or it has one state and the checks reach `iloc[-2]` (the state is 1 or -1, or it is 0 with the ledger open) |
| Execution.ActionFromScan | execution.py:174-346 | on the states the state machine loop produces, from two bars on, the run fails only when reconciliation does; it opens long iff bar n-2 is Flat and meets the long entry, opens short iff it is Flat and meets the short entry but not the long one, and closes a long (short) iff the ledger is open and bar n-2 is long (short) and meets its exit |
| Execution.LegOrders | execution.py:344-839 | leg 1 trades symbol_1 and leg 2 symbol_2 at the given quantities, on opposite sides and position sides; leg 1 sells exactly for close-long and open-short, and is on the LONG side exactly for close-long and open-long |
| Execution.Submit | execution.py:341-802 | the turn completes iff both legs are answered, writing two records tagged with the pair, leg numbers 1 and 2 and the action's label; a close stops at the first ClientError (leg 2 not submitted after a failed leg 1); an open still submits leg 2 and then fails building the missing record |
| Execution.PlanValidatedContract | execution.py:310-839 | after validation, a reconciliation fault aborts with no order; a close submits the legs sized by the reconciled balances; an open submits both legs at the target quantities; the records are the two answers tagged with pair, `pair_order` 1/2 and one shared label |
| Execution.PlanPairContract | execution.py:294-308 | a turn is skipped iff sizing rejects it (for sizing's reason), and then submits and writes nothing; otherwise it is the validated turn |
| Execution.ActionsExclusive | execution.py:335-807 | no two of the four action guards can both hold, so at most one action fires per pair per run |
| Execution.CloseSizedFromLedger | execution.py:311-346 | a close happens only when the latest ledger row is NEW; each leg's quantity is that symbol's last `orig_qty` when the spread is open, and 0 otherwise, never the target quantity |
| Execution.OpenThenReconcile | execution.py:676-733 | the two records of an open reconcile, on the next run, to the opened quantities when the answers carry the pair's symbols and status NEW |
| Execution.CloseThenReconcile | execution.py:349-406 | after a close, the pair's latest record is labelled closed and reconciles to 0 held |
| Execution.WrittenPairReadBack | execution.py:349-406 | the records written for an action become the pair's last two rows |
| Execution.CloseLongExample | execution.py:313-346 | a long spread recorded with 5 and 7 closes with a sell of 5 and a buy of 7 |
| Execution.OtherPairsDoNotInterfere | execution.py:223-230 | records of other pairs do not change a pair's turn |
| Execution.RunSpecStopsAtAbort | execution.py:90-985 | the run yields at most one outcome per pair and stops exactly after its first aborted turn |
| Execution.RunSpecAppends | execution.py:90-985 | the run only appends to the ledger: the ledger it started with is a prefix of the one it ends with |
| Execution.RunPairs | execution.py:90-985 | the loop over pairs equals RunSpec: each turn sees the records of the turns before it |
| DateWindows.NextBoundary | monthly_pair_testing.py:32-34 | the next boundary is the 25th of the following month, December rolling over to January of the next year, and lies strictly after the current date |
| DateWindows.DateRanges | monthly_pair_testing.py:28-39 | the while loop builds exactly the window list Ranges(start, end) and terminates |
| DateWindows.RangesShape | monthly_pair_testing.py:28-39 | the list is empty iff start >= end; the first window starts at start and the last ends at end; windows are contiguous, non-empty and end no later than end; each ends at the next 25th unless that is past end, when it is clamped |
| DateWindows.ScriptWindow | monthly_pair_testing.py:25-39 | 2023-10-25 to 2023-11-25 gives the single window between them |
| DateWindows.YearRolloverExample | monthly_pair_testing.py:32-36 | a December start rolls into January, and the last window is clamped to the end date |
| PairUniverse.Count | monthly_pair_testing.py:97 | a symbol's row count is 0 iff it has no rows |
| PairUniverse.KeepFrequentMembers | monthly_pair_testing.py:100-102 | a row survives iff its symbol has at least 30 rows |
| PairUniverse.KeepFrequentCounts | monthly_pair_testing.py:100-102 | a surviving symbol keeps all its rows and any other keeps none |
| PairUniverse.FrequentRowsSurvivors | monthly_pair_testing.py:97-102 | every symbol left after the filter has at least 30 rows |
| PairUniverse.IndexPairsComplete | monthly_pair_testing.py:150 | every index pair i < j is enumerated |
| PairUniverse.IndexPairsSorted | monthly_pair_testing.py:150 | the index pairs come in strictly increasing lexicographic order, as `combinations` yields them |
| PairUniverse.IndexPairsLength | monthly_pair_testing.py:150 | there are n(n-1)/2 index pairs |
| PairUniverse.CombinationsMembers | monthly_pair_testing.py:150 | (a, b) is a candidate iff a occurs before b in the symbol list; there are n(n-1)/2 candidates |
| PairUniverse.CombinationsUnique | monthly_pair_testing.py:150 | with distinct symbols, each unordered pair occurs once and in one orientation only |
| PairUniverse.CombinationsExample | monthly_pair_testing.py:150 | A, B, C give AB, AC, BC |
| PairUniverse.PairNames | monthly_pair_testing.py:150-190 | there are n(n-1)/2 names; each joins a symbol and a later one as symbol_1-symbol_2, and every symbol joined with every later one is named |
| PairUniverse.PairNamesDistinct | monthly_pair_testing.py:150-190 | with distinct symbols that contain no `-`, no two pairs share a name |
| PairUniverse.PairNameInjective | monthly_pair_testing.py:190 | for symbols without a dash, the name determines both symbols |
| Ingestion.TradingSymbols | data_fetch.py:32 | a symbol is selected iff some exchange entry has it with status TRADING |
| Ingestion.FindSymbolFirst | data_fetch.py:49 | the lookup is None iff no entry has the symbol, and otherwise returns the first entry that has it |
| Ingestion.FindFilterFirst | data_fetch.py:52 | the filter lookup is None iff no filter has the type, and otherwise returns the first filter of that type |
| Ingestion.FieldOf | data_fetch.py:53 | subscripting a missing filter is a TypeError, a missing field a KeyError, and otherwise gives the field's value |
| Ingestion.AssetRowFromFilters | data_fetch.py:49-71 | a row is built iff the first LOT_SIZE filter has `minQty` and the first MIN_NOTIONAL filter has `notional`, and it carries those two values with trading = 1; a missing LOT_SIZE filter is a TypeError and a LOT_SIZE failure wins over a MIN_NOTIONAL one |
| Ingestion.TradingSymbolsFound | data_fetch.py:40-57 | a selected symbol is always found again, so building its row fails only on a missing filter or field |
| Ingestion.AttemptInsert | data_fetch.py:68-84 | one new symbol issues its insert, a rollback after a unique violation, and a commit with a counter reset when the counter reaches 10 |
| Ingestion.AttemptCounts | data_fetch.py:68-84 | one attempt inserts its row once, rolls back iff there was a unique violation, commits iff the counter reaches 10, and leaves the counter at (count + 1) mod 10 |
| Ingestion.ProcessSymbol | data_fetch.py:40-84 | the loop body for one symbol issues nothing for a stored symbol, stops with the fault when the row cannot be built, and otherwise makes one insert attempt |
| Ingestion.IngestAssets | data_fetch.py:39-86 | the asset loop issues exactly the statements of AssetSteps, then an unconditional commit unless a fault ended the run |
| Ingestion.Unstored | data_fetch.py:40-43 | the symbols to insert are exactly the selected symbols not already stored |
| Ingestion.AssetStepsFault | data_fetch.py:45-57 | the asset loop ends on a fault iff some selected symbol not already stored has no buildable row |
| Ingestion.AssetStepsInserted | data_fetch.py:40-71 | without a fault, the rows inserted are exactly those of the selected symbols not already stored, in order |
| Ingestion.AssetStepsSkipExisting | data_fetch.py:40-43 | a symbol already stored, or one not selected, is never inserted, even when a fault ends the loop |
| Ingestion.AssetStepsRows | data_fetch.py:49-71 | every inserted row is the one built from its symbol's filters, with trading = 1 |
| Ingestion.AssetStepsBatches | data_fetch.py:80-84 | the asset counter stays below 10 between iterations, and every ten inserts make one commit |
| Ingestion.NeedsFetchIffUncovered | data_fetch.py:133 | nothing is fetched iff a stored range exists that starts no later than the requested start and ends no earlier than the requested end |
| Ingestion.Loaded | data_fetch.py:133-135 | a symbol's history is loaded iff it is selected, not covered, and its fetch succeeds |
| Ingestion.PriceStepsFetched | data_fetch.py:133-160 | the price loop inserts exactly the histories of the uncovered symbols whose fetch succeeds, in order, so a covered symbol is never fetched |
| Ingestion.PriceStepsRollbacks | data_fetch.py:162-176 | the price loop rolls back once per uncovered symbol whose fetch meets a database or unexpected error, and for no other outcome |
| Ingestion.PriceStepsBatches | data_fetch.py:155-160 | the price counter stays below 20 between iterations, and every twenty insertions make one commit |
| Ingestion.IngestPrices | data_fetch.py:110-188 | the price loop issues exactly the statements of PriceSteps, then a final commit iff the counter is above 0 |
| Ingestion.DataFetch | data_fetch.py:28-188 | a fault in the asset loop ends the run with that loop's statements; otherwise the statements are the asset loop, its commit, then the price loop over the selected symbols |

## Left out

- Hedge-ratio OLS, the spread, the full-window z-score and the rolling mean and std (execution.py:137-166) are floating-point statistics. The model takes the z-scores and the rolling statistics as inputs; a rolling statistic is `None` where pandas gives NaN.
- Decimal's 28-digit context precision and the float-to-Decimal conversions are left out. All arithmetic is exact rational arithmetic.
- Binance client calls (account balance, ticker prices, new orders, klines, exchange info) are inputs. Prices and responses are parameters, and a `None` response stands for a ClientError.
- SQL, connections and database transactions are left out. The `orders` ledger is a sequence of records in insertion order, taken to be the `ORDER BY update_time` order. For ingestion, the model records the statements issued in order, not their effect on the database.
- Execution.PairTurn.Priced: positive prices and lot sizes are assumed for every pair. The source would fail on a zero price.
- Execution.Submit: an open-leg ClientError is modelled as the run failing when the record is built. For a later pair, the source can instead reuse a stale `order_1`/`order_2` left from an earlier pair; that case is not modelled.
- Ledger.OrderRecord keeps only the fields the engine reads back, plus the response's identity fields. The other response fields written to `orders` are dropped.
- DateWindows.Date is a calendar day. The time of day and the calendar's month lengths are not modelled, because the windows only ever use day 25 and the given dates.
- The cointegration and ADF tests, the MinMaxScaler normalisation, the 75th-percentile value filter, the p-value thresholds and the database loops of monthly_pair_testing.py are left out. They are statistical or I/O.
- Two branches of monthly_pair_testing.py are left out because they only run on a failed lookup: the string-length `min` (line 227) and the indexing inside `if not combined_result` (lines 213-215).
- The millisecond and timezone conversions of data_fetch.py (lines 90-102, 141-146) are left out. Coverage and the requested range are integers on one time axis.
- Ingestion.IngestPrices: the `asset_id` lookup at data_fetch.py:112-120 is left out, and so is its stale value when a symbol has no asset row. Coverage is given per symbol.
- Ingestion.IngestPrices: a failure of a batch commit (data_fetch.py:158) is not modelled. The source then rolls back (data_fetch.py:162-163) without resetting `commit_count`, so the counter can pass 20 and further batch commits stop. The model assumes every batch commit succeeds.
- Ingestion.PriceStepsBatches: holds only for runs in which every batch commit succeeds, as above.
- Ingestion.IngestAssets: a failure of a batch commit (data_fetch.py:83) is not modelled. That commit is outside any `try`, so its failure ends the run. The model assumes it succeeds.
- Ingestion.AssetStepsBatches: holds only for runs in which every batch commit succeeds, as above.
- Ingestion.IngestPrices: a failure of the final commit (data_fetch.py:186-188) is not modelled. Neither is the `psycopg2.Error` of an asset insert beyond its log line (data_fetch.py:77-78).
- The string-to-float parsing of filter fields is left out. Filter fields are already numbers.
- function_app.py (a scheduler trigger), utils.py (a secret lookup) and mapped_model.py (the ORM schema) are not part of this model.
- The commented-out back-test and P&L block (execution.py:986-1197) is not modelled.
