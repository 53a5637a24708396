# crypto_graphs trading core in Dafny

This project models the logic core of crypto_graphs, a paper-trading
service for BTC, ETH and XRP. The core has three parts:

- the **stop-order engine** (`services/tradingEngine.js`): a periodic sweep
  over open buy orders that carry a stop limit or a trailing stop, with a
  highest-price tracker per (user, coin) and an all-or-nothing liquidation;
- the **trade routes** (`routes/crypto.js`):
  - request validation and the sell-balance check;
  - the portfolio update after a trade;
  - the `$n` numbering of the transaction-list query;
  - the day arithmetic of the moving-average chart route;
- the **price service** (`services/cryptoApi.js`):
  - simple and chart moving averages;
  - price alerts;
  - the symbol table;
  - the retry/backoff policy and rate limit of every exchange request.

Files:

- `wrappers.dfy`: `Option` and `Result`.
- `js_values.dfy`: the JavaScript semantics the code relies on. This covers
  number division, which yields Infinity or NaN instead of failing,
  `Array.prototype.slice` with negative and out-of-range positions, and
  `Math.max`.
- `store.dfy`: the `transactions`, `portfolio` and `logs` tables, held in
  memory by the class `Database`. Each SQL statement the code issues is one
  of its methods, and `Rollback` restores the image taken at `BEGIN`.
  PostgreSQL sequences are not transactional, so the `transactions.id`
  sequence is not rolled back.
- `crypto_api.dfy`: the price service. The class `PriceClient` holds
  `lastRequestTime` and an injected clock. The pure functions specify it:
  - `Retry` gives the outcome of the attempt loop for a script of exchange
    replies;
  - `RateLimitWait` gives the wait before a request;
  - `Sma` and `WindowAverage` give the averages;
  - `PriceAlerts` gives the alert check;
  - `Dates` and `CandleDates` give the dates of the two record types the
    chart functions take, history points and candles. The source reads the
    same `date` field of two different record shapes, so the model has two
    datatypes and one date reader for each.
- `crypto_routes.dfy`: the route logic. Notes on its rules:
  - `Traded` is the portfolio rule of `updatePortfolio`.
  - `Validate` encodes the rules of `transactionValidation`. `optional()`
    skips only an undefined field, so a `null` stop field is checked, and
    it fails.
  - `CreateTransaction` follows `POST /transactions`. The order INSERT
    commits on its own, so a later failure answers 500 and leaves the order
    in place.
- `trading_engine.dfy`: the engine. The pure specification is:
  - `NewHighest`, the tracker update;
  - `Decide`, the trigger rule;
  - `Liquidated` and `RolledBack`, the two ends of a liquidation;
  - `Process` and `Sweep`, one order and one pass.

  The class `Engine` carries the `highestPrices` map and performs each step
  on the `Database`. Each method is proved equal to its function.
- `engine_properties.dfy`: lemmas about whole sweeps and the worked
  scenarios.

Semantics that the model keeps from the code:

- **Stop fields.** node-postgres returns the stop fields as DECIMAL
  strings. For the engine, any non-NULL `stop_limit` or
  `trailing_stop_pct` is therefore set, 0 included ("0.00" is truthy).
  Nothing in the repository calls `checkPriceAlerts`. The model assumes it
  is handed plain numbers, so there a 0 counts as unset.
- **Tracker.** A stored highest price of 0 is ignored (`get(key) || price`).
  The tracker is shared by all orders of one (user, coin) pair, and it is
  never cleared after a sale.
- **Failure points in a liquidation.** A liquidation can fail at each SQL
  statement (`Fault`). The portfolio write is reached only when the row
  exists.
- **Chart closing value.** A chart point's closing value is
  `price || close`. A zero price therefore falls back to `close`, which may
  be undefined and then turns the window's mean into NaN.
- **Chart route trim.** The chart route's trim is `slice(-days)`. With
  `days = 0` it returns every point.
- **Injected inputs.** The outside world enters as parameters:
  - the exchange's replies to each attempt (`ReplyScript`);
  - the clock value;
  - the history returned by the exchange;
  - the failing statement of a transaction;
  - whether the email fails.

## Model

| member | source | states |
|---|---|---|
| JsValues.Divide | services/cryptoApi.js:193 | `a / b` is finite exactly when b ≠ 0, and then times b gives back a; over 0 a positive numerator gives +Infinity, a negative one −Infinity and 0 gives NaN |
| JsValues.Slice | services/cryptoApi.js:218 | `slice(start, end)` resolves negative positions from the end and clamps both to the array; the result is the elements between the resolved positions, [] when the start resolves at or after the end |
| JsValues.SliceFrom | routes/crypto.js:132 | `slice(-k)` is a suffix of length k when k ≤ length, the whole array when k exceeds it or is 0 |
| JsValues.Max | routes/crypto.js:111 | `Math.max(...xs)` is an element of xs and at least every element |
| Store.ClosedById | services/tradingEngine.js:130-134 | closing by id flips only the rows with that id to closed and removes exactly that id from the open ids |
| Store.OpenIdsAppendClosed | services/tradingEngine.js:120-125 | inserting a row that is already closed opens no id |
| Store.Database.constructor | config/database.js:24-50 | the tables start empty and the SERIAL id sequence at 1 |
| Store.Database.InsertOrder | services/tradingEngine.js:120-125 | INSERT RETURNING appends the row under the next sequence id and advances the sequence; ids stay unique |
| Store.Database.CloseOrder | services/tradingEngine.js:130-134 | UPDATE status = 'closed' changes only the orders table |
| Store.Database.FindHolding | services/tradingEngine.js:174-177 | the SELECT returns the pair's row exactly when one exists |
| Store.Database.DeleteHolding | services/tradingEngine.js:185-188 | DELETE removes only the pair's row |
| Store.Database.PutHolding | services/tradingEngine.js:190-194 | UPDATE/INSERT writes only the pair's row |
| Store.Database.AppendLog | services/tradingEngine.js:140-144 | INSERT INTO logs appends one entry and touches nothing else |
| Store.Database.Rollback | services/tradingEngine.js:163-164 | ROLLBACK restores every row of the image taken at BEGIN but not the id sequence |
| CryptoApi.SymbolFor | services/cryptoApi.js:8-12 | exactly BTC, ETH and XRP have a symbol, which is the coin followed by USDT |
| CryptoApi.Sma | services/cryptoApi.js:187-194 | null exactly when there are fewer points than the period; otherwise the sum of the last `period` prices over the period (a finite value for a positive period); period 0 divides the whole sum by 0; a negative period divides the sum of all but the first \|p\| prices by p, and the empty sum 0 when \|p\| is at least the number of points |
| CryptoApi.SumDefined | services/cryptoApi.js:218-219 | the reduce is defined exactly when every value in the window is defined |
| CryptoApi.SumOfDefined | services/cryptoApi.js:218-219 | over defined values the reduce is the ordinary sum |
| CryptoApi.ClosingValue | services/cryptoApi.js:209-218 | `price \|\| close`: a non-zero price is used; a zero price falls back to `close`, undefined only when `close` is |
| CryptoApi.WindowAverage | services/cryptoApi.js:214-224 | `movingAverages[p]` at index i is null exactly when i < p − 1; otherwise it is the mean of the closing values at i−p+1..i (finite when they are all defined); period 0 gives NaN, a negative period 0 |
| CryptoApi.AveragesOver | services/cryptoApi.js:206-230 | the loop yields one point per input, in order, with its date and closing value and an average for exactly the requested periods |
| CryptoApi.CalculateHistoricalMovingAverages | services/cryptoApi.js:197-231 | [] for empty input; otherwise one point per record with closing value `price \|\| close` and the window averages |
| CryptoApi.CalculateCandlestickMovingAverages | services/cryptoApi.js:234-268 | [] for empty input; otherwise one point per candle with its close and the window averages |
| CryptoApi.LastPointMatchesSma | services/cryptoApi.js:187-219 | when no price in the last window is 0, the last chart point's average equals `calculateSMA` |
| CryptoApi.ZeroPriceSplitsSmaFromChart | services/cryptoApi.js:187-219 | a zero price with no close makes the chart average NaN while the SMA counts it as 0 |
| CryptoApi.MovingAverages | services/cryptoApi.js:270-279 | one entry per requested period, each the `calculateSMA` of the history for that period: null when the history is shorter, finite for a positive period that fits |
| CryptoApi.MovingAveragesMatchChart | services/cryptoApi.js:270-279 | with no zero price in the window, a period's entry equals the average of the last point of the chart series |
| CryptoApi.MovingAverageHistoryDays | services/cryptoApi.js:273-274 | the history asked for is the largest period plus 10 days, at least p + 10 for every period p |
| CryptoApi.TrailingStopPrice | services/cryptoApi.js:323 | the threshold equals the highest price at 0 % and lies in [0, highest] for a percentage in [0, 100] |
| CryptoApi.PriceAlerts | services/cryptoApi.js:310-327 | echoes the price; stop-loss flag iff the stop limit is truthy and price ≤ it; trailing flag iff pct and highest are truthy and price ≤ the threshold, independently of the other flag |
| CryptoApi.CheckPriceAlerts | services/cryptoApi.js:306-334 | throws exactly when the price lookup throws; otherwise the alerts for the price fetched |
| CryptoApi.AlertsAreIndependent | services/cryptoApi.js:316-327 | both flags can be raised at once, and a 0 stop limit raises none |
| CryptoApi.RateLimitWait | services/cryptoApi.js:27-36 | the wait is never negative, is 0 exactly when 100 ms have passed, ends exactly 100 ms after the last request, and is at most 100 ms |
| CryptoApi.Retryable | services/cryptoApi.js:54-66 | only a 429 or ≥ 500 status is retried; an error without a response never is |
| CryptoApi.Backoff | services/cryptoApi.js:54-61 | the wait after a failed attempt is at least 1000·attempt ms, and longer for a 429 |
| CryptoApi.RetryFrom | services/cryptoApi.js:42-69 | the attempt loop from a given attempt makes at most 2 attempts in all |
| CryptoApi.Retry | services/cryptoApi.js:39-70 | `makeRequest` makes between 1 and 2 attempts |
| CryptoApi.RetryFromSpec | services/cryptoApi.js:42-69 | from any attempt: every failure before the last attempt made was retryable, a success is that attempt's reply, a failure is that attempt's error, and each retried failure waits its backoff |
| CryptoApi.RetrySpec | services/cryptoApi.js:39-70 | at most 2 attempts; every failure before the last attempt was a 429 or ≥ 500 and was followed by exactly one wait, 2^attempt·1000 ms for 429 and 1000·attempt ms for ≥ 500; a success is the last attempt's reply, and a thrown error is never an `Ok` reply, so the first success is returned; any other error is thrown at once; running out of attempts throws the last attempt's error after its wait |
| CryptoApi.FirstFatalErrorStops | services/cryptoApi.js:62-65 | a first error that is neither 429 nor ≥ 500 is thrown after one attempt with no wait |
| CryptoApi.TooManyRequestsTwice | services/cryptoApi.js:54-58 | two 429 replies give two attempts, waits of 2000 and 4000 ms, then the 429 is thrown |
| CryptoApi.CurrentPrice | services/cryptoApi.js:73-89 | an unsupported coin never yields a price; a price is returned exactly when the request succeeds, and it is the reply of the attempt that succeeded, every earlier attempt having failed with a retryable error |
| CryptoApi.PriceClient.constructor | services/cryptoApi.js:14-17 | no request has been made yet (`lastRequestTime` 0) |
| CryptoApi.PriceClient.Delay | services/cryptoApi.js:22-24 | the clock moves on by the wait |
| CryptoApi.PriceClient.EnsureRateLimit | services/cryptoApi.js:27-36 | sleeps `RateLimitWait` and stamps the request time with the clock after the wait |
| CryptoApi.PriceClient.MakeRequest | services/cryptoApi.js:39-70 | the attempt loop returns exactly `Retry` of the replies; the clock advances by the first rate-limit wait plus every backoff slept (later rate-limit waits are 0, since a backoff of at least 1000 ms outlasts the 100 ms interval); `lastRequestTime` is stamped at the last attempt, which is the final clock unless that attempt was followed by a backoff |
| CryptoApi.PriceClient.GetCurrentPrice | services/cryptoApi.js:73-89 | returns `CurrentPrice`; an unsupported coin is rejected before any request, leaving clock and request time untouched; a supported coin moves the clock and `lastRequestTime` as `makeRequest` does |
| CryptoRoutes.SymbolMovingAverages | routes/crypto.js:87-96 | periods default to [1, 2, 5, 9, 15]; the days fetched are exactly the largest period plus 10; one entry per period, each `calculateSMA` of the history |
| CryptoRoutes.DaysToFetch | routes/crypto.js:111-116 | the route fetches the requested days plus the largest period plus 10 |
| CryptoRoutes.HistoricalMovingAverages | routes/crypto.js:106-134 | days default to 30 and periods to [5, 9, 15]; the reply is the last `days` chart points of the fetched history (all of them for 0 or more days than fetched), each the chart point at its own index |
| CryptoRoutes.BufferCoversRequestedDays | routes/crypto.js:113-116 | when the exchange returns every day asked for, every returned point has a value for every period |
| CryptoRoutes.Failing | routes/crypto.js:142-163 | the failed rules are exactly the listed rules the request breaks, each once, in the order of the list |
| CryptoRoutes.Validate | routes/crypto.js:142-163 | each message is reported iff its rule fails (coin in BTC/ETH/XRP, type buy or sell, quantity ≥ 0.00000001, price ≥ 0, stop limit absent or ≥ 0, trailing pct absent or in [0, 100]), once, in the order of the validation chain |
| CryptoRoutes.RulesAreDistinct | routes/crypto.js:142-163 | the six rules have six messages and are listed in chain order |
| CryptoRoutes.Parsed | routes/crypto.js:173-180 | a validated body gives a supported coin, quantity ≥ 0.00000001, price ≥ 0, and stop fields that are NULL exactly when absent and within their bounds; the trade carries the body's own coin, quantity, price and stop values, and is a sell exactly when `type` is "sell" |
| CryptoRoutes.HasBalance | routes/crypto.js:186-193 | a sell passes the balance check exactly when the pair has a row holding at least the quantity sold |
| CryptoRoutes.NullStopLimitIsRejected | routes/crypto.js:155-158 | a null stop limit fails its rule |
| CryptoRoutes.Traded | routes/crypto.js:314-345 | other rows untouched; no row: a buy inserts (q, price), a sell changes nothing; a row is deleted iff the new quantity ≤ 0; a buy adds q and conserves quantity × average; a sell subtracts q and keeps the average |
| CryptoRoutes.WeightedAverage | routes/crypto.js:318-321 | the new average times the new quantity is the old cost plus the cost of the buy |
| CryptoRoutes.BuyAverageBetween | routes/crypto.js:318-321 | with positive quantities the new average lies between the old average and the price paid |
| CryptoRoutes.TradeKeepsHoldingsPositive | routes/crypto.js:327-345 | a trade of a positive quantity leaves every row with a positive quantity |
| CryptoRoutes.SellsCompose | routes/crypto.js:322-338 | selling a and then b (b ≥ 0) equals one sell of a + b |
| CryptoRoutes.CheckedSellLeavesRemainder | routes/crypto.js:185-193 | after a sell that passed the balance check, the row survives iff more was held than sold, and holds the difference |
| CryptoRoutes.UpdatePortfolio | routes/crypto.js:302-354 | on success the portfolio becomes `Traded`; on any failure ROLLBACK leaves it unchanged; the other tables are untouched |
| CryptoRoutes.CreateTransaction | routes/crypto.js:165-225 | an invalid body is answered 400 with its errors and a sell beyond the balance 400; a failing balance SELECT or order INSERT answers 500; none of these writes anything; otherwise the open order is inserted, the portfolio traded and a CREATE log appended, and a failure after the INSERT answers 500 but keeps the order |
| CryptoRoutes.BuildTransactionQuery | routes/crypto.js:228-259 | `$1` is the user; the appended clauses use $2..$n in order with no gap, n = 3 + the filters given; LIMIT and OFFSET (default 50, 0) take the last two; a status or coin filter is present exactly when that value is a non-empty string, status first, and its placeholder names its own value |
| TradingEngine.NewHighest | services/tradingEngine.js:78-81 | the tracked highest is at least the price, at least the stored value when that is non-zero, and one of the two |
| TradingEngine.Decide | services/tradingEngine.js:83-99 | Stop Loss iff a stop limit is set and price ≤ it; Trailing Stop iff stop loss did not fire, a pct is set and price ≤ highest·(1 − pct/100) |
| TradingEngine.SoldFromPortfolio | services/tradingEngine.js:173-197 | a missing row means no change; otherwise the quantity drops by the order's, the row is deleted at ≤ 0, the average is never written, and no other row changes |
| TradingEngine.EngineSellMatchesRouteSell | services/tradingEngine.js:173-197 | the engine's sell and the route's sell branch leave the same portfolio |
| TradingEngine.Liquidated | services/tradingEngine.js:119-146 | a commit adds one closed sell of the same user, coin and quantity at the price under the next id, closes the original, sells from the portfolio and appends one STOP_LOSS log naming the new id |
| TradingEngine.LiquidationClosesOnlyOriginal | services/tradingEngine.js:119-134 | a liquidation removes exactly the original's id from the open ids, and keeps ids unique and below the sequence |
| TradingEngine.RolledBack | services/tradingEngine.js:163-166 | after ROLLBACK every row is as before; only an id the INSERT drew stays consumed |
| TradingEngine.Process | services/tradingEngine.js:69-108 | a failed price lookup changes nothing and is the only way to end without a price; a sale takes the next id and advances the sequence by one |
| TradingEngine.Candidates | services/tradingEngine.js:51-58 | the sweep reads exactly the open buy orders with a stop limit or trailing stop that is not NULL, each as often as it is in the table (once, ids being unique) |
| TradingEngine.Sweep | services/tradingEngine.js:60-62 | every row read yields exactly one outcome |
| TradingEngine.Engine.constructor | services/tradingEngine.js:7-10 | the tracker starts empty |
| TradingEngine.Engine.ObservePrice | services/tradingEngine.js:78-81 | the pair's entry becomes `NewHighest` and no other entry changes |
| TradingEngine.Engine.UpdatePortfolioForSell | services/tradingEngine.js:173-197 | succeeds unless its read fails or its write fails on an existing row; on success the portfolio becomes `SoldFromPortfolio` |
| TradingEngine.Engine.SettleSale | services/tradingEngine.js:136-146 | after the close, the portfolio write, the log INSERT and COMMIT succeed iff no reached statement fails; then the portfolio is `SoldFromPortfolio` and one STOP_LOSS log naming the sell id is appended, orders and sequence untouched |
| TradingEngine.Engine.SaleStatements | services/tradingEngine.js:114-146 | the statements succeed iff no reached statement fails, and then leave the tables `Liquidated` |
| TradingEngine.Engine.ExecuteStopLossSell | services/tradingEngine.js:111-170 | all or nothing: either the tables become `Liquidated` and the sale reports the new id and whether the email went out, or they become `RolledBack` |
| TradingEngine.Engine.ProcessTransaction | services/tradingEngine.js:69-108 | tracker, tables and outcome are exactly those of `Process` |
| TradingEngine.Engine.CheckStopLossOrders | services/tradingEngine.js:48-66 | a failing SELECT is caught and changes nothing; otherwise tracker, tables and outcomes are exactly those of `Sweep` over the candidate rows |
| TradingEngine.Engine.ProcessRows | services/tradingEngine.js:60-62 | the loop leaves tracker, tables and outcomes exactly as `Sweep` over the given rows |
| EngineProperties.ProcessEffect | services/tradingEngine.js:101-107 | a sale closes the order and adds one sell and one log; any other outcome leaves every row as it was; a failed price lookup changes nothing |
| EngineProperties.SweepKeepsWellFormed | services/tradingEngine.js:60-62 | a sweep keeps order ids unique and below the sequence |
| EngineProperties.SweepClosesExactlySold | services/tradingEngine.js:60-62 | after a sweep the open orders are those before minus exactly the sold ones, with one new order and one log per sale |
| EngineProperties.SweepStep | services/tradingEngine.js:60-62 | row i's outcome is `processTransaction` on the state the rows before it left |
| EngineProperties.StopLossSellsWhateverCameBefore | services/tradingEngine.js:105-107 | an error on earlier rows does not stop a later row whose stop limit is reached from being sold |
| EngineProperties.ZeroTrailingStopFiresAtOnce | services/tradingEngine.js:92-99 | a 0 % trailing stop fires on its first price |
| EngineProperties.EmailFailureUndoesNothing | services/tradingEngine.js:149-159 | a failing email leaves tracker and tables as a successful one |
| EngineProperties.TrackerIsRunningMax | services/tradingEngine.js:78-81 | for positive prices the pair's entry is the maximum price seen and other entries are untouched |
| EngineProperties.TrackerKeptAfterSale | services/tradingEngine.js:78-81 | the tracker entry is updated whenever a price arrives, also when the order is then sold; it is never cleared |
| EngineProperties.TrackerSharedByPair | services/tradingEngine.js:78-99 | an order is judged against the highest price its pair has seen, even before it existed |
| EngineProperties.StopLossScenario | services/tradingEngine.js:86-90 | a 40000 stop holds at 41000 and 40500 and triggers the stop-loss sell at 39900 (what the sell then does is `ProcessEffect`'s) |
| EngineProperties.TrailingStopScenario | services/tradingEngine.js:78-99 | a 5 % trailing stop over 100, 110, 104 tracks 110, has threshold 104.5 and sells at 104 |
| EngineProperties.DecideAgreesWithPriceAlerts | services/tradingEngine.js:83-99 | with non-zero stop fields the engine's rule agrees with `checkPriceAlerts`, the stop loss taking precedence |
| EngineProperties.ZeroStopLimitSplitsTheRules | services/tradingEngine.js:87 | a 0 stop limit is set for the engine, which reads it as "0.00", but unset for `checkPriceAlerts` when that function is handed the number 0 |

## Left out

- Scheduling (`node-cron`, the `isRunning` flag, `start`/`stop`) is timer plumbing. `stop()` clears the flag but does not cancel the scheduled jobs.
- The hourly moving-average persistence and the SQL statistics of the engine are SQL only.
- Concurrency is left out: each request and each liquidation is one atomic step. Races between a user's sell and a liquidation are not modelled.
- HTTP, axios and real time are left out. Exchange replies, the clock and the fetched history are parameters. Dates are opaque integers.
- Exchange responses are not parsed. `getCurrentPrice` yields the parsed price, and `getHistoricalData` and `getCandlestickData` are not part of this model.
- Floating-point and DECIMAL(15,2) rounding are left out: prices and quantities are exact reals.
- `parseInt` of query strings is left out: days, periods, limit and offset arrive as integers. A NaN from a malformed string is not modelled. Neither is an empty periods string: `/moving-averages` and `/moving-averages/:symbol` treat it as absent, while `/historical-moving-averages/:symbol` turns it into `[NaN]`.
- The `users` join of the sweep is not modelled: every order's user is taken to exist. The sweep's row order is table order, where SQL promises none.
- `CryptoApi.SymbolFor`: object keys inherited from `Object.prototype` are not modelled. The callers pass upper-case or validated coins, which never hit them.
- `CryptoRoutes.HistoricalMovingAverages` requires a non-empty periods list. `split(',')` always yields at least one element.
- The response bodies are left out: messages, `transaction_value`, the portfolio valuation route and the email text. emailService is not part of this model; its success or failure is a parameter.
- HasBalance, CreateTransaction: body fields are taken to be JSON numbers, as the trade form sends them. A numeric string such as "5" also passes `isFloat`. The balance check then compares the DECIMAL string with that string lexicographically, which can refuse a covered sell or admit an oversell; this is not modelled.
- `getAllCurrentPrices` and `getAllMovingAverages` only map the single-coin functions over the three coins.
