/**
 * The request handlers of the crypto router that hold logic of their own:
 * the trade validation, the sell-balance check, the portfolio update after a
 * trade, the transaction-list query builder and the day arithmetic of the
 * moving-average routes.
 */
module CryptoRoutes {
  import opened Wrappers
  import opened JsValues
  import opened Store
  import opened CryptoApi

  // ---------------------------------------------------------------------------
  // Moving-average routes

  /** Periods of `/moving-averages` and `/moving-averages/:symbol` when the query names none. */
  const DefaultPeriods: seq<int> := [1, 2, 5, 9, 15]

  /** Periods of `/historical-moving-averages/:symbol` when the query names none. */
  const DefaultChartPeriods: seq<int> := [5, 9, 15]

  /** Days of `/historical-moving-averages/:symbol` when the query names none. */
  const DefaultDays: int := 30

  /**
   * `GET /moving-averages/:symbol`: the days of history fetched and the SMA
   * of each period. `periods` is the parsed `?periods=` list, None when it
   * is absent or empty.
   */
  function SymbolMovingAverages(periods: Option<seq<int>>, history: seq<HistoricalPoint>): (r: (int, map<int, Option<Number>>))
    requires periods.Some? ==> |periods.value| > 0
    ensures var ps := if periods.Some? then periods.value else DefaultPeriods;
      && (forall p :: p in ps ==> p + 10 <= r.0)
      && r.0 - 10 in ps
      && r.1.Keys == (set p | p in ps)
      && (forall p :: p in r.1 ==> r.1[p] == Sma(history, p))
      && (forall p :: p in r.1 && |history| < p ==> r.1[p].None?)
      && (forall p :: p in r.1 && 1 <= p <= |history| ==> r.1[p].Some? && r.1[p].value.Finite?)
  {
    var ps := periods.GetOr(DefaultPeriods);
    (MovingAverageHistoryDays(ps), MovingAverages(history, ps))
  }

  /** `parseInt(days) + (maxPeriod + 10)`: the days the chart route asks the exchange for. */
  function DaysToFetch(days: int, periods: seq<int>): (total: int)
    requires |periods| > 0
    ensures forall p :: p in periods ==> days + p + 10 <= total
    ensures total - days - 10 in periods
  {
    days + MovingAverageHistoryDays(periods)
  }

  /**
   * `GET /historical-moving-averages/:symbol`: `history` is what the
   * exchange returned for the `fetchDays` asked; the chart series is
   * computed over all of it and only its last `days` points are returned.
   */
  method HistoricalMovingAverages(days: Option<int>, periods: Option<seq<int>>, history: seq<HistoricalPoint>)
    returns (fetchDays: int, points: seq<AveragePoint>)
    requires periods.Some? ==> |periods.value| > 0
    ensures var d := days.GetOr(DefaultDays);
      var ps := periods.GetOr(DefaultChartPeriods);
      && fetchDays == DaysToFetch(d, ps)
      && (0 < d <= |history| ==> |points| == d)
      && (d == 0 || d > |history| ==> |points| == |history|)
      && (d < 0 ==> |points| == if |history| + d >= 0 then |history| + d else 0)
      && |points| <= |history|
      && forall k :: 0 <= k < |points| ==>
           IsAveragePoint(points[k], Dates(history), ClosingValues(history), ps, |history| - |points| + k)
  {
    var d := days.GetOr(DefaultDays);
    var ps := periods.GetOr(DefaultChartPeriods);
    fetchDays := DaysToFetch(d, ps);
    var series := CalculateHistoricalMovingAverages(history, ps);
    points := SliceFrom(series, -d);
    assert |series| == |history| && points == series[|series| - |points|..];
    forall k | 0 <= k < |points|
      ensures IsAveragePoint(points[k], Dates(history), ClosingValues(history), ps, |history| - |points| + k)
    {
      assert points[k] == series[|history| - |points| + k];
    }
  }

  /**
   * When the exchange returns every day asked for, each point the chart
   * route returns has an average for every positive period requested.
   */
  lemma BufferCoversRequestedDays(history: seq<HistoricalPoint>, days: int, periods: seq<int>)
    requires |periods| > 0 && 0 < days
    requires |history| >= DaysToFetch(days, periods)
    ensures forall i: nat, p :: |history| - days <= i < |history| && p in periods ==>
              WindowAverage(ClosingValues(history), i, p).Some?
  {
  }

  // ---------------------------------------------------------------------------
  // Trade validation

  /**
   * A numeric body field as express-validator sees it: missing (undefined),
   * null, a value `isFloat` accepts, or anything else.
   */
  datatype Field = Absent | Null | Num(value: real) | Malformed

  /** The body of `POST /transactions`. */
  datatype TradeRequest = TradeRequest(
    coin: string, side: string, quantity: Field, price: Field, stopLimit: Field, trailingPct: Field)

  /** The messages of `transactionValidation`, one per rule. */
  datatype ValidationError =
    | InvalidCoin         // 'Invalid coin symbol'
    | InvalidType         // 'Transaction type must be buy or sell'
    | InvalidQuantity     // 'Quantity must be a positive number'
    | InvalidPrice        // 'Price must be a positive number'
    | InvalidStopLimit    // 'Stop limit must be a positive number'
    | InvalidTrailingPct  // 'Trailing stop percentage must be between 0 and 100'

  const MinQuantity: real := 0.00000001

  /** `isFloat({ min, max })`: a number within the bounds. */
  predicate IsFloatWithin(f: Field, min: real, max: Option<real>) {
    f.Num? && min <= f.value && (max.None? || f.value <= max.value)
  }

  /** `optional().isFloat(...)`: only an undefined field skips the rule; null is checked and fails. */
  predicate OptionalFloatWithin(f: Field, min: real, max: Option<real>) {
    f.Absent? || IsFloatWithin(f, min, max)
  }

  /** Whether `req` passes the rule whose message is `e`. */
  predicate Passes(req: TradeRequest, e: ValidationError) {
    match e
    case InvalidCoin => req.coin in SupportedCoins
    case InvalidType => req.side == "buy" || req.side == "sell"
    case InvalidQuantity => IsFloatWithin(req.quantity, MinQuantity, None)
    case InvalidPrice => IsFloatWithin(req.price, 0.0, None)
    case InvalidStopLimit => OptionalFloatWithin(req.stopLimit, 0.0, None)
    case InvalidTrailingPct => OptionalFloatWithin(req.trailingPct, 0.0, Some(100.0))
  }

  /** The rules of `transactionValidation`, in declaration order. */
  const Rules: seq<ValidationError> :=
    [InvalidCoin, InvalidType, InvalidQuantity, InvalidPrice, InvalidStopLimit, InvalidTrailingPct]

  /** The messages of the rules in `rules` that `req` fails, in the order of `rules`. */
  function Failing(req: TradeRequest, rules: seq<ValidationError>): (errors: seq<ValidationError>)
    ensures forall e :: e in errors <==> e in rules && !Passes(req, e)
    ensures (forall i, j :: 0 <= i < j < |rules| ==> rules[i] != rules[j]) ==>
              forall i, j :: 0 <= i < j < |errors| ==> errors[i] != errors[j]
    ensures (forall i, j :: 0 <= i < j < |rules| ==> Rank(rules[i]) < Rank(rules[j])) ==>
              forall i, j :: 0 <= i < j < |errors| ==> Rank(errors[i]) < Rank(errors[j])
  {
    if rules == [] then []
    else
      var rest := Failing(req, rules[1..]);
      assert forall e :: e in rules <==> e == rules[0] || e in rules[1..];
      if Passes(req, rules[0]) then rest
      else
        FirstRanksBelow(rules, rest);
        [rules[0]] + rest
  }

  /** When the rules run in chain order, the first one ranks below every later failure. */
  lemma FirstRanksBelow(rules: seq<ValidationError>, rest: seq<ValidationError>)
    requires |rules| > 0
    requires forall e :: e in rest ==> e in rules[1..]
    ensures (forall i, j :: 0 <= i < j < |rules| ==> Rank(rules[i]) < Rank(rules[j])) ==>
              forall k :: 0 <= k < |rest| ==> Rank(rules[0]) < Rank(rest[k])
  {
    if forall i, j :: 0 <= i < j < |rules| ==> Rank(rules[i]) < Rank(rules[j]) {
      forall k | 0 <= k < |rest|
        ensures Rank(rules[0]) < Rank(rest[k])
      {
        assert rest[k] in rules[1..];
        var j :| 0 <= j < |rules| - 1 && rules[1..][j] == rest[k];
        assert rules[j + 1] == rest[k];
      }
    }
  }

  /** `validationResult(req)` after `transactionValidation`: each failed rule reported once. */
  function Validate(req: TradeRequest): (errors: seq<ValidationError>)
    ensures InvalidCoin in errors <==> req.coin !in SupportedCoins
    ensures InvalidType in errors <==> req.side != "buy" && req.side != "sell"
    ensures InvalidQuantity in errors <==> !(req.quantity.Num? && req.quantity.value >= MinQuantity)
    ensures InvalidPrice in errors <==> !(req.price.Num? && req.price.value >= 0.0)
    ensures InvalidStopLimit in errors <==>
              !(req.stopLimit.Absent? || (req.stopLimit.Num? && req.stopLimit.value >= 0.0))
    ensures InvalidTrailingPct in errors <==>
              !(req.trailingPct.Absent? || (req.trailingPct.Num? && 0.0 <= req.trailingPct.value <= 100.0))
    ensures forall i, j :: 0 <= i < j < |errors| ==> errors[i] != errors[j]
    ensures forall i, j :: 0 <= i < j < |errors| ==> Rank(errors[i]) < Rank(errors[j])
  {
    RulesAreDistinct();
    var errors := Failing(req, Rules);
    assert forall e :: e in errors <==> !Passes(req, e) by {
      forall e ensures e in Rules { assert Rules[Rank(e)] == e; }
    }
    errors
  }

  /** Each rule of `transactionValidation` has its own message, and the rules are listed in chain order. */
  lemma RulesAreDistinct()
    ensures forall i, j :: 0 <= i < j < |Rules| ==> Rules[i] != Rules[j]
    ensures forall i, j :: 0 <= i < j < |Rules| ==> Rank(Rules[i]) < Rank(Rules[j])
  {
    assert forall i :: 0 <= i < |Rules| ==> Rank(Rules[i]) == i;
  }

  /** The position of a rule in the `transactionValidation` chain, which is the order `errors.array()` reports. */
  function Rank(e: ValidationError): nat {
    match e
    case InvalidCoin => 0
    case InvalidType => 1
    case InvalidQuantity => 2
    case InvalidPrice => 3
    case InvalidStopLimit => 4
    case InvalidTrailingPct => 5
  }

  /** The trade handed to SQL, as the handler reads it from a request that passed validation. */
  datatype Trade = Trade(coin: string, side: Side, quantity: real, price: real,
                         stopLimit: Option<real>, trailingPct: Option<real>)

  /** An optional field that passed its rule: SQL NULL when undefined. */
  function OptionalValue(f: Field): Option<real> {
    if f.Num? then Some(f.value) else None
  }

  function Parsed(req: TradeRequest): (t: Trade)
    requires Validate(req) == []
    ensures t.coin in SupportedCoins && t.quantity >= MinQuantity && t.price >= 0.0
    ensures t.stopLimit.Some? ==> t.stopLimit.value >= 0.0
    ensures t.trailingPct.Some? ==> 0.0 <= t.trailingPct.value <= 100.0
    ensures t.stopLimit.None? <==> req.stopLimit.Absent?
    ensures t.trailingPct.None? <==> req.trailingPct.Absent?
    ensures t.coin == req.coin && req.quantity == Num(t.quantity) && req.price == Num(t.price)
    ensures t.side == Buy <==> req.side == "buy"
    ensures t.side == Sell <==> req.side == "sell"
    ensures t.stopLimit.Some? ==> req.stopLimit == Num(t.stopLimit.value)
    ensures t.trailingPct.Some? ==> req.trailingPct == Num(t.trailingPct.value)
  {
    Trade(req.coin, if req.side == "buy" then Buy else Sell, req.quantity.value, req.price.value,
          OptionalValue(req.stopLimit), OptionalValue(req.trailingPct))
  }

  /** A null stop limit, which a form sends for an empty field, fails validation. */
  lemma NullStopLimitIsRejected(req: TradeRequest)
    requires req.stopLimit == Null
    ensures InvalidStopLimit in Validate(req)
  {
  }

  // ---------------------------------------------------------------------------
  // Portfolio

  /** The sell-balance check: a row exists and its quantity is not below the amount sold. */
  predicate HasBalance(rows: map<Key, Holding>, key: Key, quantity: real)
    ensures HasBalance(rows, key, quantity) <==> key in rows && quantity <= rows[key].quantity
  {
    key in rows && !(rows[key].quantity < quantity)
  }

  /**
   * The `portfolio` table after `updatePortfolio(userId, coin, type,
   * quantity, price)` commits: a buy folds into the weighted average, a sell
   * keeps it, a row that reaches zero or below is deleted, and a sell of a
   * coin not held changes nothing.
   */
  function Traded(rows: map<Key, Holding>, key: Key, side: Side, quantity: real, price: real): (r: map<Key, Holding>)
    ensures forall k :: k != key ==> (k in r <==> k in rows) && (k in r ==> r[k] == rows[k])
    ensures key !in rows && side == Buy ==> key in r && r[key] == Holding(quantity, price)
    ensures key !in rows && side == Sell ==> r == rows
    ensures key in rows && side == Buy ==> (key in r <==> rows[key].quantity + quantity > 0.0)
    ensures key in rows && side == Sell ==> (key in r <==> rows[key].quantity - quantity > 0.0)
    ensures key in rows && key in r && side == Buy ==>
              && r[key].quantity == rows[key].quantity + quantity
              && r[key].quantity * r[key].avgPrice == rows[key].quantity * rows[key].avgPrice + quantity * price
    ensures key in rows && key in r && side == Sell ==>
              r[key] == Holding(rows[key].quantity - quantity, rows[key].avgPrice)
  {
    if key in rows then
      var held := rows[key];
      var newQuantity := if side == Buy then held.quantity + quantity else held.quantity - quantity;
      if newQuantity <= 0.0 then rows - {key}
      else
        var newAvg := if side == Buy then WeightedAverage(held, quantity, price) else held.avgPrice;
        rows[key := Holding(newQuantity, newAvg)]
    else if side == Buy then rows[key := Holding(quantity, price)]
    else rows
  }

  /** `(qty * avg_price + quantity * price) / (qty + quantity)`: the average cost after a buy. */
  function WeightedAverage(held: Holding, quantity: real, price: real): (avg: real)
    requires held.quantity + quantity != 0.0
    ensures (held.quantity + quantity) * avg == held.quantity * held.avgPrice + quantity * price
  {
    (held.quantity * held.avgPrice + quantity * price) / (held.quantity + quantity)
  }

  /** With positive quantities, a buy's new average lies between the old average and the price paid. */
  lemma BuyAverageBetween(rows: map<Key, Holding>, key: Key, quantity: real, price: real)
    requires key in rows && rows[key].quantity > 0.0 && quantity > 0.0
    ensures var r := Traded(rows, key, Buy, quantity, price);
      var avg := rows[key].avgPrice;
      key in r && (avg <= r[key].avgPrice <= price || price <= r[key].avgPrice <= avg)
  {
    var held := rows[key];
    AverageBetween(held.quantity, held.avgPrice, quantity, price);
  }

  lemma AverageBetween(heldQuantity: real, avg: real, quantity: real, price: real)
    requires heldQuantity > 0.0 && quantity > 0.0
    ensures var a := WeightedAverage(Holding(heldQuantity, avg), quantity, price);
      avg <= a <= price || price <= a <= avg
  {
    var n := heldQuantity + quantity;
    var a := WeightedAverage(Holding(heldQuantity, avg), quantity, price);
    assert n * a == heldQuantity * avg + quantity * price;
    assert n * avg == heldQuantity * avg + quantity * avg;
    assert n * price == heldQuantity * price + quantity * price;
    if avg <= price {
      MultiplyMonotone(heldQuantity, avg, price);
      MultiplyMonotone(quantity, avg, price);
      CancelPositive(n, avg, a);
      CancelPositive(n, a, price);
    } else {
      MultiplyMonotone(heldQuantity, price, avg);
      MultiplyMonotone(quantity, price, avg);
      CancelPositive(n, price, a);
      CancelPositive(n, a, avg);
    }
  }

  lemma CancelPositive(n: real, x: real, y: real)
    requires n > 0.0 && n * x <= n * y
    ensures x <= y
  {
  }

  /** Every row holds a positive quantity. */
  predicate PositiveHoldings(rows: map<Key, Holding>) {
    forall k :: k in rows ==> rows[k].quantity > 0.0
  }

  /** A trade of a positive quantity never leaves an empty or negative row behind. */
  lemma TradeKeepsHoldingsPositive(rows: map<Key, Holding>, key: Key, side: Side, quantity: real, price: real)
    requires PositiveHoldings(rows) && quantity > 0.0
    ensures PositiveHoldings(Traded(rows, key, side, quantity, price))
  {
  }

  /** Selling `a` and then `b` leaves the table as one sell of `a + b` does. */
  lemma SellsCompose(rows: map<Key, Holding>, key: Key, a: real, b: real, p1: real, p2: real)
    requires b >= 0.0
    ensures Traded(Traded(rows, key, Sell, a, p1), key, Sell, b, p2) == Traded(rows, key, Sell, a + b, p1)
  {
  }

  /** A sell that passed the balance check leaves the row holding what it held less the amount sold. */
  lemma CheckedSellLeavesRemainder(rows: map<Key, Holding>, key: Key, quantity: real, price: real)
    requires HasBalance(rows, key, quantity)
    ensures var r := Traded(rows, key, Sell, quantity, price);
      && (key in r <==> rows[key].quantity > quantity)
      && (key in r ==> r[key].quantity == rows[key].quantity - quantity >= 0.0)
  {
  }

  /**
   * `updatePortfolio(userId, coinSymbol, type, quantity, price)`: a read and
   * one write on its own connection between BEGIN and COMMIT. `fails` stands
   * for an error from any of its statements, after which ROLLBACK restores
   * the table and the error propagates.
   */
  method UpdatePortfolio(db: Database, user: UserId, coin: string, side: Side, quantity: real, price: real, fails: bool)
    returns (ok: bool)
    requires db.Valid()
    modifies db
    ensures db.Valid()
    ensures ok == !fails
    ensures db.portfolio == if ok then Traded(old(db.portfolio), Key(user, coin), side, quantity, price) else old(db.portfolio)
    ensures db.orders == old(db.orders) && db.logs == old(db.logs) && db.nextId == old(db.nextId)
  {
    var saved := db.Image();
    var key := Key(user, coin);
    var existing := db.FindHolding(key);
    if existing.Some? {
      var held := existing.value;
      var newQuantity := if side == Buy then held.quantity + quantity else held.quantity - quantity;
      if newQuantity <= 0.0 {
        db.DeleteHolding(key);
      } else {
        var newAvg := if side == Buy then WeightedAverage(held, quantity, price) else held.avgPrice;
        db.PutHolding(key, Holding(newQuantity, newAvg));
      }
    } else if side == Buy {
      db.PutHolding(key, Holding(quantity, price));
    }
    assert db.portfolio == Traded(saved.portfolio, key, side, quantity, price);
    if fails {
      db.Rollback(saved);
      return false;
    }
    return true;
  }

  // ---------------------------------------------------------------------------
  // POST /transactions

  /** The statement of `POST /transactions` that fails, if any. */
  datatype RouteFault = NoRouteFault | BalanceQueryFails | OrderInsertFails | PortfolioUpdateFails | LogInsertFails

  /** Whether the CREATE log row is written: no statement from the portfolio update on fails. */
  predicate LogWritten(fault: RouteFault) {
    fault != PortfolioUpdateFails && fault != LogInsertFails
  }

  datatype Response =
    | BadRequest(errors: seq<ValidationError>)  // 400 with the failed rules
    | InsufficientBalance                       // 400 'Insufficient balance for sell transaction'
    | Accepted(order: Order)                    // 201 with the inserted row
    | ServerError                               // 500 'Failed to create transaction'

  /**
   * `POST /transactions`: validate, check the balance of a sell, insert the
   * order, update the portfolio, log it. The INSERT commits on its own, so a
   * later failure answers 500 but leaves the order in place; a failing
   * balance SELECT or order INSERT answers 500 and writes nothing.
   */
  method CreateTransaction(db: Database, user: UserId, req: TradeRequest, fault: RouteFault) returns (response: Response)
    requires db.Valid()
    modifies db
    ensures db.Valid()
    ensures Validate(req) != [] ==> response == BadRequest(Validate(req)) && db.Image() == old(db.Image())
    ensures Validate(req) == [] && Parsed(req).side == Sell && fault == BalanceQueryFails ==>
              response == ServerError && db.Image() == old(db.Image())
    ensures Validate(req) == [] && Parsed(req).side == Sell && fault != BalanceQueryFails
            && !HasBalance(old(db.portfolio), Key(user, req.coin), Parsed(req).quantity) ==>
              response == InsufficientBalance && db.Image() == old(db.Image())
    ensures Validate(req) == [] && (Parsed(req).side == Sell ==> fault != BalanceQueryFails && HasBalance(old(db.portfolio), Key(user, req.coin), Parsed(req).quantity))
            && fault == OrderInsertFails ==>
              response == ServerError && db.Image() == old(db.Image())
    ensures Validate(req) == [] && (Parsed(req).side == Sell ==> fault != BalanceQueryFails && HasBalance(old(db.portfolio), Key(user, req.coin), Parsed(req).quantity))
            && fault != OrderInsertFails ==>
              var t := Parsed(req);
              var o := Order(old(db.nextId), user, t.coin, t.side, t.quantity, t.price, t.stopLimit, t.trailingPct, Open);
              && db.orders == old(db.orders) + [o]
              && db.nextId == old(db.nextId) + 1
              && db.portfolio == (if fault == PortfolioUpdateFails then old(db.portfolio)
                                  else Traded(old(db.portfolio), Key(user, t.coin), t.side, t.quantity, t.price))
              && db.logs == old(db.logs) + (if LogWritten(fault) then [LogEntry(user, o.id, Created(t.side, t.quantity, t.coin, t.price))] else [])
              && response == (if LogWritten(fault) then Accepted(o) else ServerError)
  {
    var errors := Validate(req);
    if errors != [] {
      return BadRequest(errors);
    }
    var t := Parsed(req);
    var key := Key(user, t.coin);
    if t.side == Sell {
      if fault == BalanceQueryFails {
        return ServerError;
      }
      var row := db.FindHolding(key);
      if row.None? || row.value.quantity < t.quantity {
        return InsufficientBalance;
      }
    }
    if fault == OrderInsertFails {
      return ServerError;
    }
    var id := db.InsertOrder(user, t.coin, t.side, t.quantity, t.price, t.stopLimit, t.trailingPct, Open);
    var ok := UpdatePortfolio(db, user, t.coin, t.side, t.quantity, t.price, fault == PortfolioUpdateFails);
    if !ok {
      return ServerError;
    }
    if fault == LogInsertFails {
      return ServerError;
    }
    db.AppendLog(LogEntry(user, id, Created(t.side, t.quantity, t.coin, t.price)));
    response := Accepted(Order(id, user, t.coin, t.side, t.quantity, t.price, t.stopLimit, t.trailingPct, Open));
  }

  // ---------------------------------------------------------------------------
  // GET /transactions

  /** The filters appended to the WHERE clause, and the final ORDER/LIMIT/OFFSET, with their `$n` numbers. */
  datatype Clause = StatusIs(placeholder: nat) | CoinIs(placeholder: nat) | Paging(limit: nat, offset: nat)

  /** A value of the `params` array. */
  datatype Param = UserParam(user: UserId) | Text(text: string) | Count(count: int)

  /** A query-string value that is a truthy string. */
  predicate Given(s: Option<string>) {
    s.Some? && s.value != ""
  }

  /**
   * The appended clauses use the placeholders $2..$n in query order with no
   * gap and no repeat: each filter takes the next number and LIMIT and OFFSET
   * take the last two, so $n is the last parameter.
   */
  predicate NumberedInOrder(clauses: seq<Clause>, n: nat) {
    && |clauses| >= 1 && n == |clauses| + 2
    && (forall i :: 0 <= i < |clauses| - 1 ==> !clauses[i].Paging? && clauses[i].placeholder == i + 2)
    && clauses[|clauses| - 1] == Paging(n - 1, n)
  }

  /**
   * The query and parameters `GET /transactions` sends: `$1` is the user in
   * the base query, the appended clauses number their placeholders from `$2`
   * on with no gap, LIMIT and OFFSET take the last two, and each filter is
   * present exactly when its query value is given and names that value.
   */
  method BuildTransactionQuery(user: UserId, status: Option<string>, coin: Option<string>, limit: Option<int>, offset: Option<int>)
    returns (clauses: seq<Clause>, params: seq<Param>)
    ensures |params| == 3 + (if Given(status) then 1 else 0) + (if Given(coin) then 1 else 0)
    ensures NumberedInOrder(clauses, |params|)
    ensures params[0] == UserParam(user)
    ensures params[|params| - 2] == Count(limit.GetOr(50)) && params[|params| - 1] == Count(offset.GetOr(0))
    ensures Given(status) ==> clauses[0].StatusIs?
    ensures Given(coin) ==> clauses[|clauses| - 2].CoinIs?
    ensures forall i :: 0 <= i < |clauses| && clauses[i].StatusIs? ==>
              Given(status) && params[clauses[i].placeholder - 1] == Text(status.value)
    ensures forall i :: 0 <= i < |clauses| && clauses[i].CoinIs? ==>
              Given(coin) && params[clauses[i].placeholder - 1] == Text(coin.value)
  {
    params := [UserParam(user)];
    var paramCount := 1;
    clauses := [];
    if Given(status) {
      paramCount := paramCount + 1;
      clauses := clauses + [StatusIs(paramCount)];
      params := params + [Text(status.value)];
    }
    if Given(coin) {
      paramCount := paramCount + 1;
      clauses := clauses + [CoinIs(paramCount)];
      params := params + [Text(coin.value)];
    }
    clauses := clauses + [Paging(paramCount + 1, paramCount + 2)];
    params := params + [Count(limit.GetOr(50)), Count(offset.GetOr(0))];
  }
}
