/**
 * The stop-order engine: every sweep reads the open buy orders that carry a
 * stop limit or a trailing stop, fetches each coin's price, updates the
 * highest price seen for the (user, coin) pair and, when a stop fires, sells
 * the whole position in one SQL transaction.
 */
module TradingEngine {
  import opened Wrappers
  import opened Store
  import opened CryptoApi
  import opened CryptoRoutes

  /** `highestPrices`: the highest price seen per `${user_id}_${coin_symbol}`, for all orders of that pair. */
  type Tracker = map<Key, real>

  /** `Math.max(this.highestPrices.get(key) || currentPrice, currentPrice)`: a stored 0 counts as unset. */
  function NewHighest(tracker: Tracker, key: Key, price: real): (r: real)
    ensures r >= price
    ensures key in tracker && tracker[key] != 0.0 ==> r >= tracker[key]
    ensures r == price || (key in tracker && tracker[key] != 0.0 && r == tracker[key])
  {
    var current := if key in tracker && tracker[key] != 0.0 then tracker[key] else price;
    if current >= price then current else price
  }

  /**
   * The trigger rule of `processTransaction`. A stop field read from SQL is a
   * DECIMAL string, so any non-NULL value (0 included) counts as set. The
   * stop loss is checked first; the trailing stop only when it did not fire.
   */
  function Decide(stopLimit: Option<real>, trailingPct: Option<real>, price: real, highest: real): (r: Option<Trigger>)
    ensures r == Some(StopLossTrigger) <==> stopLimit.Some? && price <= stopLimit.value
    ensures r == Some(TrailingStopTrigger) <==>
              && !(stopLimit.Some? && price <= stopLimit.value)
              && trailingPct.Some? && price <= TrailingStopPrice(highest, trailingPct.value)
  {
    if stopLimit.Some? && price <= stopLimit.value then Some(StopLossTrigger)
    else if trailingPct.Some? && price <= TrailingStopPrice(highest, trailingPct.value) then Some(TrailingStopTrigger)
    else None
  }

  /**
   * The portfolio after `updatePortfolioForSell`: a missing row stays missing,
   * otherwise the quantity drops and a row at or below zero is deleted;
   * `avg_price` is never written.
   */
  function SoldFromPortfolio(rows: map<Key, Holding>, key: Key, quantity: real): (r: map<Key, Holding>)
    ensures key !in rows ==> r == rows
    ensures forall k :: k != key ==> (k in r <==> k in rows) && (k in r ==> r[k] == rows[k])
    ensures key in rows ==> (key in r <==> rows[key].quantity - quantity > 0.0)
    ensures key in r ==> r[key] == Holding(rows[key].quantity - quantity, rows[key].avgPrice)
  {
    if key !in rows then rows
    else
      var newQuantity := rows[key].quantity - quantity;
      if newQuantity <= 0.0 then rows - {key}
      else rows[key := rows[key].(quantity := newQuantity)]
  }

  /** The engine's sell and the trade route's sell leave the portfolio alike, whatever the price. */
  lemma EngineSellMatchesRouteSell(rows: map<Key, Holding>, key: Key, quantity: real, price: real)
    ensures SoldFromPortfolio(rows, key, quantity) == Traded(rows, key, Sell, quantity, price)
  {
  }

  /** The sell order `executeStopLossSell` inserts: same user, coin and quantity, at the current price, already closed. */
  function SellOrder(id: nat, o: Order, price: real): Order {
    Order(id, o.user, o.coin, Sell, o.quantity, price, None, None, Closed)
  }

  /** The tables after `executeStopLossSell` commits. */
  function Liquidated(t: Tables, o: Order, price: real, trigger: Trigger): (r: Tables)
    ensures r.nextId == t.nextId + 1
    ensures r.orders == ClosedById(t.orders, o.id) + [SellOrder(t.nextId, o, price)]
    ensures r.portfolio == SoldFromPortfolio(t.portfolio, Key(o.user, o.coin), o.quantity)
    ensures r.logs == t.logs + [LogEntry(o.user, t.nextId, StopLossSold(trigger, o.quantity, o.coin, price))]
  {
    Tables(ClosedById(t.orders, o.id) + [SellOrder(t.nextId, o, price)],
           SoldFromPortfolio(t.portfolio, Key(o.user, o.coin), o.quantity),
           t.logs + [LogEntry(o.user, t.nextId, StopLossSold(trigger, o.quantity, o.coin, price))],
           t.nextId + 1)
  }

  /** A liquidation closes the original order and only it, and keeps ids unique below the sequence. */
  lemma LiquidationClosesOnlyOriginal(t: Tables, o: Order, price: real, trigger: Trigger)
    ensures OpenIds(Liquidated(t, o, price, trigger).orders) == OpenIds(t.orders) - {o.id}
    ensures WellFormed(t) ==> WellFormed(Liquidated(t, o, price, trigger))
  {
    OpenIdsAppendClosed(ClosedById(t.orders, o.id), SellOrder(t.nextId, o, price));
  }

  /** The statements of `executeStopLossSell`, in order. */
  datatype TxStep = Connect | Begin | InsertSell | CloseOriginal | ReadPortfolio | WritePortfolio | InsertLog | Commit

  /** The statement that fails during a liquidation, if any. */
  datatype Fault = NoFault | FailAt(step: TxStep)

  /** Whether the failing statement is reached: the portfolio write runs only when the row exists. */
  predicate Aborts(t: Tables, o: Order, fault: Fault) {
    && fault.FailAt?
    && (fault.step == WritePortfolio ==> Key(o.user, o.coin) in t.portfolio)
  }

  /** Whether the INSERT of the sell row ran before the failure and so drew an id from the sequence. */
  predicate DrawsId(fault: Fault) {
    fault.FailAt? && fault.step in {CloseOriginal, ReadPortfolio, WritePortfolio, InsertLog, Commit}
  }

  /** The tables after ROLLBACK: every row as before; the id sequence keeps an id the INSERT drew. */
  function RolledBack(t: Tables, fault: Fault): (r: Tables)
    ensures r.orders == t.orders && r.portfolio == t.portfolio && r.logs == t.logs
    ensures r.nextId == if DrawsId(fault) then t.nextId + 1 else t.nextId
    ensures WellFormed(t) ==> WellFormed(r)
  {
    t.(nextId := if DrawsId(fault) then t.nextId + 1 else t.nextId)
  }

  /** What one sweep needs from the outside world for one order. */
  datatype Tick = Tick(replies: ReplyScript<real>, fault: Fault, emailFails: bool)

  /** How `processTransaction` ended for one order. */
  datatype Outcome =
    | PriceUnavailable                                     // getCurrentPrice threw; nothing changed
    | NotTriggered
    | Sold(trigger: Trigger, sellId: nat, emailed: bool)   // committed; the email may have failed
    | SaleRolledBack(trigger: Trigger)                     // the transaction failed and was rolled back

  datatype EngineState = EngineState(highest: Tracker, tables: Tables)

  /** `processTransaction(row)` on the engine's tracker and the tables. */
  function Process(s: EngineState, o: Order, tick: Tick): (r: (EngineState, Outcome))
    ensures r.1 == PriceUnavailable <==> CurrentPrice(o.coin, tick.replies).None?
    ensures r.1 == PriceUnavailable ==> r.0 == s
    ensures r.1.Sold? ==> r.1.sellId == s.tables.nextId && r.0.tables.nextId == s.tables.nextId + 1
  {
    match CurrentPrice(o.coin, tick.replies)
    case None => (s, PriceUnavailable)
    case Some(price) =>
      var key := Key(o.user, o.coin);
      var highest := NewHighest(s.highest, key, price);
      var tracker := s.highest[key := highest];
      match Decide(o.stopLimit, o.trailingPct, price, highest)
      case None => (EngineState(tracker, s.tables), NotTriggered)
      case Some(trigger) =>
        if Aborts(s.tables, o, tick.fault) then
          (EngineState(tracker, RolledBack(s.tables, tick.fault)), SaleRolledBack(trigger))
        else
          (EngineState(tracker, Liquidated(s.tables, o, price, trigger)), Sold(trigger, s.tables.nextId, !tick.emailFails))
  }

  /** The sweep's WHERE clause: open, a buy, and a stop limit or a trailing stop that is not NULL. */
  predicate IsCandidate(o: Order) {
    o.status == Open && (o.stopLimit.Some? || o.trailingPct.Some?) && o.side == Buy
  }

  /** The rows the sweep's SELECT returns, in table order. */
  function Candidates(orders: seq<Order>): (r: seq<Order>)
    ensures forall o :: o in r <==> o in orders && IsCandidate(o)
    ensures forall o :: multiset(r)[o] == if IsCandidate(o) then multiset(orders)[o] else 0
    ensures |r| <= |orders|
  {
    if orders == [] then []
    else
      var rest := Candidates(orders[1..]);
      assert forall o :: o in orders <==> o == orders[0] || o in orders[1..];
      assert orders == [orders[0]] + orders[1..];
      if IsCandidate(orders[0]) then [orders[0]] + rest else rest
  }

  /** The `for` loop of `checkStopLossOrders`: every row is processed in turn, whatever the earlier ones did. */
  function Sweep(s: EngineState, rows: seq<Order>, ticks: seq<Tick>): (r: (EngineState, seq<Outcome>))
    requires |ticks| == |rows|
    ensures |r.1| == |rows|
    decreases |rows|
  {
    if rows == [] then (s, [])
    else
      var (next, outcome) := Process(s, rows[0], ticks[0]);
      var rest := Sweep(next, rows[1..], ticks[1..]);
      (rest.0, [outcome] + rest.1)
  }

  /** How a call to `executeStopLossSell` ended. */
  datatype Sale = Committed(sellId: nat, emailed: bool) | Aborted

  /** The engine, its tracker, and the database and price service it uses. */
  class Engine {
    var highestPrices: Tracker
    const db: Database
    const api: PriceClient

    constructor (db: Database, api: PriceClient)
      ensures this.db == db && this.api == api && highestPrices == map[]
    {
      this.db := db;
      this.api := api;
      highestPrices := map[];
    }

    /** services/tradingEngine.js:78-81: remember the highest price seen for the order's (user, coin) pair. */
    method ObservePrice(key: Key, price: real) returns (highest: real)
      modifies this
      ensures highest == NewHighest(old(highestPrices), key, price)
      ensures highestPrices == old(highestPrices)[key := highest]
    {
      var current := if key in highestPrices && highestPrices[key] != 0.0 then highestPrices[key] else price;
      highest := if current >= price then current else price;
      highestPrices := highestPrices[key := highest];
    }

    /** `updatePortfolioForSell` inside the liquidation's transaction; false when one of its statements fails. */
    method UpdatePortfolioForSell(key: Key, quantity: real, fault: Fault) returns (ok: bool)
      requires db.Valid()
      modifies db
      ensures db.Valid()
      ensures ok <==> !(fault == FailAt(ReadPortfolio) || (fault == FailAt(WritePortfolio) && key in old(db.portfolio)))
      ensures db.portfolio == if ok then SoldFromPortfolio(old(db.portfolio), key, quantity) else old(db.portfolio)
      ensures db.orders == old(db.orders) && db.logs == old(db.logs) && db.nextId == old(db.nextId)
    {
      if fault == FailAt(ReadPortfolio) {
        return false;
      }
      var row := db.FindHolding(key);
      if row.Some? {
        if fault == FailAt(WritePortfolio) {
          return false;
        }
        var newQuantity := row.value.quantity - quantity;
        if newQuantity <= 0.0 {
          db.DeleteHolding(key);
        } else {
          db.PutHolding(key, row.value.(quantity := newQuantity));
        }
      }
      return true;
    }

    /**
     * The `try` block of `executeStopLossSell` after the original order is
     * closed: the portfolio update, the log row and COMMIT, in order, until
     * one fails; false when one failed.
     */
    method SettleSale(o: Order, sellId: nat, price: real, trigger: Trigger, fault: Fault) returns (ok: bool)
      requires db.Valid()
      requires fault !in {FailAt(Connect), FailAt(Begin), FailAt(InsertSell), FailAt(CloseOriginal)}
      modifies db
      ensures db.Valid()
      ensures ok <==> !Aborts(old(db.Image()), o, fault)
      ensures db.orders == old(db.orders) && db.nextId == old(db.nextId)
      ensures ok ==> db.portfolio == SoldFromPortfolio(old(db.portfolio), Key(o.user, o.coin), o.quantity)
      ensures ok ==> db.logs == old(db.logs) + [LogEntry(o.user, sellId, StopLossSold(trigger, o.quantity, o.coin, price))]
    {
      ok := UpdatePortfolioForSell(Key(o.user, o.coin), o.quantity, fault);
      if !ok || fault == FailAt(InsertLog) {
        return false;
      }
      db.AppendLog(LogEntry(o.user, sellId, StopLossSold(trigger, o.quantity, o.coin, price)));
      ok := fault != FailAt(Commit);
    }

    /**
     * The `try` block of `executeStopLossSell` up to COMMIT: the statements
     * run in order until one fails; false when one failed.
     */
    method SaleStatements(o: Order, price: real, trigger: Trigger, fault: Fault) returns (sellId: nat, ok: bool)
      requires db.Valid() && fault != FailAt(Connect)
      modifies db
      ensures db.Valid()
      ensures ok <==> !Aborts(old(db.Image()), o, fault)
      ensures db.nextId == if DrawsId(fault) || ok then old(db.nextId) + 1 else old(db.nextId)
      ensures ok ==> sellId == old(db.nextId) && db.Image() == Liquidated(old(db.Image()), o, price, trigger)
    {
      ghost var before := db.Image();
      if fault == FailAt(Begin) || fault == FailAt(InsertSell) {
        return 0, false;
      }
      sellId := db.InsertOrder(o.user, o.coin, Sell, o.quantity, price, None, None, Closed);
      if fault == FailAt(CloseOriginal) {
        return sellId, false;
      }
      db.CloseOrder(o.id);
      ok := SettleSale(o, sellId, price, trigger, fault);
      if ok {
        assert db.orders == ClosedById(before.orders, o.id) + [SellOrder(sellId, o, price)];
      }
    }

    /**
     * `executeStopLossSell(row, currentPrice, triggerType)`: all four writes
     * commit together, or ROLLBACK leaves every row as it was. A failing
     * email after COMMIT is swallowed.
     */
    method ExecuteStopLossSell(o: Order, price: real, trigger: Trigger, fault: Fault, emailFails: bool) returns (sale: Sale)
      requires db.Valid()
      modifies db
      ensures db.Valid()
      ensures Aborts(old(db.Image()), o, fault) ==> sale == Aborted && db.Image() == RolledBack(old(db.Image()), fault)
      ensures !Aborts(old(db.Image()), o, fault) ==>
                sale == Committed(old(db.nextId), !emailFails) && db.Image() == Liquidated(old(db.Image()), o, price, trigger)
    {
      if fault == FailAt(Connect) {
        return Aborted;
      }
      var saved := db.Image();
      var sellId, ok := SaleStatements(o, price, trigger, fault);
      if !ok {
        db.Rollback(saved);
        return Aborted;
      }
      sale := Committed(sellId, !emailFails);
    }

    /** `processTransaction(row)`: errors are caught and end the processing of this row only. */
    method ProcessTransaction(o: Order, tick: Tick) returns (outcome: Outcome)
      requires db.Valid()
      modifies this, db, api
      ensures db.Valid()
      ensures (EngineState(highestPrices, db.Image()), outcome) == Process(EngineState(old(highestPrices), old(db.Image())), o, tick)
    {
      var quote := api.GetCurrentPrice(o.coin, tick.replies);
      if quote.None? {
        return PriceUnavailable;
      }
      var price := quote.value;
      var highest := ObservePrice(Key(o.user, o.coin), price);
      var trigger := Decide(o.stopLimit, o.trailingPct, price, highest);
      if trigger.None? {
        return NotTriggered;
      }
      var sale := ExecuteStopLossSell(o, price, trigger.value, tick.fault, tick.emailFails);
      outcome := if sale.Aborted? then SaleRolledBack(trigger.value) else Sold(trigger.value, sale.sellId, sale.emailed);
    }

    /** `checkStopLossOrders()`: a failing SELECT is caught and processes nothing; otherwise one pass over the rows it returns. */
    method CheckStopLossOrders(ticks: seq<Tick>, selectFails: bool) returns (outcomes: seq<Outcome>)
      requires db.Valid()
      requires |ticks| == |Candidates(db.orders)|
      modifies this, db, api
      ensures db.Valid()
      ensures selectFails ==> outcomes == [] && highestPrices == old(highestPrices) && db.Image() == old(db.Image())
      ensures !selectFails ==>
                (EngineState(highestPrices, db.Image()), outcomes)
                == Sweep(EngineState(old(highestPrices), old(db.Image())), Candidates(old(db.orders)), ticks)
    {
      if selectFails {
        return [];
      }
      outcomes := ProcessRows(Candidates(db.orders), ticks);
    }

    /** The `for` loop of `checkStopLossOrders`, with one tick per row. */
    method ProcessRows(rows: seq<Order>, ticks: seq<Tick>) returns (outcomes: seq<Outcome>)
      requires db.Valid()
      requires |ticks| == |rows|
      modifies this, db, api
      ensures db.Valid()
      ensures (EngineState(highestPrices, db.Image()), outcomes) == Sweep(EngineState(old(highestPrices), old(db.Image())), rows, ticks)
    {
      ghost var final := Sweep(EngineState(highestPrices, db.Image()), rows, ticks);
      outcomes := [];
      assert rows[0..] == rows && ticks[0..] == ticks;
      assert outcomes + final.1 == final.1;
      for i := 0 to |rows|
        invariant db.Valid()
        invariant var rest := Sweep(EngineState(highestPrices, db.Image()), rows[i..], ticks[i..]);
                  (rest.0, outcomes + rest.1) == final
      {
        assert rows[i..][1..] == rows[i + 1..] && ticks[i..][1..] == ticks[i + 1..];
        ghost var rest := Sweep(EngineState(highestPrices, db.Image()), rows[i..], ticks[i..]);
        var outcome := ProcessTransaction(rows[i], ticks[i]);
        ghost var tail := Sweep(EngineState(highestPrices, db.Image()), rows[i + 1..], ticks[i + 1..]);
        assert rest == (tail.0, [outcome] + tail.1);
        assert outcomes + ([outcome] + tail.1) == (outcomes + [outcome]) + tail.1;
        outcomes := outcomes + [outcome];
      }
      assert rows[|rows|..] == [] && ticks[|rows|..] == [];
      assert outcomes + [] == outcomes;
    }
  }
}
