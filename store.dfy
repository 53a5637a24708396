/**
 * The PostgreSQL tables that the trade route and the stop-order engine read
 * and write (`transactions`, `portfolio`, `logs`), held in memory. Each SQL
 * statement the source issues is one method of `Database`; the pure
 * functions beside them say what a statement does to the tables' value.
 */
module Store {
  import opened Wrappers

  type UserId = nat

  datatype Side = Buy | Sell
  datatype Status = Open | Closed

  /**
   * A row of `transactions`. `stopLimit` and `trailingPct` are SQL NULL when
   * None. New rows take `status` from the column default 'open' unless the
   * INSERT names one.
   */
  datatype Order = Order(
    id: nat, user: UserId, coin: string, side: Side, quantity: real, price: real,
    stopLimit: Option<real>, trailingPct: Option<real>, status: Status)

  /** A key of `portfolio`, which is UNIQUE(user_id, coin_symbol). */
  datatype Key = Key(user: UserId, coin: string)

  /** The `quantity` and `avg_price` of a `portfolio` row. */
  datatype Holding = Holding(quantity: real, avgPrice: real)

  /** Which rule made the engine sell: the trigger type named in its log message. */
  datatype Trigger = StopLossTrigger | TrailingStopTrigger

  /** The `action` of a `logs` row and the facts its `message` states. */
  datatype LogAction =
    | Created(side: Side, quantity: real, coin: string, price: real)            // 'CREATE'
    | StopLossSold(trigger: Trigger, quantity: real, coin: string, price: real)  // 'STOP_LOSS'

  /** A row of `logs`: the user, the `transaction_id` it refers to, the action. */
  datatype LogEntry = LogEntry(user: UserId, orderId: nat, action: LogAction)

  /** The value of the three tables, with the next value of the `transactions.id` sequence. */
  datatype Tables = Tables(orders: seq<Order>, portfolio: map<Key, Holding>, logs: seq<LogEntry>, nextId: nat)

  /** `transactions.id` is a primary key drawn from a sequence. */
  ghost predicate WellFormed(t: Tables) {
    && (forall i :: 0 <= i < |t.orders| ==> t.orders[i].id < t.nextId)
    && (forall i, j :: 0 <= i < j < |t.orders| ==> t.orders[i].id != t.orders[j].id)
  }

  /** The ids of the orders whose status is 'open'. */
  function OpenIds(orders: seq<Order>): set<nat> {
    set o | o in orders && o.status == Open :: o.id
  }

  /** `UPDATE transactions SET status = 'closed' WHERE id = $1`. */
  function ClosedById(orders: seq<Order>, id: nat): (r: seq<Order>)
    ensures |r| == |orders|
    ensures forall i :: 0 <= i < |r| ==> r[i].id == orders[i].id
    ensures forall i :: 0 <= i < |r| && orders[i].id == id ==> r[i] == orders[i].(status := Closed)
    ensures forall i :: 0 <= i < |r| && orders[i].id != id ==> r[i] == orders[i]
    ensures OpenIds(r) == OpenIds(orders) - {id}
  {
    var r := seq(|orders|, i requires 0 <= i < |orders| =>
      if orders[i].id == id then orders[i].(status := Closed) else orders[i]);
    forall x | x in OpenIds(r) ensures x in OpenIds(orders) - {id} {
      var o :| o in r && o.status == Open && o.id == x;
      var i :| 0 <= i < |r| && r[i] == o;
      assert orders[i].id != id && orders[i] == o;
    }
    forall x | x in OpenIds(orders) - {id} ensures x in OpenIds(r) {
      var o :| o in orders && o.status == Open && o.id == x;
      var i :| 0 <= i < |orders| && orders[i] == o;
      assert r[i] == o;
    }
    r
  }

  /** Appending a row that is already closed opens no id. */
  lemma OpenIdsAppendClosed(orders: seq<Order>, o: Order)
    requires o.status == Closed
    ensures OpenIds(orders + [o]) == OpenIds(orders)
  {
    assert forall x :: x in orders + [o] <==> x in orders || x == o;
  }

  /** The in-memory database: the three tables and the id sequence. */
  class Database {
    var orders: seq<Order>
    var portfolio: map<Key, Holding>
    var logs: seq<LogEntry>
    var nextId: nat

    function Image(): Tables
      reads this
    {
      Tables(orders, portfolio, logs, nextId)
    }

    ghost predicate Valid()
      reads this
    {
      WellFormed(Image())
    }

    /** Empty tables; SERIAL sequences start at 1. */
    constructor ()
      ensures Valid()
      ensures Image() == Tables([], map[], [], 1)
    {
      orders, portfolio, logs, nextId := [], map[], [], 1;
    }

    /** `INSERT INTO transactions (...) VALUES (...) RETURNING *`. */
    method InsertOrder(user: UserId, coin: string, side: Side, quantity: real, price: real,
                       stopLimit: Option<real>, trailingPct: Option<real>, status: Status)
      returns (id: nat)
      requires Valid()
      modifies this
      ensures Valid()
      ensures id == old(nextId) && nextId == old(nextId) + 1
      ensures orders == old(orders) + [Order(id, user, coin, side, quantity, price, stopLimit, trailingPct, status)]
      ensures portfolio == old(portfolio) && logs == old(logs)
    {
      id := nextId;
      orders := orders + [Order(id, user, coin, side, quantity, price, stopLimit, trailingPct, status)];
      nextId := nextId + 1;
    }

    /** `UPDATE transactions SET status = 'closed' WHERE id = $1`. */
    method CloseOrder(id: nat)
      requires Valid()
      modifies this
      ensures Valid()
      ensures orders == ClosedById(old(orders), id)
      ensures portfolio == old(portfolio) && logs == old(logs) && nextId == old(nextId)
    {
      orders := ClosedById(orders, id);
    }

    /** `SELECT * FROM portfolio WHERE user_id = $1 AND coin_symbol = $2`. */
    method FindHolding(key: Key) returns (row: Option<Holding>)
      ensures row.Some? <==> key in portfolio
      ensures row.Some? ==> row.value == portfolio[key]
    {
      row := if key in portfolio then Some(portfolio[key]) else None;
    }

    /** `DELETE FROM portfolio WHERE user_id = $1 AND coin_symbol = $2`. */
    method DeleteHolding(key: Key)
      modifies this
      ensures portfolio == old(portfolio) - {key}
      ensures orders == old(orders) && logs == old(logs) && nextId == old(nextId)
    {
      portfolio := portfolio - {key};
    }

    /** `INSERT INTO portfolio ...` or `UPDATE portfolio SET ... WHERE ...` on one key. */
    method PutHolding(key: Key, row: Holding)
      modifies this
      ensures portfolio == old(portfolio)[key := row]
      ensures orders == old(orders) && logs == old(logs) && nextId == old(nextId)
    {
      portfolio := portfolio[key := row];
    }

    /** `INSERT INTO logs (user_id, transaction_id, action, message) VALUES (...)`. */
    method AppendLog(entry: LogEntry)
      modifies this
      ensures logs == old(logs) + [entry]
      ensures orders == old(orders) && portfolio == old(portfolio) && nextId == old(nextId)
    {
      logs := logs + [entry];
    }

    /**
     * `ROLLBACK` to the image taken at `BEGIN`. The rows return to that image;
     * the id sequence does not, since PostgreSQL sequences are not transactional.
     */
    method Rollback(saved: Tables)
      requires Valid() && WellFormed(saved) && saved.nextId <= nextId
      modifies this
      ensures Valid()
      ensures Image() == saved.(nextId := old(nextId))
    {
      orders, portfolio, logs := saved.orders, saved.portfolio, saved.logs;
    }
  }
}
