/**
 * What one sweep of the stop-order engine does to the tables and the
 * tracker, proved over `Sweep` and `Process`, and the worked scenarios of
 * the stop-loss and trailing-stop rules.
 */
module EngineProperties {
  import opened Wrappers
  import opened Store
  import opened CryptoApi
  import opened TradingEngine

  /** The effect of one `processTransaction` on the tables, by outcome. */
  lemma ProcessEffect(s: EngineState, o: Order, tick: Tick)
    ensures var (next, outcome) := Process(s, o, tick);
      && (outcome.Sold? ==>
            && OpenIds(next.tables.orders) == OpenIds(s.tables.orders) - {o.id}
            && |next.tables.orders| == |s.tables.orders| + 1
            && |next.tables.logs| == |s.tables.logs| + 1
            && outcome.sellId == s.tables.nextId
            && outcome.emailed == !tick.emailFails)
      && (!outcome.Sold? ==>
            && next.tables.orders == s.tables.orders
            && next.tables.portfolio == s.tables.portfolio
            && next.tables.logs == s.tables.logs)
      && (WellFormed(s.tables) ==> WellFormed(next.tables))
      && (outcome.PriceUnavailable? ==> next == s)
  {
    match CurrentPrice(o.coin, tick.replies)
    case None =>
    case Some(price) =>
      var highest := NewHighest(s.highest, Key(o.user, o.coin), price);
      match Decide(o.stopLimit, o.trailingPct, price, highest)
      case None =>
      case Some(trigger) =>
        LiquidationClosesOnlyOriginal(s.tables, o, price, trigger);
  }

  /** A sweep keeps `transactions.id` a key below the sequence's next value. */
  lemma {:induction false} SweepKeepsWellFormed(s: EngineState, rows: seq<Order>, ticks: seq<Tick>)
    requires |ticks| == |rows| && WellFormed(s.tables)
    ensures WellFormed(Sweep(s, rows, ticks).0.tables)
    decreases |rows|
  {
    if rows != [] {
      ProcessEffect(s, rows[0], ticks[0]);
      SweepKeepsWellFormed(Process(s, rows[0], ticks[0]).0, rows[1..], ticks[1..]);
    }
  }

  /** The ids of the rows whose processing sold them. */
  function SoldIds(rows: seq<Order>, outcomes: seq<Outcome>): set<nat>
    requires |rows| == |outcomes|
  {
    if rows == [] then {}
    else (if outcomes[0].Sold? then {rows[0].id} else {}) + SoldIds(rows[1..], outcomes[1..])
  }

  /** The number of sales a sweep committed. */
  function CountSold(outcomes: seq<Outcome>): nat {
    if outcomes == [] then 0 else (if outcomes[0].Sold? then 1 else 0) + CountSold(outcomes[1..])
  }

  /**
   * A sweep closes exactly the orders it sold; it adds one sell order and
   * one log line per sale and nothing else.
   */
  lemma {:induction false} SweepClosesExactlySold(s: EngineState, rows: seq<Order>, ticks: seq<Tick>)
    requires |ticks| == |rows|
    ensures var (final, outcomes) := Sweep(s, rows, ticks);
      && OpenIds(final.tables.orders) == OpenIds(s.tables.orders) - SoldIds(rows, outcomes)
      && |final.tables.orders| == |s.tables.orders| + CountSold(outcomes)
      && |final.tables.logs| == |s.tables.logs| + CountSold(outcomes)
    decreases |rows|
  {
    if rows != [] {
      var next := Process(s, rows[0], ticks[0]).0;
      ProcessEffect(s, rows[0], ticks[0]);
      SweepClosesExactlySold(next, rows[1..], ticks[1..]);
      var outcomes := Sweep(s, rows, ticks).1;
      assert outcomes[1..] == Sweep(next, rows[1..], ticks[1..]).1;
    }
  }

  /** The outcome of row `i` is `processTransaction` on the state the rows before it left. */
  lemma {:induction false} SweepStep(s: EngineState, rows: seq<Order>, ticks: seq<Tick>, i: nat)
    requires |ticks| == |rows| && i < |rows|
    ensures Sweep(s, rows, ticks).1[i] == Process(Sweep(s, rows[..i], ticks[..i]).0, rows[i], ticks[i]).1
    decreases i
  {
    if i > 0 {
      var next := Process(s, rows[0], ticks[0]).0;
      SweepStep(next, rows[1..], ticks[1..], i - 1);
      assert rows[..i][1..] == rows[1..][..i - 1] && ticks[..i][1..] == ticks[1..][..i - 1];
    }
  }

  /**
   * Whatever happened to the rows before it (failed price lookups, rolled
   * back sales), a row whose stop limit is reached is sold when its
   * transaction goes through.
   */
  lemma StopLossSellsWhateverCameBefore(s: EngineState, rows: seq<Order>, ticks: seq<Tick>, i: nat, price: real)
    requires |ticks| == |rows| && i < |rows|
    requires rows[i].stopLimit.Some? && price <= rows[i].stopLimit.value
    requires CurrentPrice(rows[i].coin, ticks[i].replies) == Some(price)
    requires ticks[i].fault == NoFault
    ensures var outcome := Sweep(s, rows, ticks).1[i];
      outcome.Sold? && outcome.trigger == StopLossTrigger && outcome.emailed == !ticks[i].emailFails
  {
    SweepStep(s, rows, ticks, i);
  }

  /** A 0 % trailing stop fires at its first price: the threshold is the highest price, which is at least the price. */
  lemma ZeroTrailingStopFiresAtOnce(s: EngineState, o: Order, tick: Tick, price: real)
    requires o.trailingPct == Some(0.0)
    requires CurrentPrice(o.coin, tick.replies) == Some(price)
    ensures var outcome := Process(s, o, tick).1;
      outcome.Sold? || outcome.SaleRolledBack?
  {
  }

  /** A failed email after COMMIT undoes nothing. */
  lemma EmailFailureUndoesNothing(s: EngineState, o: Order, tick: Tick)
    ensures Process(s, o, tick.(emailFails := true)).0 == Process(s, o, tick.(emailFails := false)).0
  {
  }

  /** The tracker after prices are observed in turn for one pair. */
  function Observed(tracker: Tracker, key: Key, prices: seq<real>): Tracker {
    if prices == [] then tracker
    else
      var before := Observed(tracker, key, prices[..|prices| - 1]);
      before[key := NewHighest(before, key, prices[|prices| - 1])]
  }

  function HighestOf(prices: seq<real>): real
    requires |prices| > 0
  {
    if |prices| == 1 then prices[0]
    else
      var m := HighestOf(prices[..|prices| - 1]);
      if m >= prices[|prices| - 1] then m else prices[|prices| - 1]
  }

  /** For positive prices, the tracker holds the running maximum of the pair's prices and leaves other pairs alone. */
  lemma {:induction false} TrackerIsRunningMax(tracker: Tracker, key: Key, prices: seq<real>)
    requires key !in tracker && |prices| > 0
    requires forall i :: 0 <= i < |prices| ==> prices[i] > 0.0
    ensures key in Observed(tracker, key, prices)
    ensures Observed(tracker, key, prices)[key] == HighestOf(prices)
    ensures Observed(tracker, key, prices) - {key} == tracker
  {
    if |prices| > 1 {
      TrackerIsRunningMax(tracker, key, prices[..|prices| - 1]);
      HighestIsPositive(prices[..|prices| - 1]);
    }
  }

  lemma {:induction false} HighestIsPositive(prices: seq<real>)
    requires |prices| > 0 && forall i :: 0 <= i < |prices| ==> prices[i] > 0.0
    ensures HighestOf(prices) > 0.0
  {
    if |prices| > 1 {
      HighestIsPositive(prices[..|prices| - 1]);
    }
  }

  /** Selling does not reset the tracker: after any processed price the pair's entry is the new highest. */
  lemma TrackerKeptAfterSale(s: EngineState, o: Order, tick: Tick, price: real)
    requires CurrentPrice(o.coin, tick.replies) == Some(price)
    ensures var key := Key(o.user, o.coin);
      Process(s, o, tick).0.highest == s.highest[key := NewHighest(s.highest, key, price)]
  {
  }

  /**
   * The tracker is per (user, coin): an order placed after the pair reached
   * 110 is judged against 110, so a 5 % trailing stop fires at 104 on its
   * first check.
   */
  lemma TrackerSharedByPair()
    ensures var key := Key(1, "BTC");
      var highest := NewHighest(map[key := 110.0], key, 104.0);
      highest == 110.0 && Decide(None, Some(5.0), 104.0, highest) == Some(TrailingStopTrigger)
  {
  }

  /** A stop limit of 40000 holds at 41000 and 40500 and triggers at 39900. */
  lemma StopLossScenario(highest: real)
    ensures Decide(Some(40000.0), None, 41000.0, highest) == None
    ensures Decide(Some(40000.0), None, 40500.0, highest) == None
    ensures Decide(Some(40000.0), None, 39900.0, highest) == Some(StopLossTrigger)
  {
  }

  /** A 5 % trailing stop over prices 100, 110, 104: the highest becomes 110, the threshold 104.5, and 104 sells. */
  lemma TrailingStopScenario()
    ensures var key := Key(1, "ETH");
      var t1 := Observed(map[], key, [100.0]);
      var t2 := Observed(map[], key, [100.0, 110.0]);
      var t3 := Observed(map[], key, [100.0, 110.0, 104.0]);
      && Decide(None, Some(5.0), 100.0, t1[key]) == None
      && Decide(None, Some(5.0), 110.0, t2[key]) == None
      && t3[key] == 110.0 && TrailingStopPrice(110.0, 5.0) == 104.5
      && Decide(None, Some(5.0), 104.0, t3[key]) == Some(TrailingStopTrigger)
  {
    var key := Key(1, "ETH");
    assert [100.0, 110.0][..1] == [100.0];
    assert [100.0, 110.0, 104.0][..2] == [100.0, 110.0];
  }

  /**
   * With non-zero stop fields and a known highest price, the engine's rule
   * and `checkPriceAlerts` agree, the engine giving the stop loss precedence.
   */
  lemma DecideAgreesWithPriceAlerts(stopLimit: Option<real>, trailingPct: Option<real>, price: real, highest: real)
    requires stopLimit.Some? ==> stopLimit.value != 0.0
    requires trailingPct.Some? ==> trailingPct.value != 0.0
    requires highest != 0.0
    ensures var alerts := PriceAlerts(price, stopLimit, trailingPct, Some(highest));
      && (Decide(stopLimit, trailingPct, price, highest) == Some(StopLossTrigger) <==> alerts.stopLossTriggered)
      && (Decide(stopLimit, trailingPct, price, highest) == Some(TrailingStopTrigger) <==>
            !alerts.stopLossTriggered && alerts.trailingStopTriggered)
  {
  }

  /**
   * A stop limit of 0 is set for the engine, which reads the column as the
   * DECIMAL string "0.00", but unset for `checkPriceAlerts` when that function
   * is handed the number 0. Nothing in the repository calls `checkPriceAlerts`.
   */
  lemma ZeroStopLimitSplitsTheRules()
    ensures Decide(Some(0.0), None, 0.0, 1.0) == Some(StopLossTrigger)
    ensures !PriceAlerts(0.0, Some(0.0), None, Some(1.0)).stopLossTriggered
  {
  }
}
