/**
 * The price service over the exchange's REST API: the symbol table, the
 * retry and rate-limit policy of every request, the moving-average maths
 * and the price-alert check.
 */
module CryptoApi {
  import opened Wrappers
  import opened JsValues

  const SupportedCoins: seq<string> := ["BTC", "ETH", "XRP"]

  /** Milliseconds that must pass between two requests. */
  const RequestDelay: int := 100

  /** Attempts `makeRequest` makes before it gives up. */
  const MaxRetries: nat := 2

  /** `this.symbols[coinSymbol]`: the exchange pair quoted in USDT. */
  function SymbolFor(coin: string): (r: Option<string>)
    ensures r.Some? <==> coin in SupportedCoins
    ensures r.Some? ==> r.value == coin + "USDT"
  {
    if coin == "BTC" then Some("BTCUSDT")
    else if coin == "ETH" then Some("ETHUSDT")
    else if coin == "XRP" then Some("XRPUSDT")
    else None
  }

  // ---------------------------------------------------------------------------
  // Moving averages

  /**
   * A record handed to the historical moving-average function: the daily
   * points of `getHistoricalData` carry `date` and `price`; a record may also
   * carry a `close`.
   */
  datatype HistoricalPoint = HistoricalPoint(date: int, price: real, close: Option<real>)

  /** The fields of a candle that the candlestick moving averages use. */
  datatype Candle = Candle(date: int, close: real)

  /** A chart point: its date, its closing value and `movingAverages[period]` (None is null). */
  datatype AveragePoint = AveragePoint(date: int, close: Option<real>, movingAverages: map<int, Option<Number>>)

  function Sum(xs: seq<real>): real {
    if xs == [] then 0.0 else Sum(xs[..|xs| - 1]) + xs[|xs| - 1]
  }

  function Prices(data: seq<HistoricalPoint>): (r: seq<real>)
    ensures |r| == |data|
    ensures forall i :: 0 <= i < |data| ==> r[i] == data[i].price
  {
    seq(|data|, i requires 0 <= i < |data| => data[i].price)
  }

  function Dates(data: seq<HistoricalPoint>): (r: seq<int>)
    ensures |r| == |data|
    ensures forall i :: 0 <= i < |data| ==> r[i] == data[i].date
  {
    seq(|data|, i requires 0 <= i < |data| => data[i].date)
  }

  /** `d.price || d.close`: a zero price falls back to `close`, which may be undefined. */
  function ClosingValue(d: HistoricalPoint): (r: Option<real>)
    ensures d.price != 0.0 ==> r == Some(d.price)
    ensures d.price == 0.0 ==> r == d.close
    ensures r.None? ==> d.price == 0.0 && d.close.None?
  {
    if d.price != 0.0 then Some(d.price) else d.close
  }

  function ClosingValues(data: seq<HistoricalPoint>): (r: seq<Option<real>>)
    ensures |r| == |data|
    ensures forall i :: 0 <= i < |data| ==> r[i] == ClosingValue(data[i])
  {
    seq(|data|, i requires 0 <= i < |data| => ClosingValue(data[i]))
  }

  /** The dates of the candles: `Dates` for the candle records, which are a type of their own. */
  function CandleDates(candles: seq<Candle>): (r: seq<int>)
    ensures |r| == |candles|
    ensures forall i :: 0 <= i < |candles| ==> r[i] == candles[i].date
  {
    seq(|candles|, i requires 0 <= i < |candles| => candles[i].date)
  }

  function CandleCloses(candles: seq<Candle>): (r: seq<Option<real>>)
    ensures |r| == |candles|
    ensures forall i :: 0 <= i < |candles| ==> r[i] == Some(candles[i].close)
  {
    seq(|candles|, i requires 0 <= i < |candles| => Some(candles[i].close))
  }

  function Defined(xs: seq<real>): (r: seq<Option<real>>)
    ensures |r| == |xs|
    ensures forall i :: 0 <= i < |xs| ==> r[i] == Some(xs[i])
  {
    seq(|xs|, i requires 0 <= i < |xs| => Some(xs[i]))
  }

  /** `xs.reduce((acc, x) => acc + x, 0)`; one undefined entry makes the sum NaN (None). */
  function SumDefined(xs: seq<Option<real>>): (r: Option<real>)
    ensures r.Some? <==> forall i :: 0 <= i < |xs| ==> xs[i].Some?
  {
    if xs == [] then Some(0.0)
    else match (SumDefined(xs[..|xs| - 1]), xs[|xs| - 1])
      case (Some(s), Some(x)) => Some(s + x)
      case _ => None
  }

  /** `sum / period` over a window of closing values. */
  function Mean(window: seq<Option<real>>, period: int): Number {
    match SumDefined(window)
    case None => NaN
    case Some(s) => Divide(s, period as real)
  }

  /** `calculateSMA(data, period)`: the mean price of the last `period` points. */
  function Sma(data: seq<HistoricalPoint>, period: int): (r: Option<Number>)
    ensures r.None? <==> |data| < period
    ensures 1 <= period <= |data| ==> r == Some(Finite(Sum(Prices(data)[|data| - period..]) / period as real))
    ensures period == 0 ==> r == Some(Divide(Sum(Prices(data)), 0.0))
    ensures period < 0 ==> r == Some(Divide(Sum(Prices(data)[SliceIndex(-period, |data|)..]), period as real))
    ensures -period >= |data| ==> r == Some(Divide(0.0, period as real))
  {
    if |data| < period then None
    else
      var last := SliceFrom(data, -period);
      assert 1 <= period ==> Prices(last) == Prices(data)[|data| - period..];
      assert period == 0 ==> Prices(last) == Prices(data);
      assert period < 0 ==> Prices(last) == Prices(data)[SliceIndex(-period, |data|)..];
      Some(Divide(Sum(Prices(last)), period as real))
  }

  /**
   * `movingAverages[period]` of the point at index `i`: null until `period`
   * values exist, then the mean of the values at i - period + 1 .. i.
   */
  function WindowAverage(values: seq<Option<real>>, i: nat, period: int): (r: Option<Number>)
    requires i < |values|
    ensures r.None? <==> i < period - 1
    ensures 1 <= period <= i + 1 ==> r == Some(Mean(values[i - period + 1..i + 1], period))
    ensures 1 <= period <= i + 1 && (forall j :: i - period + 1 <= j <= i ==> values[j].Some?) ==>
              r.value.Finite? && r.value.value * period as real == SumDefined(values[i - period + 1..i + 1]).value
    ensures period == 0 ==> r == Some(NaN)
    ensures period < 0 ==> r == Some(Finite(0.0))
  {
    if i >= period - 1 then Some(Mean(Slice(values, i - period + 1, i + 1), period)) else None
  }

  ghost predicate IsAveragePoint(pt: AveragePoint, dates: seq<int>, values: seq<Option<real>>, periods: seq<int>, i: nat)
    requires |dates| == |values| && i < |values|
  {
    && pt.date == dates[i]
    && pt.close == values[i]
    && pt.movingAverages.Keys == (set p | p in periods)
    && forall p :: p in pt.movingAverages ==> pt.movingAverages[p] == WindowAverage(values, i, p)
  }

  /** One chart point per input value, in input order. */
  ghost predicate IsAverageSeries(result: seq<AveragePoint>, dates: seq<int>, values: seq<Option<real>>, periods: seq<int>)
    requires |dates| == |values|
  {
    && |result| == |values|
    && forall i :: 0 <= i < |result| ==> IsAveragePoint(result[i], dates, values, periods, i)
  }

  /** The loop both moving-average functions share: a point per index, an average per period. */
  method AveragesOver(dates: seq<int>, values: seq<Option<real>>, periods: seq<int>) returns (result: seq<AveragePoint>)
    requires |dates| == |values|
    ensures IsAverageSeries(result, dates, values, periods)
  {
    result := [];
    for i := 0 to |values|
      invariant |result| == i
      invariant forall k :: 0 <= k < i ==> IsAveragePoint(result[k], dates, values, periods, k)
    {
      var averages: map<int, Option<Number>> := map[];
      for j := 0 to |periods|
        invariant averages.Keys == set p | p in periods[..j]
        invariant forall p :: p in averages ==> averages[p] == WindowAverage(values, i, p)
      {
        assert periods[..j + 1] == periods[..j] + [periods[j]];
        averages := averages[periods[j] := WindowAverage(values, i, periods[j])];
      }
      assert periods[..|periods|] == periods;
      result := result + [AveragePoint(dates[i], values[i], averages)];
    }
  }

  /** `calculateHistoricalMovingAverages(data, periods)`. */
  method CalculateHistoricalMovingAverages(data: seq<HistoricalPoint>, periods: seq<int>) returns (result: seq<AveragePoint>)
    ensures IsAverageSeries(result, Dates(data), ClosingValues(data), periods)
  {
    if |data| == 0 {
      return [];
    }
    result := AveragesOver(Dates(data), ClosingValues(data), periods);
  }

  /** `calculateCandlestickMovingAverages(candlestickData, periods)`. */
  method CalculateCandlestickMovingAverages(candles: seq<Candle>, periods: seq<int>) returns (result: seq<AveragePoint>)
    ensures IsAverageSeries(result, CandleDates(candles), CandleCloses(candles), periods)
  {
    if |candles| == 0 {
      return [];
    }
    result := AveragesOver(CandleDates(candles), CandleCloses(candles), periods);
  }

  /** Summing values that are all defined is summing the numbers. */
  lemma {:induction false} SumOfDefined(xs: seq<real>)
    ensures SumDefined(Defined(xs)) == Some(Sum(xs))
  {
    if xs != [] {
      assert Defined(xs)[..|xs| - 1] == Defined(xs[..|xs| - 1]);
      SumOfDefined(xs[..|xs| - 1]);
    }
  }

  /**
   * The last chart point's average for `period` is `calculateSMA(data, period)`,
   * provided no price in that window is zero (a zero price falls back to `close`
   * in the chart but is summed as zero by the SMA).
   */
  lemma LastPointMatchesSma(data: seq<HistoricalPoint>, period: int)
    requires 1 <= period <= |data|
    requires forall i :: |data| - period <= i < |data| ==> data[i].price != 0.0
    ensures WindowAverage(ClosingValues(data), |data| - 1, period) == Sma(data, period)
  {
    var n := |data|;
    var window := Prices(data)[n - period..];
    assert ClosingValues(data)[n - period..n] == Defined(window);
    SumOfDefined(window);
  }

  /** A zero price is where the two averages part: the SMA counts 0, the chart reads an undefined `close`. */
  lemma ZeroPriceSplitsSmaFromChart()
    ensures Sma([HistoricalPoint(0, 0.0, None)], 1) == Some(Finite(0.0))
    ensures WindowAverage(ClosingValues([HistoricalPoint(0, 0.0, None)]), 0, 1) == Some(NaN)
  {
    var data := [HistoricalPoint(0, 0.0, None)];
    assert ClosingValues(data)[0..1] == [None];
  }

  /** `getMovingAverages`: the SMA of every requested period over the fetched history. */
  function MovingAverages(data: seq<HistoricalPoint>, periods: seq<int>): (r: map<int, Option<Number>>)
    ensures r.Keys == set p | p in periods
    ensures forall p :: p in r && 1 <= p <= |data| ==> r[p].Some? && r[p].value.Finite?
    ensures forall p :: p in r && |data| < p ==> r[p].None?
    ensures forall p :: p in r ==> r[p] == Sma(data, p)
  {
    map p | p in periods :: Sma(data, p)
  }

  /**
   * Where the chart has no zero price in the window, `getMovingAverages`
   * gives for a period the same average as the last point of the chart.
   */
  lemma MovingAveragesMatchChart(data: seq<HistoricalPoint>, periods: seq<int>, p: int)
    requires p in periods && 1 <= p <= |data|
    requires forall i :: |data| - p <= i < |data| ==> data[i].price != 0.0
    ensures MovingAverages(data, periods)[p] == WindowAverage(ClosingValues(data), |data| - 1, p)
  {
    LastPointMatchesSma(data, p);
  }

  /** `maxPeriod + 10`: the days of history `getMovingAverages` asks for. */
  function MovingAverageHistoryDays(periods: seq<int>): (days: int)
    requires |periods| > 0
    ensures forall p :: p in periods ==> p + 10 <= days
    ensures days - 10 in periods
  {
    Max(periods) + 10
  }

  // ---------------------------------------------------------------------------
  // Price alerts

  /** `highestPrice * (1 - trailingStopPct / 100)`: the price at or below which a trailing stop fires. */
  function TrailingStopPrice(highest: real, pct: real): (r: real)
    ensures pct == 0.0 ==> r == highest
    ensures 0.0 <= pct <= 100.0 && 0.0 <= highest ==> 0.0 <= r <= highest
  {
    var keep := 1.0 - pct / 100.0;
    assert 0.0 <= pct <= 100.0 && 0.0 <= highest ==> 0.0 <= highest * keep <= highest * 1.0 by {
      if 0.0 <= pct <= 100.0 && 0.0 <= highest {
        assert 0.0 <= keep <= 1.0;
        MultiplyMonotone(highest, keep, 1.0);
        MultiplyMonotone(highest, 0.0, keep);
      }
    }
    highest * keep
  }

  lemma MultiplyMonotone(x: real, a: real, b: real)
    requires 0.0 <= x && a <= b
    ensures x * a <= x * b
  {
    assert x * b - x * a == x * (b - a);
  }

  /** A JavaScript number used as a condition: undefined and 0 are false. */
  predicate Truthy(x: Option<real>) {
    x.Some? && x.value != 0.0
  }

  datatype Alerts = Alerts(stopLossTriggered: bool, trailingStopTriggered: bool, currentPrice: real)

  /** `checkPriceAlerts` once the current price is known; the two flags are raised independently. */
  function PriceAlerts(price: real, stopLimit: Option<real>, trailingPct: Option<real>, highest: Option<real>): (a: Alerts)
    ensures a.currentPrice == price
    ensures a.stopLossTriggered <==> Truthy(stopLimit) && price <= stopLimit.value
    ensures a.trailingStopTriggered <==>
              Truthy(trailingPct) && Truthy(highest) && price <= TrailingStopPrice(highest.value, trailingPct.value)
  {
    var stop := Truthy(stopLimit) && price <= stopLimit.value;
    var trailing := Truthy(trailingPct) && Truthy(highest) && price <= TrailingStopPrice(highest.value, trailingPct.value);
    Alerts(stop, trailing, price)
  }

  /** `checkPriceAlerts(coinSymbol, stopLimit, trailingStopPct, highestPrice)`; None where it throws. */
  function CheckPriceAlerts(coin: string, stopLimit: Option<real>, trailingPct: Option<real>, highest: Option<real>,
                            replies: ReplyScript<real>): (r: Option<Alerts>)
    ensures r.None? <==> CurrentPrice(coin, replies).None?
    ensures r.Some? ==> r.value == PriceAlerts(CurrentPrice(coin, replies).value, stopLimit, trailingPct, highest)
  {
    match CurrentPrice(coin, replies)
    case None => None
    case Some(price) => Some(PriceAlerts(price, stopLimit, trailingPct, highest))
  }

  /** Both flags can be up at once, and a zero stop limit counts as no stop limit. */
  lemma AlertsAreIndependent()
    ensures PriceAlerts(90.0, Some(95.0), Some(5.0), Some(100.0)) == Alerts(true, true, 90.0)
    ensures !PriceAlerts(0.0, Some(0.0), None, None).stopLossTriggered
  {
  }

  // ---------------------------------------------------------------------------
  // Rate limit and retries

  /** The wait `ensureRateLimit` sleeps before a request, given the clock and the last request time. */
  function RateLimitWait(now: int, lastRequestTime: int): (wait: int)
    ensures wait >= 0
    ensures wait == 0 <==> now - lastRequestTime >= RequestDelay
    ensures wait > 0 ==> now + wait == lastRequestTime + RequestDelay
    ensures now >= lastRequestTime ==> wait <= RequestDelay
  {
    var sinceLast := now - lastRequestTime;
    if sinceLast < RequestDelay then RequestDelay - sinceLast else 0
  }

  /** What one attempt of `axios.get` produced. `NoResponse` is an error without `error.response`. */
  datatype Reply<D> = Ok(data: D) | ErrorStatus(status: int) | NoResponse

  /** The replies the exchange gives to the successive attempts of one `makeRequest`. */
  type ReplyScript<D> = s: seq<Reply<D>> | |s| == MaxRetries witness [NoResponse, NoResponse]

  /** Errors `makeRequest` retries: HTTP 429 and every status from 500 up. */
  predicate Retryable<D>(reply: Reply<D>)
    ensures Retryable(reply) ==> !reply.Ok? && !reply.NoResponse?
  {
    reply.ErrorStatus? && (reply.status == 429 || reply.status >= 500)
  }

  function Pow2(n: nat): (r: nat)
    ensures r >= 1 && r > n
  {
    if n == 0 then 1 else 2 * Pow2(n - 1)
  }

  /** The wait after a retried failure of attempt `attempt` (counted from 1). */
  function Backoff(status: int, attempt: nat): (wait: nat)
    ensures wait >= 1000 * attempt
    ensures status == 429 ==> wait > 1000 * attempt
  {
    if status == 429 then Pow2(attempt) * 1000 else 1000 * attempt
  }

  /** The outcome of `makeRequest`: its value or the error it throws, the attempts made, the waits slept. */
  datatype Run<D> = Run(result: Result<D, Reply<D>>, attempts: nat, backoffs: seq<nat>)

  /** The total time slept in backoff waits. */
  function Slept(waits: seq<nat>): nat {
    if waits == [] then 0 else Slept(waits[..|waits| - 1]) + waits[|waits| - 1]
  }

  /**
   * The wait slept after the last request of a run: the backoff of a retryable
   * final attempt, and nothing when the run ended on a success or a fatal error.
   */
  function TrailingWait<D>(run: Run<D>): (w: nat)
    ensures w == 0 || (0 < |run.backoffs| && w == run.backoffs[|run.backoffs| - 1])
    ensures run.attempts >= 1 && |run.backoffs| < run.attempts ==> w == 0
  {
    if 0 < |run.backoffs| == run.attempts then run.backoffs[|run.backoffs| - 1] else 0
  }

  /** The attempt loop of `makeRequest` from attempt `attempt` on, `lastError` being the previous failure. */
  function RetryFrom<D>(replies: ReplyScript<D>, attempt: nat, lastError: Option<Reply<D>>): (r: Run<D>)
    requires 1 <= attempt <= MaxRetries + 1
    requires attempt > 1 ==> lastError == Some(replies[attempt - 2]) && Retryable(replies[attempt - 2])
    ensures attempt - 1 <= r.attempts <= MaxRetries
    decreases MaxRetries + 1 - attempt
  {
    if attempt > MaxRetries then Run(Failure(lastError.value), attempt - 1, [])
    else
      var reply := replies[attempt - 1];
      if reply.Ok? then Run(Success(reply.data), attempt, [])
      else if Retryable(reply) then
        var rest := RetryFrom(replies, attempt + 1, Some(reply));
        Run(rest.result, rest.attempts, [Backoff(reply.status, attempt)] + rest.backoffs)
      else Run(Failure(reply), attempt, [])
  }

  /** What the attempt loop guarantees from attempt `attempt` on. */
  lemma {:induction false} RetryFromSpec<D>(replies: ReplyScript<D>, attempt: nat, lastError: Option<Reply<D>>)
    requires 1 <= attempt <= MaxRetries + 1
    requires attempt > 1 ==> lastError == Some(replies[attempt - 2]) && Retryable(replies[attempt - 2])
    decreases MaxRetries + 1 - attempt
    ensures var r := RetryFrom(replies, attempt, lastError);
      && 1 <= r.attempts <= MaxRetries && attempt <= r.attempts + 1
      && (forall j :: attempt - 1 <= j < r.attempts - 1 ==> Retryable(replies[j]))
      && (r.result.Success? ==> replies[r.attempts - 1] == Ok(r.result.value))
      && (r.result.Failure? ==> r.result.error == replies[r.attempts - 1] && !replies[r.attempts - 1].Ok?)
      && (r.result.Failure? && r.attempts < MaxRetries ==> !Retryable(replies[r.attempts - 1]))
      && |r.backoffs| == (if r.result.Failure? && Retryable(replies[r.attempts - 1])
                          then r.attempts - attempt + 1 else r.attempts - attempt)
      && (forall k :: 0 <= k < |r.backoffs| ==>
            Retryable(replies[attempt - 1 + k]) && r.backoffs[k] == Backoff(replies[attempt - 1 + k].status, attempt + k))
  {
    if attempt <= MaxRetries {
      var reply := replies[attempt - 1];
      if Retryable(reply) {
        RetryFromSpec(replies, attempt + 1, Some(reply));
      }
    }
  }

  /** `makeRequest`'s attempt loop from the first attempt. */
  function Retry<D>(replies: ReplyScript<D>): (r: Run<D>)
    ensures 1 <= r.attempts <= MaxRetries
  {
    RetryFrom(replies, 1, None)
  }

  /**
   * `makeRequest`: at most MaxRetries attempts; the first success is returned;
   * 429 and 5xx are retried after a wait; any other error is thrown at once;
   * when the attempts run out the last attempt's error is thrown.
   */
  lemma RetrySpec<D>(replies: ReplyScript<D>)
    ensures var r := Retry(replies);
      && 1 <= r.attempts <= MaxRetries
      && |r.backoffs| == (if r.result.Failure? && Retryable(replies[r.attempts - 1]) then r.attempts else r.attempts - 1)
      && (forall j :: 0 <= j < r.attempts - 1 ==> Retryable(replies[j]))
      && (r.result.Success? ==> replies[r.attempts - 1] == Ok(r.result.value))
      && (r.result.Failure? ==> r.result.error == replies[r.attempts - 1] && !replies[r.attempts - 1].Ok?)
      && (r.result.Failure? ==> r.attempts == MaxRetries || !Retryable(replies[r.attempts - 1]))
      && (forall k :: 0 <= k < |r.backoffs| ==> Retryable(replies[k]) && r.backoffs[k] == Backoff(replies[k].status, k + 1))
  {
    RetryFromSpec(replies, 1, None);
  }

  /** A non-retryable first error is thrown at once, with no wait. */
  lemma FirstFatalErrorStops<D>(replies: ReplyScript<D>)
    requires !replies[0].Ok? && !Retryable(replies[0])
    ensures Retry(replies) == Run(Failure(replies[0]), 1, [])
  {
  }

  /** Two 429 replies: both attempts are made and the client waits 2 s and then 4 s before throwing. */
  lemma TooManyRequestsTwice<D>(replies: ReplyScript<D>)
    requires replies == [ErrorStatus(429), ErrorStatus(429)]
    ensures Retry(replies) == Run(Failure(ErrorStatus(429)), 2, [2000, 4000])
  {
  }

  /** A run whose first waits were `backoffs`, followed by `rest`. */
  function Joined<D>(backoffs: seq<nat>, rest: Run<D>): Run<D> {
    Run(rest.result, rest.attempts, backoffs + rest.backoffs)
  }

  /** The price `getCurrentPrice(coin)` returns, or None where it throws. */
  function CurrentPrice(coin: string, replies: ReplyScript<real>): (r: Option<real>)
    ensures SymbolFor(coin).None? ==> r.None?
    ensures r.Some? <==> SymbolFor(coin).Some? && Retry(replies).result.Success?
    ensures r.Some? ==> Ok(r.value) in replies
    ensures r.Some? ==> Retry(replies).result == Success(r.value) && replies[Retry(replies).attempts - 1] == Ok(r.value)
    ensures r.Some? ==> forall j :: 0 <= j < Retry(replies).attempts - 1 ==> Retryable(replies[j])
  {
    RetrySpec(replies);
    if SymbolFor(coin).None? then None
    else
      match Retry(replies).result
      case Success(price) => Some(price)
      case Failure(_) => None
  }

  /** The request side of the price service, with an injected clock standing for `Date.now()`. */
  class PriceClient {
    var lastRequestTime: int
    var clock: int

    constructor (now: int)
      ensures lastRequestTime == 0 && clock == now
    {
      lastRequestTime, clock := 0, now;
    }

    /** `delay(ms)`: the clock moves on by the wait. */
    method Delay(ms: nat)
      modifies this`clock
      ensures clock == old(clock) + ms
    {
      clock := clock + ms;
    }

    /** `ensureRateLimit()`: sleep until RequestDelay has passed since the last request, then stamp it. */
    method EnsureRateLimit() returns (waited: int)
      modifies this
      ensures waited == RateLimitWait(old(clock), old(lastRequestTime))
      ensures clock == old(clock) + waited
      ensures lastRequestTime == clock
    {
      var now := clock;
      var sinceLast := now - lastRequestTime;
      waited := 0;
      if sinceLast < RequestDelay {
        waited := RequestDelay - sinceLast;
        Delay(waited);
      }
      lastRequestTime := clock;
    }

    /** `makeRequest(url, params)` against the given replies. */
    method MakeRequest<D>(replies: ReplyScript<D>) returns (run: Run<D>)
      modifies this
      ensures run == Retry(replies)
      ensures clock == old(clock) + RateLimitWait(old(clock), old(lastRequestTime)) + Slept(run.backoffs)
      ensures lastRequestTime + TrailingWait(run) == clock
      ensures old(clock) <= lastRequestTime <= clock
    {
      var lastError: Option<Reply<D>> := None;
      var backoffs: seq<nat> := [];
      var attempt := 1;
      while attempt <= MaxRetries
        invariant 1 <= attempt <= MaxRetries + 1
        invariant attempt > 1 ==> lastError == Some(replies[attempt - 2]) && Retryable(replies[attempt - 2])
        invariant Retry(replies) == Joined(backoffs, RetryFrom(replies, attempt, lastError))
        invariant |backoffs| == attempt - 1
        invariant attempt == 1 ==> clock == old(clock) && lastRequestTime == old(lastRequestTime)
        invariant attempt > 1 ==>
          && clock == old(clock) + RateLimitWait(old(clock), old(lastRequestTime)) + Slept(backoffs)
          && lastRequestTime + backoffs[|backoffs| - 1] == clock
          && backoffs[|backoffs| - 1] >= RequestDelay
          && old(clock) <= lastRequestTime
        decreases MaxRetries + 1 - attempt
      {
        ghost var here := RetryFrom(replies, attempt, lastError);
        var _ := EnsureRateLimit();
        var reply := replies[attempt - 1];
        if reply.Ok? {
          assert here == Run(Success(reply.data), attempt, []);
          return Run(Success(reply.data), attempt, backoffs);
        }
        if !Retryable(reply) {
          assert here == Run(Failure(reply), attempt, []);
          return Run(Failure(reply), attempt, backoffs);
        }
        var wait := Backoff(reply.status, attempt);
        Delay(wait);
        assert here == Joined([wait], RetryFrom(replies, attempt + 1, Some(reply)));
        assert (backoffs + [wait])[..|backoffs|] == backoffs;
        backoffs := backoffs + [wait];
        lastError := Some(reply);
        attempt := attempt + 1;
      }
      assert RetryFrom(replies, attempt, lastError) == Run(Failure(lastError.value), MaxRetries, []);
      run := Run(Failure(lastError.value), MaxRetries, backoffs);
    }

    /** `getCurrentPrice(coinSymbol)`: an unsupported coin is rejected before any request. */
    method GetCurrentPrice(coin: string, replies: ReplyScript<real>) returns (price: Option<real>)
      modifies this
      ensures price == CurrentPrice(coin, replies)
      ensures SymbolFor(coin).None? ==> clock == old(clock) && lastRequestTime == old(lastRequestTime)
      ensures SymbolFor(coin).Some? ==>
        && clock == old(clock) + RateLimitWait(old(clock), old(lastRequestTime)) + Slept(Retry(replies).backoffs)
        && lastRequestTime + TrailingWait(Retry(replies)) == clock
        && old(clock) <= lastRequestTime <= clock
    {
      if SymbolFor(coin).None? {
        return None;
      }
      var run := MakeRequest(replies);
      price := if run.result.Success? then Some(run.result.value) else None;
    }
  }
}
