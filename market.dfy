/**
 * The backend's market route for candles: the query's defaults, the
 * conversion of exchange klines into chart candles (open time in whole
 * seconds), and the 100 mock candles answered when the exchange cannot be
 * reached.
 */
module Market {
  import opened Wrappers
  import Text

  const DEFAULT_SYMBOL: string := "BTCUSDT"
  const DEFAULT_INTERVAL: string := "1m"
  const DEFAULT_LIMIT: nat := 500

  /** How many mock candles are generated, one minute apart. */
  const MOCK_COUNT: nat := 100
  const MOCK_SPACING: nat := 60
  const BASE_PRICE: real := 45000.0
  /** `Math.random()` is drawn five times per mock candle. */
  const DRAWS_PER_CANDLE: nat := 5

  /** The parameters of the exchange's klines request. */
  datatype KlinesRequest = KlinesRequest(symbol: string, interval: string, limit: string)

  /** A kline as the exchange sends it: open time in milliseconds, then the prices and volume as text. */
  datatype Kline = Kline(openTime: int, open: string, high: string, low: string, close: string, volume: string)

  /** A chart candle: time in seconds. */
  datatype Candle = Candle(time: int, open: real, high: real, low: real, close: real, volume: real)

  /** `const { symbol = 'BTCUSDT', interval = '1m', limit = 500 } = req.query`: a default only where the key is absent. */
  function CandleRequest(query: map<string, string>): (r: KlinesRequest)
    ensures r.symbol == (if "symbol" in query then query["symbol"] else DEFAULT_SYMBOL)
    ensures r.interval == (if "interval" in query then query["interval"] else DEFAULT_INTERVAL)
    ensures "limit" !in query ==> r.limit == "500"
    ensures "limit" in query ==> r.limit == query["limit"]
  {
    KlinesRequest(if "symbol" in query then query["symbol"] else DEFAULT_SYMBOL,
                  if "interval" in query then query["interval"] else DEFAULT_INTERVAL,
                  if "limit" in query then query["limit"] else Text.Decimal(DEFAULT_LIMIT))
  }

  /** `Math.floor(ms / 1000)`: the whole second the millisecond falls in. */
  function Seconds(ms: int): (s: int)
    ensures s * 1000 <= ms < (s + 1) * 1000
  {
    ms / 1000
  }

  /** One kline as a candle; `parseFloat` is a parameter. */
  function ToCandle(k: Kline, parse: string -> real): Candle
  {
    Candle(Seconds(k.openTime), parse(k.open), parse(k.high), parse(k.low), parse(k.close), parse(k.volume))
  }

  /** `response.data.map(...)`: one candle per kline, in the same order. */
  function ToCandles(klines: seq<Kline>, parse: string -> real): (r: seq<Candle>)
    ensures |r| == |klines|
    ensures forall i :: 0 <= i < |klines| ==> r[i] == ToCandle(klines[i], parse)
  {
    if klines == [] then [] else [ToCandle(klines[0], parse)] + ToCandles(klines[1..], parse)
  }

  /** Open times one minute apart give candle times one minute apart. */
  lemma ConsecutiveMinutes(k1: Kline, k2: Kline, parse: string -> real)
    requires k2.openTime == k1.openTime + 60000
    ensures ToCandle(k2, parse).time == ToCandle(k1, parse).time + 60
  {
    var s1, s2 := Seconds(k1.openTime), Seconds(k2.openTime);
    assert (s1 + 60) * 1000 <= k2.openTime < (s1 + 61) * 1000;
  }

  /** Every draw of `Math.random()` lies in [0, 1). */
  predicate ValidDraws(draws: seq<real>)
  {
    && |draws| == DRAWS_PER_CANDLE * MOCK_COUNT
    && forall i :: 0 <= i < |draws| ==> 0.0 <= draws[i] < 1.0
  }

  /** Mock candle `i`, taking its five draws in the order the object literal evaluates them. */
  function MockCandle(i: nat, now: int, draws: seq<real>): (c: Candle)
    requires i < MOCK_COUNT && ValidDraws(draws)
    ensures c.time == now - (MOCK_COUNT - i) * MOCK_SPACING
    ensures c.low <= c.open <= c.high
    ensures BASE_PRICE - 500.0 <= c.open < BASE_PRICE + 500.0
    ensures 0.0 <= c.volume < 100.0
  {
    var d := draws[DRAWS_PER_CANDLE * i..DRAWS_PER_CANDLE * i + DRAWS_PER_CANDLE];
    assert forall k :: 0 <= k < DRAWS_PER_CANDLE ==> d[k] == draws[DRAWS_PER_CANDLE * i + k];
    var variance := d[0] * 1000.0 - 500.0;
    Candle(now - (MOCK_COUNT - i) * MOCK_SPACING,
           BASE_PRICE + variance,
           BASE_PRICE + variance + d[1] * 200.0,
           BASE_PRICE + variance - d[2] * 200.0,
           BASE_PRICE + variance + d[3] * 100.0 - 50.0,
           d[4] * 100.0)
  }

  /** `Array.from({ length: 100 }, ...)` with `now` the current time in whole seconds. */
  function MockCandles(nowMillis: int, draws: seq<real>): (r: seq<Candle>)
    requires ValidDraws(draws)
    ensures |r| == MOCK_COUNT
    ensures forall i :: 0 <= i < MOCK_COUNT ==> r[i] == MockCandle(i, Seconds(nowMillis), draws)
  {
    seq(MOCK_COUNT, i requires 0 <= i < MOCK_COUNT => MockCandle(i, Seconds(nowMillis), draws))
  }

  /** The mock times rise by exactly a minute and end a minute before now; every candle spans its open. */
  lemma MockCandlesShape(nowMillis: int, draws: seq<real>)
    requires ValidDraws(draws)
    ensures var r := MockCandles(nowMillis, draws);
      && (forall i :: 0 < i < |r| ==> r[i].time == r[i - 1].time + MOCK_SPACING)
      && r[|r| - 1].time == Seconds(nowMillis) - MOCK_SPACING
      && r[0].time == Seconds(nowMillis) - MOCK_COUNT * MOCK_SPACING
      && (forall i :: 0 <= i < |r| ==> r[i].low <= r[i].open <= r[i].high)
  {
  }

  /**
   * GET /candles: the converted klines, or the mock candles when the request
   * fails (`fetch` answers None).
   */
  function GetCandles(query: map<string, string>, fetch: KlinesRequest -> Option<seq<Kline>>,
                      parse: string -> real, nowMillis: int, draws: seq<real>): (r: seq<Candle>)
    requires ValidDraws(draws)
    ensures fetch(CandleRequest(query)).None? ==> r == MockCandles(nowMillis, draws)
    ensures fetch(CandleRequest(query)).Some? ==> r == ToCandles(fetch(CandleRequest(query)).value, parse)
  {
    match fetch(CandleRequest(query))
    case None => MockCandles(nowMillis, draws)
    case Some(klines) => ToCandles(klines, parse)
  }

  lemma DefaultLimitText()
    ensures Text.Decimal(DEFAULT_LIMIT) == "500"
  {
  }
}
