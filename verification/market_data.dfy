/**
 * The market-data snapshot that both data providers return and the
 * analysis functions consume: candles, derived indicators and context.
 */
module MarketData {

  import opened Common

  /** One OHLCV candle; `timestamp` is in milliseconds since the epoch. */
  datatype Candle = Candle(timestamp: int, open: real, high: real, low: real, close: real, volume: real)

  /** A candle whose open and close lie within its range. */
  predicate WellFormed(c: Candle)
  {
    c.low <= c.open <= c.high && c.low <= c.close <= c.high
  }

  datatype Trend = Bullish | Bearish

  datatype Session = Asian | London | NewYork | Unknown

  datatype Volatility = HighVolatility | NormalVolatility

  datatype Momentum = Strong | Weak

  datatype Indicators = Indicators(rsi: real, atr: real, trend: Trend, support: real, resistance: real)

  datatype MarketContext = MarketContext(volatility: Volatility, session: Session, momentum: Momentum)

  /** High volatility exactly when the average range exceeds the provider's threshold. */
  function VolatilityOf(atr: real, threshold: real): (v: Volatility)
    ensures v == HighVolatility <==> atr > threshold
  {
    if atr > threshold then HighVolatility else NormalVolatility
  }

  /** Strong momentum exactly when the index is more than 20 away from the neutral 50. */
  function MomentumOf(rsi: real): (m: Momentum)
    ensures m == Strong <==> rsi > 70.0 || rsi < 30.0
  {
    if Abs(rsi - 50.0) > 20.0 then Strong else Weak
  }

  datatype Snapshot = Snapshot(
    pair: string,
    timeframe: string,
    currentPrice: real,
    candles: seq<Candle>,
    indicators: Indicators,
    context: MarketContext,
    dataPoints: nat,
    source: string)

  /**
   * The session both providers report for a UTC hour: Asian from 0 to 7,
   * London from 8 to 15, New York from 16 to 23, and unknown for any other
   * number.
   */
  function MarketSession(hour: int): (s: Session)
    ensures s == Asian <==> 0 <= hour < 8
    ensures s == London <==> 8 <= hour < 16
    ensures s == NewYork <==> 16 <= hour < 24
    ensures s == Unknown <==> hour < 0 || hour >= 24
  {
    if 0 <= hour < 8 then Asian
    else if 8 <= hour < 16 then London
    else if 16 <= hour < 24 then NewYork
    else Unknown
  }

  /** Minutes per candle for each known timeframe (the same table appears in both providers). */
  const CandleMinutes: map<string, nat> :=
    map["1m" := 1, "5m" := 5, "15m" := 15, "30m" := 30, "1h" := 60, "4h" := 240, "1d" := 1440]

  /** `timeframe_minutes.get(timeframe, 60)`. */
  function MinutesFor(timeframe: string): (m: nat)
    ensures timeframe !in CandleMinutes ==> m == 60
    ensures m > 0
  {
    if timeframe in CandleMinutes then CandleMinutes[timeframe] else 60
  }
}
