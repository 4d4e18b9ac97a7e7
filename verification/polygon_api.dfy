/**
 * The live data provider (`utils/polygon_api.py`): the aggregate request
 * it sends to Polygon.io for a pair and timeframe, the snapshot it builds
 * from the bars returned, and its fallbacks to the synthetic provider.
 * The secret store, the client, the network and the clock are parameters:
 * what the key lookup gave, whether the client could be built, the answer
 * to each request, and the UTC hour.
 */
module PolygonApi {

  import opened Common
  import opened MarketData
  import opened TechnicalIndicators
  import PolygonMock
  import SmcContext

  // ---------------------------------------------------------------- the request

  datatype Timespan = Minute | Hour | Day

  /** `timeframe_map`: Polygon's multiplier and time unit for each timeframe. */
  const TimeframeSpans: map<string, (nat, Timespan)> := map[
    "1m" := (1, Minute), "5m" := (5, Minute), "15m" := (15, Minute), "30m" := (30, Minute),
    "1h" := (1, Hour), "4h" := (4, Hour), "1d" := (1, Day)]

  function UnitMinutes(t: Timespan): nat
  {
    match t
    case Minute => 1
    case Hour => 60
    case Day => 1440
  }

  /** `timeframe_map.get(timeframe, (1, 'hour'))`. */
  function Span(timeframe: string): (r: (nat, Timespan))
    ensures timeframe !in TimeframeSpans ==> r == (1, Hour)
  {
    if timeframe in TimeframeSpans then TimeframeSpans[timeframe] else (1, Hour)
  }

  /**
   * The two tables of the provider agree: the bar Polygon is asked for is
   * as long as the minutes per candle used for the look-back, for every
   * timeframe, the unknown ones included.
   */
  lemma SpanMatchesMinutes(timeframe: string)
    ensures Span(timeframe).0 * UnitMinutes(Span(timeframe).1) == MinutesFor(timeframe)
  {
    if timeframe in TimeframeSpans {
      assert timeframe in {"1m", "5m", "15m", "30m", "1h", "4h", "1d"};
    } else {
      assert timeframe !in CandleMinutes;
    }
  }

  /** The number of bars requested (`limit=100`). */
  const BarLimit: nat := 100

  /** `f"C:{pair.upper()}"`: Polygon's symbol for a currency pair. */
  function Ticker(pair: string): (t: string)
    ensures |t| == |pair| + 2
    ensures t[..2] == "C:" && t[2..] == Upper(pair)
  {
    "C:" + Upper(pair)
  }

  /** The arguments of `client.get_aggs`, the date range given by its length in minutes back from now. */
  datatype Request = Request(ticker: string, multiplier: nat, timespan: Timespan, lookbackMinutes: nat, limit: nat)

  /**
   * The request for a pair and timeframe. Its look-back spans exactly the
   * bars it asks for: `limit` bars of `multiplier` units each.
   */
  function RequestFor(pair: string, timeframe: string): (r: Request)
    ensures r.ticker == Ticker(pair) && r.limit == BarLimit
    ensures (r.multiplier, r.timespan) == Span(timeframe)
    ensures r.lookbackMinutes == r.multiplier * UnitMinutes(r.timespan) * r.limit
  {
    var (multiplier, timespan) := Span(timeframe);
    SpanMatchesMinutes(timeframe);
    Request(Ticker(pair), multiplier, timespan, MinutesFor(timeframe) * BarLimit, BarLimit)
  }

  // ---------------------------------------------------------------- fallbacks

  /** The average range above which the live snapshot reports high volatility. */
  const LiveVolatilityThreshold: real := 0.01

  /** What `st.secrets.get("POLYGON_API_KEY")` did: raised, or gave a value (`None` when absent). */
  datatype Secret = SecretsFailed(message: string) | SecretValue(key: Option<string>)

  /** Whether `RESTClient(api_key)` could be built. */
  datatype Client = ClientFailed(message: string) | ClientReady

  /** What `client.get_aggs` did: raised, or returned bars. */
  datatype Fetch = FetchFailed(message: string) | Bars(bars: seq<Candle>)

  /** Why the synthetic data was served instead of Polygon's. */
  datatype Fallback = NoApiKey | NoData | ApiError(message: string) | InitError(message: string)

  /** `not api_key` is false: a key is present and not empty. */
  predicate HasKey(key: Option<string>)
  {
    key.Some? && key.value != ""
  }

  /** Where the data comes from: the bars Polygon returned, or the reason to fall back. */
  datatype Attempt = Live(bars: seq<Candle>) | FallBack(reason: Fallback)

  /**
   * The steps of `get_forex_data` up to the bars: the key lookup, the
   * client and the request for the pair and timeframe. Polygon's bars are
   * used only when there is a key, a client and a non-empty answer; each
   * other outcome names its reason.
   */
  function TryPolygon(pair: string, timeframe: string, secret: Secret, client: Client, fetch: Request -> Fetch)
    : (a: Attempt)
    ensures a == FallBack(NoApiKey) <==> secret.SecretValue? && !HasKey(secret.key)
    ensures (a.FallBack? && a.reason.InitError?) <==>
      secret.SecretsFailed? || (secret.SecretValue? && HasKey(secret.key) && client.ClientFailed?)
    ensures (a.FallBack? && a.reason.ApiError?) <==>
      secret.SecretValue? && HasKey(secret.key) && client.ClientReady? && fetch(RequestFor(pair, timeframe)).FetchFailed?
    ensures a == FallBack(NoData) <==>
      secret.SecretValue? && HasKey(secret.key) && client.ClientReady? && fetch(RequestFor(pair, timeframe)) == Bars([])
    ensures a.Live? ==> fetch(RequestFor(pair, timeframe)) == Bars(a.bars) && a.bars != []
  {
    match secret
    case SecretsFailed(message) => FallBack(InitError(message))
    case SecretValue(key) =>
      if !HasKey(key) then FallBack(NoApiKey)
      else if client.ClientFailed? then FallBack(InitError(client.message))
      else
        match fetch(RequestFor(pair, timeframe))
        case FetchFailed(message) => FallBack(ApiError(message))
        case Bars(bars) => if bars == [] then FallBack(NoData) else Live(bars)
  }

  /**
   * `get_forex_data` of the live provider: it never fails. With Polygon's
   * bars, however many there are, it returns their snapshot, volatility
   * measured against 0.01; otherwise the synthetic snapshot (made from
   * `start`, `draws` and `clock`), with the reason.
   */
  method ForexData(pair: string, timeframe: string, secret: Secret, client: Client, fetch: Request -> Fetch,
                   hour: int, start: real, draws: seq<PolygonMock.StepDraw>, clock: seq<int>)
    returns (s: Snapshot, fallback: Option<Fallback>)
    requires PolygonMock.PriceRange(pair).0 <= start <= PolygonMock.PriceRange(pair).1
    requires |draws| == PolygonMock.CandleCount && |clock| == PolygonMock.CandleCount
    requires forall k :: 0 <= k < |draws| ==> PolygonMock.ValidDraw(draws[k])
    ensures s.pair == Upper(pair) && s.timeframe == timeframe
    ensures s.context.session == MarketSession(hour)
    ensures s.candles != [] && s.currentPrice == s.candles[|s.candles| - 1].close
    ensures var a := TryPolygon(pair, timeframe, secret, client, fetch);
      && (fallback.None? <==> a.Live?)
      && (a.FallBack? ==> fallback == Some(a.reason))
    ensures fallback.None? ==>
      && s.candles == TryPolygon(pair, timeframe, secret, client, fetch).bars
      && SnapshotOf(s, pair, timeframe, s.candles, LiveVolatilityThreshold, hour, "polygon.io")
      && 0.0 <= s.indicators.rsi <= 100.0
      && (s.indicators.trend == Bullish <==>
          s.candles[|s.candles| - 1].close > s.candles[if |s.candles| < 20 then 0 else |s.candles| - 20].close)
      && (s.context.volatility == HighVolatility <==> s.indicators.atr > LiveVolatilityThreshold)
    ensures fallback.Some? ==> PolygonMock.MockSnapshot(s, pair, timeframe, start, draws, clock, hour)
  {
    var attempt := TryPolygon(pair, timeframe, secret, client, fetch);
    if attempt.Live? {
      s := BuildSnapshot(pair, timeframe, attempt.bars, LiveVolatilityThreshold, hour, "polygon.io");
      LiveSnapshotFacts(s, pair, timeframe, attempt.bars, hour);
      fallback := None;
    } else {
      s := PolygonMock.MockForexData(pair, timeframe, start, draws, clock, hour);
      MockSnapshotFacts(s, pair, timeframe, start, draws, clock, hour);
      fallback := Some(attempt.reason);
    }
  }

  /** What a snapshot built from Polygon's bars says about its price, RSI, trend and volatility. */
  lemma LiveSnapshotFacts(s: Snapshot, pair: string, timeframe: string, bars: seq<Candle>, hour: int)
    requires bars != [] && SnapshotOf(s, pair, timeframe, bars, LiveVolatilityThreshold, hour, "polygon.io")
    ensures s.candles != [] && s.currentPrice == s.candles[|s.candles| - 1].close
    ensures s.pair == Upper(pair) && s.timeframe == timeframe && s.context.session == MarketSession(hour)
    ensures 0.0 <= s.indicators.rsi <= 100.0
    ensures s.indicators.trend == Bullish <==>
              s.candles[|s.candles| - 1].close > s.candles[if |s.candles| < 20 then 0 else |s.candles| - 20].close
    ensures s.context.volatility == HighVolatility <==> s.indicators.atr > LiveVolatilityThreshold
  {
  }

  /** The synthetic snapshot names the pair, the timeframe and the session, and its price is its last close. */
  lemma MockSnapshotFacts(s: Snapshot, pair: string, timeframe: string, start: real, draws: seq<PolygonMock.StepDraw>,
                          clock: seq<int>, hour: int)
    requires |draws| == PolygonMock.CandleCount && |clock| == PolygonMock.CandleCount
    requires PolygonMock.MockSnapshot(s, pair, timeframe, start, draws, clock, hour)
    ensures s.candles != [] && s.currentPrice == s.candles[|s.candles| - 1].close
    ensures s.pair == Upper(pair) && s.timeframe == timeframe && s.context.session == MarketSession(hour)
  {
  }

  // ---------------------------------------------------------------- sessions

  /**
   * The provider's session of an hour of the day is the session the
   * analysis reports for it: Asian, London and New York coincide from 0 to
   * 23.
   */
  lemma SessionsAgree(hour: int)
    requires 0 <= hour < 24
    ensures MarketSession(hour) == Asian <==> SmcContext.SessionCharacteristics(hour).session == SmcContext.AsianSession
    ensures MarketSession(hour) == London <==> SmcContext.SessionCharacteristics(hour).session == SmcContext.LondonSession
    ensures MarketSession(hour) == NewYork <==> SmcContext.SessionCharacteristics(hour).session == SmcContext.NewYorkSession
    ensures MarketSession(hour) != Unknown
  {
  }
}
