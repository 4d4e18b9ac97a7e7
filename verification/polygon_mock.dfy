/**
 * The synthetic data provider (`utils/polygon_mock.py`): a random walk of
 * 100 candles from a start price inside the pair's usual range, with the
 * same derived indicators as the live provider. The random numbers and the
 * clock readings are parameters: one `StepDraw` and one clock reading per
 * candle.
 */
module PolygonMock {

  import opened Common
  import opened MarketData
  import opened TechnicalIndicators

  /** The number of candles generated. */
  const CandleCount: nat := 100

  /** Typical price ranges of the known pairs, keyed by the upper-cased symbol. */
  const PriceRanges: map<string, (real, real)> := map[
    "EURUSD" := (1.05, 1.12),
    "GBPUSD" := (1.24, 1.31),
    "USDJPY" := (140.0, 152.0),
    "AUDUSD" := (0.63, 0.68),
    "USDCHF" := (0.84, 0.91),
    "GBPJPY" := (175.0, 195.0),
    "EURJPY" := (150.0, 165.0),
    "AUDJPY" := (90.0, 102.0)]

  /** `price_ranges.get(pair.upper(), (1.0000, 1.2000))`: a positive range, the default for an unknown pair. */
  function PriceRange(pair: string): (r: (real, real))
    ensures Upper(pair) !in PriceRanges ==> r == (1.0, 1.2)
    ensures 0.0 < r.0 < r.1
  {
    var key := Upper(pair);
    if key in PriceRanges then
      assert key in {"EURUSD", "GBPUSD", "USDJPY", "AUDUSD", "USDCHF", "GBPJPY", "EURJPY", "AUDJPY"};
      PriceRanges[key]
    else (1.0, 1.2)
  }

  /**
   * The random numbers of one candle: the relative move of the close, the
   * relative lengths of the upper and lower wicks, and the volume.
   */
  datatype StepDraw = StepDraw(change: real, upper: real, lower: real, volume: int)

  /** The ranges of `random.uniform(-0.002, 0.002)`, `random.uniform(0, 0.003)` and `random.randint(50000, 500000)`. */
  predicate ValidDraw(d: StepDraw)
  {
    && -0.002 <= d.change <= 0.002
    && 0.0 <= d.upper <= 0.003
    && 0.0 <= d.lower <= 0.003
    && 50000 <= d.volume <= 500000
  }

  function Max(a: real, b: real): real
  {
    if a < b then b else a
  }

  function Min(a: real, b: real): real
  {
    if a < b then a else b
  }

  /**
   * One candle as written: the open is the price, the wicks are measured
   * from the open alone, and the close moves independently of them.
   */
  function CandleAsWritten(price: real, d: StepDraw, timestamp: int): Candle
  {
    Candle(timestamp, price, price + Abs(d.upper * price), price - Abs(d.lower * price),
           price + d.change * price, d.volume as real)
  }

  /**
   * As written, the close can leave the candle's range: from a price of 1.0,
   * a move of +0.2% with an upper wick of 0.1% gives a high of 1.001 and a
   * close of 1.002.
   */
  lemma CloseAboveHighAsWritten()
    ensures exists price: real, d: StepDraw ::
      && price > 0.0 && ValidDraw(d)
      && CandleAsWritten(price, d, 0).close > CandleAsWritten(price, d, 0).high
  {
    var d := StepDraw(0.002, 0.001, 0.001, 100000);
    assert CandleAsWritten(1.0, d, 0).high == 1.001;
    assert CandleAsWritten(1.0, d, 0).close == 1.002;
  }

  /** Scaling by a non-negative factor keeps the order. */
  lemma ScaleMonotone(a: real, b: real, p: real)
    requires a <= b && p >= 0.0
    ensures a * p <= b * p
  {
    assert (b - a) * p >= 0.0;
  }

  /** The draws scaled by a positive price stay within their ranges scaled by it. */
  lemma ScaledBounds(price: real, d: StepDraw)
    requires price > 0.0 && ValidDraw(d)
    ensures -0.002 * price <= d.change * price <= 0.002 * price
    ensures 0.0 <= d.upper * price && 0.0 <= d.lower * price <= 0.003 * price
  {
    ScaleMonotone(-0.002, d.change, price);
    ScaleMonotone(d.change, 0.002, price);
    ScaleMonotone(0.0, d.upper, price);
    ScaleMonotone(0.0, d.lower, price);
    ScaleMonotone(d.lower, 0.003, price);
  }

  /** The candle opening at `price` whose close moves by `move`, with wicks of `up` and `down` measured from its body. */
  function BodyCandle(price: real, move: real, up: real, down: real, timestamp: int, volume: real): Candle
  {
    Candle(timestamp, price, Max(price, price + move) + up, Min(price, price + move) - down, price + move, volume)
  }

  /**
   * A candle whose body moves by at most 0.2% and whose wicks, of at most
   * 0.3%, are measured from the body is well formed, stays positive, and
   * closes within 0.2% of its open.
   */
  lemma BodyBounds(price: real, move: real, up: real, down: real, timestamp: int, volume: real)
    requires price > 0.0
    requires -0.002 * price <= move <= 0.002 * price
    requires 0.0 <= up && 0.0 <= down <= 0.003 * price
    ensures var c := BodyCandle(price, move, up, down, timestamp, volume);
      && WellFormed(c)
      && c.low > 0.0
      && 0.998 * price <= c.close <= 1.002 * price
  {
  }

  /**
   * From a positive price and draws in their ranges the candle as written
   * opens at the price inside its range, stays positive, and closes within
   * 0.2% of its open (so above zero).
   */
  lemma StepAsWrittenBounds(price: real, d: StepDraw, timestamp: int)
    requires price > 0.0 && ValidDraw(d)
    ensures var c := CandleAsWritten(price, d, timestamp);
      && c.open == price
      && 0.0 < c.low <= c.open <= c.high
      && 0.998 * price <= c.close <= 1.002 * price
  {
    ScaledBounds(price, d);
    AsWrittenFromScaled(price, d, timestamp, d.change * price, d.upper * price, d.lower * price);
  }

  /** The same, once the scaled draws are bounded. */
  lemma AsWrittenFromScaled(price: real, d: StepDraw, timestamp: int, move: real, up: real, down: real)
    requires price > 0.0
    requires move == d.change * price && up == d.upper * price && down == d.lower * price
    requires -0.002 * price <= move <= 0.002 * price
    requires 0.0 <= up && 0.0 <= down <= 0.003 * price
    ensures var c := CandleAsWritten(price, d, timestamp);
      && c.open == price
      && 0.0 < c.low <= c.open <= c.high
      && 0.998 * price <= c.close <= 1.002 * price
  {
    assert Abs(up) == up && Abs(down) == down;
  }

  /**
   * One candle with its wicks measured from the body, so that the range
   * holds the open and the close; its open, close, volume and time are
   * those written.
   */
  function CandleStep(price: real, d: StepDraw, timestamp: int): (c: Candle)
    ensures var w := CandleAsWritten(price, d, timestamp);
      && c.timestamp == w.timestamp && c.open == w.open && c.close == w.close && c.volume == w.volume
  {
    BodyCandle(price, d.change * price, d.upper * price, d.lower * price, timestamp, d.volume as real)
  }

  /**
   * From a positive price and draws in their ranges the corrected candle is
   * well formed and positive, and its close within 0.2% of its open.
   */
  lemma StepIsWellFormed(price: real, d: StepDraw, timestamp: int)
    requires price > 0.0 && ValidDraw(d)
    ensures var c := CandleStep(price, d, timestamp);
      && WellFormed(c)
      && c.low > 0.0
      && 0.998 * price <= c.close <= 1.002 * price
  {
    ScaledBounds(price, d);
    StepFromScaled(price, d, timestamp, d.change * price, d.upper * price, d.lower * price);
  }

  /**
   * The same, once the scaled draws are bounded; it keeps the draws' own
   * ranges, and so their products, out of the arithmetic.
   */
  lemma StepFromScaled(price: real, d: StepDraw, timestamp: int, move: real, up: real, down: real)
    requires price > 0.0
    requires move == d.change * price && up == d.upper * price && down == d.lower * price
    requires -0.002 * price <= move <= 0.002 * price
    requires 0.0 <= up && 0.0 <= down <= 0.003 * price
    ensures var c := CandleStep(price, d, timestamp);
      && WellFormed(c)
      && c.low > 0.0
      && 0.998 * price <= c.close <= 1.002 * price
  {
    BodyBounds(price, move, up, down, timestamp, d.volume as real);
  }

  /**
   * The corrected candle's range covers the one written, and the two
   * candles are the same exactly when the close does not move.
   */
  lemma StepCoversAsWritten(price: real, d: StepDraw, timestamp: int)
    requires price > 0.0 && ValidDraw(d)
    ensures CandleStep(price, d, timestamp).low <= CandleAsWritten(price, d, timestamp).low
    ensures CandleAsWritten(price, d, timestamp).high <= CandleStep(price, d, timestamp).high
    ensures CandleStep(price, d, timestamp) == CandleAsWritten(price, d, timestamp) <==> d.change == 0.0
  {
    ScaledBounds(price, d);
    assert Abs(d.upper * price) == d.upper * price && Abs(d.lower * price) == d.lower * price;
    if d.change != 0.0 {
      assert d.change * price != 0.0;
    }
  }

  /**
   * The time of candle `k` of the walk: `minutes * (CandleCount - k)`
   * minutes before the clock reading taken at that step, in milliseconds.
   */
  function StampAt(clock: seq<int>, minutes: nat, k: nat): int
    requires k < |clock|
  {
    clock[k] - (minutes * 60000) * (CandleCount - k)
  }

  predicate Nondecreasing(clock: seq<int>)
  {
    forall j, k :: 0 <= j < k < |clock| ==> clock[j] <= clock[k]
  }

  /** `step * (a + b) - step * a == step * b`, with `step * b >= step` when `b` is positive. */
  lemma SpacedBy(step: nat, a: int, b: int)
    requires b >= 1
    ensures step * (a + b) - step * a == step * b >= step
  {
  }

  /** With a clock that never runs back, the candles' times strictly increase, one candle length or more apart. */
  lemma StampsIncrease(clock: seq<int>, minutes: nat, j: nat, k: nat)
    requires |clock| == CandleCount && Nondecreasing(clock)
    requires minutes > 0 && j < k < CandleCount
    ensures StampAt(clock, minutes, k) - StampAt(clock, minutes, j) >= minutes * 60000
  {
    var step := minutes * 60000;
    var a := CandleCount - k;
    var b := k - j;
    assert StampAt(clock, minutes, j) == clock[j] - step * (a + b);
    assert StampAt(clock, minutes, k) == clock[k] - step * a;
    SpacedBy(step, a, b);
    assert clock[j] <= clock[k];
  }

  /** The candles chain: each opens at the previous close. */
  predicate Chained(candles: seq<Candle>)
  {
    forall k :: 0 <= k < |candles| - 1 ==> candles[k + 1].open == candles[k].close
  }

  /**
   * Candle `k` is the candle written from its own open with the `k`-th draw
   * at the `k`-th time; it is positive and holds its open in its range.
   */
  predicate Generated(candles: seq<Candle>, draws: seq<StepDraw>, clock: seq<int>, minutes: nat)
    requires |candles| <= |draws| && |candles| <= |clock|
  {
    forall k :: 0 <= k < |candles| ==>
      && candles[k] == CandleAsWritten(candles[k].open, draws[k], StampAt(clock, minutes, k))
      && 0.0 < candles[k].low <= candles[k].open <= candles[k].high
  }

  /**
   * The loop of `get_forex_data` over `i` from 100 down to 1: a chain of
   * positive candles starting at `start`, each written from the previous
   * close, each holding its open in its range.
   */
  method GenerateCandles(start: real, minutes: nat, draws: seq<StepDraw>, clock: seq<int>)
    returns (candles: seq<Candle>)
    requires start > 0.0
    requires |draws| == CandleCount && |clock| == CandleCount
    requires forall k :: 0 <= k < |draws| ==> ValidDraw(draws[k])
    ensures |candles| == CandleCount
    ensures candles[0].open == start
    ensures Chained(candles)
    ensures Generated(candles, draws, clock, minutes)
  {
    candles := [];
    var price := start;
    var i := CandleCount;
    while i > 0
      invariant 0 <= i <= CandleCount && |candles| == CandleCount - i
      invariant price > 0.0
      invariant candles == [] ==> price == start
      invariant candles != [] ==> candles[0].open == start && price == candles[|candles| - 1].close
      invariant Chained(candles)
      invariant Generated(candles, draws, clock, minutes)
    {
      var k := CandleCount - i;
      var c := CandleAsWritten(price, draws[k], clock[k] - (minutes * 60000) * i);
      StepAsWrittenBounds(price, draws[k], clock[k] - (minutes * 60000) * i);
      candles := candles + [c];
      price := c.close;
      i := i - 1;
    }
  }

  /** Candle `k` of two walks generated from the same start, draws and clock is the same candle. */
  lemma {:induction false} GeneratedAgreeAt(a: seq<Candle>, b: seq<Candle>, start: real, draws: seq<StepDraw>,
                                            clock: seq<int>, minutes: nat, k: nat)
    requires |a| == |b| && |a| <= |draws| && |a| <= |clock| && k < |a|
    requires a[0].open == start && b[0].open == start
    requires Chained(a) && Chained(b)
    requires Generated(a, draws, clock, minutes) && Generated(b, draws, clock, minutes)
    ensures a[k] == b[k]
    decreases k
  {
    if k > 0 {
      GeneratedAgreeAt(a, b, start, draws, clock, minutes, k - 1);
      assert a[k].open == a[k - 1].close == b[k - 1].close == b[k].open;
    }
    assert a[k] == CandleAsWritten(a[k].open, draws[k], StampAt(clock, minutes, k));
    assert b[k] == CandleAsWritten(b[k].open, draws[k], StampAt(clock, minutes, k));
  }

  /** Two walks generated from the same start, draws and clock are the same walk. */
  lemma GeneratedIsDetermined(a: seq<Candle>, b: seq<Candle>, start: real, draws: seq<StepDraw>,
                              clock: seq<int>, minutes: nat)
    requires |a| == |b| && |a| <= |draws| && |a| <= |clock|
    requires a != [] ==> a[0].open == start && b[0].open == start
    requires Chained(a) && Chained(b)
    requires Generated(a, draws, clock, minutes) && Generated(b, draws, clock, minutes)
    ensures a == b
  {
    forall k | 0 <= k < |a|
      ensures a[k] == b[k]
    {
      GeneratedAgreeAt(a, b, start, draws, clock, minutes, k);
    }
  }

  /** Generated candles hold their opens in their ranges, so their average range is not negative. */
  lemma GeneratedRangeNonNegative(candles: seq<Candle>, draws: seq<StepDraw>, clock: seq<int>, minutes: nat)
    requires candles != [] && |candles| <= |draws| && |candles| <= |clock|
    requires Generated(candles, draws, clock, minutes)
    ensures AverageRange(candles) >= 0.0
  {
    forall c | c in candles
      ensures c.low <= c.high
    {
      var k :| 0 <= k < |candles| && candles[k] == c;
      assert candles[k].low <= candles[k].open <= candles[k].high;
    }
  }

  /** The average range above which the synthetic snapshot reports high volatility: 1% of the pair's range. */
  function MockThreshold(pair: string): (t: real)
    ensures t > 0.0
  {
    (PriceRange(pair).1 - PriceRange(pair).0) * 0.01
  }

  /**
   * The synthetic snapshot: 100 candles generated from `start` with the
   * draws and the clock, and the snapshot of them against the pair's
   * threshold. `GeneratedIsDetermined` shows it pins the candles down.
   */
  predicate MockSnapshot(s: Snapshot, pair: string, timeframe: string, start: real, draws: seq<StepDraw>,
                         clock: seq<int>, hour: int)
    requires |draws| == CandleCount && |clock| == CandleCount
  {
    && |s.candles| == CandleCount
    && s.candles[0].open == start && Chained(s.candles)
    && Generated(s.candles, draws, clock, MinutesFor(timeframe))
    && SnapshotOf(s, pair, timeframe, s.candles, MockThreshold(pair), hour, "mock_data")
  }

  /**
   * `get_forex_data` of the synthetic provider for a start price drawn from
   * the pair's range and the UTC `hour` of the session lookup: the
   * synthetic snapshot of 100 chained candles, whose volatility is high
   * when the average range exceeds 1% of the pair's range.
   */
  method MockForexData(pair: string, timeframe: string, start: real, draws: seq<StepDraw>, clock: seq<int>, hour: int)
    returns (s: Snapshot)
    requires PriceRange(pair).0 <= start <= PriceRange(pair).1
    requires |draws| == CandleCount && |clock| == CandleCount
    requires forall k :: 0 <= k < |draws| ==> ValidDraw(draws[k])
    ensures MockSnapshot(s, pair, timeframe, start, draws, clock, hour)
    ensures s.pair == Upper(pair) && s.timeframe == timeframe && s.source == "mock_data"
    ensures s.currentPrice == s.candles[CandleCount - 1].close
    ensures s.indicators.rsi == RsiOf(Closes(s.candles)) && (s.indicators.rsi == 100.0 <==> NoLossIn(Closes(s.candles)))
    ensures s.indicators.trend == Bullish <==> s.candles[CandleCount - 1].close > s.candles[CandleCount - 20].close
    ensures s.indicators.atr == AverageRange(s.candles) && s.indicators.atr >= 0.0
    ensures s.indicators.support == SupportAsWritten(s.candles) == Support(s.candles)
    ensures s.indicators.resistance == ResistanceAsWritten(s.candles) == Resistance(s.candles)
    ensures s.context.volatility == HighVolatility <==> s.indicators.atr > MockThreshold(pair)
  {
    var candles := GenerateCandles(start, MinutesFor(timeframe), draws, clock);
    GeneratedRangeNonNegative(candles, draws, clock, MinutesFor(timeframe));
    s := BuildSnapshot(pair, timeframe, candles, MockThreshold(pair), hour, "mock_data");
  }
}
