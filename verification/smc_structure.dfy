/**
 * The market-structure detectors: break of structure (`detect_bos`), change
 * of character (`detect_choch`) and market structure break
 * (`detect_market_structure_break`). The random draws each one makes are
 * parameters; what is left is which candles they read, the levels they
 * report and the exceptions that remain possible once the guard has passed.
 */
module SmcStructure {

  import opened Common
  import opened MarketData
  import opened Registry
  import opened SmcGuards

  const ZeroDivisionMessage: string := "float division by zero"

  function Min(x: real, y: real): real
  {
    if x <= y then x else y
  }

  // ---------------------------------------------------------------- BOS

  /** `random.random()` for the detection and `random.randint(1, 5)` for the candle reported. */
  datatype BosDraws = BosDraws(probability: real, back: int)

  datatype Bos = NoBos | Bos(bullish: bool, level: real, confidence: real, timestamp: int)

  /**
   * `detect_bos`: with at least 20 candles and a draw above 0.4, the level
   * broken is the highest high (bullish trend) or the lowest low (any other
   * trend) of the 15 candles `candles[-20:][:-5]`. Past the guard the only
   * exception left is the division by a zero level.
   */
  function BreakOfStructure(data: Input, draws: BosDraws): (r: Outcome<Bos>)
    requires 1 <= draws.back <= 5
    ensures r.InsufficientData? <==> |data.candles| < 20
    ensures r.InsufficientData? ==> r.record == InsufficientRecord(DetectBos)
    ensures r.Raised? ==> r.message == ZeroDivisionMessage
    ensures |data.candles| >= 20 ==> (r == Completed(NoBos) <==> draws.probability <= 0.4)
    ensures r.Raised? <==> |data.candles| >= 20 && draws.probability > 0.4 && BosLevel(data) == 0.0
    ensures r.Completed? && r.value.Bos? ==>
      && r.value.level == BosLevel(data)
      && r.value.confidence == BosConfidence(data.currentPrice, r.value.level)
      && (r.value.bullish <==> data.trend == "bullish")
      && (r.value.bullish ==> IsHighest(r.value.level, data.candles[|data.candles| - 20..|data.candles| - 5]))
      && (!r.value.bullish ==> IsLowest(r.value.level, data.candles[|data.candles| - 20..|data.candles| - 5]))
      && r.value.timestamp == data.candles[|data.candles| - draws.back].timestamp
      && (r.value.level > 0.0 ==> 60.0 <= r.value.confidence <= 95.0)
  {
    var n := |data.candles|;
    if n < 20 then InsufficientData(InsufficientRecord(DetectBos))
    else if draws.probability <= 0.4 then Completed(NoBos)
    else
      var bullish := data.trend == "bullish";
      var level := BosLevel(data);
      if level == 0.0 then Raised(ZeroDivisionMessage)
      else Completed(Bos(bullish, level, BosConfidence(data.currentPrice, level), data.candles[n - draws.back].timestamp))
  }

  /** The level a break would be reported at: the highest high of the window in a bullish trend, the lowest low otherwise. */
  function BosLevel(data: Input): (level: real)
    requires |data.candles| >= 20
    ensures data.trend == "bullish" ==> IsHighest(level, BosWindow(data.candles))
    ensures data.trend != "bullish" ==> IsLowest(level, BosWindow(data.candles))
  {
    if data.trend == "bullish" then HighestHigh(BosWindow(data.candles)) else LowestLow(BosWindow(data.candles))
  }

  /** `candles[-20:][:-5]`: the fifteen candles before the last five of the last twenty. */
  function BosWindow(candles: seq<Candle>): (w: seq<Candle>)
    requires |candles| >= 20
    ensures w == candles[|candles| - 20..|candles| - 5]
  {
    Slice(Last(candles, 20), None, Some(-5))
  }

  /** `min(95, 60 + distance * 10000)`, the distance relative to the level: at least 60 above a positive level. */
  function BosConfidence(price: real, level: real): (c: real)
    requires level != 0.0
    ensures level > 0.0 ==> 60.0 <= c <= 95.0
  {
    var distance := Abs(price - level) / level;
    assert level > 0.0 ==> distance >= 0.0;
    Min(95.0, 60.0 + distance * 10000.0)
  }

  // ---------------------------------------------------------------- CHoCH

  /**
   * `random.random()` for the detection, for volume confirmation and for
   * multiple rejections, `random.randint(10, 25)` for the strength bonus and
   * `random.randint(1, 3)` for the candle reported.
   */
  datatype ChochDraws = ChochDraws(probability: real, volume: real, rejections: real, bonus: int, back: int)

  datatype Choch =
    | NoChoch
    | Choch(bearish: bool, failurePoint: real, triggerLevel: real, strength: int,
            factors: seq<string>, timestamp: int)

  /** An overbought bullish or oversold bearish market raises the CHoCH probability by 0.3. */
  predicate Stretched(data: Input)
  {
    (data.trend == "bullish" && data.rsi > 70.0) || (data.trend == "bearish" && data.rsi < 30.0)
  }

  /** The detection draw after the 0.3 a stretched market adds. */
  function ChochProbability(data: Input, draws: ChochDraws): real
  {
    draws.probability + (if Stretched(data) then 0.3 else 0.0)
  }

  /**
   * The RSI divergence factor: a bearish reversal (bullish trend) with the
   * RSI above 70, or a bullish reversal (any other trend) with it below 30.
   */
  predicate Divergent(data: Input)
  {
    (data.trend == "bullish" && data.rsi > 70.0) || (data.trend != "bullish" && data.rsi < 30.0)
  }

  /**
   * `detect_choch`: the reversal runs against a bullish trend and with any
   * other trend. The failure point is the extreme of the first ten of the
   * last 15 candles, the trigger the opposite extreme of the last five; the
   * strength is 25 per factor plus the bonus, capped at 95. With the guard
   * passed nothing raises, and a stretched market always counts the RSI
   * divergence factor.
   */
  function ChangeOfCharacter(data: Input, draws: ChochDraws): (r: Outcome<Choch>)
    requires 10 <= draws.bonus <= 25 && 1 <= draws.back <= 3
    ensures r.InsufficientData? <==> |data.candles| < 30
    ensures r.InsufficientData? ==> r.record == InsufficientRecord(DetectChoch)
    ensures !r.Raised?
    ensures r.Completed? ==> (r.value.Choch? <==> ChochProbability(data, draws) > 0.5)
    ensures r.Completed? && r.value.Choch? ==>
      && r.value.factors == ChochFactors(Divergent(data), draws.volume, draws.rejections)
      && r.value.strength == ChochStrength(|r.value.factors|, draws.bonus)
      && (r.value.bearish <==> data.trend == "bullish")
      && ChochLevels(data.candles, r.value)
      && 10 <= r.value.strength <= 95
      && (Stretched(data) ==> "rsi_divergence" in r.value.factors)
      && r.value.timestamp == data.candles[|data.candles| - draws.back].timestamp
  {
    if |data.candles| < 30 then InsufficientData(InsufficientRecord(DetectChoch))
    else Completed(ChochDetected(data, draws))
  }

  /** `detect_choch` past its guard: a stretched market adds 0.3 to the detection draw. */
  function ChochDetected(data: Input, draws: ChochDraws): (c: Choch)
    requires |data.candles| >= 30 && 10 <= draws.bonus <= 25 && 1 <= draws.back <= 3
    ensures c.Choch? <==> ChochProbability(data, draws) > 0.5
    ensures c.Choch? ==>
      && c.factors == ChochFactors(Divergent(data), draws.volume, draws.rejections)
      && c.strength == ChochStrength(|c.factors|, draws.bonus)
      && (c.bearish <==> data.trend == "bullish")
      && ChochLevels(data.candles, c)
      && 10 <= c.strength <= 95
      && (Stretched(data) ==> "rsi_divergence" in c.factors)
      && c.timestamp == data.candles[|data.candles| - draws.back].timestamp
  {
    if ChochProbability(data, draws) <= 0.5 then NoChoch
    else ChochAt(data.candles, data.trend == "bullish", Divergent(data), draws)
  }

  /**
   * The failure point is the extreme of the first ten of the last 15
   * candles and the trigger the opposite extreme of the last five: highest
   * then lowest for a bearish change, lowest then highest for a bullish one.
   */
  ghost predicate ChochLevels(candles: seq<Candle>, c: Choch)
    requires c.Choch? && |candles| >= 15
  {
    var first := candles[|candles| - 15..|candles| - 5];
    var rest := candles[|candles| - 5..];
    && (c.bearish ==> IsHighest(c.failurePoint, first) && IsLowest(c.triggerLevel, rest))
    && (!c.bearish ==> IsLowest(c.failurePoint, first) && IsHighest(c.triggerLevel, rest))
  }

  /** The CHoCH `detect_choch` reports once the detection has passed. */
  function ChochAt(candles: seq<Candle>, bearish: bool, divergence: bool, draws: ChochDraws): (c: Choch)
    requires |candles| >= 15 && 10 <= draws.bonus <= 25 && 1 <= draws.back <= 3
    ensures c.Choch? && c.bearish == bearish && ChochLevels(candles, c)
    ensures 10 <= c.strength <= 95
    ensures divergence ==> "rsi_divergence" in c.factors
    ensures c.factors == ChochFactors(divergence, draws.volume, draws.rejections)
    ensures c.strength == ChochStrength(|c.factors|, draws.bonus)
    ensures c.timestamp == candles[|candles| - draws.back].timestamp
  {
    var recent := Last(candles, 15);
    var first := Slice(recent, None, Some(10));
    var rest := Slice(recent, Some(10), None);
    assert first == candles[|candles| - 15..|candles| - 5] && rest == candles[|candles| - 5..];
    var failure := if bearish then HighestHigh(first) else LowestLow(first);
    var trigger := if bearish then LowestLow(rest) else HighestHigh(rest);
    var factors := ChochFactors(divergence, draws.volume, draws.rejections);
    Choch(bearish, failure, trigger, ChochStrength(|factors|, draws.bonus), factors,
          candles[|candles| - draws.back].timestamp)
  }

  /** The confirming factors: RSI divergence, volume above 0.5, rejections above 0.6, in that order. */
  function ChochFactors(divergence: bool, volume: real, rejections: real): (f: seq<string>)
    ensures |f| <= 3
    ensures "rsi_divergence" in f <==> divergence
    ensures "volume_confirmation" in f <==> volume > 0.5
    ensures "multiple_rejections" in f <==> rejections > 0.6
    ensures |f| == (if divergence then 1 else 0) + (if volume > 0.5 then 1 else 0) + (if rejections > 0.6 then 1 else 0)
  {
    (if divergence then ["rsi_divergence"] else [])
    + (if volume > 0.5 then ["volume_confirmation"] else [])
    + (if rejections > 0.6 then ["multiple_rejections"] else [])
  }

  /** `min(95, len(factors) * 25 + bonus)`: with up to three factors and a bonus from 10 to 25, between 10 and 95. */
  function ChochStrength(count: nat, bonus: int): (s: int)
    requires count <= 3 && 10 <= bonus <= 25
    ensures 10 <= s <= 95
  {
    var score := count * 25 + bonus;
    if score < 95 then score else 95
  }

  // ---------------------------------------------------------------- MSB

  /** `random.random()` for the detection and `random.randint(70, 95)` for the momentum. */
  datatype MsbDraws = MsbDraws(probability: real, momentum: int)

  datatype Msb = NoMsb | Msb(bullish: bool, level: real, breakDistancePips: real, momentum: int)

  /**
   * `detect_market_structure_break`: the level is the extreme of the first
   * 15 of the last 25 candles, and the break distance in pips is how far the
   * current price is from it, whichever the direction. Nothing raises once
   * the guard has passed.
   */
  function MarketStructureBreak(data: Input, draws: MsbDraws): (r: Outcome<Msb>)
    ensures r.InsufficientData? <==> |data.candles| < 25
    ensures r.InsufficientData? ==> r.record == InsufficientRecord(DetectMarketStructureBreak)
    ensures !r.Raised?
    ensures r.Completed? ==> (r.value.Msb? <==> draws.probability > 0.6)
    ensures r.Completed? && r.value.Msb? ==> r.value.momentum == draws.momentum
    ensures r.Completed? && r.value.Msb? ==>
      var n := |data.candles|;
      var window := data.candles[n - 25..n - 10];
      && (r.value.bullish <==> data.trend == "bullish")
      && (r.value.bullish ==> IsHighest(r.value.level, window))
      && (!r.value.bullish ==> IsLowest(r.value.level, window))
      && r.value.breakDistancePips == Abs(data.currentPrice - r.value.level) * 10000.0
  {
    var n := |data.candles|;
    if n < 25 then InsufficientData(InsufficientRecord(DetectMarketStructureBreak))
    else if draws.probability <= 0.6 then Completed(NoMsb)
    else
      var bullish := data.trend == "bullish";
      var window := Slice(Last(data.candles, 25), None, Some(15));
      assert window == data.candles[n - 25..n - 10];
      var level := if bullish then HighestHigh(window) else LowestLow(window);
      var breakDistance := if bullish then data.currentPrice - level else level - data.currentPrice;
      Completed(Msb(bullish, level, Abs(breakDistance) * 10000.0, draws.momentum))
  }
}
