/**
 * Price zones measured on the recent range: premium, equilibrium and
 * discount (`calculate_premium_discount_zones`), and the turtle soup
 * false-breakout setups (`identify_turtle_soup_setups`).
 */
module SmcZones {

  import opened Common
  import MarketData
  import opened Registry
  import opened SmcGuards

  // ---------------------------------------------------------------- premium / discount

  datatype Position = Premium | Equilibrium | Discount

  datatype Bias = Bullish | Bearish | Neutral

  /** The bands of the range: premium above equilibrium, discount below it, each 23.6% of the range away from the middle. */
  datatype Zones = Zones(
    swingHigh: real, premiumUpper: real, premiumLower: real, equilibrium: real,
    discountUpper: real, discountLower: real, swingLow: real,
    currentPrice: real, position: Position)

  datatype ZoneReport = ZoneReport(zones: Zones, rangeSizePips: real, bias: Bias)

  /** `trading_bias`: discount favours buying, premium selling. */
  function TradingBias(p: Position): (b: Bias)
    ensures b == Bullish <==> p == Discount
    ensures b == Bearish <==> p == Premium
  {
    match p
    case Discount => Bullish
    case Premium => Bearish
    case Equilibrium => Neutral
  }

  /**
   * `calculate_premium_discount_zones`: over the last 50 candles, the bands
   * nest from the swing low up to the swing high as soon as one candle has
   * its low at or under its high; the price is in the premium above the
   * premium band's lower edge, in the discount below the discount band's
   * upper edge, and at equilibrium in between.
   */
  method PremiumDiscountZones(data: Input) returns (r: Outcome<ZoneReport>)
    ensures r.InsufficientData? <==> |data.candles| < 50
    ensures r.InsufficientData? ==> r.record == InsufficientRecord(CalculatePremiumDiscountZones)
    ensures !r.Raised?
    ensures r.Completed? ==>
      var z := r.value.zones;
      var window := data.candles[|data.candles| - 50..];
      var price := data.currentPrice;
      && IsHighest(z.swingHigh, window) && IsLowest(z.swingLow, window)
      && z.premiumUpper == z.swingHigh && z.discountLower == z.swingLow
      && z.equilibrium == (z.swingHigh + z.swingLow) / 2.0
      && z.premiumLower - z.equilibrium == z.equilibrium - z.discountUpper
      && ((exists i :: 0 <= i < 50 && window[i].low <= window[i].high) ==>
            z.swingLow <= z.discountUpper <= z.equilibrium <= z.premiumLower <= z.swingHigh)
      && z.currentPrice == price
      && (z.position == Premium <==> price > z.equilibrium && price > z.premiumLower)
      && (z.position == Discount <==> price <= z.equilibrium && price < z.discountUpper)
      && (z.swingLow <= z.swingHigh ==>
            && (z.position == Premium <==> price > z.premiumLower)
            && (z.position == Discount <==> price < z.discountUpper)
            && (z.position == Equilibrium <==> z.discountUpper <= price <= z.premiumLower))
      && r.value.rangeSizePips == (z.swingHigh - z.swingLow) * 10000.0
      && r.value.bias == TradingBias(z.position)
  {
    if |data.candles| < 50 {
      return InsufficientData(InsufficientRecord(CalculatePremiumDiscountZones));
    }
    var recent := Last(data.candles, 50);
    var swingHigh := HighestHigh(recent);
    var swingLow := LowestLow(recent);
    var range := swingHigh - swingLow;
    var equilibrium := (swingHigh + swingLow) / 2.0;
    var premiumLower := equilibrium + range * 0.236;
    var discountUpper := equilibrium - range * 0.236;
    var position;
    if data.currentPrice > equilibrium {
      if data.currentPrice > premiumLower {
        position := Premium;
      } else {
        position := Equilibrium;
      }
    } else {
      if data.currentPrice < discountUpper {
        position := Discount;
      } else {
        position := Equilibrium;
      }
    }
    var zones := Zones(swingHigh, swingHigh, premiumLower, equilibrium, discountUpper, swingLow,
                       swingLow, data.currentPrice, position);
    return Completed(ZoneReport(zones, range * 10000.0, TradingBias(position)));
  }

  // ---------------------------------------------------------------- turtle soup

  /** The draws: the 30% gate, the side, and `random.randint(70, 90)` for the quality. */
  datatype TurtleDraw = TurtleDraw(gate: real, long: bool, quality: int)

  datatype TurtleSetup = TurtleSetup(long: bool, falseBreakLevel: real, entry: real,
                                     stopLoss: real, target: real, quality: int)

  const TurtleRiskReward: real := 3.0

  /**
   * The prices of a turtle soup trade at a false-break `level`: a long is
   * entered 0.05% above the level with the stop 0.05% below it, a short
   * mirrored, and the target lies three risks from the entry.
   */
  function TurtleSoupSetup(long: bool, level: real, quality: int): (s: TurtleSetup)
    ensures s.long == long && s.falseBreakLevel == level && s.quality == quality
    ensures level > 0.0 && long ==>
      && s.stopLoss < level < s.entry < s.target
      && s.target - s.entry == TurtleRiskReward * (s.entry - s.stopLoss)
    ensures level > 0.0 && !long ==>
      && s.target < s.entry < level < s.stopLoss
      && s.entry - s.target == TurtleRiskReward * (s.stopLoss - s.entry)
  {
    if long then
      var entry := level * 1.0005;
      var stop := level * 0.9995;
      TurtleSetup(true, level, entry, stop, entry + (entry - stop) * TurtleRiskReward, quality)
    else
      var entry := level * 0.9995;
      var stop := level * 1.0005;
      TurtleSetup(false, level, entry, stop, entry - (stop - entry) * TurtleRiskReward, quality)
  }

  /**
   * `identify_turtle_soup_setups`: at most one setup, made when the gate
   * passes; the false break is the lowest low (long) or highest high
   * (short) of the first ten of the last twenty candles.
   */
  function TurtleSoup(data: Input, d: TurtleDraw): (r: Outcome<seq<TurtleSetup>>)
    ensures r.InsufficientData? <==> |data.candles| < 30
    ensures r.InsufficientData? ==> r.record == InsufficientRecord(IdentifyTurtleSoupSetups)
    ensures !r.Raised?
    ensures r.Completed? ==> (|r.value| == 1 <==> d.gate > 0.7) && |r.value| <= 1
    ensures r.Completed? && |r.value| == 1 ==>
      var s := r.value[0];
      var n := |data.candles|;
      var window := data.candles[n - 20..n - 10];
      && s.long == d.long
      && (s.long ==> IsLowest(s.falseBreakLevel, window))
      && (!s.long ==> IsHighest(s.falseBreakLevel, window))
      && s == TurtleSoupSetup(d.long, s.falseBreakLevel, d.quality)
  {
    var n := |data.candles|;
    if n < 30 then InsufficientData(InsufficientRecord(IdentifyTurtleSoupSetups))
    else if d.gate <= 0.7 then Completed([])
    else
      var first := Slice(Last(data.candles, 20), None, Some(10));
      assert first == data.candles[n - 20..n - 10];
      var level := if d.long then LowestLow(first) else HighestHigh(first);
      Completed([TurtleSoupSetup(d.long, level, d.quality)])
  }
}
