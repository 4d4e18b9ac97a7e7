/**
 * Order blocks (`identify_order_blocks`), the trade setup and recommendation
 * built from them (`_generate_order_block_setup`,
 * `_generate_ob_recommendation`) and breaker blocks
 * (`identify_breaker_blocks`).
 */
module SmcBlocks {

  import opened Common
  import opened MarketData
  import opened Registry
  import opened SmcGuards
  import opened SmcLists

  datatype Zone = Demand | Supply

  datatype Direction = Buy | Sell

  /** A trade planned from a zone; the zone's risk-to-reward ratio is always 2.5. */
  datatype Setup = Setup(direction: Direction, entry: real, stopLoss: real, takeProfit: real)

  const RiskReward: real := 2.5

  /**
   * `_generate_order_block_setup`: enter at the middle of the zone; a demand
   * zone is bought with the stop just under the zone, a supply zone sold
   * with the stop just over it, and the target lies 2.5 risks away from the
   * entry on the other side.
   */
  function OrderBlockSetup(kind: Zone, zoneHigh: real, zoneLow: real): (s: Setup)
    ensures s.direction == Buy <==> kind == Demand
    ensures zoneLow <= zoneHigh ==> zoneLow <= s.entry <= zoneHigh
    ensures 0.0 < zoneLow <= zoneHigh && kind == Demand ==>
      && s.stopLoss < zoneLow && s.stopLoss < s.entry < s.takeProfit
      && s.takeProfit - s.entry == RiskReward * (s.entry - s.stopLoss)
    ensures 0.0 < zoneLow <= zoneHigh && kind == Supply ==>
      && zoneHigh < s.stopLoss && s.takeProfit < s.entry < s.stopLoss
      && s.entry - s.takeProfit == RiskReward * (s.stopLoss - s.entry)
  {
    var entry := (zoneHigh + zoneLow) / 2.0;
    match kind
    case Demand =>
      var stop := zoneLow * 0.9998;
      Setup(Buy, entry, stop, entry + (entry - stop) * RiskReward)
    case Supply =>
      var stop := zoneHigh * 1.0002;
      Setup(Sell, entry, stop, entry - (stop - entry) * RiskReward)
  }

  /** One round's draws: the zone-type draw, the candle picked in the window, `random.randint(60, 95)` and the tested draw. */
  datatype OrderBlockDraw = OrderBlockDraw(kindDraw: real, pick: nat, strength: int, tested: real)

  datatype OrderBlock = OrderBlock(
    kind: Zone, zoneHigh: real, zoneLow: real, priceLevel: real, strength: int,
    tested: bool, isFresh: bool, distancePips: real, timestamp: int, setup: Setup)

  function BlockDistance(b: OrderBlock): real
  {
    b.distancePips
  }

  /** With the trend the zone is a demand zone 70% of the time, against it a supply zone. */
  function BlockKind(trend: string, draw: real): (k: Zone)
    ensures trend == "bullish" ==> (k == Demand <==> draw > 0.3)
    ensures trend != "bullish" ==> (k == Supply <==> draw > 0.3)
  {
    if trend == "bullish" then (if draw > 0.3 then Demand else Supply)
    else if draw > 0.3 then Supply else Demand
  }

  /**
   * `candles[-end:-start]` with `start = 10 + 15 * i` and `end = start + 15`,
   * or `candles[-end:]` once `start` reaches the length of the list.
   */
  function OrderBlockWindow(candles: seq<Candle>, i: nat): seq<Candle>
  {
    var start := 10 + 15 * i;
    if start < |candles| then Slice(candles, Some(-(start + 15)), Some(-start))
    else Slice(candles, Some(-(start + 15)), None)
  }

  /**
   * Past the guard every round's window is `candles[lo..hi]`, non-empty, and
   * ends `10 + 15 * i` candles before the last unless that reaches past the
   * start of the list, in which case it is the whole list.
   */
  lemma OrderBlockWindowShape(candles: seq<Candle>, i: nat)
    requires |candles| >= 50 && i <= 3
    ensures var n := |candles|;
            var start := 10 + 15 * i;
            var lo := if n < start + 15 then 0 else n - start - 15;
            && (start < n ==> OrderBlockWindow(candles, i) == candles[lo..n - start])
            && (start >= n ==> OrderBlockWindow(candles, i) == candles)
            && OrderBlockWindow(candles, i) != []
  {
  }

  /**
   * The block built on candle `base`: a demand zone stretches 0.05% below
   * the candle, a supply zone 0.05% above it, the price level is the
   * middle of the zone, and the block is fresh when the first candle equal
   * to `base` is among the last 19.
   */
  function OrderBlockOf(data: Input, base: Candle, kind: Zone, d: OrderBlockDraw): (b: OrderBlock)
    requires base in data.candles
    ensures b.kind == kind && b.timestamp == base.timestamp && b.strength == d.strength
    ensures kind == Demand ==> b.zoneHigh == base.high && b.zoneLow == base.low * 0.9995
    ensures kind == Supply ==> b.zoneHigh == base.high * 1.0005 && b.zoneLow == base.low
    ensures 0.0 <= base.low <= base.high ==> b.zoneLow <= b.priceLevel <= b.zoneHigh
    ensures b.distancePips == Abs(data.currentPrice - b.priceLevel) * 10000.0
    ensures b.tested <==> d.tested > 0.6
    ensures b.isFresh <==> |data.candles| - IndexOf(data.candles, base) < 20
    ensures b.setup == OrderBlockSetup(kind, b.zoneHigh, b.zoneLow)
  {
    var zoneHigh := if kind == Demand then base.high else base.high * 1.0005;
    var zoneLow := if kind == Demand then base.low * 0.9995 else base.low;
    var level := (zoneHigh + zoneLow) / 2.0;
    var age := |data.candles| - IndexOf(data.candles, base);
    OrderBlock(kind, zoneHigh, zoneLow, level, d.strength, d.tested > 0.6, age < 20,
               Abs(data.currentPrice - level) * 10000.0, base.timestamp,
               OrderBlockSetup(kind, zoneHigh, zoneLow))
  }

  /** `b` is the block round `i` builds with draw `d`. */
  predicate BlockOfRound(data: Input, i: nat, d: OrderBlockDraw, b: OrderBlock)
  {
    var window := OrderBlockWindow(data.candles, i);
    && d.pick < |window|
    && window[d.pick] in data.candles
    && b == OrderBlockOf(data, window[d.pick], BlockKind(data.trend, d.kindDraw), d)
  }

  /** Every candle of a round's window is a candle of the list. */
  lemma WindowCandleIn(candles: seq<Candle>, i: nat, k: nat)
    requires k < |OrderBlockWindow(candles, i)|
    ensures OrderBlockWindow(candles, i)[k] in candles
  {
  }

  /** The block round `i` builds on the candle its draw picks. */
  function RoundBlock(data: Input, i: nat, d: OrderBlockDraw): (b: OrderBlock)
    requires d.pick < |OrderBlockWindow(data.candles, i)|
    ensures BlockOfRound(data, i, d, b)
  {
    var window := OrderBlockWindow(data.candles, i);
    WindowCandleIn(data.candles, i, d.pick);
    OrderBlockOf(data, window[d.pick], BlockKind(data.trend, d.kindDraw), d)
  }

  /** The blocks of the rounds, one per round, in round order. */
  function RoundBlocks(data: Input, draws: seq<OrderBlockDraw>): (blocks: seq<OrderBlock>)
    requires forall i :: 0 <= i < |draws| ==> draws[i].pick < |OrderBlockWindow(data.candles, i)|
    ensures |blocks| == |draws| && forall i :: 0 <= i < |draws| ==> blocks[i] == RoundBlock(data, i, draws[i])
  {
    seq(|draws|, i requires 0 <= i < |draws| => RoundBlock(data, i, draws[i]))
  }

  /**
   * Only the first round, or a fourth round whose window has become the
   * whole list, can find a fresh block: the windows of the other rounds end
   * at least 25 candles before the last.
   */
  lemma {:induction false} LaterRoundsAreAged(data: Input, i: nat, d: OrderBlockDraw, b: OrderBlock)
    requires |data.candles| >= 50 && 1 <= i <= 3 && 10 + 15 * i < |data.candles|
    requires BlockOfRound(data, i, d, b)
    ensures !b.isFresh
  {
    var n := |data.candles|;
    var start := 10 + 15 * i;
    var lo := if n < start + 15 then 0 else n - start - 15;
    OrderBlockWindowShape(data.candles, i);
    var window := OrderBlockWindow(data.candles, i);
    var base := window[d.pick];
    assert data.candles[lo + d.pick] == base;
    var first := IndexOf(data.candles, base);
    assert first <= lo + d.pick;
  }

  /** What `_generate_ob_recommendation` advises, in the order it checks. */
  datatype Recommendation =
    | WaitForStructure
    | PriceNearZone(kind: Zone, level: real)
    | WaitForPullback(level: real)
    | WaitForRetest(level: real)
    | MonitorZone(kind: Zone, level: real)

  /**
   * `_generate_ob_recommendation`: nothing to advise without blocks; a first
   * block within 10 pips is watched for a reaction; otherwise a demand zone
   * in a bullish trend waits for a pullback, a supply zone in a bearish
   * trend waits for a retest, and any other zone is monitored.
   */
  function ObRecommendation(blocks: seq<OrderBlock>, trend: string): (r: Recommendation)
    ensures r.WaitForStructure? <==> blocks == []
    ensures !r.WaitForStructure? ==> r.level == blocks[0].priceLevel
    ensures r.PriceNearZone? ==> r.kind == blocks[0].kind
    ensures r.MonitorZone? ==> r.kind == blocks[0].kind
    ensures r.WaitForPullback? ==> blocks[0].kind == Demand && trend == "bullish"
    ensures r.WaitForRetest? ==> blocks[0].kind == Supply && trend == "bearish"
    ensures blocks != [] && blocks[0].distancePips < 10.0 ==> r.PriceNearZone?
  {
    if blocks == [] then WaitForStructure
    else
      var nearest := blocks[0];
      if nearest.distancePips < 10.0 then PriceNearZone(nearest.kind, nearest.priceLevel)
      else if nearest.kind == Demand && trend == "bullish" then WaitForPullback(nearest.priceLevel)
      else if nearest.kind == Supply && trend == "bearish" then WaitForRetest(nearest.priceLevel)
      else MonitorZone(nearest.kind, nearest.priceLevel)
  }

  /**
   * Over blocks sorted by distance, the advice is to watch for a reaction
   * exactly when some block lies within 10 pips, and any other advice names
   * the level of a block no farther than the rest.
   */
  lemma RecommendationOfSorted(blocks: seq<OrderBlock>, trend: string)
    requires SortedBy(blocks, BlockDistance)
    ensures ObRecommendation(blocks, trend).PriceNearZone? <==>
            exists k :: 0 <= k < |blocks| && blocks[k].distancePips < 10.0
    ensures blocks != [] ==>
            forall k :: 0 <= k < |blocks| ==> BlockDistance(blocks[0]) <= BlockDistance(blocks[k])
  {
    if blocks != [] && ObRecommendation(blocks, trend).PriceNearZone? {
      assert blocks[0].distancePips < 10.0;
    }
    if exists k :: 0 <= k < |blocks| && blocks[k].distancePips < 10.0 {
      var k :| 0 <= k < |blocks| && blocks[k].distancePips < 10.0;
      assert k == 0 || BlockDistance(blocks[0]) <= BlockDistance(blocks[k]);
    }
  }

  /** What `identify_order_blocks` returns past its guard. */
  datatype OrderBlockReport = OrderBlockReport(
    blocks: seq<OrderBlock>, total: nat, currentPrice: real,
    nearest: Option<OrderBlock>, recommendation: Recommendation)

  /** Every block of the rounds is the block of one of the rounds. */
  lemma RoundBlocksAreRounds(data: Input, draws: seq<OrderBlockDraw>)
    requires forall i :: 0 <= i < |draws| ==> draws[i].pick < |OrderBlockWindow(data.candles, i)|
    ensures forall b :: b in RoundBlocks(data, draws) ==>
              exists i :: 0 <= i < |draws| && BlockOfRound(data, i, draws[i], b)
  {
    var blocks := RoundBlocks(data, draws);
    forall b | b in blocks
      ensures exists i :: 0 <= i < |draws| && BlockOfRound(data, i, draws[i], b)
    {
      var j :| 0 <= j < |blocks| && blocks[j] == b;
      assert BlockOfRound(data, j, draws[j], b);
    }
  }

  /** The loop of `identify_order_blocks`: one block per round, appended in round order. */
  method BuildRoundBlocks(data: Input, draws: seq<OrderBlockDraw>) returns (blocks: seq<OrderBlock>)
    requires forall i :: 0 <= i < |draws| ==> draws[i].pick < |OrderBlockWindow(data.candles, i)|
    ensures blocks == RoundBlocks(data, draws)
  {
    ghost var all := RoundBlocks(data, draws);
    blocks := [];
    var i := 0;
    while i < |draws|
      invariant 0 <= i <= |draws| && blocks == all[..i]
    {
      var d := draws[i];
      var window := OrderBlockWindow(data.candles, i);
      var base := window[d.pick];
      WindowCandleIn(data.candles, i, d.pick);
      var kind := BlockKind(data.trend, d.kindDraw);
      var b := OrderBlockOf(data, base, kind, d);
      assert b == all[i];
      assert all[..i + 1] == all[..i] + [b];
      blocks := blocks + [b];
      i := i + 1;
    }
    assert blocks == all;
  }

  /**
   * `identify_order_blocks`: two to four rounds, round `i` building a block
   * on the picked candle of its window, then the blocks sorted by distance
   * with the nearest first and the advice taken from it. Past the guard
   * every window holds a candle, so every round yields a block and nothing
   * raises.
   */
  method OrderBlocks(data: Input, draws: seq<OrderBlockDraw>) returns (r: Outcome<OrderBlockReport>)
    requires 2 <= |draws| <= 4
    requires |data.candles| >= 50 ==>
      forall i :: 0 <= i < |draws| ==> draws[i].pick < |OrderBlockWindow(data.candles, i)|
    ensures r.InsufficientData? <==> |data.candles| < 50
    ensures r.InsufficientData? ==> r.record == InsufficientRecord(IdentifyOrderBlocks)
    ensures !r.Raised?
    ensures r.Completed? ==>
      var report := r.value;
      && |report.blocks| == |draws| == report.total
      && SortedBy(report.blocks, BlockDistance)
      && report.nearest == Nearest(report.blocks)
      && report.recommendation == ObRecommendation(report.blocks, data.trend)
      && report.currentPrice == data.currentPrice
      && report.blocks == SortBy(RoundBlocks(data, draws), BlockDistance)
      && forall b :: b in report.blocks ==>
           exists i :: 0 <= i < |draws| && BlockOfRound(data, i, draws[i], b)
  {
    if |data.candles| < 50 {
      return InsufficientData(InsufficientRecord(IdentifyOrderBlocks));
    }
    var blocks := BuildRoundBlocks(data, draws);
    RoundBlocksAreRounds(data, draws);
    var sorted := SortBy(blocks, BlockDistance);
    PrefixOfSorted(blocks, BlockDistance, sorted);
    return Completed(OrderBlockReport(sorted, |sorted|, data.currentPrice, Nearest(sorted),
                                      ObRecommendation(sorted, data.trend)));
  }

  // ---------------------------------------------------------------- breakers

  /** One round's draws: the original zone type and the candle picked in the window, and `random.randint(70, 90)`. */
  datatype BreakerDraw = BreakerDraw(original: Zone, pick: nat, strength: int)

  datatype Breaker = Breaker(original: Zone, current: Zone, zoneHigh: real, zoneLow: real,
                             flipTimestamp: int, strength: int)

  /** `candles[-lookback:-lookback+10]` with `lookback = 20 + 15 * i`. */
  function BreakerWindow(candles: seq<Candle>, i: nat): seq<Candle>
  {
    Slice(candles, Some(-(20 + 15 * i)), Some(-(20 + 15 * i) + 10))
  }

  /** Past the guard both possible rounds read ten candles. */
  lemma BreakerWindowShape(candles: seq<Candle>, i: nat)
    requires |candles| >= 40 && i <= 1
    ensures var n := |candles|;
            BreakerWindow(candles, i) == candles[n - 20 - 15 * i..n - 10 - 15 * i]
  {
  }

  /**
   * `identify_breaker_blocks`: zero to two rounds, each flipping the polarity
   * of a failed zone built on the picked candle of its window. Past the
   * guard every window holds ten candles, so every round yields a breaker.
   */
  method BreakerBlocks(data: Input, draws: seq<BreakerDraw>) returns (r: Outcome<seq<Breaker>>)
    requires |draws| <= 2
    requires forall i :: 0 <= i < |draws| ==> draws[i].pick < 10
    ensures r.InsufficientData? <==> |data.candles| < 40
    ensures r.InsufficientData? ==> r.record == InsufficientRecord(IdentifyBreakerBlocks)
    ensures !r.Raised?
    ensures r.Completed? ==>
      var n := |data.candles|;
      && |r.value| == |draws|
      && forall i :: 0 <= i < |draws| ==>
           var b := r.value[i];
           var base := data.candles[n - 20 - 15 * i + draws[i].pick];
           && b.original == draws[i].original && b.current != b.original
           && b.zoneHigh == base.high && b.zoneLow == base.low
           && b.flipTimestamp == base.timestamp && b.strength == draws[i].strength
  {
    var n := |data.candles|;
    if n < 40 {
      return InsufficientData(InsufficientRecord(IdentifyBreakerBlocks));
    }
    var breakers: seq<Breaker> := [];
    var i := 0;
    while i < |draws|
      invariant 0 <= i <= |draws| && |breakers| == i
      invariant forall j :: 0 <= j < i ==>
        var b := breakers[j];
        var base := data.candles[n - 20 - 15 * j + draws[j].pick];
        && b.original == draws[j].original && b.current != b.original
        && b.zoneHigh == base.high && b.zoneLow == base.low
        && b.flipTimestamp == base.timestamp && b.strength == draws[j].strength
    {
      var d := draws[i];
      BreakerWindowShape(data.candles, i);
      var window := BreakerWindow(data.candles, i);
      var base := window[d.pick];
      var current := if d.original == Demand then Supply else Demand;
      breakers := breakers + [Breaker(d.original, current, base.high, base.low, base.timestamp, d.strength)];
      i := i + 1;
    }
    return Completed(breakers);
  }
}
