/**
 * The scans that look for gaps between neighbouring candles: fair value
 * gaps (`identify_fair_value_gaps`), imbalances (`detect_imbalances`) and
 * inefficient zones (`detect_inefficiencies`). Each walks back from the end
 * of the list, consults one random gate per step, and reports a truncated
 * list with the full count.
 */
module SmcGaps {

  import opened Common
  import opened MarketData
  import opened Registry
  import opened SmcGuards
  import opened SmcLists

  // ---------------------------------------------------------------- fair value gaps

  /** One step's draws: the gate of the bullish test, the gate of the bearish test, `random.randint(0, 100)` for the fill. */
  datatype GapDraw = GapDraw(bullishGate: real, bearishGate: real, fill: int)

  datatype Gap = Gap(bullish: bool, high: real, low: real, midpoint: real, sizePips: real,
                     fill: int, distancePips: real, timestamp: int)

  function GapDistance(g: Gap): real
  {
    g.distancePips
  }

  /**
   * `g` is the gap of the three candles ending at `i`: the first candle's
   * high below the third one's low (bullish) or its low above the third
   * one's high (bearish), by more than 3 pips.
   */
  predicate GapAt(data: Input, i: int, g: Gap)
    requires 2 <= i < |data.candles|
  {
    var c1 := data.candles[i - 2];
    var c3 := data.candles[i];
    && (g.bullish ==> c1.high < c3.low && g.high == c3.low && g.low == c1.high)
    && (!g.bullish ==> c1.low > c3.high && g.high == c1.low && g.low == c3.high)
    && g.low < g.midpoint < g.high && g.midpoint == (g.high + g.low) / 2.0
    && g.sizePips == (g.high - g.low) * 10000.0 && g.sizePips > 3.0
    && g.distancePips == Abs(data.currentPrice - g.midpoint) * 10000.0
    && g.timestamp == data.candles[i - 1].timestamp
  }

  /**
   * The gap the step at `i` records, if any. A bullish gap is recorded
   * exactly when its pattern holds, its gate passes and it spans more than
   * 3 pips; otherwise a bearish one likewise.
   */
  function GapStep(data: Input, i: int, d: GapDraw): (r: Option<Gap>)
    requires 2 <= i < |data.candles|
    ensures r.Some? ==> GapAt(data, i, r.value) && r.value.fill == d.fill
    ensures r.Some? && r.value.bullish <==>
      && data.candles[i - 2].high < data.candles[i].low && d.bullishGate > 0.7
      && (data.candles[i].low - data.candles[i - 2].high) * 10000.0 > 3.0
    ensures r.Some? && !r.value.bullish <==>
      && !(data.candles[i - 2].high < data.candles[i].low && d.bullishGate > 0.7)
      && data.candles[i - 2].low > data.candles[i].high && d.bearishGate > 0.7
      && (data.candles[i - 2].low - data.candles[i].high) * 10000.0 > 3.0
  {
    var c1 := data.candles[i - 2];
    var c3 := data.candles[i];
    var found :=
      if c1.high < c3.low && d.bullishGate > 0.7 then Some((true, c3.low, c1.high))
      else if c1.low > c3.high && d.bearishGate > 0.7 then Some((false, c1.low, c3.high))
      else None;
    if found.None? then None
    else
      var (bullish, high, low) := found.value;
      if (high - low) * 10000.0 > 3.0 then
        var mid := (high + low) / 2.0;
        Some(Gap(bullish, high, low, mid, (high - low) * 10000.0, d.fill,
                 Abs(data.currentPrice - mid) * 10000.0, data.candles[i - 1].timestamp))
      else None
  }

  /** Step `k` of the scan looks at `i = len - 3 - k`; below 2 the scan has stopped. */
  function GapStepAt(data: Input, draws: seq<GapDraw>, k: nat): Option<Gap>
    requires k < |draws|
  {
    var i := |data.candles| - 3 - k;
    if i < 2 then None else GapStep(data, i, draws[k])
  }

  /** The 27 steps of the scan. */
  function GapSteps(data: Input, draws: seq<GapDraw>): (steps: seq<Option<Gap>>)
    requires |draws| == 27
    ensures |steps| == 27 && forall k :: 0 <= k < 27 ==> steps[k] == GapStepAt(data, draws, k)
  {
    seq(27, k requires 0 <= k < 27 => GapStepAt(data, draws, k))
  }

  /** The gaps the scan finds, in the order found. */
  function FoundGaps(data: Input, draws: seq<GapDraw>): seq<Gap>
    requires |draws| == 27
  {
    Collect(GapSteps(data, draws))
  }

  /** The step at `i`, which the scan reaches from `len - 3` down to `len - 29` and not below 2, records `g`. */
  predicate GapFoundAt(data: Input, draws: seq<GapDraw>, i: int, g: Gap)
    requires |draws| == 27
  {
    var n := |data.candles|;
    n - 29 <= i <= n - 3 && 2 <= i && GapStep(data, i, draws[n - 3 - i]) == Some(g)
  }

  /** A gap is found exactly when a step of the scan records it. */
  lemma FoundGapsMembers(data: Input, draws: seq<GapDraw>)
    requires |draws| == 27
    ensures |FoundGaps(data, draws)| <= 27
    ensures forall g :: g in FoundGaps(data, draws) <==> exists i :: GapFoundAt(data, draws, i, g)
  {
    var n := |data.candles|;
    var steps := GapSteps(data, draws);
    CollectMembers(steps);
    forall g | g in FoundGaps(data, draws)
      ensures exists i :: GapFoundAt(data, draws, i, g)
    {
      var k :| 0 <= k < 27 && steps[k] == Some(g);
      assert GapFoundAt(data, draws, n - 3 - k, g);
    }
    forall g | exists i :: GapFoundAt(data, draws, i, g)
      ensures g in FoundGaps(data, draws)
    {
      var i :| GapFoundAt(data, draws, i, g);
      assert steps[n - 3 - i] == Some(g);
    }
  }

  /** What `identify_fair_value_gaps` returns past its guard. */
  datatype GapReport = GapReport(shown: seq<Gap>, total: nat, nearest: Option<Gap>)

  /**
   * The loop of `identify_fair_value_gaps`: `i` from `len - 3` down to
   * `len - 29`, stopping below 2, one draw per step; the gaps recorded are
   * those found, in order.
   */
  method ScanGaps(data: Input, draws: seq<GapDraw>) returns (gaps: seq<Gap>)
    requires |draws| == 27
    ensures gaps == FoundGaps(data, draws)
  {
    ghost var steps := GapSteps(data, draws);
    var n := |data.candles|;
    gaps := [];
    var k := 0;
    while k < 27
      invariant 0 <= k <= 27
      invariant gaps == Collect(steps[..k])
    {
      var i := n - 3 - k;
      if i < 2 {
        assert forall j :: k <= j < 27 ==> steps[j] == None;
        CollectStops(steps, k);
        return;
      }
      var step := GapStep(data, i, draws[k]);
      assert steps[k] == step;
      if step.Some? {
        CollectAppend(steps, k, gaps, step.value);
        gaps := gaps + [step.value];
      } else {
        CollectSkip(steps, k, gaps);
      }
      k := k + 1;
    }
    assert steps[..27] == steps;
  }

  /**
   * The report of `identify_fair_value_gaps` on the gaps found: the first
   * four of the stable sort by distance, which are nearest gaps, the count
   * of all of them, and the head of the sorted list, which is no farther
   * than any gap.
   */
  function GapSummary(found: seq<Gap>): (report: GapReport)
    ensures report.total == |found|
    ensures report.shown == Take(SortBy(found, GapDistance), 4)
    ensures SortedBy(report.shown, GapDistance)
    ensures multiset(report.shown) <= multiset(found)
    ensures forall g, h :: g in multiset(report.shown) && h in multiset(found) - multiset(report.shown) ==>
      GapDistance(g) <= GapDistance(h)
    ensures report.nearest.None? <==> found == []
    ensures report.nearest.Some? ==>
      report.nearest.value in found &&
      forall j :: 0 <= j < |found| ==> GapDistance(report.nearest.value) <= GapDistance(found[j])
  {
    var sorted := SortBy(found, GapDistance);
    NearestOfSortedIsClosest(found, GapDistance);
    ShownAreNearest(found, GapDistance, 4);
    PrefixIsSorted(sorted, GapDistance, Take(sorted, 4));
    GapReport(Take(sorted, 4), |found|, Nearest(sorted))
  }

  /**
   * `identify_fair_value_gaps`: under 20 candles the insufficient-data
   * record; otherwise the report on the gaps the scan finds.
   */
  method FairValueGaps(data: Input, draws: seq<GapDraw>) returns (r: Outcome<GapReport>)
    requires |draws| == 27
    ensures r.InsufficientData? <==> |data.candles| < 20
    ensures r.InsufficientData? ==> r.record == InsufficientRecord(IdentifyFairValueGaps)
    ensures !r.Raised?
    ensures r.Completed? ==> r.value == GapSummary(FoundGaps(data, draws))
  {
    if |data.candles| < 20 {
      return InsufficientData(InsufficientRecord(IdentifyFairValueGaps));
    }
    var gaps := ScanGaps(data, draws);
    return Completed(GapSummary(gaps));
  }

  // ---------------------------------------------------------------- imbalances

  datatype Imbalance = Imbalance(bullish: bool, high: real, low: real, sizePips: real, timestamp: int,
                                 rebalance: int)

  /**
   * One step of `detect_imbalances` as written, once its gate has passed: a
   * close above the previous high is bullish with the zone from the
   * previous high to this candle's low, a close below the previous low
   * bearish with the zone from the previous low to this candle's high, and
   * the size is the absolute distance between the two bounds.
   */
  function ImbalanceAsWritten(prev: Candle, curr: Candle, timestamp: int, rebalance: int): (r: Option<Imbalance>)
    ensures r.Some? ==> r.value.timestamp == timestamp && r.value.rebalance == rebalance
    ensures r.Some? ==> r.value.sizePips == Abs(r.value.high - r.value.low) * 10000.0 > 2.0
    ensures r.Some? && r.value.bullish ==> curr.close > prev.high && r.value.low == prev.high && r.value.high == curr.low
    ensures r.Some? && !r.value.bullish ==> curr.close < prev.low && r.value.high == prev.low && r.value.low == curr.high
  {
    var kind :=
      if curr.close > prev.high then Some((true, curr.low, prev.high))
      else if curr.close < prev.low then Some((false, prev.low, curr.high))
      else None;
    if kind.None? then None
    else
      var (bullish, high, low) := kind.value;
      var size := Abs(high - low) * 10000.0;
      if size > 2.0 then Some(Imbalance(bullish, high, low, size, timestamp, rebalance)) else None
  }

  /**
   * As written, a candle that closes above the previous high but whose low
   * reaches back below it is reported as a bullish imbalance whose upper
   * bound lies under its lower bound: prev 1.0980-1.1000, then a candle
   * with low 1.0990 closing at 1.1010 gives the zone "1.0990 high, 1.1000
   * low" of 10 pips.
   */
  lemma InvertedImbalanceAsWritten()
    ensures exists prev: Candle, curr: Candle ::
      && WellFormed(prev) && WellFormed(curr)
      && var r := ImbalanceAsWritten(prev, curr, curr.timestamp, 70);
         r.Some? && r.value.bullish && r.value.high < r.value.low
  {
    var prev := Candle(0, 1.0990, 1.1000, 1.0980, 1.0995, 1000.0);
    var curr := Candle(60000, 1.0995, 1.1015, 1.0990, 1.1010, 1000.0);
    var r := ImbalanceAsWritten(prev, curr, curr.timestamp, 70);
    assert Abs(r.value.high - r.value.low) == 0.0010;
    assert WellFormed(prev) && WellFormed(curr);
    assert r.Some? && r.value.bullish && r.value.high < r.value.low;
    assert (&& WellFormed(prev) && WellFormed(curr)
            && var r' := ImbalanceAsWritten(prev, curr, curr.timestamp, 70);
               r'.Some? && r'.value.bullish && r'.value.high < r'.value.low);
  }

  /**
   * One step of `detect_imbalances` as its comment intends ("gap up or gap
   * down"): the zone is recorded only when it is a real gap of more than 2
   * pips, its upper bound above its lower one.
   */
  function ImbalanceStep(prev: Candle, curr: Candle, timestamp: int, rebalance: int): (r: Option<Imbalance>)
    ensures r.Some? ==> r.value.low < r.value.high && r.value.sizePips == (r.value.high - r.value.low) * 10000.0 > 2.0
    ensures r.Some? && r.value.bullish ==> curr.close > prev.high && prev.high < curr.low
    ensures r.Some? && !r.value.bullish ==> curr.close < prev.low && curr.high < prev.low
    ensures r.Some? ==> r == ImbalanceAsWritten(prev, curr, timestamp, rebalance)
    ensures ImbalanceAsWritten(prev, curr, timestamp, rebalance).Some? &&
            ImbalanceAsWritten(prev, curr, timestamp, rebalance).value.low < ImbalanceAsWritten(prev, curr, timestamp, rebalance).value.high
            ==> r == ImbalanceAsWritten(prev, curr, timestamp, rebalance)
  {
    var kind :=
      if curr.close > prev.high then Some((true, curr.low, prev.high))
      else if curr.close < prev.low then Some((false, prev.low, curr.high))
      else None;
    if kind.None? then None
    else
      var (bullish, high, low) := kind.value;
      var size := (high - low) * 10000.0;
      if size > 2.0 then Some(Imbalance(bullish, high, low, size, timestamp, rebalance)) else None
  }

  /** One step's draws: the 20% gate and `random.randint(60, 85)` for the rebalance probability. */
  datatype ImbalanceDraw = ImbalanceDraw(gate: real, rebalance: int)

  /**
   * Step `k` of `detect_imbalances` looks at candles `i - 1` and `i` for
   * `i = len - 2 - k` (stopping below 1) and, when its gate passes, records
   * the zone as written, stamped with candle `i` and carrying the step's
   * drawn rebalance probability.
   */
  function ImbalanceStepAt(candles: seq<Candle>, draws: seq<ImbalanceDraw>, k: nat): Option<Imbalance>
    requires k < |draws|
  {
    var i := |candles| - 2 - k;
    if i < 1 || draws[k].gate <= 0.8 then None
    else ImbalanceAsWritten(candles[i - 1], candles[i], candles[i].timestamp, draws[k].rebalance)
  }

  /** The 23 steps of the scan. */
  function ImbalanceSteps(candles: seq<Candle>, draws: seq<ImbalanceDraw>): (steps: seq<Option<Imbalance>>)
    requires |draws| == 23
    ensures |steps| == 23 && forall k :: 0 <= k < 23 ==> steps[k] == ImbalanceStepAt(candles, draws, k)
  {
    seq(23, k requires 0 <= k < 23 => ImbalanceStepAt(candles, draws, k))
  }

  /** The imbalances the scan finds, in the order found. */
  function FoundImbalances(candles: seq<Candle>, draws: seq<ImbalanceDraw>): seq<Imbalance>
    requires |draws| == 23
  {
    Collect(ImbalanceSteps(candles, draws))
  }

  /** The step at `i`, which the scan reaches from `len - 2` down to `len - 24` and not below 1, records `m`. */
  predicate ImbalanceFoundAt(candles: seq<Candle>, draws: seq<ImbalanceDraw>, i: int, m: Imbalance)
    requires |draws| == 23
  {
    var n := |candles|;
    && n - 24 <= i <= n - 2 && 1 <= i && draws[n - 2 - i].gate > 0.8
    && ImbalanceAsWritten(candles[i - 1], candles[i], candles[i].timestamp, draws[n - 2 - i].rebalance) == Some(m)
  }

  /**
   * An imbalance is found exactly when a step whose gate passes sees one
   * between its two candles; at most 23 are found.
   */
  lemma FoundImbalancesMembers(candles: seq<Candle>, draws: seq<ImbalanceDraw>)
    requires |draws| == 23
    ensures |FoundImbalances(candles, draws)| <= 23
    ensures forall m :: m in FoundImbalances(candles, draws) <==> exists i :: ImbalanceFoundAt(candles, draws, i, m)
  {
    var n := |candles|;
    var steps := ImbalanceSteps(candles, draws);
    CollectMembers(steps);
    forall m | m in FoundImbalances(candles, draws)
      ensures exists i :: ImbalanceFoundAt(candles, draws, i, m)
    {
      var k :| 0 <= k < 23 && steps[k] == Some(m);
      assert ImbalanceFoundAt(candles, draws, n - 2 - k, m);
    }
    forall m | exists i :: ImbalanceFoundAt(candles, draws, i, m)
      ensures m in FoundImbalances(candles, draws)
    {
      var i :| ImbalanceFoundAt(candles, draws, i, m);
      assert steps[n - 2 - i] == Some(m);
    }
  }

  /**
   * `detect_imbalances`: under 25 candles the insufficient-data record;
   * otherwise the first three imbalances found, as written, and the count
   * of all of them.
   */
  method Imbalances(data: Input, draws: seq<ImbalanceDraw>) returns (r: Outcome<Report<Imbalance>>)
    requires |draws| == 23
    ensures r.InsufficientData? <==> |data.candles| < 25
    ensures r.InsufficientData? ==> r.record == InsufficientRecord(DetectImbalances)
    ensures !r.Raised?
    ensures r.Completed? ==>
      && r.value.total == |FoundImbalances(data.candles, draws)|
      && r.value.shown == Take(FoundImbalances(data.candles, draws), 3)
  {
    var n := |data.candles|;
    if n < 25 {
      return InsufficientData(InsufficientRecord(DetectImbalances));
    }
    ghost var steps := ImbalanceSteps(data.candles, draws);
    var found: seq<Imbalance> := [];
    var k := 0;
    while k < 23
      invariant 0 <= k <= 23
      invariant found == Collect(steps[..k])
    {
      var i := n - 2 - k;
      if draws[k].gate > 0.8 {
        var step := ImbalanceAsWritten(data.candles[i - 1], data.candles[i], data.candles[i].timestamp,
                                      draws[k].rebalance);
        assert steps[k] == step;
        if step.Some? {
          CollectAppend(steps, k, found, step.value);
          found := found + [step.value];
        } else {
          CollectSkip(steps, k, found);
        }
      } else {
        assert steps[k] == None;
        CollectSkip(steps, k, found);
      }
      k := k + 1;
    }
    assert steps[..23] == steps;
    return Completed(Summarize(found, 3));
  }

  // ---------------------------------------------------------------- inefficiencies

  datatype Inefficiency = Inefficiency(high: real, low: real, midpoint: real,
                                       timestampStart: int, timestampEnd: int, score: int)

  /** `z` spans the five candles `candles[i:i+5]`. */
  predicate InefficiencyAt(candles: seq<Candle>, i: int, z: Inefficiency)
    requires 0 <= i && i + 5 <= |candles|
  {
    var window := candles[i..i + 5];
    && IsHighest(z.high, window) && IsLowest(z.low, window)
    && z.midpoint == (z.high + z.low) / 2.0
    && z.timestampStart == candles[i].timestamp && z.timestampEnd == candles[i + 4].timestamp
  }

  /** The zone spanned by the five candles from `i`, with its score. */
  function InefficiencyOver(candles: seq<Candle>, i: int, score: int): (z: Inefficiency)
    requires 0 <= i && i + 5 <= |candles|
    ensures InefficiencyAt(candles, i, z) && z.score == score
  {
    var window := candles[i..i + 5];
    var high := HighestHigh(window);
    var low := LowestLow(window);
    Inefficiency(high, low, (high + low) / 2.0, window[0].timestamp, window[4].timestamp, score)
  }

  /** One step's draws: the 15% gate and `random.randint(65, 90)` for the score. */
  datatype InefficiencyDraw = InefficiencyDraw(gate: real, score: int)

  /**
   * The step of `detect_inefficiencies` at `i`: from `i = 5` on, when its
   * gate passes, the zone of the five candles from `i`.
   */
  function InefficiencyStep(candles: seq<Candle>, i: int, d: InefficiencyDraw): (r: Option<Inefficiency>)
    requires i + 5 <= |candles|
    ensures r.Some? ==> 5 <= i && InefficiencyAt(candles, i, r.value) && r.value.score == d.score
  {
    if i < 5 || d.gate <= 0.85 then None else Some(InefficiencyOver(candles, i, d.score))
  }

  /** Step `k` of the scan looks at `i = len - 5 - k`. */
  function InefficiencyStepAt(candles: seq<Candle>, draws: seq<InefficiencyDraw>, k: nat): Option<Inefficiency>
    requires k < |draws|
  {
    InefficiencyStep(candles, |candles| - 5 - k, draws[k])
  }

  /** The 25 steps of the scan. */
  function InefficiencySteps(candles: seq<Candle>, draws: seq<InefficiencyDraw>): (steps: seq<Option<Inefficiency>>)
    requires |draws| == 25
    ensures |steps| == 25 && forall k :: 0 <= k < 25 ==> steps[k] == InefficiencyStepAt(candles, draws, k)
  {
    seq(25, k requires 0 <= k < 25 => InefficiencyStepAt(candles, draws, k))
  }

  /** The zones the scan finds, in the order found. */
  function FoundInefficiencies(candles: seq<Candle>, draws: seq<InefficiencyDraw>): seq<Inefficiency>
    requires |draws| == 25
  {
    Collect(InefficiencySteps(candles, draws))
  }

  /** The step at `i`, which the scan reaches from `len - 5` down to `len - 29` and not below 5, records `z`. */
  predicate InefficiencyFoundAt(candles: seq<Candle>, draws: seq<InefficiencyDraw>, i: int, z: Inefficiency)
    requires |draws| == 25
  {
    var n := |candles|;
    && n - 29 <= i <= n - 5 && InefficiencyStep(candles, i, draws[n - 5 - i]) == Some(z)
  }

  /** The zone a step records was spanned at the position that step looks at. */
  lemma InefficiencyStepFound(candles: seq<Candle>, draws: seq<InefficiencyDraw>, k: nat)
    requires |draws| == 25 && k < 25 && InefficiencyStepAt(candles, draws, k).Some?
    ensures InefficiencyFoundAt(candles, draws, |candles| - 5 - k, InefficiencyStepAt(candles, draws, k).value)
  {
    var i := |candles| - 5 - k;
    assert |candles| - 5 - i == k;
  }

  /** A zone found at a position is what the step looking at it records. */
  lemma InefficiencyFoundStep(candles: seq<Candle>, draws: seq<InefficiencyDraw>, i: int, z: Inefficiency)
    requires |draws| == 25 && InefficiencyFoundAt(candles, draws, i, z)
    ensures 0 <= |candles| - 5 - i < 25 && InefficiencyStepAt(candles, draws, |candles| - 5 - i) == Some(z)
  {
    var k := |candles| - 5 - i;
    assert |candles| - 5 - k == i;
  }

  /**
   * A zone is found exactly when a step whose gate passes spans it; at
   * most 25 are found.
   */
  lemma FoundInefficienciesMembers(candles: seq<Candle>, draws: seq<InefficiencyDraw>)
    requires |draws| == 25
    ensures |FoundInefficiencies(candles, draws)| <= 25
    ensures forall z :: z in FoundInefficiencies(candles, draws) <==> exists i :: InefficiencyFoundAt(candles, draws, i, z)
  {
    var steps := InefficiencySteps(candles, draws);
    CollectMembers(steps);
    forall z | z in FoundInefficiencies(candles, draws)
      ensures exists i :: InefficiencyFoundAt(candles, draws, i, z)
    {
      var k :| 0 <= k < 25 && steps[k] == Some(z);
      InefficiencyStepFound(candles, draws, k);
    }
    forall z | exists i :: InefficiencyFoundAt(candles, draws, i, z)
      ensures z in FoundInefficiencies(candles, draws)
    {
      var i :| InefficiencyFoundAt(candles, draws, i, z);
      InefficiencyFoundStep(candles, draws, i, z);
    }
  }

  /**
   * The loop of `detect_inefficiencies`: `i` from `len - 5` down to
   * `len - 29`, stopping below 5; the zones recorded are those found, in
   * order.
   */
  method ScanInefficiencies(candles: seq<Candle>, draws: seq<InefficiencyDraw>) returns (found: seq<Inefficiency>)
    requires |draws| == 25
    ensures found == FoundInefficiencies(candles, draws)
  {
    ghost var steps := InefficiencySteps(candles, draws);
    var n := |candles|;
    found := [];
    var k := 0;
    while k < 25
      invariant 0 <= k <= 25
      invariant found == Collect(steps[..k])
    {
      var i := n - 5 - k;
      if i < 5 {
        assert forall j :: k <= j < 25 ==> steps[j] == None;
        CollectStops(steps, k);
        return;
      }
      if draws[k].gate > 0.85 {
        var z := InefficiencyOver(candles, i, draws[k].score);
        assert steps[k] == Some(z);
        CollectAppend(steps, k, found, z);
        found := found + [z];
      } else {
        assert steps[k] == None;
        CollectSkip(steps, k, found);
      }
      k := k + 1;
    }
    assert steps[..25] == steps;
  }

  /**
   * `detect_inefficiencies`: under 30 candles the insufficient-data
   * record; otherwise the first two zones found and the count of all of
   * them.
   */
  method Inefficiencies(data: Input, draws: seq<InefficiencyDraw>) returns (r: Outcome<Report<Inefficiency>>)
    requires |draws| == 25
    ensures r.InsufficientData? <==> |data.candles| < 30
    ensures r.InsufficientData? ==> r.record == InsufficientRecord(DetectInefficiencies)
    ensures !r.Raised?
    ensures r.Completed? ==>
      && r.value.total == |FoundInefficiencies(data.candles, draws)|
      && r.value.shown == Take(FoundInefficiencies(data.candles, draws), 2)
  {
    if |data.candles| < 30 {
      return InsufficientData(InsufficientRecord(DetectInefficiencies));
    }
    var found := ScanInefficiencies(data.candles, draws);
    return Completed(Summarize(found, 2));
  }
}
