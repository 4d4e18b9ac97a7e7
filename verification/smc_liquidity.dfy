/**
 * The liquidity detectors: sweeps (`detect_liquidity_sweep`), pools
 * (`identify_liquidity_pools`) and voids (`detect_liquidity_void`). Each
 * builds its list in a loop, with the random draws of every round passed
 * in.
 */
module SmcLiquidity {

  import opened Common
  import opened MarketData
  import opened Registry
  import opened SmcGuards
  import opened SmcLists

  const ZeroDivisionMessage: string := "float division by zero"

  // ---------------------------------------------------------------- sweeps

  /** One round's draws: the side swept, `random.randint(5, 15)` for the sweep candle, and the reaction draw. */
  datatype SweepDraw = SweepDraw(buySide: bool, back: int, reaction: real)

  datatype Sweep = Sweep(buySide: bool, level: real, time: int, reversal: bool, distancePips: real)

  /** `candles[-lookback:-lookback+15]` with `lookback = 30 + 10 * i`. */
  function SweepWindow(candles: seq<Candle>, i: nat): seq<Candle>
  {
    Slice(candles, Some(-(30 + 10 * i)), Some(-(30 + 10 * i) + 15))
  }

  /** With the guard passed, the windows of both possible rounds are non-empty. */
  lemma SweepWindowNonEmpty(candles: seq<Candle>, i: nat)
    requires |candles| >= 30 && i <= 1
    ensures SweepWindow(candles, i) != []
  {
  }

  /** Sweep `s` is what round `i` reports with draw `d`. */
  predicate SweepOfRound(data: Input, i: nat, d: SweepDraw, s: Sweep)
    requires SweepWindow(data.candles, i) != [] && 0 < d.back <= |data.candles|
  {
    var window := SweepWindow(data.candles, i);
    && s.buySide == d.buySide
    && (d.buySide ==> IsHighest(s.level, window))
    && (!d.buySide ==> IsLowest(s.level, window))
    && s.time == data.candles[|data.candles| - d.back].timestamp
    && (s.reversal <==> d.reaction > 0.4)
    && s.distancePips == Abs(data.currentPrice - s.level) * 10000.0
  }

  /** The sweep round `i` reports: the extreme of its window on the side swept. */
  function SweepRound(data: Input, i: nat, d: SweepDraw): (s: Sweep)
    requires |data.candles| >= 30 && i <= 1 && 5 <= d.back <= 15
    ensures SweepWindow(data.candles, i) != [] && SweepOfRound(data, i, d, s)
  {
    SweepWindowNonEmpty(data.candles, i);
    var window := SweepWindow(data.candles, i);
    var level := if d.buySide then HighestHigh(window) else LowestLow(window);
    Sweep(d.buySide, level, data.candles[|data.candles| - d.back].timestamp, d.reaction > 0.4,
          Abs(data.currentPrice - level) * 10000.0)
  }

  /**
   * `detect_liquidity_sweep`: one sweep per round (zero to two rounds),
   * round `i` taking the extreme of its window on the side swept. With the
   * guard passed nothing raises.
   */
  method LiquiditySweeps(data: Input, draws: seq<SweepDraw>) returns (r: Outcome<seq<Sweep>>)
    requires |draws| <= 2
    requires forall i :: 0 <= i < |draws| ==> 5 <= draws[i].back <= 15
    ensures r.InsufficientData? <==> |data.candles| < 30
    ensures r.InsufficientData? ==> r.record == InsufficientRecord(DetectLiquiditySweep)
    ensures !r.Raised?
    ensures r.Completed? ==>
      && |r.value| == |draws|
      && forall i :: 0 <= i < |draws| ==>
           SweepWindow(data.candles, i) != [] && SweepOfRound(data, i, draws[i], r.value[i])
  {
    var n := |data.candles|;
    if n < 30 {
      return InsufficientData(InsufficientRecord(DetectLiquiditySweep));
    }
    var sweeps: seq<Sweep> := [];
    var i := 0;
    while i < |draws|
      invariant 0 <= i <= |draws| && |sweeps| == i
      invariant forall j :: 0 <= j < i ==>
        SweepWindow(data.candles, j) != [] && SweepOfRound(data, j, draws[j], sweeps[j])
    {
      sweeps := sweeps + [SweepRound(data, i, draws[i])];
      i := i + 1;
    }
    return Completed(sweeps);
  }

  // ---------------------------------------------------------------- pools

  datatype PoolKind = AboveHighs | BelowLows | EqualHighs | EqualLows

  /** `'high' in pool_type`. */
  predicate OnHighs(k: PoolKind)
  {
    k == AboveHighs || k == EqualHighs
  }

  /** One round's draws: the pool type and `random.randint(60, 90)` for the magnetism. */
  datatype PoolDraw = PoolDraw(kind: PoolKind, magnetism: int)

  datatype Pool = Pool(kind: PoolKind, level: real, density: nat, magnetism: int, distancePips: real)

  /** What `identify_liquidity_pools` returns past its guard: the pools by distance and the nearest. */
  datatype PoolReport = PoolReport(pools: seq<Pool>, nearest: Option<Pool>)

  function PoolDistance(p: Pool): real
  {
    p.distancePips
  }

  /** `candles[-lookback_end:-lookback_start]`, 20 candles ending `15 + 15 * i` before the last. */
  function PoolWindow(candles: seq<Candle>, i: nat): seq<Candle>
  {
    Slice(candles, Some(-(35 + 15 * i)), Some(-(15 + 15 * i)))
  }

  /** A pool window is empty exactly when there are no more candles than the window's offset from the end. */
  lemma PoolWindowEmptiness(candles: seq<Candle>, i: nat)
    ensures PoolWindow(candles, i) == [] <==> |candles| <= 15 + 15 * i
  {
  }

  /** How many of `xs` lie within 0.03% of `level`. */
  function Density(xs: seq<real>, level: real): (d: nat)
    requires level != 0.0
    ensures d <= |xs|
    ensures level in xs ==> d >= 1
    decreases |xs|
  {
    if xs == [] then 0
    else (if Abs(xs[0] - level) / level < 0.0003 then 1 else 0) + Density(xs[1..], level)
  }

  /** The level a pool round divides by, when its window is non-empty. */
  function PoolLevel(window: seq<Candle>, kind: PoolKind): real
    requires window != []
  {
    if OnHighs(kind) then HighestHigh(window) else LowestLow(window)
  }

  /** The pool that round `i` builds from a non-empty window whose level is not zero. */
  function PoolFrom(data: Input, window: seq<Candle>, d: PoolDraw): (p: Pool)
    requires window != []
    requires PoolLevel(window, d.kind) != 0.0
    ensures OnHighs(d.kind) ==> IsHighest(p.level, window)
    ensures !OnHighs(d.kind) ==> IsLowest(p.level, window)
    ensures 1 <= p.density <= |window|
    ensures p.kind == d.kind && p.distancePips == Abs(data.currentPrice - p.level) * 10000.0
  {
    if OnHighs(d.kind) then
      var level := HighestHigh(window);
      Pool(d.kind, level, Density(Highs(window), level), d.magnetism, Abs(data.currentPrice - level) * 10000.0)
    else
      var level := LowestLow(window);
      Pool(d.kind, level, Density(Lows(window), level), d.magnetism, Abs(data.currentPrice - level) * 10000.0)
  }

  /** `p` is the pool round `i` reports with draw `d`. */
  predicate PoolRound(data: Input, i: nat, d: PoolDraw, p: Pool)
  {
    var window := PoolWindow(data.candles, i);
    && window != []
    && PoolLevel(window, d.kind) != 0.0
    && p == PoolFrom(data, window, d)
  }

  /** The report over the pools found: sorted by distance, nearest first. */
  function PoolsReport(pools: seq<Pool>): (r: PoolReport)
    ensures multiset(r.pools) == multiset(pools)
    ensures SortedBy(r.pools, PoolDistance)
    ensures r.nearest == Nearest(r.pools)
  {
    var sorted := SortBy(pools, PoolDistance);
    PoolReport(sorted, Nearest(sorted))
  }

  /** Round `i`'s window is non-empty and its level zero, so its density divides by zero. */
  predicate ZeroLevelAt(data: Input, draws: seq<PoolDraw>, i: nat)
    requires i < |draws|
  {
    var window := PoolWindow(data.candles, i);
    window != [] && PoolLevel(window, draws[i].kind) == 0.0
  }

  /** Round `i` raises as written: its window is empty (`max`/`min` of nothing) or its level is zero. */
  predicate RoundRaises(data: Input, draws: seq<PoolDraw>, i: nat)
    requires i < |draws|
  {
    PoolWindow(data.candles, i) == [] || ZeroLevelAt(data, draws, i)
  }

  /** The exception round `i` raises as written: `ValueError` from `max`/`min`, else the division. */
  function RoundMessage(data: Input, draws: seq<PoolDraw>, i: nat): string
    requires i < |draws|
  {
    if PoolWindow(data.candles, i) == [] then
      (if OnHighs(draws[i].kind) then EmptyMaxMessage else EmptyMinMessage)
    else ZeroDivisionMessage
  }

  /** `max(highs)` or `min(lows)` over a round's window, by the pool type drawn. */
  function WindowExtreme(window: seq<Candle>, kind: PoolKind): Result<real, string>
  {
    if OnHighs(kind) then MaxOf(Highs(window)) else MinOf(Lows(window))
  }

  /**
   * One round of `identify_liquidity_pools` as written: `max`/`min` over its
   * window, then the density's division by the level. It raises with
   * `RoundMessage` exactly when `RoundRaises`, and otherwise builds the pool
   * the reference step records.
   */
  function PoolRoundAsWritten(data: Input, draws: seq<PoolDraw>, i: nat): (r: Result<Pool, string>)
    requires i < |draws|
    ensures r.Err? <==> RoundRaises(data, draws, i)
    ensures r.Err? ==> r.error == RoundMessage(data, draws, i)
    ensures r.Ok? ==> PoolAt(data, draws, i) == Some(r.value)
  {
    var window := PoolWindow(data.candles, i);
    var extreme := WindowExtreme(window, draws[i].kind);
    if extreme.Err? then Err(extreme.error)
    else if extreme.value == 0.0 then Err(ZeroDivisionMessage)
    else Ok(PoolFrom(data, window, draws[i]))
  }

  /** Round `i`'s pool, when its window is non-empty and its level not zero. */
  function PoolAt(data: Input, draws: seq<PoolDraw>, i: nat): (r: Option<Pool>)
    requires i < |draws|
    ensures r.Some? <==> !RoundRaises(data, draws, i)
    ensures r.Some? ==> PoolRound(data, i, draws[i], r.value)
  {
    var window := PoolWindow(data.candles, i);
    if window == [] || PoolLevel(window, draws[i].kind) == 0.0 then None
    else Some(PoolFrom(data, window, draws[i]))
  }

  /**
   * One round with an empty window skipped: no pool for an empty window, the
   * division's exception for a zero level, and otherwise the round's pool.
   */
  function PoolRoundSkipping(data: Input, draws: seq<PoolDraw>, i: nat): (r: Result<Option<Pool>, string>)
    requires i < |draws|
    ensures r.Err? <==> ZeroLevelAt(data, draws, i)
    ensures r.Err? ==> r.error == ZeroDivisionMessage
    ensures r.Ok? ==> r.value == PoolAt(data, draws, i)
  {
    var window := PoolWindow(data.candles, i);
    if window == [] then Ok(None)
    else if PoolLevel(window, draws[i].kind) == 0.0 then Err(ZeroDivisionMessage)
    else Ok(Some(PoolFrom(data, window, draws[i])))
  }

  function PoolSteps(data: Input, draws: seq<PoolDraw>): (steps: seq<Option<Pool>>)
    ensures |steps| == |draws| && forall i :: 0 <= i < |draws| ==> steps[i] == PoolAt(data, draws, i)
  {
    seq(|draws|, i requires 0 <= i < |draws| => PoolAt(data, draws, i))
  }

  /** The pools of the rounds whose window is non-empty and whose level is not zero, in round order. */
  function FoundPools(data: Input, draws: seq<PoolDraw>): seq<Pool>
  {
    Collect(PoolSteps(data, draws))
  }

  /** A pool is found exactly when some round builds it; never more pools than rounds. */
  lemma FoundPoolsMembers(data: Input, draws: seq<PoolDraw>)
    ensures |FoundPools(data, draws)| <= |draws|
    ensures forall p :: p in FoundPools(data, draws) <==>
      exists i :: 0 <= i < |draws| && PoolRound(data, i, draws[i], p)
  {
    var steps := PoolSteps(data, draws);
    CollectMembers(steps);
    forall p | exists i :: 0 <= i < |draws| && PoolRound(data, i, draws[i], p)
      ensures p in FoundPools(data, draws)
    {
      var i :| 0 <= i < |draws| && PoolRound(data, i, draws[i], p);
      assert steps[i] == Some(p);
    }
  }

  /** When no round raises, every round contributes its pool, round `i`'s at position `i`. */
  lemma FoundPoolsAllRounds(data: Input, draws: seq<PoolDraw>)
    requires forall i :: 0 <= i < |draws| ==> !RoundRaises(data, draws, i)
    ensures |FoundPools(data, draws)| == |draws|
    ensures forall i :: 0 <= i < |draws| ==> PoolRound(data, i, draws[i], FoundPools(data, draws)[i])
  {
    CollectAllSome(PoolSteps(data, draws));
  }

  /**
   * From 40 candles on, the first two windows are non-empty; the third is
   * non-empty exactly beyond 45 candles.
   */
  lemma PoolWindowsPastGuard(data: Input, draws: seq<PoolDraw>)
    requires |data.candles| >= 40
    ensures forall i :: 0 <= i < |draws| && i <= 1 ==> PoolWindow(data.candles, i) != []
    ensures PoolWindow(data.candles, 2) == [] <==> |data.candles| <= 45
  {
    PoolWindowEmptiness(data.candles, 0);
    PoolWindowEmptiness(data.candles, 1);
    PoolWindowEmptiness(data.candles, 2);
  }

  /**
   * `identify_liquidity_pools` as written: one to three rounds, round `i`
   * taking `max`/`min` over its window with no check that the window holds
   * any candle. The first round that raises ends the call with its
   * exception; otherwise every round's pool is reported, sorted by distance.
   * The third window ends 45 candles before the last, so with 40 to 45
   * candles (past the guard of 40) a third round always raises `ValueError`.
   */
  method LiquidityPoolsAsWritten(data: Input, draws: seq<PoolDraw>) returns (r: Outcome<PoolReport>)
    requires 1 <= |draws| <= 3
    ensures r.InsufficientData? <==> |data.candles| < 40
    ensures r.InsufficientData? ==> r.record == InsufficientRecord(IdentifyLiquidityPools)
    ensures r.Raised? <==>
      |data.candles| >= 40 && exists i :: 0 <= i < |draws| && RoundRaises(data, draws, i)
    ensures r.Raised? ==>
      exists i :: 0 <= i < |draws| && RoundRaises(data, draws, i)
        && (forall j :: 0 <= j < i ==> !RoundRaises(data, draws, j))
        && r.message == RoundMessage(data, draws, i)
    ensures r.Completed? ==>
      && |FoundPools(data, draws)| == |draws|
      && r.value == PoolsReport(FoundPools(data, draws))
    ensures 40 <= |data.candles| <= 45 && |draws| == 3 ==> r.Raised?
  {
    if |data.candles| < 40 {
      return InsufficientData(InsufficientRecord(IdentifyLiquidityPools));
    }
    var rounds := PoolRoundsAsWritten(data, draws);
    if rounds.Err? {
      return Raised(rounds.error);
    }
    PoolWindowEmptiness(data.candles, 2);
    return Completed(PoolsReport(rounds.value));
  }

  /**
   * The rounds of `identify_liquidity_pools` as written: the first round
   * that raises ends them with its exception; otherwise each round adds its
   * pool.
   */
  method PoolRoundsAsWritten(data: Input, draws: seq<PoolDraw>) returns (r: Result<seq<Pool>, string>)
    ensures r.Err? <==> exists i :: 0 <= i < |draws| && RoundRaises(data, draws, i)
    ensures r.Err? ==>
      exists i :: 0 <= i < |draws| && RoundRaises(data, draws, i)
        && (forall j :: 0 <= j < i ==> !RoundRaises(data, draws, j))
        && r.error == RoundMessage(data, draws, i)
    ensures r.Ok? ==> r.value == FoundPools(data, draws) && |r.value| == |draws|
  {
    ghost var steps := PoolSteps(data, draws);
    var pools: seq<Pool> := [];
    var i := 0;
    while i < |draws|
      invariant 0 <= i <= |draws|
      invariant forall j :: 0 <= j < i ==> !RoundRaises(data, draws, j)
      invariant |pools| == i && pools == Collect(steps[..i])
    {
      var round := PoolRoundAsWritten(data, draws, i);
      if round.Err? {
        return Err(round.error);
      }
      var pool := round.value;
      CollectAppend(steps, i, pools, pool);
      assert forall j :: 0 <= j < i + 1 ==> !RoundRaises(data, draws, j);
      pools := pools + [pool];
      i := i + 1;
    }
    assert steps[..|draws|] == steps;
    return Ok(pools);
  }

  /**
   * `identify_liquidity_pools` with empty windows skipped, as the order-block
   * and breaker-block scans do: the rounds with a non-empty window report
   * their pools, sorted by distance with the nearest first, and the only
   * exception left is the division by a zero level.
   */
  method LiquidityPools(data: Input, draws: seq<PoolDraw>) returns (r: Outcome<PoolReport>)
    requires 1 <= |draws| <= 3
    ensures r.InsufficientData? <==> |data.candles| < 40
    ensures r.InsufficientData? ==> r.record == InsufficientRecord(IdentifyLiquidityPools)
    ensures r.Raised? <==>
      |data.candles| >= 40 && exists i :: 0 <= i < |draws| && ZeroLevelAt(data, draws, i)
    ensures r.Raised? ==> r.message == ZeroDivisionMessage
    ensures r.Completed? ==> r.value == PoolsReport(FoundPools(data, draws))
  {
    if |data.candles| < 40 {
      return InsufficientData(InsufficientRecord(IdentifyLiquidityPools));
    }
    var rounds := PoolRounds(data, draws);
    if rounds.Err? {
      return Raised(rounds.error);
    }
    return Completed(PoolsReport(rounds.value));
  }

  /**
   * The rounds with empty windows skipped: a zero level ends them with the
   * division's exception; otherwise the rounds with a non-empty window add
   * their pools.
   */
  method PoolRounds(data: Input, draws: seq<PoolDraw>) returns (r: Result<seq<Pool>, string>)
    ensures r.Err? <==> exists i :: 0 <= i < |draws| && ZeroLevelAt(data, draws, i)
    ensures r.Err? ==> r.error == ZeroDivisionMessage
    ensures r.Ok? ==> r.value == FoundPools(data, draws)
  {
    ghost var steps := PoolSteps(data, draws);
    var pools: seq<Pool> := [];
    var i := 0;
    while i < |draws|
      invariant 0 <= i <= |draws|
      invariant forall j :: 0 <= j < i ==> !ZeroLevelAt(data, draws, j)
      invariant pools == Collect(steps[..i])
    {
      var round := PoolRoundSkipping(data, draws, i);
      if round.Err? {
        return Err(round.error);
      }
      if round.value.Some? {
        CollectAppend(steps, i, pools, round.value.value);
        pools := pools + [round.value.value];
      } else {
        CollectSkip(steps, i, pools);
      }
      assert forall j :: 0 <= j < i + 1 ==> !ZeroLevelAt(data, draws, j);
      i := i + 1;
    }
    assert steps[..|draws|] == steps;
    return Ok(pools);
  }

  /**
   * Beyond 45 candles every window is non-empty, so the two readings of
   * `identify_liquidity_pools` raise on the same inputs and otherwise report
   * the same pools, one per round, round `i`'s built from its own window.
   */
  lemma PoolsAgreeBeyond45(data: Input, draws: seq<PoolDraw>)
    requires |data.candles| > 45 && |draws| <= 3
    ensures forall i :: 0 <= i < |draws| ==> (RoundRaises(data, draws, i) <==> ZeroLevelAt(data, draws, i))
    ensures (forall i :: 0 <= i < |draws| ==> !ZeroLevelAt(data, draws, i)) ==>
      && |FoundPools(data, draws)| == |draws|
      && forall i :: 0 <= i < |draws| ==> PoolRound(data, i, draws[i], FoundPools(data, draws)[i])
  {
    PoolWindowsPastGuard(data, draws);
    if forall i :: 0 <= i < |draws| ==> !ZeroLevelAt(data, draws, i) {
      FoundPoolsAllRounds(data, draws);
    }
  }

  /**
   * With 40 to 45 candles and at most two rounds, nothing is out of range
   * either, so the two readings agree there as well; only a third round
   * separates them.
   */
  lemma PoolsAgreeWithTwoRounds(data: Input, draws: seq<PoolDraw>)
    requires |data.candles| >= 40 && |draws| <= 2
    ensures forall i :: 0 <= i < |draws| ==> (RoundRaises(data, draws, i) <==> ZeroLevelAt(data, draws, i))
  {
    PoolWindowsPastGuard(data, draws);
  }

  // ---------------------------------------------------------------- voids

  /** One round's draws: the 15% gate and `random.randint(70, 95)` for the fill probability. */
  datatype VoidDraw = VoidDraw(gate: real, fill: int)

  datatype Void = Void(high: real, low: real, midpoint: real, sizePips: real, timestamp: int, fill: int)

  /**
   * The void between candles `i - 1` and `i`: the earlier candle's low above
   * the later one's high by more than 5 pips.
   */
  predicate VoidBetween(candles: seq<Candle>, i: int, v: Void)
    requires 1 <= i < |candles|
  {
    && v.high == candles[i - 1].low && v.low == candles[i].high
    && v.high > v.low && v.sizePips == (v.high - v.low) * 10000.0 && v.sizePips > 5.0
    && v.midpoint == (v.high + v.low) / 2.0 && v.low < v.midpoint < v.high
    && v.timestamp == candles[i].timestamp
  }

  /**
   * Step `k` of `detect_liquidity_void`, at `i = len - 5 - k`: when the
   * round's gate passes and candle `i - 1`'s low lies more than 5 pips above
   * candle `i`'s high, that void.
   */
  function VoidStepAt(candles: seq<Candle>, draws: seq<VoidDraw>, k: nat): (r: Option<Void>)
    requires k < |draws|
    ensures r.Some? ==> 1 <= |candles| - 5 - k && VoidBetween(candles, |candles| - 5 - k, r.value)
    ensures r.Some? ==> r.value.fill == draws[k].fill
  {
    var i := |candles| - 5 - k;
    if i < 1 || draws[k].gate <= 0.85 then None
    else
      var high := candles[i - 1].low;
      var low := candles[i].high;
      if high > low && (high - low) * 10000.0 > 5.0 then
        Some(Void(high, low, (high + low) / 2.0, (high - low) * 10000.0, candles[i].timestamp, draws[k].fill))
      else None
  }

  /** The 20 steps of the scan. */
  function VoidSteps(candles: seq<Candle>, draws: seq<VoidDraw>): (steps: seq<Option<Void>>)
    requires |draws| == 20
    ensures |steps| == 20 && forall k :: 0 <= k < 20 ==> steps[k] == VoidStepAt(candles, draws, k)
  {
    seq(20, k requires 0 <= k < 20 => VoidStepAt(candles, draws, k))
  }

  /** The voids the scan finds, in the order found. */
  function FoundVoids(candles: seq<Candle>, draws: seq<VoidDraw>): seq<Void>
    requires |draws| == 20
  {
    Collect(VoidSteps(candles, draws))
  }

  /** The step at `i`, which the scan reaches from `len - 5` down to `len - 24` and not below 1, records `v`. */
  predicate VoidFoundAt(candles: seq<Candle>, draws: seq<VoidDraw>, i: int, v: Void)
    requires |draws| == 20
  {
    var n := |candles|;
    && n - 24 <= i <= n - 5 && 1 <= i && draws[n - 5 - i].gate > 0.85
    && VoidBetween(candles, i, v) && v.fill == draws[n - 5 - i].fill
  }

  /**
   * A void is found exactly when a step whose gate passes sees a gap of more
   * than 5 pips between its two candles; at most 20 are found.
   */
  lemma FoundVoidsMembers(candles: seq<Candle>, draws: seq<VoidDraw>)
    requires |draws| == 20
    ensures |FoundVoids(candles, draws)| <= 20
    ensures forall v :: v in FoundVoids(candles, draws) <==> exists i :: VoidFoundAt(candles, draws, i, v)
  {
    var n := |candles|;
    var steps := VoidSteps(candles, draws);
    CollectMembers(steps);
    forall v | v in FoundVoids(candles, draws)
      ensures exists i :: VoidFoundAt(candles, draws, i, v)
    {
      var k :| 0 <= k < 20 && steps[k] == Some(v);
      assert VoidFoundAt(candles, draws, n - 5 - k, v);
    }
    forall v | exists i :: VoidFoundAt(candles, draws, i, v)
      ensures v in FoundVoids(candles, draws)
    {
      var i :| VoidFoundAt(candles, draws, i, v);
      assert steps[n - 5 - i] == Some(v);
    }
  }

  /**
   * `detect_liquidity_void`: under 30 candles the insufficient-data record;
   * otherwise the first three voids found and the count of all of them. The
   * scan never reads outside the list once the guard has passed.
   */
  method LiquidityVoids(data: Input, draws: seq<VoidDraw>) returns (r: Outcome<Report<Void>>)
    requires |draws| == 20
    ensures r.InsufficientData? <==> |data.candles| < 30
    ensures r.InsufficientData? ==> r.record == InsufficientRecord(DetectLiquidityVoid)
    ensures !r.Raised?
    ensures r.Completed? ==>
      && r.value.total == |FoundVoids(data.candles, draws)|
      && r.value.shown == Take(FoundVoids(data.candles, draws), 3)
  {
    var n := |data.candles|;
    if n < 30 {
      return InsufficientData(InsufficientRecord(DetectLiquidityVoid));
    }
    ghost var steps := VoidSteps(data.candles, draws);
    var voids: seq<Void> := [];
    var k := 0;
    while k < 20
      invariant 0 <= k <= 20
      invariant voids == Collect(steps[..k])
    {
      var i := n - 5 - k;
      if draws[k].gate > 0.85 {
        var high := data.candles[i - 1].low;
        var low := data.candles[i].high;
        if high > low && (high - low) * 10000.0 > 5.0 {
          var v := Void(high, low, (high + low) / 2.0, (high - low) * 10000.0, data.candles[i].timestamp, draws[k].fill);
          assert steps[k] == Some(v);
          CollectAppend(steps, k, voids, v);
          voids := voids + [v];
        } else {
          assert steps[k] == None;
          CollectSkip(steps, k, voids);
        }
      } else {
        assert steps[k] == None;
        CollectSkip(steps, k, voids);
      }
      k := k + 1;
    }
    assert steps[..20] == steps;
    return Completed(Summarize(voids, 3));
  }
}
