/**
 * Context that does not come from the candles: the higher timeframe to
 * consult (`analyze_higher_timeframe_structure`), the trading session of
 * the hour (`analyze_session_characteristics`) and the round-number levels
 * around the price (`calculate_institutional_levels`).
 */
module SmcContext {

  import opened Common
  import opened SmcLists

  // ---------------------------------------------------------------- higher timeframe

  /** `timeframe_hierarchy`: the next timeframe up from each known one. */
  const TimeframeHierarchy: map<string, string> :=
    map["1m" := "5m", "5m" := "15m", "15m" := "1h", "30m" := "4h", "1h" := "4h", "4h" := "1d", "1d" := "1w"]

  /** Minutes per candle of every timeframe named in the hierarchy, the week included. */
  const TimeframeLength: map<string, nat> :=
    map["1m" := 1, "5m" := 5, "15m" := 15, "30m" := 30, "1h" := 60, "4h" := 240, "1d" := 1440, "1w" := 10080]

  /** `timeframe_hierarchy.get(current_timeframe, '1d')`. */
  function HigherTimeframe(timeframe: string): (h: string)
    ensures timeframe in TimeframeHierarchy ==> h == TimeframeHierarchy[timeframe]
    ensures timeframe !in TimeframeHierarchy ==> h == "1d"
    ensures h in TimeframeLength
  {
    if timeframe in TimeframeHierarchy then TimeframeHierarchy[timeframe] else "1d"
  }

  /**
   * Every known timeframe maps to a strictly longer one that is a whole
   * number of it, so the higher timeframe always aggregates the current
   * one's candles.
   */
  lemma HigherTimeframeIsLonger(timeframe: string)
    requires timeframe in TimeframeHierarchy
    ensures timeframe in TimeframeLength
    ensures TimeframeLength[timeframe] < TimeframeLength[HigherTimeframe(timeframe)]
    ensures TimeframeLength[HigherTimeframe(timeframe)] % TimeframeLength[timeframe] == 0
  {
    assert timeframe in {"1m", "5m", "15m", "30m", "1h", "4h", "1d"};
  }

  /** The draws: trend, `random.randint(65, 95)`, the BOS and CHoCH choices, the two key levels and the alignment. */
  datatype HtfDraws = HtfDraws(trend: string, quality: int, bos: bool, choch: bool,
                               support: real, resistance: real, alignment: string)

  datatype HtfReport = HtfReport(htf: string, trend: string, quality: int, bos: bool, choch: bool,
                                 support: real, resistance: real, alignment: string)

  /**
   * `analyze_higher_timeframe_structure`: the higher timeframe of the
   * current one, and a change of character only where no break of
   * structure was drawn.
   */
  function HigherTimeframeStructure(timeframe: string, d: HtfDraws): (r: HtfReport)
    ensures r.htf == HigherTimeframe(timeframe)
    ensures r.bos == d.bos
    ensures r.choch <==> d.choch && !d.bos
    ensures r.bos ==> !r.choch
  {
    HtfReport(HigherTimeframe(timeframe), d.trend, d.quality, d.bos, if d.bos then false else d.choch,
              d.support, d.resistance, d.alignment)
  }

  // ---------------------------------------------------------------- sessions

  datatype TradingSession = AsianSession | LondonSession | NewYorkSession

  datatype Characteristics = Characteristics(
    volatility: string, typicalRangePips: string, bestStrategy: string, liquidity: string,
    note: Option<string>)

  datatype SessionReport = SessionReport(session: TradingSession, characteristics: Characteristics,
                                         londonNewYorkOverlap: bool)

  const OverlapNote: string := "High volatility overlap - expect big moves"

  /**
   * `analyze_session_characteristics` for the UTC hour `hour`: Asian from 0
   * to 7, London from 8 to 15, New York otherwise; London and New York
   * overlap from 12 to 15, which always falls in the London session and
   * adds the overlap note.
   */
  function SessionCharacteristics(hour: int): (r: SessionReport)
    ensures r.session == AsianSession <==> 0 <= hour < 8
    ensures r.session == LondonSession <==> 8 <= hour < 16
    ensures r.session == NewYorkSession <==> hour < 0 || hour >= 16
    ensures r.londonNewYorkOverlap <==> 12 <= hour < 16
    ensures r.londonNewYorkOverlap ==> r.session == LondonSession
    ensures r.characteristics.note == (if r.londonNewYorkOverlap then Some(OverlapNote) else None)
  {
    var (session, characteristics) :=
      if 0 <= hour < 8 then
        (AsianSession, Characteristics("low", "20-40", "range_trading", "low", None))
      else if 8 <= hour < 16 then
        (LondonSession, Characteristics("high", "60-100", "breakout_continuation", "high", None))
      else
        (NewYorkSession, Characteristics("very_high", "80-120", "trend_following", "very_high", None));
    var overlap := 12 <= hour < 16;
    SessionReport(session,
                  if overlap then characteristics.(note := Some(OverlapNote)) else characteristics,
                  overlap)
  }

  // ---------------------------------------------------------------- round-number levels

  datatype LevelKind = MajorRound | HalfRound

  datatype InstitutionalLevel = InstitutionalLevel(level: real, kind: LevelKind, strength: int, distancePips: real)

  function LevelDistance(l: InstitutionalLevel): real
  {
    l.distancePips
  }

  /** The level `i` cents from `base`, shifted by half a cent for a half number. */
  function RoundNumber(base: real, i: int, kind: LevelKind): real
  {
    base + (i as real) * 0.01 + (if kind == HalfRound then 0.005 else 0.0)
  }

  /** `l` is the round number `base + i / 100` (plus half a cent for a half number) for some `i` in -2..2, and positive. */
  predicate RoundLevelNear(base: real, currentPrice: real, l: InstitutionalLevel)
  {
    && l.level > 0.0
    && (exists i :: -2 <= i <= 2 && l.level == RoundNumber(base, i, l.kind))
    && l.distancePips == Abs(currentPrice - l.level) * 10000.0
  }

  datatype LevelReport = LevelReport(shown: seq<InstitutionalLevel>, nearest: Option<InstitutionalLevel>)

  /**
   * Step `k` of the two loops: the whole-cent level `i = k - 2` for the
   * first five, the half-cent level `i = k - 7` for the last five, kept when
   * positive, with the strength drawn at that step.
   */
  function LevelAt(currentPrice: real, base: real, strengths: seq<int>, k: nat): Option<InstitutionalLevel>
    requires k < |strengths|
  {
    var kind := if k < 5 then MajorRound else HalfRound;
    var i := if k < 5 then k - 2 else k - 7;
    var level := RoundNumber(base, i, kind);
    if level > 0.0 then Some(InstitutionalLevel(level, kind, strengths[k], Abs(currentPrice - level) * 10000.0))
    else None
  }

  function LevelSteps(currentPrice: real, base: real, strengths: seq<int>): (steps: seq<Option<InstitutionalLevel>>)
    requires |strengths| == 10
    ensures |steps| == 10 && forall k :: 0 <= k < 10 ==> steps[k] == LevelAt(currentPrice, base, strengths, k)
  {
    seq(10, k requires 0 <= k < 10 => LevelAt(currentPrice, base, strengths, k))
  }

  /** The levels the two loops collect: the positive whole-cent levels, then the positive half-cent ones. */
  function FoundLevels(currentPrice: real, base: real, strengths: seq<int>): seq<InstitutionalLevel>
    requires |strengths| == 10
  {
    Collect(LevelSteps(currentPrice, base, strengths))
  }

  /**
   * Every level collected is a positive round number within two cents of
   * the base; with a base above three cents all ten are.
   */
  lemma FoundLevelsMembers(currentPrice: real, base: real, strengths: seq<int>)
    requires |strengths| == 10
    ensures |FoundLevels(currentPrice, base, strengths)| <= 10
    ensures base > 0.03 ==> |FoundLevels(currentPrice, base, strengths)| == 10
    ensures forall l :: l in FoundLevels(currentPrice, base, strengths) ==> RoundLevelNear(base, currentPrice, l)
  {
    var steps := LevelSteps(currentPrice, base, strengths);
    CollectMembers(steps);
    forall l | l in FoundLevels(currentPrice, base, strengths)
      ensures RoundLevelNear(base, currentPrice, l)
    {
      var k :| 0 <= k < 10 && steps[k] == Some(l);
      var i := if k < 5 then k - 2 else k - 7;
      assert l.level == RoundNumber(base, i, l.kind);
    }
    if base > 0.03 {
      forall k | 0 <= k < 10
        ensures steps[k].Some?
      {
        assert RoundNumber(base, if k < 5 then k - 2 else k - 7, if k < 5 then MajorRound else HalfRound) > 0.0;
      }
    }
  }

  /** Step `i + 2` of the scan is the first loop's level at `i`. */
  lemma WholeCentStep(currentPrice: real, base: real, strengths: seq<int>, i: int)
    requires |strengths| == 10 && -2 <= i <= 2
    ensures var level := base + (i as real) * 0.01;
      LevelAt(currentPrice, base, strengths, i + 2) ==
        if level > 0.0 then Some(InstitutionalLevel(level, MajorRound, strengths[i + 2], Abs(currentPrice - level) * 10000.0))
        else None
  {
    assert RoundNumber(base, i + 2 - 2, MajorRound) == base + (i as real) * 0.01;
  }

  /** Step `i + 7` of the scan is the second loop's level at `i`. */
  lemma HalfCentStep(currentPrice: real, base: real, strengths: seq<int>, i: int)
    requires |strengths| == 10 && -2 <= i <= 2
    ensures var level := base + (i as real) * 0.01 + 0.005;
      LevelAt(currentPrice, base, strengths, i + 7) ==
        if level > 0.0 then Some(InstitutionalLevel(level, HalfRound, strengths[i + 7], Abs(currentPrice - level) * 10000.0))
        else None
  {
    assert RoundNumber(base, i + 7 - 7, HalfRound) == base + (i as real) * 0.01 + 0.005;
  }

  /**
   * The first loop of `calculate_institutional_levels` around `base`, the
   * price cut to its first four characters: the positive whole-cent levels
   * from two cents below to two above.
   */
  method WholeCentLevels(currentPrice: real, base: real, strengths: seq<int>) returns (levels: seq<InstitutionalLevel>)
    requires |strengths| == 10
    ensures levels == Collect(LevelSteps(currentPrice, base, strengths)[..5])
  {
    ghost var steps := LevelSteps(currentPrice, base, strengths);
    levels := [];
    var i := -2;
    while i <= 2
      invariant -2 <= i <= 3
      invariant levels == Collect(steps[..i + 2])
    {
      var level := base + (i as real) * 0.01;
      WholeCentStep(currentPrice, base, strengths, i);
      if level > 0.0 {
        var l := InstitutionalLevel(level, MajorRound, strengths[i + 2], Abs(currentPrice - level) * 10000.0);
        assert steps[i + 2] == Some(l);
        CollectAppend(steps, i + 2, levels, l);
        levels := levels + [l];
      } else {
        assert steps[i + 2] == None;
        CollectSkip(steps, i + 2, levels);
      }
      i := i + 1;
    }
  }

  /** The second loop: the positive half-cent levels likewise, appended to the whole-cent ones. */
  method HalfCentLevels(currentPrice: real, base: real, strengths: seq<int>, whole: seq<InstitutionalLevel>)
    returns (levels: seq<InstitutionalLevel>)
    requires |strengths| == 10
    requires whole == Collect(LevelSteps(currentPrice, base, strengths)[..5])
    ensures levels == FoundLevels(currentPrice, base, strengths)
  {
    ghost var steps := LevelSteps(currentPrice, base, strengths);
    levels := whole;
    var i := -2;
    while i <= 2
      invariant -2 <= i <= 3
      invariant levels == Collect(steps[..i + 7])
    {
      var level := base + (i as real) * 0.01 + 0.005;
      HalfCentStep(currentPrice, base, strengths, i);
      if level > 0.0 {
        var l := InstitutionalLevel(level, HalfRound, strengths[i + 7], Abs(currentPrice - level) * 10000.0);
        assert steps[i + 7] == Some(l);
        CollectAppend(steps, i + 7, levels, l);
        levels := levels + [l];
      } else {
        assert steps[i + 7] == None;
        CollectSkip(steps, i + 7, levels);
      }
      i := i + 1;
    }
    assert steps[..10] == steps;
  }

  /** The two loops together: every level found, whole-cent levels first. */
  method RoundLevels(currentPrice: real, base: real, strengths: seq<int>) returns (levels: seq<InstitutionalLevel>)
    requires |strengths| == 10
    ensures levels == FoundLevels(currentPrice, base, strengths)
  {
    var whole := WholeCentLevels(currentPrice, base, strengths);
    levels := HalfCentLevels(currentPrice, base, strengths, whole);
  }

  /**
   * `calculate_institutional_levels`: the levels found, stably sorted by
   * distance; the first five are shown, which are nearest levels, and the
   * head of the sorted list, no farther than any level found, is the
   * nearest (none when no level is positive).
   */
  method InstitutionalLevels(currentPrice: real, base: real, strengths: seq<int>) returns (r: LevelReport)
    requires |strengths| == 10
    ensures var found := FoundLevels(currentPrice, base, strengths);
      && r.shown == Take(SortBy(found, LevelDistance), 5)
      && SortedBy(r.shown, LevelDistance)
      && multiset(r.shown) <= multiset(found)
      && (forall l, m :: l in multiset(r.shown) && m in multiset(found) - multiset(r.shown) ==>
            LevelDistance(l) <= LevelDistance(m))
      && (r.nearest.None? <==> found == [])
      && (r.nearest.Some? ==>
            r.nearest.value in found &&
            forall j :: 0 <= j < |found| ==> LevelDistance(r.nearest.value) <= LevelDistance(found[j]))
  {
    var levels := RoundLevels(currentPrice, base, strengths);
    var sorted := SortBy(levels, LevelDistance);
    NearestOfSortedIsClosest(levels, LevelDistance);
    ShownAreNearest(levels, LevelDistance, 5);
    var shown := Take(sorted, 5);
    PrefixIsSorted(sorted, LevelDistance, shown);
    r := LevelReport(shown, Nearest(sorted));
  }
}
