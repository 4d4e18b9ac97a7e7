/**
 * Volume and flow: who is in control over the last 20 candles
 * (`analyze_order_flow`) and where the trading of the last 40 candles
 * concentrated (`analyze_volume_profile`).
 */
module SmcFlow {

  import opened Common
  import opened MarketData
  import opened Registry
  import opened SmcGuards
  import opened SmcLists

  // ---------------------------------------------------------------- order flow

  /** The number of candles that closed above their open. */
  function UpCandles(cs: seq<Candle>): (k: nat)
    ensures k <= |cs|
    decreases |cs|
  {
    if cs == [] then 0 else UpCandles(cs[..|cs| - 1]) + (if cs[|cs| - 1].close > cs[|cs| - 1].open then 1 else 0)
  }

  /** The number of candles that closed below their open. */
  function DownCandles(cs: seq<Candle>): (k: nat)
    ensures k <= |cs|
    decreases |cs|
  {
    if cs == [] then 0 else DownCandles(cs[..|cs| - 1]) + (if cs[|cs| - 1].close < cs[|cs| - 1].open then 1 else 0)
  }

  /** A candle that closes where it opened counts on neither side, so the two counts never exceed the candles. */
  lemma {:induction false} UpAndDownAtMostAll(cs: seq<Candle>)
    ensures UpCandles(cs) + DownCandles(cs) <= |cs|
    decreases |cs|
  {
    if cs != [] {
      UpAndDownAtMostAll(cs[..|cs| - 1]);
    }
  }

  datatype Flow = StrongBuying | StrongSelling | ModerateBuying | ModerateSelling | Balanced

  datatype FlowBias = FlowBullish | FlowBearish | SlightlyBullish | SlightlyBearish | FlowNeutral

  /** The bias that goes with each dominant flow. */
  function BiasOf(f: Flow): FlowBias
  {
    match f
    case StrongBuying => FlowBullish
    case StrongSelling => FlowBearish
    case ModerateBuying => SlightlyBullish
    case ModerateSelling => SlightlyBearish
    case Balanced => FlowNeutral
  }

  /**
   * The dominant flow from the buying and selling percentages, tried in the
   * order strong buying, strong selling, moderate buying, moderate selling:
   * strong above 65%, moderate above 55%, balanced otherwise.
   */
  function DominantFlow(buy: real, sell: real): (f: Flow)
    ensures f == StrongBuying <==> buy > 65.0
    ensures f == StrongSelling <==> buy <= 65.0 && sell > 65.0
    ensures f == ModerateBuying <==> buy <= 65.0 && sell <= 65.0 && buy > 55.0
    ensures f == ModerateSelling <==> buy <= 55.0 && sell <= 65.0 && sell > 55.0
    ensures f == Balanced <==> buy <= 55.0 && sell <= 55.0
  {
    if buy > 65.0 then StrongBuying
    else if sell > 65.0 then StrongSelling
    else if buy > 55.0 then ModerateBuying
    else if sell > 55.0 then ModerateSelling
    else Balanced
  }

  datatype OrderFlow = OrderFlow(buyPercentage: real, sellPercentage: real, delta: int,
                                 dominant: Flow, bias: FlowBias)

  /**
   * `analyze_order_flow`: over the last 20 candles, the shares of up and
   * down candles in percent and their difference in candles. A buying flow
   * always has more up than down candles and a selling flow more down than
   * up ones, and the two shares never add up to more than 100%.
   */
  function OrderFlowOf(data: Input): (r: Outcome<OrderFlow>)
    ensures r.InsufficientData? <==> |data.candles| < 20
    ensures r.InsufficientData? ==> r.record == InsufficientRecord(AnalyzeOrderFlow)
    ensures !r.Raised?
    ensures r.Completed? ==>
      var window := data.candles[|data.candles| - 20..];
      var f := r.value;
      && f.buyPercentage == UpCandles(window) as real * 5.0
      && f.sellPercentage == DownCandles(window) as real * 5.0
      && 0.0 <= f.buyPercentage + f.sellPercentage <= 100.0
      && f.delta == UpCandles(window) - DownCandles(window)
      && f.dominant == DominantFlow(f.buyPercentage, f.sellPercentage)
      && f.bias == BiasOf(f.dominant)
      && (f.dominant in {StrongBuying, ModerateBuying} ==> f.delta > 0)
      && (f.dominant in {StrongSelling, ModerateSelling} ==> f.delta < 0)
  {
    if |data.candles| < 20 then InsufficientData(InsufficientRecord(AnalyzeOrderFlow))
    else
      var recent := Last(data.candles, 20);
      var buying := UpCandles(recent);
      var selling := DownCandles(recent);
      UpAndDownAtMostAll(recent);
      var buy := (buying as real / 20.0) * 100.0;
      var sell := (selling as real / 20.0) * 100.0;
      var dominant := DominantFlow(buy, sell);
      Completed(OrderFlow(buy, sell, buying - selling, dominant, BiasOf(dominant)))
  }

  // ---------------------------------------------------------------- volume profile

  function Volumes(cs: seq<Candle>): (r: seq<real>)
    ensures |r| == |cs| && forall i :: 0 <= i < |cs| ==> r[i] == cs[i].volume
  {
    seq(|cs|, i requires 0 <= i < |cs| => cs[i].volume)
  }

  /** `i` is the first position of `xs` holding its largest value: what `xs.index(max(xs))` finds. */
  predicate FirstMaximal(xs: seq<real>, i: int)
  {
    && 0 <= i < |xs|
    && (forall j :: 0 <= j < |xs| ==> xs[j] <= xs[i])
    && (forall j :: 0 <= j < i ==> xs[j] < xs[i])
  }

  /** `volumes.index(max(volumes))`, the point of control. */
  function PointOfControl(volumes: seq<real>): (p: nat)
    requires volumes != []
    ensures FirstMaximal(volumes, p)
  {
    IndexOf(volumes, Largest(volumes))
  }

  /** `enumerate(xs)`: each value paired with its position. */
  function Enumerate(xs: seq<real>): (r: seq<(int, real)>)
    ensures |r| == |xs| && forall i :: 0 <= i < |xs| ==> r[i] == (i, xs[i])
  {
    seq(|xs|, i requires 0 <= i < |xs| => (i, xs[i]))
  }

  function NegatedVolume(e: (int, real)): real
  {
    -e.1
  }

  /** The positions of `enumerate(xs)` are `0..len(xs) - 1`, so no entry occurs twice. */
  lemma EnumerateIsDistinct(xs: seq<real>)
    ensures Distinct(Enumerate(xs))
  {
    var e := Enumerate(xs);
    forall a, b | 0 <= a < b < |e|
      ensures e[a] != e[b]
    {
      assert e[a].0 == a && e[b].0 == b;
    }
  }

  /** Each entry of the sorted enumeration is an entry of the enumeration: a position and its own volume. */
  lemma SortedEntries(volumes: seq<real>, r: seq<(int, real)>)
    requires r == SortBy(Enumerate(volumes), NegatedVolume)
    ensures forall k :: 0 <= k < |r| ==> 0 <= r[k].0 < |volumes| && r[k].1 == volumes[r[k].0]
  {
    var e := Enumerate(volumes);
    forall k | 0 <= k < |r|
      ensures 0 <= r[k].0 < |volumes| && r[k].1 == volumes[r[k].0]
    {
      assert r[k] in multiset(r);
      assert r[k] in e;
    }
  }

  /** Every position of the enumeration is somewhere in the sorted enumeration. */
  lemma SortedCovers(volumes: seq<real>)
    ensures forall i :: 0 <= i < |volumes| ==> i in Positions(SortBy(Enumerate(volumes), NegatedVolume))
  {
    var e := Enumerate(volumes);
    var r := SortBy(e, NegatedVolume);
    forall i | 0 <= i < |volumes|
      ensures i in Positions(r)
    {
      assert e[i] in multiset(e);
      var k :| 0 <= k < |r| && r[k] == e[i];
      assert Positions(r)[k] == i;
    }
  }

  /** Sorting on the negated volume puts larger volumes first. */
  lemma SortedDescending(volumes: seq<real>, r: seq<(int, real)>)
    requires r == SortBy(Enumerate(volumes), NegatedVolume)
    ensures forall a, b :: 0 <= a < b < |r| ==> r[a].1 >= r[b].1
  {
    forall a, b | 0 <= a < b < |r|
      ensures r[a].1 >= r[b].1
    {
      assert NegatedVolume(r[a]) <= NegatedVolume(r[b]);
    }
  }

  /** The sorted enumeration names no position twice. */
  lemma SortedDistinct(volumes: seq<real>, r: seq<(int, real)>)
    requires r == SortBy(Enumerate(volumes), NegatedVolume)
    ensures forall a, b :: 0 <= a < b < |r| ==> r[a].0 != r[b].0
  {
    EnumerateIsDistinct(volumes);
    PermutationKeepsDistinct(Enumerate(volumes), r);
    SortedEntries(volumes, r);
  }

  /**
   * `sorted(enumerate(volumes), key=volume, reverse=True)`: Python keeps
   * a reversed sort stable, so this is the stable ascending sort on the
   * negated volume. It ranks every position exactly once, each with its
   * own volume, from the largest volume down.
   */
  function VolumeRanking(volumes: seq<real>): (r: seq<(int, real)>)
    ensures |r| == |volumes|
    ensures forall k :: 0 <= k < |r| ==> 0 <= r[k].0 < |volumes| && r[k].1 == volumes[r[k].0]
    ensures forall a, b :: 0 <= a < b < |r| ==> r[a].1 >= r[b].1
    ensures forall a, b :: 0 <= a < b < |r| ==> r[a].0 != r[b].0
    ensures forall i :: 0 <= i < |volumes| ==> i in Positions(r)
  {
    var r := SortBy(Enumerate(volumes), NegatedVolume);
    SortedEntries(volumes, r);
    SortedCovers(volumes);
    SortedDescending(volumes, r);
    SortedDistinct(volumes, r);
    r
  }

  /**
   * Equal volumes keep their candles' order: the entries of any one volume
   * appear in the ranking exactly as they do in `enumerate(volumes)`.
   */
  lemma VolumeRankingIsStable(volumes: seq<real>, v: real)
    ensures WithKey(VolumeRanking(volumes), NegatedVolume, -v) == WithKey(Enumerate(volumes), NegatedVolume, -v)
  {
    SortIsStable(Enumerate(volumes), NegatedVolume, -v);
  }

  /** The highest-volume candle comes first in the ranking: the first largest volume is the point of control. */
  lemma RankingStartsAtPointOfControl(volumes: seq<real>)
    requires volumes != []
    ensures VolumeRanking(volumes)[0].0 == PointOfControl(volumes)
  {
    var e := Enumerate(volumes);
    SortedHeadIsFirstMinimal(e, NegatedVolume);
    var i :| FirstMinimal(e, NegatedVolume, i) && SortBy(e, NegatedVolume)[0] == e[i];
    var p := PointOfControl(volumes);
    assert FirstMaximal(volumes, i) by {
      forall j | 0 <= j < |volumes|
        ensures volumes[j] <= volumes[i]
      {
        assert NegatedVolume(e[i]) <= NegatedVolume(e[j]);
      }
      forall j | 0 <= j < i
        ensures volumes[j] < volumes[i]
      {
        assert NegatedVolume(e[i]) < NegatedVolume(e[j]);
      }
    }
  }

  /** The positions of a list of ranked entries. */
  function Positions(ps: seq<(int, real)>): (r: seq<int>)
    ensures |r| == |ps| && forall k :: 0 <= k < |ps| ==> r[k] == ps[k].0
  {
    seq(|ps|, k requires 0 <= k < |ps| => ps[k].0)
  }

  /** The total volume of a list of ranked entries. */
  function RankedVolume(ps: seq<(int, real)>): real
  {
    if ps == [] then 0.0 else RankedVolume(ps[..|ps| - 1]) + ps[|ps| - 1].1
  }

  /** Taking one more ranked entry adds its position and its volume. */
  lemma RankedPrefix(ps: seq<(int, real)>, k: nat)
    requires k < |ps|
    ensures Positions(ps[..k + 1]) == Positions(ps[..k]) + [ps[k].0]
    ensures RankedVolume(ps[..k + 1]) == RankedVolume(ps[..k]) + ps[k].1
  {
    assert ps[..k + 1][..k] == ps[..k];
  }

  /** Every non-empty prefix of `ranking` shorter than `k` entries holds less volume than `threshold`. */
  predicate FallsShort(ranking: seq<(int, real)>, k: nat, threshold: real)
    requires k <= |ranking|
  {
    forall j :: 1 <= j < k ==> RankedVolume(ranking[..j]) < threshold
  }

  /**
   * `area` is the value area of `volumes`: the positions of a non-empty
   * prefix of the ranking, every shorter prefix falling short of 70% of the
   * total volume, stopping short of the whole ranking only once 70% is
   * reached.
   */
  predicate ValueAreaOf(volumes: seq<real>, area: seq<int>)
  {
    var ranking := VolumeRanking(volumes);
    && 1 <= |area| <= |ranking|
    && area == Positions(ranking[..|area|])
    && FallsShort(ranking, |area|, Sum(volumes) * 0.7)
    && (|area| < |ranking| ==> RankedVolume(ranking[..|area|]) >= Sum(volumes) * 0.7)
  }

  /** A value area is no longer than any non-empty prefix of the ranking that reaches 70%. */
  lemma AreaEndsAtThreshold(volumes: seq<real>, area: seq<int>, m: nat)
    requires ValueAreaOf(volumes, area)
    requires 1 <= m <= |VolumeRanking(volumes)|
    requires RankedVolume(VolumeRanking(volumes)[..m]) >= Sum(volumes) * 0.7
    ensures |area| <= m
  {
  }

  /** The conditions pin the value area down: two value areas of the same volumes are equal. */
  lemma ValueAreaUnique(volumes: seq<real>, a1: seq<int>, a2: seq<int>)
    requires ValueAreaOf(volumes, a1) && ValueAreaOf(volumes, a2)
    ensures a1 == a2
  {
    var ranking := VolumeRanking(volumes);
    if |a1| < |ranking| {
      AreaEndsAtThreshold(volumes, a2, |a1|);
    }
    if |a2| < |ranking| {
      AreaEndsAtThreshold(volumes, a1, |a2|);
    }
  }

  /**
   * The value area holds the heaviest candles: its positions are distinct,
   * and no candle left out of it has more volume than any candle in it.
   */
  lemma ValueAreaHoldsTopVolumes(volumes: seq<real>, area: seq<int>)
    requires ValueAreaOf(volumes, area)
    ensures forall a, b :: 0 <= a < b < |area| ==> area[a] != area[b]
    ensures forall k, j :: 0 <= k < |area| && 0 <= j < |volumes| && j !in area ==> volumes[j] <= volumes[area[k]]
  {
    var ranking := VolumeRanking(volumes);
    var m := |area|;
    forall k, j | 0 <= k < m && 0 <= j < |volumes| && j !in area
      ensures volumes[j] <= volumes[area[k]]
    {
      assert j in Positions(ranking);
      var t :| 0 <= t < |ranking| && Positions(ranking)[t] == j;
      assert t >= m;
      assert area[k] == ranking[k].0;
    }
  }

  /**
   * The value area: the candles taken from the top of the ranking until
   * their volume reaches 70% of the total.
   */
  method ValueArea(volumes: seq<real>) returns (area: seq<int>)
    requires volumes != []
    ensures ValueAreaOf(volumes, area)
  {
    var ranking := VolumeRanking(volumes);
    var threshold := Sum(volumes) * 0.7;
    var accumulated := 0.0;
    area := [];
    var k := 0;
    while k < |ranking|
      invariant 0 <= k <= |ranking| && |area| == k
      invariant area == Positions(ranking[..k])
      invariant accumulated == RankedVolume(ranking[..k])
      invariant FallsShort(ranking, k, threshold)
      invariant k > 0 ==> accumulated < threshold
    {
      RankedPrefix(ranking, k);
      assert FallsShort(ranking, k + 1, threshold);
      accumulated := accumulated + ranking[k].1;
      area := area + [ranking[k].0];
      k := k + 1;
      if accumulated >= threshold {
        break;
      }
    }
  }

  datatype Profile = Profile(poc: real, pocVolume: real, valueAreaHigh: real, valueAreaLow: real,
                             currentPrice: real, abovePoc: bool)

  /** `[window[i] for i in area]`. */
  function AreaCandles(window: seq<Candle>, area: seq<int>): (r: seq<Candle>)
    requires forall k :: 0 <= k < |area| ==> 0 <= area[k] < |window|
    ensures |r| == |area| && forall k :: 0 <= k < |area| ==> r[k] == window[area[k]]
  {
    seq(|area|, k requires 0 <= k < |area| => window[area[k]])
  }

  /**
   * `analyze_volume_profile`: over the last 40 candles the point of
   * control is the middle of the first candle with the largest volume; the
   * value area of the last 40 volumes (returned as `area`) starts with that
   * candle, and its high
   * and low are the extremes of the value-area candles, so they enclose the
   * point of control's candle.
   */
  method VolumeProfile(data: Input) returns (r: Outcome<Profile>, ghost area: seq<int>)
    ensures r.InsufficientData? <==> |data.candles| < 40
    ensures r.InsufficientData? ==> r.record == InsufficientRecord(AnalyzeVolumeProfile)
    ensures !r.Raised?
    ensures r.Completed? ==>
      var window := data.candles[|data.candles| - 40..];
      var volumes := Volumes(window);
      var p := PointOfControl(volumes);
      var profile := r.value;
      && FirstMaximal(volumes, p)
      && profile.poc == (window[p].high + window[p].low) / 2.0
      && profile.pocVolume == volumes[p]
      && ValueAreaOf(volumes, area) && area[0] == p
      && (forall k :: 0 <= k < |area| ==> 0 <= area[k] < 40)
      && IsHighest(profile.valueAreaHigh, AreaCandles(window, area))
      && IsLowest(profile.valueAreaLow, AreaCandles(window, area))
      && profile.valueAreaLow <= window[p].low && window[p].high <= profile.valueAreaHigh
      && (window[p].low <= window[p].high ==> profile.valueAreaLow <= profile.poc <= profile.valueAreaHigh)
      && (profile.abovePoc <==> data.currentPrice > profile.poc)
  {
    area := [];
    if |data.candles| < 40 {
      return InsufficientData(InsufficientRecord(AnalyzeVolumeProfile)), area;
    }
    var recent := Last(data.candles, 40);
    var volumes := Volumes(recent);
    var p := PointOfControl(volumes);
    var poc := (recent[p].high + recent[p].low) / 2.0;
    var indices := ValueArea(volumes);
    RankingStartsAtPointOfControl(volumes);
    ghost var ranking := VolumeRanking(volumes);
    assert forall k :: 0 <= k < |indices| ==> indices[k] == ranking[k].0;
    var areaCandles := AreaCandles(recent, indices);
    var high := HighestHigh(areaCandles);
    var low := LowestLow(areaCandles);
    area := indices;
    assert areaCandles[0] == recent[p];
    return Completed(Profile(poc, volumes[p], high, low, data.currentPrice, data.currentPrice > poc)), area;
  }
}
