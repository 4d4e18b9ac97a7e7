/**
 * What every analysis function of `utils/smc_functions.py` reads from its
 * `data` argument, the Python list operations the detectors read candles
 * with (slices, negative indexing, `max`/`min` of a list) and the
 * insufficient-data guards in front of them.
 */
module SmcGuards {

  import opened Common
  import opened MarketData
  import opened Registry

  /**
   * The `data` dict as the detectors read it, after `data.get` has supplied
   * its defaults (no candles, price 0, trend "neutral", RSI 50).
   */
  datatype Input = Input(candles: seq<Candle>, currentPrice: real, trend: string, rsi: real)

  /** Where a slice bound lands in a list of length `n`: negative bounds count from the end, then both are clamped. */
  function Bound(i: int, n: nat): (b: nat)
    ensures b <= n
    ensures 0 <= i <= n ==> b == i
    ensures -(n as int) <= i < 0 ==> b == n + i
    ensures i < -(n as int) ==> b == 0
    ensures i > n ==> b == n
  {
    if i < 0 then (if i + n < 0 then 0 else i + n) else if i > n then n else i
  }

  /** `s[start:stop]`, either bound possibly omitted. */
  function Slice<T>(s: seq<T>, start: Option<int>, stop: Option<int>): seq<T>
  {
    var lo := if start.Some? then Bound(start.value, |s|) else 0;
    var hi := if stop.Some? then Bound(stop.value, |s|) else |s|;
    if lo < hi then s[lo..hi] else []
  }

  /** `s[-k:]`: the last `k` elements, or all of them when there are fewer. */
  function Last<T>(s: seq<T>, k: nat): (r: seq<T>)
    requires k > 0
    ensures |s| >= k ==> r == s[|s| - k..]
    ensures |s| < k ==> r == s
  {
    Slice(s, Some(-(k as int)), None)
  }

  function Highs(cs: seq<Candle>): (r: seq<real>)
    ensures |r| == |cs| && forall i :: 0 <= i < |cs| ==> r[i] == cs[i].high
  {
    seq(|cs|, i requires 0 <= i < |cs| => cs[i].high)
  }

  function Lows(cs: seq<Candle>): (r: seq<real>)
    ensures |r| == |cs| && forall i :: 0 <= i < |cs| ==> r[i] == cs[i].low
  {
    seq(|cs|, i requires 0 <= i < |cs| => cs[i].low)
  }

  const EmptyMaxMessage: string := "max() arg is an empty sequence"
  const EmptyMinMessage: string := "min() arg is an empty sequence"

  /** The largest element of a non-empty list. */
  function Largest(xs: seq<real>): (m: real)
    requires |xs| > 0
    ensures m in xs && forall i :: 0 <= i < |xs| ==> xs[i] <= m
    decreases |xs|
  {
    if |xs| == 1 then xs[0]
    else var m := Largest(xs[1..]); if xs[0] >= m then xs[0] else m
  }

  /** The smallest element of a non-empty list. */
  function Smallest(xs: seq<real>): (m: real)
    requires |xs| > 0
    ensures m in xs && forall i :: 0 <= i < |xs| ==> m <= xs[i]
    decreases |xs|
  {
    if |xs| == 1 then xs[0]
    else var m := Smallest(xs[1..]); if xs[0] <= m then xs[0] else m
  }

  /** Python's `max(xs)`: the largest element, or `ValueError` on an empty list. */
  function MaxOf(xs: seq<real>): (r: Result<real, string>)
    ensures r.Err? <==> xs == []
    ensures r.Err? ==> r.error == EmptyMaxMessage
    ensures r.Ok? ==> r.value in xs && forall i :: 0 <= i < |xs| ==> xs[i] <= r.value
  {
    if xs == [] then Err(EmptyMaxMessage) else Ok(Largest(xs))
  }

  /** Python's `min(xs)`: the smallest element, or `ValueError` on an empty list. */
  function MinOf(xs: seq<real>): (r: Result<real, string>)
    ensures r.Err? <==> xs == []
    ensures r.Err? ==> r.error == EmptyMinMessage
    ensures r.Ok? ==> r.value in xs && forall i :: 0 <= i < |xs| ==> r.value <= xs[i]
  {
    if xs == [] then Err(EmptyMinMessage) else Ok(Smallest(xs))
  }

  /** `level` is the highest high among `window`. */
  predicate IsHighest(level: real, window: seq<Candle>)
  {
    && (exists i :: 0 <= i < |window| && window[i].high == level)
    && forall i :: 0 <= i < |window| ==> window[i].high <= level
  }

  /** `level` is the lowest low among `window`. */
  predicate IsLowest(level: real, window: seq<Candle>)
  {
    && (exists i :: 0 <= i < |window| && window[i].low == level)
    && forall i :: 0 <= i < |window| ==> level <= window[i].low
  }

  /** `max(c['high'] for c in window)` where the window is known to be non-empty. */
  function HighestHigh(window: seq<Candle>): (m: real)
    requires window != []
    ensures IsHighest(m, window)
    ensures MaxOf(Highs(window)) == Ok(m)
  {
    Largest(Highs(window))
  }

  /** `min(c['low'] for c in window)` where the window is known to be non-empty. */
  function LowestLow(window: seq<Candle>): (m: real)
    requires window != []
    ensures IsLowest(m, window)
    ensures MinOf(Lows(window)) == Ok(m)
  {
    Smallest(Lows(window))
  }

  /**
   * The number of candles below which each analysis function returns its
   * insufficient-data record; `None` for the functions that take no candles
   * or never check.
   */
  function MinCandles(c: Capability): Option<nat>
  {
    match c
    case DetectBos => Some(20)
    case DetectChoch => Some(30)
    case DetectMarketStructureBreak => Some(25)
    case DetectLiquiditySweep => Some(30)
    case IdentifyLiquidityPools => Some(40)
    case DetectLiquidityVoid => Some(30)
    case IdentifyOrderBlocks => Some(50)
    case IdentifyFairValueGaps => Some(20)
    case IdentifyBreakerBlocks => Some(40)
    case CalculatePremiumDiscountZones => Some(50)
    case DetectImbalances => Some(25)
    case DetectInefficiencies => Some(30)
    case AnalyzeVolumeProfile => Some(40)
    case DetectSmartMoneyDivergence => Some(40)
    case AnalyzeOrderFlow => Some(20)
    case IdentifyManipulationPatterns => Some(30)
    case DetectWyckoffPhases => Some(50)
    case IdentifyTurtleSoupSetups => Some(30)
    case _ => None
  }

  /** The two-field record `{field: empty, "message": message}`. */
  function GuardRecord(field: string, empty: Json, message: string): (r: Json)
    requires field != "message"
    ensures r.JObject? && r.fields.Keys == {field, "message"} && r.fields["message"] == JStr(message)
    ensures r.fields[field] == empty
    ensures |r.fields| == 2
  {
    var fields := map[field := empty, "message" := JStr(message)];
    assert fields.Keys == {field, "message"};
    JObject(fields)
  }

  /** The main field of each guarded function's result. */
  function GuardField(c: Capability): string
  {
    match c
    case DetectBos => "detected"
    case DetectChoch => "detected"
    case DetectMarketStructureBreak => "detected"
    case DetectLiquiditySweep => "sweeps"
    case IdentifyLiquidityPools => "pools"
    case DetectLiquidityVoid => "voids"
    case IdentifyOrderBlocks => "order_blocks"
    case IdentifyFairValueGaps => "fvgs"
    case IdentifyBreakerBlocks => "breaker_blocks"
    case CalculatePremiumDiscountZones => "zones"
    case DetectImbalances => "imbalances"
    case DetectInefficiencies => "inefficiencies"
    case AnalyzeVolumeProfile => "profile"
    case DetectSmartMoneyDivergence => "divergence"
    case AnalyzeOrderFlow => "flow"
    case IdentifyManipulationPatterns => "manipulations"
    case DetectWyckoffPhases => "phase"
    case IdentifyTurtleSoupSetups => "setups"
    case _ => "result"
  }

  /** The value that main field holds when there are too few candles. */
  function GuardEmpty(c: Capability): Json
  {
    match c
    case DetectBos => JBool(false)
    case DetectChoch => JBool(false)
    case DetectMarketStructureBreak => JBool(false)
    case CalculatePremiumDiscountZones => JObject(map[])
    case AnalyzeVolumeProfile => JObject(map[])
    case AnalyzeOrderFlow => JObject(map[])
    case DetectSmartMoneyDivergence => JNull
    case DetectWyckoffPhases => JNull
    case _ => JList([])
  }

  /** The message of the insufficient-data record: the structure detectors name themselves. */
  function GuardMessage(c: Capability): string
  {
    match c
    case DetectBos => "Insufficient data for BOS detection"
    case DetectChoch => "Insufficient data for CHoCH detection"
    case DetectMarketStructureBreak => "Insufficient data for MSB detection"
    case _ => "Insufficient data"
  }

  /**
   * The record each guarded function returns for too few candles: the
   * function's main field, empty, and a message.
   */
  function InsufficientRecord(c: Capability): (r: Json)
    requires MinCandles(c).Some?
    ensures r.JObject? && r.fields.Keys == {GuardField(c), "message"}
    ensures r.fields["message"] == JStr(GuardMessage(c)) && r.fields[GuardField(c)] == GuardEmpty(c)
    ensures |r.fields| == 2
  {
    assert GuardField(c) != "message" by {
      assert GuardField(c)[0] != 'm' || |GuardField(c)| != 7 || GuardField(c) == "manipulations";
    }
    GuardRecord(GuardField(c), GuardEmpty(c), GuardMessage(c))
  }

  /** Too few candles for capability `c`. */
  predicate Insufficient(c: Capability, data: Input)
    requires MinCandles(c).Some?
  {
    |data.candles| < MinCandles(c).value
  }

  /** What a guarded analysis function does: its insufficient-data record, a raised exception, or its result. */
  datatype Outcome<+T> = InsufficientData(record: Json) | Raised(message: string) | Completed(value: T)
}
