/**
 * The indicators both data providers derive from their candles in the same
 * way: the relative strength index over the closes, the trend of the last
 * twenty closes, the average range of the last fourteen candles, and the
 * support and resistance averaged from the extreme lows and highs of the
 * last fifty.
 */
module TechnicalIndicators {

  import opened Common
  import opened MarketData
  import opened SmcGuards
  import opened SmcLists

  // ---------------------------------------------------------------- sums

  /** A sum of non-negative terms is non-negative, and zero exactly when every term is. */
  lemma {:induction false} SumOfNonNegative(xs: seq<real>)
    requires forall k :: 0 <= k < |xs| ==> xs[k] >= 0.0
    ensures Sum(xs) >= 0.0
    ensures Sum(xs) == 0.0 <==> forall k :: 0 <= k < |xs| ==> xs[k] == 0.0
    decreases |xs|
  {
    if xs != [] {
      var init := xs[..|xs| - 1];
      assert forall k :: 0 <= k < |init| ==> init[k] == xs[k];
      SumOfNonNegative(init);
    }
  }

  /** A sum of terms that all lie in `[lo, hi]` lies between `|xs|` times each bound. */
  lemma {:induction false} SumBetween(xs: seq<real>, lo: real, hi: real)
    requires forall k :: 0 <= k < |xs| ==> lo <= xs[k] <= hi
    ensures (|xs| as real) * lo <= Sum(xs) <= (|xs| as real) * hi
    decreases |xs|
  {
    if xs != [] {
      var init := xs[..|xs| - 1];
      assert forall k :: 0 <= k < |init| ==> init[k] == xs[k];
      SumBetween(init, lo, hi);
      var n := |init| as real;
      assert (|xs| as real) * lo == n * lo + lo;
      assert (|xs| as real) * hi == n * hi + hi;
    }
  }

  /** The mean of a non-empty sequence whose terms lie in `[lo, hi]` lies in `[lo, hi]`. */
  lemma MeanBetween(xs: seq<real>, lo: real, hi: real)
    requires xs != []
    requires forall k :: 0 <= k < |xs| ==> lo <= xs[k] <= hi
    ensures lo <= Sum(xs) / (|xs| as real) <= hi
  {
    SumBetween(xs, lo, hi);
    var n := |xs| as real;
    DivideKeepsOrder(n * lo, Sum(xs), n);
    DivideKeepsOrder(Sum(xs), n * hi, n);
    CancelFactor(lo, n);
    CancelFactor(hi, n);
  }

  /** Multiplying and then dividing by the same positive number gives the value back. */
  lemma CancelFactor(x: real, n: real)
    requires n > 0.0
    ensures n * x / n == x
  {
  }

  /** Dividing by a positive number keeps order. */
  lemma DivideKeepsOrder(a: real, b: real, n: real)
    requires n > 0.0 && a <= b
    ensures a / n <= b / n
  {
    assert b / n - a / n == (b - a) / n;
  }

  // ---------------------------------------------------------------- RSI

  const RsiPeriod: nat := 14

  /** `max(x, 0)`. */
  function Positive(x: real): (p: real)
    ensures p >= 0.0 && (p == x || p == 0.0)
    ensures p > 0.0 <==> x > 0.0
  {
    if x > 0.0 then x else 0.0
  }

  /** The step into price `i` from the one before it. */
  function Change(prices: seq<real>, i: int): real
    requires 1 <= i < |prices|
  {
    prices[i] - prices[i - 1]
  }

  /** The gain of every step between consecutive prices. */
  function Gains(prices: seq<real>): (g: seq<real>)
    ensures |g| == if prices == [] then 0 else |prices| - 1
    ensures forall k :: 0 <= k < |g| ==> g[k] == Positive(Change(prices, k + 1))
  {
    if prices == [] then [] else seq(|prices| - 1, k requires 0 <= k < |prices| - 1 => Positive(Change(prices, k + 1)))
  }

  /** The loss of every step between consecutive prices. */
  function Losses(prices: seq<real>): (l: seq<real>)
    ensures |l| == if prices == [] then 0 else |prices| - 1
    ensures forall k :: 0 <= k < |l| ==> l[k] == Positive(-Change(prices, k + 1))
  {
    if prices == [] then [] else seq(|prices| - 1, k requires 0 <= k < |prices| - 1 => Positive(-Change(prices, k + 1)))
  }

  /** The first price index whose step into it is among the last `RsiPeriod` steps. */
  function RsiFrom(prices: seq<real>): nat
  {
    if |prices| < RsiPeriod + 1 then 1 else |prices| - RsiPeriod
  }

  /** No price fell over the steps the index averages. */
  predicate NoLossIn(prices: seq<real>)
  {
    forall i :: RsiFrom(prices) <= i < |prices| ==> Change(prices, i) >= 0.0
  }

  /** No price rose over the steps the index averages. */
  predicate NoGainIn(prices: seq<real>)
  {
    forall i :: RsiFrom(prices) <= i < |prices| ==> Change(prices, i) <= 0.0
  }

  /** The mean gain over the last `RsiPeriod` steps, always divided by the period. */
  function AverageGain(prices: seq<real>): real
  {
    Sum(Last(Gains(prices), RsiPeriod)) / (RsiPeriod as real)
  }

  /** The mean loss over the last `RsiPeriod` steps, always divided by the period. */
  function AverageLoss(prices: seq<real>): real
  {
    Sum(Last(Losses(prices), RsiPeriod)) / (RsiPeriod as real)
  }

  /** The last `RsiPeriod` losses are those of the steps into the prices from `RsiFrom` on. */
  lemma LastLosses(prices: seq<real>)
    requires |prices| >= RsiPeriod
    ensures |Last(Losses(prices), RsiPeriod)| == |prices| - RsiFrom(prices)
    ensures forall k :: 0 <= k < |prices| - RsiFrom(prices) ==>
      Last(Losses(prices), RsiPeriod)[k] == Positive(-Change(prices, RsiFrom(prices) + k))
  {
    var from := RsiFrom(prices);
    var losses := Losses(prices);
    var last := Last(losses, RsiPeriod);
    if |losses| < RsiPeriod {
      assert from == 1 && last == losses;
    } else {
      assert from - 1 == |losses| - RsiPeriod && last == losses[|losses| - RsiPeriod..];
    }
    forall k | 0 <= k < |prices| - from
      ensures last[k] == Positive(-Change(prices, from + k))
    {
      assert last[k] == losses[from - 1 + k];
    }
  }

  /** The last `RsiPeriod` gains are those of the steps into the prices from `RsiFrom` on. */
  lemma LastGains(prices: seq<real>)
    requires |prices| >= RsiPeriod
    ensures |Last(Gains(prices), RsiPeriod)| == |prices| - RsiFrom(prices)
    ensures forall k :: 0 <= k < |prices| - RsiFrom(prices) ==>
      Last(Gains(prices), RsiPeriod)[k] == Positive(Change(prices, RsiFrom(prices) + k))
  {
    var from := RsiFrom(prices);
    var gains := Gains(prices);
    var last := Last(gains, RsiPeriod);
    if |gains| < RsiPeriod {
      assert from == 1 && last == gains;
    } else {
      assert from - 1 == |gains| - RsiPeriod && last == gains[|gains| - RsiPeriod..];
    }
    forall k | 0 <= k < |prices| - from
      ensures last[k] == Positive(Change(prices, from + k))
    {
      assert last[k] == gains[from - 1 + k];
    }
  }

  /** The last losses are all zero exactly when no price fell over the averaged steps. */
  lemma NoLossIffZeroLosses(prices: seq<real>)
    requires |prices| >= RsiPeriod
    ensures var losses := Last(Losses(prices), RsiPeriod);
      NoLossIn(prices) <==> forall k :: 0 <= k < |losses| ==> losses[k] == 0.0
  {
    var n := |prices|;
    var from := RsiFrom(prices);
    var losses := Last(Losses(prices), RsiPeriod);
    LastLosses(prices);
    if NoLossIn(prices) {
      forall k | 0 <= k < |losses| ensures losses[k] == 0.0 {
        assert Change(prices, from + k) >= 0.0;
      }
    }
    if forall k :: 0 <= k < |losses| ==> losses[k] == 0.0 {
      forall i | from <= i < n ensures Change(prices, i) >= 0.0 {
        assert losses[i - from] == 0.0;
      }
    }
  }

  /** The last gains are all zero exactly when no price rose over the averaged steps. */
  lemma NoGainIffZeroGains(prices: seq<real>)
    requires |prices| >= RsiPeriod
    ensures var gains := Last(Gains(prices), RsiPeriod);
      NoGainIn(prices) <==> forall k :: 0 <= k < |gains| ==> gains[k] == 0.0
  {
    var n := |prices|;
    var from := RsiFrom(prices);
    var gains := Last(Gains(prices), RsiPeriod);
    LastGains(prices);
    if NoGainIn(prices) {
      forall k | 0 <= k < |gains| ensures gains[k] == 0.0 {
        assert Change(prices, from + k) <= 0.0;
      }
    }
    if forall k :: 0 <= k < |gains| ==> gains[k] == 0.0 {
      forall i | from <= i < n ensures Change(prices, i) <= 0.0 {
        assert gains[i - from] == 0.0;
      }
    }
  }

  /** The averaged loss is zero exactly when no price fell over the averaged steps. */
  lemma AverageLossVanishes(prices: seq<real>)
    requires |prices| >= RsiPeriod
    ensures AverageLoss(prices) >= 0.0
    ensures AverageLoss(prices) == 0.0 <==> NoLossIn(prices)
  {
    NoLossIffZeroLosses(prices);
    SumOfNonNegative(Last(Losses(prices), RsiPeriod));
  }

  /** The averaged gain is zero exactly when no price rose over the averaged steps. */
  lemma AverageGainVanishes(prices: seq<real>)
    requires |prices| >= RsiPeriod
    ensures AverageGain(prices) >= 0.0
    ensures AverageGain(prices) == 0.0 <==> NoGainIn(prices)
  {
    NoGainIffZeroGains(prices);
    SumOfNonNegative(Last(Gains(prices), RsiPeriod));
  }

  /** `100 - (100 / (1 + rs))` with `rs = avg_gain / avg_loss`, for a positive loss average. */
  function StrengthIndex(gain: real, loss: real): real
    requires gain >= 0.0 && loss > 0.0
  {
    var rs := gain / loss;
    assert rs >= 0.0;
    100.0 - 100.0 / (1.0 + rs)
  }

  /**
   * The index from the averages, for a positive loss, is the gains' share
   * of all movement scaled to 100, so it lies in `[0, 100)` and is 0
   * exactly when nothing was gained.
   */
  lemma RsiIsGainShare(gain: real, loss: real)
    requires gain >= 0.0 && loss > 0.0
    ensures var rsi := StrengthIndex(gain, loss);
      && rsi * (gain + loss) == 100.0 * gain
      && 0.0 <= rsi < 100.0
      && (rsi == 0.0 <==> gain == 0.0)
  {
    var rs := gain / loss;
    var q := 100.0 / (1.0 + rs);
    assert rs >= 0.0;
    assert (1.0 + rs) * loss == loss + gain;
    assert q * (1.0 + rs) == 100.0;
    assert 0.0 < q <= 100.0;
    calc {
      (100.0 - q) * (gain + loss);
      (100.0 - q) * ((1.0 + rs) * loss);
      100.0 * (1.0 + rs) * loss - q * (1.0 + rs) * loss;
      100.0 * (1.0 + rs) * loss - 100.0 * loss;
      100.0 * gain;
    }
  }

  /** The index of at least `RsiPeriod` prices: 100 without losses, the strength index of the averages otherwise. */
  function RsiOf(prices: seq<real>): real
    requires |prices| >= RsiPeriod
  {
    AverageGainVanishes(prices);
    AverageLossVanishes(prices);
    if AverageLoss(prices) == 0.0 then 100.0 else StrengthIndex(AverageGain(prices), AverageLoss(prices))
  }

  /**
   * What the index of at least `RsiPeriod` prices means: 100 exactly when
   * no price fell over the averaged steps; otherwise the gain average's
   * share of all movement, below 100, and 0 exactly when no price rose.
   */
  lemma RsiOfMeaning(prices: seq<real>)
    requires |prices| >= RsiPeriod
    ensures 0.0 <= RsiOf(prices) <= 100.0
    ensures RsiOf(prices) == 100.0 <==> NoLossIn(prices)
    ensures !NoLossIn(prices) ==>
      && 0.0 <= RsiOf(prices) < 100.0
      && RsiOf(prices) * (AverageGain(prices) + AverageLoss(prices)) == 100.0 * AverageGain(prices)
      && (RsiOf(prices) == 0.0 <==> NoGainIn(prices))
  {
    AverageLossVanishes(prices);
    if AverageLoss(prices) == 0.0 {
      assert RsiOf(prices) == 100.0;
    } else {
      RsiWithLosses(prices);
    }
  }

  /** With a loss among the averaged steps the index is the gain average's share of all movement. */
  lemma RsiWithLosses(prices: seq<real>)
    requires |prices| >= RsiPeriod && AverageLoss(prices) != 0.0
    ensures 0.0 <= RsiOf(prices) < 100.0
    ensures RsiOf(prices) * (AverageGain(prices) + AverageLoss(prices)) == 100.0 * AverageGain(prices)
    ensures RsiOf(prices) == 0.0 <==> NoGainIn(prices)
  {
    AverageGainVanishes(prices);
    RsiIsStrengthIndex(prices);
    RsiIsGainShare(AverageGain(prices), AverageLoss(prices));
  }

  /** With a loss among the averaged steps the index is the strength index of the two averages. */
  lemma RsiIsStrengthIndex(prices: seq<real>)
    requires |prices| >= RsiPeriod && AverageLoss(prices) != 0.0
    ensures AverageGain(prices) >= 0.0 && AverageLoss(prices) > 0.0
    ensures RsiOf(prices) == StrengthIndex(AverageGain(prices), AverageLoss(prices))
  {
    AverageLossVanishes(prices);
    AverageGainVanishes(prices);
  }

  /** The loop of `calculate_rsi` over consecutive prices: the gain and the loss of every step. */
  method PriceSteps(prices: seq<real>) returns (gains: seq<real>, losses: seq<real>)
    requires prices != []
    ensures gains == Gains(prices) && losses == Losses(prices)
  {
    gains, losses := [], [];
    var i := 1;
    while i < |prices|
      invariant 1 <= i <= |prices|
      invariant |gains| == i - 1 && forall k :: 0 <= k < i - 1 ==> gains[k] == Positive(Change(prices, k + 1))
      invariant |losses| == i - 1 && forall k :: 0 <= k < i - 1 ==> losses[k] == Positive(-Change(prices, k + 1))
    {
      var change := Change(prices, i);
      gains := gains + [Positive(change)];
      losses := losses + [Positive(-change)];
      i := i + 1;
    }
  }

  /**
   * `calculate_rsi` with the period of 14: the neutral 50 for fewer prices
   * than the period, otherwise the index of the averages (whose meaning
   * `RsiOfMeaning` states), 100 exactly when no price fell over the last
   * steps; always within `[0, 100]`.
   */
  method CalculateRsi(prices: seq<real>) returns (rsi: real)
    ensures |prices| < RsiPeriod ==> rsi == 50.0
    ensures |prices| >= RsiPeriod ==> rsi == RsiOf(prices) && (rsi == 100.0 <==> NoLossIn(prices))
    ensures 0.0 <= rsi <= 100.0
  {
    if |prices| < RsiPeriod {
      return 50.0;
    }
    var gains, losses := PriceSteps(prices);
    var avgGain := Sum(Last(gains, RsiPeriod)) / (RsiPeriod as real);
    var avgLoss := Sum(Last(losses, RsiPeriod)) / (RsiPeriod as real);
    assert avgGain == AverageGain(prices) && avgLoss == AverageLoss(prices);
    AverageGainVanishes(prices);
    AverageLossVanishes(prices);
    if avgLoss == 0.0 {
      rsi := 100.0;
    } else {
      rsi := StrengthIndex(avgGain, avgLoss);
    }
    assert rsi == RsiOf(prices);
    RsiOfMeaning(prices);
  }

  // ---------------------------------------------------------------- trend and range

  /** `[c['close'] for c in candles]`. */
  function Closes(cs: seq<Candle>): (r: seq<real>)
    ensures |r| == |cs| && forall i :: 0 <= i < |cs| ==> r[i] == cs[i].close
  {
    seq(|cs|, i requires 0 <= i < |cs| => cs[i].close)
  }

  /**
   * The trend of the last twenty closes: bullish exactly when the last
   * close is above the first of them (the close nineteen bars back, or the
   * first close of a shorter history).
   */
  function TrendOf(closes: seq<real>): (t: Trend)
    requires closes != []
    ensures t == Bullish <==> closes[|closes| - 1] > closes[if |closes| < 20 then 0 else |closes| - 20]
  {
    var recent := Last(closes, 20);
    if recent[|recent| - 1] > recent[0] then Bullish else Bearish
  }

  /** The high-low range of every candle. */
  function Ranges(cs: seq<Candle>): (r: seq<real>)
    ensures |r| == |cs| && forall i :: 0 <= i < |cs| ==> r[i] == cs[i].high - cs[i].low
  {
    seq(|cs|, i requires 0 <= i < |cs| => cs[i].high - cs[i].low)
  }

  /**
   * The average true range as both providers compute it: the mean
   * high-low range of the last fourteen candles (fewer when there are
   * fewer), which lies between the smallest and the largest of those ranges.
   */
  function AverageRange(candles: seq<Candle>): (atr: real)
    requires candles != []
    ensures var ranges := Ranges(Last(candles, RsiPeriod));
      Smallest(ranges) <= atr <= Largest(ranges)
    ensures (forall c :: c in candles ==> c.low <= c.high) ==> atr >= 0.0
  {
    var ranges := Ranges(Last(candles, RsiPeriod));
    MeanBetween(ranges, Smallest(ranges), Largest(ranges));
    Sum(ranges) / (|ranges| as real)
  }

  // ---------------------------------------------------------------- support and resistance

  function Identity(x: real): real
  {
    x
  }

  function Negated(x: real): real
  {
    -x
  }

  /** Every value of `xs` lies between the least and the greatest value of `ys`. */
  predicate WithinValues(xs: seq<real>, ys: seq<real>)
    requires ys != []
  {
    forall k :: 0 <= k < |xs| ==> Smallest(ys) <= xs[k] <= Largest(ys)
  }

  /** Taking the least entries by their own value leaves no smaller entry behind. */
  lemma LeastAreLowest(s: seq<real>, limit: nat)
    ensures forall x, y :: x in multiset(LeastBy(s, Identity, limit)) && y in multiset(s) - multiset(LeastBy(s, Identity, limit)) ==> x <= y
  {
    var r := LeastBy(s, Identity, limit);
    forall x, y | x in multiset(r) && y in multiset(s) - multiset(r)
      ensures x <= y
    {
      assert Identity(x) <= Identity(y);
    }
  }

  /** Taking the least entries by negated value leaves no larger entry behind. */
  lemma MostAreHighest(s: seq<real>, limit: nat)
    ensures forall x, y :: x in multiset(LeastBy(s, Negated, limit)) && y in multiset(s) - multiset(LeastBy(s, Negated, limit)) ==> x >= y
  {
    var r := LeastBy(s, Negated, limit);
    forall x, y | x in multiset(r) && y in multiset(s) - multiset(r)
      ensures x >= y
    {
      assert Negated(x) <= Negated(y);
    }
  }

  /** Values taken from `ys` lie between its smallest and largest. */
  lemma ElementsWithin(xs: seq<real>, ys: seq<real>)
    requires ys != [] && forall x :: x in xs ==> x in ys
    ensures WithinValues(xs, ys)
  {
    forall k | 0 <= k < |xs|
      ensures Smallest(ys) <= xs[k] <= Largest(ys)
    {
      assert xs[k] in xs;
      var i :| 0 <= i < |ys| && ys[i] == xs[k];
    }
  }

  /** The lowest five lows of the last fifty candles, or all of them when there are fewer. */
  function LowestFive(candles: seq<Candle>): (r: seq<real>)
    requires candles != []
    ensures 0 < |r| <= 5 && (|candles| >= 5 ==> |r| == 5)
    ensures WithinValues(r, Lows(Last(candles, 50)))
    ensures multiset(r) <= multiset(Lows(Last(candles, 50)))
    ensures forall x, y :: x in multiset(r) && y in multiset(Lows(Last(candles, 50))) - multiset(r) ==> x <= y
  {
    var lows := Lows(Last(candles, 50));
    var r := LeastBy(lows, Identity, 5);
    ElementsWithin(r, lows);
    LeastAreLowest(lows, 5);
    r
  }

  /** The highest five highs of the last fifty candles, or all of them when there are fewer. */
  function HighestFive(candles: seq<Candle>): (r: seq<real>)
    requires candles != []
    ensures 0 < |r| <= 5 && (|candles| >= 5 ==> |r| == 5)
    ensures WithinValues(r, Highs(Last(candles, 50)))
    ensures multiset(r) <= multiset(Highs(Last(candles, 50)))
    ensures forall x, y :: x in multiset(r) && y in multiset(Highs(Last(candles, 50))) - multiset(r) ==> x >= y
  {
    var highs := Highs(Last(candles, 50));
    var r := LeastBy(highs, Negated, 5);
    ElementsWithin(r, highs);
    MostAreHighest(highs, 5);
    r
  }

  /** `sum(recent_highs[:5]) / 5` as written: the sum is always divided by five. */
  function ResistanceAsWritten(candles: seq<Candle>): real
    requires candles != []
  {
    Sum(HighestFive(candles)) / 5.0
  }

  /** `sum(recent_lows[:5]) / 5` as written: the sum is always divided by five. */
  function SupportAsWritten(candles: seq<Candle>): real
    requires candles != []
  {
    Sum(LowestFive(candles)) / 5.0
  }

  /**
   * The support level: the mean of the lowest lows taken, which lies
   * within the lows of the last fifty candles.
   */
  function Support(candles: seq<Candle>): (s: real)
    requires candles != []
    ensures var lows := Lows(Last(candles, 50)); Smallest(lows) <= s <= Largest(lows)
  {
    var taken := LowestFive(candles);
    var lows := Lows(Last(candles, 50));
    MeanBetween(taken, Smallest(lows), Largest(lows));
    Sum(taken) / (|taken| as real)
  }

  /**
   * The resistance level: the mean of the highest highs taken, which lies
   * within the highs of the last fifty candles.
   */
  function Resistance(candles: seq<Candle>): (s: real)
    requires candles != []
    ensures var highs := Highs(Last(candles, 50)); Smallest(highs) <= s <= Largest(highs)
  {
    var taken := HighestFive(candles);
    var highs := Highs(Last(candles, 50));
    MeanBetween(taken, Smallest(highs), Largest(highs));
    Sum(taken) / (|taken| as real)
  }

  /** From five candles on, dividing by five is dividing by the number of lows taken. */
  lemma SupportAsWrittenFromFiveCandles(candles: seq<Candle>)
    requires |candles| >= 5
    ensures SupportAsWritten(candles) == Support(candles)
  {
    var taken := LowestFive(candles);
    assert |taken| as real == 5.0;
    assert Support(candles) == Sum(taken) / 5.0;
  }

  /** From five candles on, dividing by five is dividing by the number of highs taken. */
  lemma ResistanceAsWrittenFromFiveCandles(candles: seq<Candle>)
    requires |candles| >= 5
    ensures ResistanceAsWritten(candles) == Resistance(candles)
  {
    var taken := HighestFive(candles);
    assert |taken| as real == 5.0;
    assert Resistance(candles) == Sum(taken) / 5.0;
  }

  /**
   * With fewer than five candles the support as written lies below every
   * low: one candle whose prices are all 1.1 gives a support of 0.22.
   */
  lemma SupportAsWrittenUnderstates()
    ensures exists candles: seq<Candle> ::
      && |candles| == 1
      && candles[0].low > 0.0
      && SupportAsWritten(candles) < candles[0].low
  {
    var candles := [Candle(0, 1.1, 1.1, 1.1, 1.1, 1000.0)];
    var five := LowestFive(candles);
    assert Lows(Last(candles, 50)) == [1.1];
    assert |five| == 1 && five[0] == 1.1;
    assert Sum(five) == 1.1 by {
      assert five[..0] == [];
    }
    assert SupportAsWritten(candles) == 0.22;
  }

  // ---------------------------------------------------------------- the indicators

  /**
   * The value `calculate_rsi` returns: the neutral 50 for fewer prices
   * than the period, otherwise the index of the averages, 100 exactly when
   * no price fell over the averaged steps; always within `[0, 100]`.
   */
  function RsiValue(prices: seq<real>): (rsi: real)
    ensures |prices| < RsiPeriod ==> rsi == 50.0
    ensures |prices| >= RsiPeriod ==> rsi == RsiOf(prices) && (rsi == 100.0 <==> NoLossIn(prices))
    ensures 0.0 <= rsi <= 100.0
  {
    if |prices| < RsiPeriod then 50.0
    else
      RsiOfMeaning(prices);
      RsiOf(prices)
  }

  /**
   * The indicators both providers derive from their candles: the index of
   * the closes, within `[0, 100]` and 100 exactly when no close fell over
   * the averaged steps; the trend, bullish exactly when the last close is
   * above the first of the last twenty; the average range, within the
   * ranges of the last fourteen candles; the support and resistance as
   * written, which are the corrected ones from five candles on.
   */
  function IndicatorsOf(candles: seq<Candle>): (ind: Indicators)
    requires candles != []
    ensures |candles| < RsiPeriod ==> ind.rsi == 50.0
    ensures |candles| >= RsiPeriod ==>
      ind.rsi == RsiOf(Closes(candles)) && (ind.rsi == 100.0 <==> NoLossIn(Closes(candles)))
    ensures 0.0 <= ind.rsi <= 100.0
    ensures ind.trend == Bullish <==>
      candles[|candles| - 1].close > candles[if |candles| < 20 then 0 else |candles| - 20].close
    ensures var ranges := Ranges(Last(candles, RsiPeriod));
      Smallest(ranges) <= ind.atr <= Largest(ranges)
    ensures ind.support == SupportAsWritten(candles) && ind.resistance == ResistanceAsWritten(candles)
    ensures |candles| >= 5 ==> ind.support == Support(candles) && ind.resistance == Resistance(candles)
  {
    var ind := Indicators(RsiValue(Closes(candles)), AverageRange(candles), TrendOf(Closes(candles)),
                          SupportAsWritten(candles), ResistanceAsWritten(candles));
    if |candles| < 5 then ind
    else
      SupportAsWrittenFromFiveCandles(candles);
      ResistanceAsWrittenFromFiveCandles(candles);
      ind
  }

  /**
   * The snapshot a provider returns for `candles`: the pair upper-cased,
   * the price of the last close, the indicators of the candles, volatility
   * high exactly when the average range exceeds the provider's threshold,
   * momentum strong exactly when the index is more than 20 away from 50,
   * and the session of the UTC hour.
   */
  predicate SnapshotOf(s: Snapshot, pair: string, timeframe: string, candles: seq<Candle>, threshold: real,
                       hour: int, source: string)
    requires candles != []
  {
    && s.pair == Upper(pair) && s.timeframe == timeframe && s.source == source
    && s.candles == candles && s.dataPoints == |candles|
    && s.currentPrice == candles[|candles| - 1].close
    && s.indicators == IndicatorsOf(candles)
    && s.context == MarketContext(VolatilityOf(s.indicators.atr, threshold), MarketSession(hour),
                                  MomentumOf(s.indicators.rsi))
  }

  /** The loop-free part of `get_forex_data` after the candles: the indicators, computed with `calculate_rsi`. */
  method ComputeIndicators(candles: seq<Candle>) returns (ind: Indicators)
    requires candles != []
    ensures ind == IndicatorsOf(candles)
  {
    var closes := Closes(candles);
    var rsi := CalculateRsi(closes);
    var trend := TrendOf(closes);
    ind := Indicators(rsi, AverageRange(candles), trend, SupportAsWritten(candles), ResistanceAsWritten(candles));
  }

  /**
   * The snapshot both providers return for their candles (`SnapshotOf`,
   * whose indicators `IndicatorsOf` describes).
   */
  method BuildSnapshot(pair: string, timeframe: string, candles: seq<Candle>, threshold: real, hour: int,
                       source: string)
    returns (s: Snapshot)
    requires candles != []
    ensures SnapshotOf(s, pair, timeframe, candles, threshold, hour, source)
  {
    var indicators := ComputeIndicators(candles);
    var context := MarketContext(VolatilityOf(indicators.atr, threshold), MarketSession(hour), MomentumOf(indicators.rsi));
    s := Snapshot(Upper(pair), timeframe, candles[|candles| - 1].close, candles, indicators, context, |candles|, source);
  }
}
