/**
 * The indicator engine: windowed statistics over one market's history of
 * implied probabilities ("ips") and point values. Every indicator has a
 * minimum-sample guard below which it reports nothing (`None`), selects a
 * window with Python's `xs[-n:]` (`Stats.Tail`), and then computes a mean,
 * a spread or an extreme over that window.
 */
module TaEngine {
  import opened Wrappers
  import opened Stats

  // ---------------------------------------------------------------------
  // The arguments `calculate_all_ta_indicators` passes
  // ---------------------------------------------------------------------

  const MomentumPeriod: nat := 3
  const RsiPeriod: nat := 14
  const ZScoreLookback: nat := 20
  const SmaPeriod: nat := 10
  const EmaPeriod: nat := 10
  const AdaptiveBasePeriod: nat := 10
  const AdaptiveMaxPeriod: int := 30
  const AdaptiveSensitivity: real := 2.0
  const BollingerLookback: nat := 20
  const AtrLookback: nat := 14
  const FibLookback: nat := 50
  const SeriesLength: nat := 500

  /** Steam detection needs this many ips. */
  const SteamMinimum: nat := 6
  /** Steam detection measures volatility over at most this many ips. */
  const SteamVolatilityWindow: nat := 10
  /** Point moves at or below this size are skipped by the Greeks estimate. */
  const RatioEpsilon: real := 0.00000001

  // ---------------------------------------------------------------------
  // Sign of a quotient
  // ---------------------------------------------------------------------

  /** Dividing by a positive real keeps the sign. */
  lemma QuotientSign(x: real, t: real)
    requires t > 0.0
    ensures x / t > 0.0 <==> x > 0.0
    ensures x / t < 0.0 <==> x < 0.0
    ensures x / t == 0.0 <==> x == 0.0
  {
    var q := x / t;
    assert q * t == x;
    if q > 0.0 {
      assert q * t > 0.0;
    } else if q < 0.0 {
      assert (-q) * t > 0.0;
    }
  }

  // ---------------------------------------------------------------------
  // Momentum
  // ---------------------------------------------------------------------

  /** `MOM_V`, the velocity, and `MOM_A`, the acceleration. */
  datatype Momentum = Momentum(momV: Option<real>, momA: Option<real>)

  /** `momentum_from_ips` */
  function MomentumFromIps(values: seq<real>, period: nat): Momentum
    requires period >= 1
  {
    var n := |values|;
    if n < period + 1 then Momentum(None, None)
    else
      var p := period as real;
      var v := (values[n - 1] - values[n - 1 - period]) / p;
      if n >= 2 * period + 1 then
        var prev := (values[n - 1 - period] - values[n - 1 - 2 * period]) / p;
        Momentum(Some(v), Some((v - prev) / p))
      else
        Momentum(Some(v), None)
  }

  /**
   * MOM_V exists from `period + 1` samples on and MOM_A from `2 * period + 1`;
   * MOM_V has the sign of the move over the last `period` steps.
   */
  lemma MomentumGuards(values: seq<real>, period: nat)
    requires period >= 1
    ensures MomentumFromIps(values, period).momV.Some? <==> |values| >= period + 1
    ensures MomentumFromIps(values, period).momA.Some? <==> |values| >= 2 * period + 1
    ensures MomentumFromIps(values, period).momV.Some? ==>
      var v := MomentumFromIps(values, period).momV.value;
      var last, earlier := values[|values| - 1], values[|values| - 1 - period];
      (v > 0.0 <==> last > earlier) && (v < 0.0 <==> last < earlier) && (v == 0.0 <==> last == earlier)
  {
    if |values| >= period + 1 {
      QuotientSign(values[|values| - 1] - values[|values| - 1 - period], period as real);
    }
  }

  /** MOM_A is the change from the velocity `period` samples earlier, per step. */
  lemma MomentumAcceleration(values: seq<real>, period: nat)
    requires period >= 1 && |values| >= 2 * period + 1
    ensures var m := MomentumFromIps(values, period);
            var earlier := MomentumFromIps(values[..|values| - period], period);
            earlier.momV.Some? && m.momV.Some? &&
            m.momA == Some((m.momV.value - earlier.momV.value) / period as real)
  {
  }

  // ---------------------------------------------------------------------
  // RSI
  // ---------------------------------------------------------------------

  /** `np.where(deltas > 0, deltas, 0)` */
  function Gains(d: seq<real>): (g: seq<real>)
    ensures |g| == |d|
  {
    seq(|d|, i requires 0 <= i < |d| => if d[i] > 0.0 then d[i] else 0.0)
  }

  /** `np.where(deltas < 0, -deltas, 0)` */
  function Losses(d: seq<real>): (l: seq<real>)
    ensures |l| == |d|
  {
    seq(|d|, i requires 0 <= i < |d| => if d[i] < 0.0 then -d[i] else 0.0)
  }

  /** The mean of the gains over the last `period` moves. */
  function AverageGain(values: seq<real>, period: nat): real
    requires 1 <= period < |values|
  {
    Mean(Tail(Gains(Diffs(values)), period))
  }

  /** The mean of the losses over the last `period` moves. */
  function AverageLoss(values: seq<real>, period: nat): real
    requires 1 <= period < |values|
  {
    Mean(Tail(Losses(Diffs(values)), period))
  }

  /** `rsi_from_ips`: the relative-strength index of the last `period` moves. */
  function Rsi(values: seq<real>, period: nat): Option<real>
    requires period >= 1
  {
    if |values| < period + 1 then None
    else
      var avgGain, avgLoss := AverageGain(values, period), AverageLoss(values, period);
      if avgLoss == 0.0 then Some(100.0)
      else
        AveragesNonNegative(values, period);
        Some(RsiFormula(avgGain, avgLoss))
  }

  /** `100 - 100 / (1 + rs)` with `rs = avg_gain / avg_loss`. */
  function RsiFormula(avgGain: real, avgLoss: real): real
    requires avgGain >= 0.0 && avgLoss > 0.0
  {
    QuotientBounds(avgGain, avgLoss);
    100.0 - 100.0 / (1.0 + avgGain / avgLoss)
  }

  /** The last `period` moves of `values` never go down. */
  predicate NoLossIn(values: seq<real>, period: nat) {
    forall i :: |values| - 1 - period <= i < |values| - 1 && 0 <= i ==> values[i] <= values[i + 1]
  }

  /** Gains and losses are non-negative, and so are their averages. */
  lemma AveragesNonNegative(values: seq<real>, period: nat)
    requires 1 <= period < |values|
    ensures AverageGain(values, period) >= 0.0 && AverageLoss(values, period) >= 0.0
  {
    var d := Diffs(values);
    TailSuffix(Gains(d), period);
    TailSuffix(Losses(d), period);
    MeanZero(Tail(Gains(d), period));
    MeanZero(Tail(Losses(d), period));
  }

  /** A move is no loss exactly when it does not go down. */
  lemma LossZeroAt(values: seq<real>, k: nat)
    requires k < |values| - 1
    ensures Losses(Diffs(values))[k] == 0.0 <==> values[k] <= values[k + 1]
  {
  }

  /** The last `period` losses are all zero exactly when none of the last `period` moves goes down. */
  lemma LossWindowZero(values: seq<real>, period: nat)
    requires 1 <= period < |values|
    ensures (forall j :: 0 <= j < period ==> Tail(Losses(Diffs(values)), period)[j] == 0.0) <==> NoLossIn(values, period)
  {
    var losses := Tail(Losses(Diffs(values)), period);
    var o := |values| - 1 - period;
    TailSuffix(Losses(Diffs(values)), period);
    assert |losses| == period;
    forall j | 0 <= j < period
      ensures losses[j] == 0.0 <==> values[o + j] <= values[o + j + 1]
    {
      LossZeroAt(values, o + j);
    }
    if NoLossIn(values, period) {
      forall j | 0 <= j < period ensures losses[j] == 0.0 {
        assert values[o + j] <= values[o + j + 1];
      }
    }
    if forall j :: 0 <= j < period ==> losses[j] == 0.0 {
      forall i | o <= i < |values| - 1 && 0 <= i
        ensures values[i] <= values[i + 1]
      {
        assert losses[i - o] == 0.0;
      }
    }
  }

  /** The average loss is zero exactly when none of the last `period` moves is a loss. */
  lemma AverageLossZero(values: seq<real>, period: nat)
    requires 1 <= period < |values|
    ensures AverageLoss(values, period) == 0.0 <==> NoLossIn(values, period)
  {
    var losses := Tail(Losses(Diffs(values)), period);
    TailSuffix(Losses(Diffs(values)), period);
    MeanZero(losses);
    LossWindowZero(values, period);
  }

  /** With a non-negative average gain and a positive average loss, the formula lies in [0, 100). */
  lemma RsiFormulaRange(avgGain: real, avgLoss: real)
    requires avgGain >= 0.0 && avgLoss > 0.0
    ensures 0.0 <= RsiFormula(avgGain, avgLoss) < 100.0
  {
    QuotientBounds(avgGain, avgLoss);
    var t := 1.0 + avgGain / avgLoss;
    var q := 100.0 / t;
    assert q * t == 100.0;
    QuotientSign(100.0, t);
    assert (t - 1.0) * q >= 0.0;
  }

  /**
   * RSI is reported from `period + 1` samples on, lies in [0, 100], and is
   * exactly 100 when none of the last `period` moves is a loss.
   */
  lemma RsiRange(values: seq<real>, period: nat)
    requires period >= 1
    ensures Rsi(values, period).None? <==> |values| < period + 1
    ensures Rsi(values, period).Some? ==> 0.0 <= Rsi(values, period).value <= 100.0
    ensures Rsi(values, period).Some? ==> (Rsi(values, period).value == 100.0 <==> NoLossIn(values, period))
  {
    if |values| >= period + 1 {
      var g, l := AverageGain(values, period), AverageLoss(values, period);
      AveragesNonNegative(values, period);
      AverageLossZero(values, period);
      if l != 0.0 {
        RsiFormulaRange(g, l);
        assert Rsi(values, period) == Some(RsiFormula(g, l));
      } else {
        assert Rsi(values, period) == Some(100.0);
      }
    }
  }

  // ---------------------------------------------------------------------
  // Z-score, SMA, EMA
  // ---------------------------------------------------------------------

  /** `z_score`: how many standard deviations the last value lies from the window mean. */
  function ZScore(sqrt: SqrtFn, values: seq<real>, lookback: nat): Option<real>
    requires lookback >= 1
  {
    if |values| < lookback then None
    else
      var w := Tail(values, lookback);
      var sd := Std(sqrt, w);
      if sd == 0.0 then Some(0.0) else Some((values[|values| - 1] - Mean(w)) / sd)
  }

  /** The z-score is reported exactly from `lookback` samples on. */
  lemma ZScoreReported(sqrt: SqrtFn, values: seq<real>, lookback: nat)
    requires lookback >= 1
    ensures ZScore(sqrt, values, lookback).None? <==> |values| < lookback
  {
  }

  /** A window without spread, in particular a constant one, gives a z-score of 0. */
  lemma ZScoreFlat(sqrt: SqrtFn, values: seq<real>, lookback: nat)
    requires lookback >= 1 && |values| >= lookback
    ensures Constant(Tail(values, lookback)) ==> ZScore(sqrt, values, lookback) == Some(0.0)
    ensures Std(sqrt, Tail(values, lookback)) == 0.0 ==> ZScore(sqrt, values, lookback) == Some(0.0)
  {
    StdZero(sqrt, Tail(values, lookback));
  }

  /** With spread, the z-score has the sign of the last value's distance from the window mean. */
  lemma ZScoreSign(sqrt: SqrtFn, values: seq<real>, lookback: nat)
    requires lookback >= 1 && |values| >= lookback
    requires Std(sqrt, Tail(values, lookback)) != 0.0
    ensures var z := ZScore(sqrt, values, lookback).value;
      var w := Tail(values, lookback);
      (z > 0.0 <==> values[|values| - 1] > Mean(w)) && (z < 0.0 <==> values[|values| - 1] < Mean(w))
  {
    var w := Tail(values, lookback);
    var d := values[|values| - 1] - Mean(w);
    assert ZScore(sqrt, values, lookback) == Some(d / Std(sqrt, w));
    StdZero(sqrt, w);
    QuotientSign(d, Std(sqrt, w));
  }

  /** `sma`: the mean of the last `period` values (of all of them when there are fewer). */
  function Sma(values: seq<real>, period: nat): Option<real> {
    if |values| < 1 then None else Some(Mean(Tail(values, period)))
  }

  /** The SMA is reported for any non-empty history and lies within its extremes. */
  lemma SmaBounds(values: seq<real>, period: nat)
    ensures Sma(values, period).None? <==> values == []
    ensures Sma(values, period).Some? ==> MinOf(values) <= Sma(values, period).value <= MaxOf(values)
    ensures Sma(values, period).Some? && (period == 0 || period >= |values|) ==> Sma(values, period).value == Mean(values)
  {
    if values != [] {
      var w := Tail(values, period);
      TailWithin(values, period);
      MeanBetween(w);
    }
  }

  /** The smoothing factor `2 / (period + 1)`. */
  function Alpha(period: nat): real {
    2.0 / (period as real + 1.0)
  }

  /** The exponential moving average, seeded with the first value. */
  function EmaOf(values: seq<real>, alpha: real): real
    requires |values| > 0
  {
    if |values| == 1 then values[0]
    else alpha * values[|values| - 1] + (1.0 - alpha) * EmaOf(values[..|values| - 1], alpha)
  }

  /** `ema` */
  method Ema(values: seq<real>, period: nat) returns (r: Option<real>)
    ensures r.None? <==> values == []
    ensures r.Some? ==> r.value == EmaOf(values, Alpha(period))
  {
    if |values| < 1 {
      return None;
    }
    var alpha := 2.0 / (period as real + 1.0);
    var emaV := values[0];
    var i := 1;
    while i < |values|
      invariant 1 <= i <= |values|
      invariant emaV == EmaOf(values[..i], alpha)
    {
      assert values[..i + 1][..i] == values[..i];
      emaV := alpha * values[i] + (1.0 - alpha) * emaV;
      i := i + 1;
    }
    assert values[..i] == values;
    return Some(emaV);
  }

  /** For `period >= 1` the smoothing factor lies in (0, 1]. */
  lemma AlphaRange(period: nat)
    requires period >= 1
    ensures 0.0 < Alpha(period) <= 1.0
  {
    QuotientBounds(2.0, period as real + 1.0);
    QuotientSign(2.0, period as real + 1.0);
  }

  /** A convex combination of two values in [lo, hi] stays in [lo, hi]. */
  lemma Convex(a: real, x: real, y: real, lo: real, hi: real)
    requires 0.0 <= a <= 1.0
    requires lo <= x <= hi && lo <= y <= hi
    ensures lo <= a * x + (1.0 - a) * y <= hi
  {
    assert a * (x - lo) >= 0.0;
    assert (1.0 - a) * (y - lo) >= 0.0;
    assert a * (hi - x) >= 0.0;
    assert (1.0 - a) * (hi - y) >= 0.0;
  }

  /** With a smoothing factor in [0, 1], the EMA stays within any bounds of the values. */
  lemma {:induction false} EmaWithin(values: seq<real>, alpha: real, lo: real, hi: real)
    requires |values| > 0 && 0.0 <= alpha <= 1.0
    requires forall i :: 0 <= i < |values| ==> lo <= values[i] <= hi
    ensures lo <= EmaOf(values, alpha) <= hi
  {
    if |values| > 1 {
      var init := values[..|values| - 1];
      assert forall i :: 0 <= i < |init| ==> init[i] == values[i];
      EmaWithin(init, alpha, lo, hi);
      Convex(alpha, values[|values| - 1], EmaOf(init, alpha), lo, hi);
    }
  }

  /** For `period >= 1` the EMA lies between the minimum and the maximum of the series. */
  lemma EmaBounds(values: seq<real>, period: nat)
    requires |values| > 0 && period >= 1
    ensures MinOf(values) <= EmaOf(values, Alpha(period)) <= MaxOf(values)
  {
    AlphaRange(period);
    EmaWithin(values, Alpha(period), MinOf(values), MaxOf(values));
  }

  // ---------------------------------------------------------------------
  // Adaptive moving average
  // ---------------------------------------------------------------------

  /** Python's `int(x)`: truncation toward zero. */
  function Trunc(x: real): int {
    if x >= 0.0 then x.Floor else -((-x).Floor)
  }

  /**
   * The adaptive window length: the base period widened by the efficiency
   * of the last move relative to the volatility, clamped into
   * `[basePeriod, maxPeriod]` (just `basePeriod` when `maxPeriod` is smaller).
   */
  function AdaptivePeriod(sqrt: SqrtFn, values: seq<real>, basePeriod: nat, maxPeriod: int, sensitivity: real): (p: int)
    requires 1 <= basePeriod <= |values|
    ensures basePeriod <= p
    ensures p <= maxPeriod || p == basePeriod
  {
    var widened := basePeriod + Trunc((maxPeriod - basePeriod) as real * Efficiency(sqrt, values, basePeriod) * sensitivity);
    var capped := if maxPeriod < widened then maxPeriod else widened;
    if basePeriod < capped then capped else basePeriod
  }

  /** The size of the move over the base period in units of volatility, 0 on a flat window. */
  function Efficiency(sqrt: SqrtFn, values: seq<real>, basePeriod: nat): real
    requires 1 <= basePeriod <= |values|
  {
    var vol := Std(sqrt, Tail(values, basePeriod));
    if vol == 0.0 then 0.0
    else
      var direction := Abs(values[|values| - 1] - values[|values| - basePeriod]);
      ProductNonZero(vol, sqrt(basePeriod as real));
      direction / (vol * sqrt(basePeriod as real))
  }

  /** A product of two non-zero reals is non-zero. */
  lemma ProductNonZero(a: real, b: real)
    requires a != 0.0 && b != 0.0
    ensures a * b != 0.0
  {
    var p := a * b;
    assert p / b == a;
  }

  /** `adaptive_ma` */
  function AdaptiveMa(sqrt: SqrtFn, values: seq<real>, basePeriod: nat, maxPeriod: int, sensitivity: real): Option<real>
    requires basePeriod >= 1
  {
    if values == [] then None
    else if |values| < basePeriod then Some(Mean(values))
    else Some(Mean(Tail(values, AdaptivePeriod(sqrt, values, basePeriod, maxPeriod, sensitivity) as nat)))
  }

  /**
   * The adaptive average is reported for any non-empty history; below
   * `basePeriod` values it is the mean of all of them, and it always lies
   * within the history's extremes.
   */
  lemma AdaptiveMaBounds(sqrt: SqrtFn, values: seq<real>, basePeriod: nat, maxPeriod: int, sensitivity: real)
    requires basePeriod >= 1
    ensures AdaptiveMa(sqrt, values, basePeriod, maxPeriod, sensitivity).None? <==> values == []
    ensures values != [] && |values| < basePeriod ==>
      AdaptiveMa(sqrt, values, basePeriod, maxPeriod, sensitivity) == Some(Mean(values))
    ensures AdaptiveMa(sqrt, values, basePeriod, maxPeriod, sensitivity).Some? ==>
      MinOf(values) <= AdaptiveMa(sqrt, values, basePeriod, maxPeriod, sensitivity).value <= MaxOf(values)
  {
    if values != [] {
      if |values| < basePeriod {
        MeanBetween(values);
      } else {
        var n := AdaptivePeriod(sqrt, values, basePeriod, maxPeriod, sensitivity) as nat;
        TailWithin(values, n);
        MeanBetween(Tail(values, n));
      }
    }
  }

  // ---------------------------------------------------------------------
  // Bollinger width, ATR, implied volatility
  // ---------------------------------------------------------------------

  /** `bollinger_width`: the distance between the bands two standard deviations either side of the mean. */
  function BollingerWidth(sqrt: SqrtFn, values: seq<real>, lookback: nat): Option<real>
    requires lookback >= 1
  {
    if |values| < lookback then None
    else
      var w := Tail(values, lookback);
      var mu, sd := Mean(w), Std(sqrt, w);
      Some((mu + 2.0 * sd) - (mu - 2.0 * sd))
  }

  /**
   * The width is reported from `lookback` samples on; it is four standard
   * deviations of the window, hence non-negative, and 0 on a flat window.
   */
  lemma BollingerIsFourStd(sqrt: SqrtFn, values: seq<real>, lookback: nat)
    requires lookback >= 1
    ensures BollingerWidth(sqrt, values, lookback).None? <==> |values| < lookback
    ensures BollingerWidth(sqrt, values, lookback).Some? ==>
      var w := Tail(values, lookback);
      var width := BollingerWidth(sqrt, values, lookback).value;
      width == 4.0 * Std(sqrt, w) && width >= 0.0 && (Constant(w) ==> width == 0.0)
  {
    if |values| >= lookback {
      StdZero(sqrt, Tail(values, lookback));
    }
  }

  /** `np.abs(np.diff(points))`: the true ranges. */
  function AbsDiffs(xs: seq<real>): (r: seq<real>)
    ensures |r| == |Diffs(xs)|
  {
    seq(|Diffs(xs)|, i requires 0 <= i < |Diffs(xs)| => Abs(Diffs(xs)[i]))
  }

  /** `atr_on_points`: the mean absolute move over the last `lookback` moves. */
  function Atr(points: seq<real>, lookback: nat): Option<real> {
    if |points| < 2 then None
    else
      var tr := AbsDiffs(points);
      if |tr| < lookback then Some(Mean(tr)) else Some(Mean(Tail(tr, lookback)))
  }

  /**
   * The ATR is reported from two points on, is non-negative, and averages
   * every move when there are fewer than `lookback` of them.
   */
  lemma AtrFacts(points: seq<real>, lookback: nat)
    ensures Atr(points, lookback).None? <==> |points| < 2
    ensures Atr(points, lookback).Some? ==> Atr(points, lookback).value >= 0.0
    ensures |points| >= 2 && |points| - 1 < lookback ==> Atr(points, lookback) == Some(Mean(AbsDiffs(points)))
  {
    if |points| >= 2 {
      var tr := AbsDiffs(points);
      assert forall i :: 0 <= i < |tr| ==> tr[i] >= 0.0;
      if |tr| < lookback {
        MeanZero(tr);
      } else {
        var w := Tail(tr, lookback);
        TailSuffix(tr, lookback);
        MeanZero(w);
      }
    }
  }

  /** `implied_volatility_simple`: the standard deviation of the moves. */
  function ImpliedVolatility(sqrt: SqrtFn, values: seq<real>): Option<real> {
    if |values| < 2 then None else Some(Std(sqrt, Diffs(values)))
  }

  /**
   * The implied volatility is reported from two samples on, is
   * non-negative, and is 0 when every move has the same size.
   */
  lemma ImpliedVolatilityFacts(sqrt: SqrtFn, values: seq<real>)
    ensures ImpliedVolatility(sqrt, values).None? <==> |values| < 2
    ensures ImpliedVolatility(sqrt, values).Some? ==>
      ImpliedVolatility(sqrt, values).value >= 0.0 &&
      (Constant(Diffs(values)) ==> ImpliedVolatility(sqrt, values).value == 0.0)
  {
    if |values| >= 2 {
      StdZero(sqrt, Diffs(values));
    }
  }

  // ---------------------------------------------------------------------
  // Fibonacci levels
  // ---------------------------------------------------------------------

  datatype FibLevels = FibLevels(
    level0: real, level236: real, level382: real, level5: real,
    level618: real, level786: real, level1: real)

  datatype FibExtensions = FibExtensions(
    ext1272: real, ext1414: real, ext1618: real, ext2: real, ext2618: real)

  /** The swing used for the levels: high minus low, or 1 when the window is flat. */
  function FibSwing(high: real, low: real): real {
    if high != low then high - low else 1.0
  }

  /** `fibonacci_levels`: retracement levels between the window's high and low. */
  function FibonacciLevels(points: seq<real>, lookback: nat): Option<FibLevels> {
    if |points| < 2 then None
    else
      var s := Tail(points, lookback);
      var high, low := MaxOf(s), MinOf(s);
      var diff := FibSwing(high, low);
      Some(FibLevels(
        high, high - 0.236 * diff, high - 0.382 * diff, high - 0.5 * diff,
        high - 0.618 * diff, high - 0.786 * diff, low))
  }

  /** `fibonacci_extensions`: extension levels above the window's high. */
  function FibonacciExtensions(points: seq<real>, lookback: nat): Option<FibExtensions> {
    if |points| < 2 then None
    else
      var s := Tail(points, lookback);
      var high, low := MaxOf(s), MinOf(s);
      var diff := FibSwing(high, low);
      Some(FibExtensions(
        high + 0.272 * diff, high + 0.414 * diff, high + 0.618 * diff,
        high + 1.0 * diff, high + 1.618 * diff))
  }

  /**
   * Levels are reported from two points on; level 0 is the high and level 1
   * the low of the window; when the window has a swing the levels strictly
   * descend from high to low, and when it is flat the swing used is 1.
   */
  lemma FibonacciLevelsOrder(points: seq<real>, lookback: nat)
    ensures FibonacciLevels(points, lookback).None? <==> |points| < 2
    ensures FibonacciLevels(points, lookback).Some? ==>
      var s := Tail(points, lookback);
      var f := FibonacciLevels(points, lookback).value;
      f.level0 == MaxOf(s) && f.level1 == MinOf(s) &&
      (MaxOf(s) > MinOf(s) ==>
        f.level0 > f.level236 > f.level382 > f.level5 > f.level618 > f.level786 > f.level1) &&
      (MaxOf(s) == MinOf(s) ==> f.level5 == MaxOf(s) - 0.5)
  {
  }

  /**
   * Extensions are reported from two points on and strictly ascend above
   * the window's high; the 2.0 extension is the high plus the swing.
   */
  lemma FibonacciExtensionsOrder(points: seq<real>, lookback: nat)
    ensures FibonacciExtensions(points, lookback).None? <==> |points| < 2
    ensures FibonacciExtensions(points, lookback).Some? ==>
      var s := Tail(points, lookback);
      var e := FibonacciExtensions(points, lookback).value;
      MaxOf(s) < e.ext1272 < e.ext1414 < e.ext1618 < e.ext2 < e.ext2618 &&
      e.ext2 == MaxOf(s) + (if MaxOf(s) == MinOf(s) then 1.0 else MaxOf(s) - MinOf(s))
  {
    if |points| >= 2 {
      var s := Tail(points, lookback);
      assert MinOf(s) <= MaxOf(s) by {
        assert s[0] in s;
      }
    }
  }

  // ---------------------------------------------------------------------
  // Steam detection
  // ---------------------------------------------------------------------

  /** The signals steam detection can raise, in the order it checks them. */
  datatype Signal = ZScoreSignal | MomentumSignal | VolatilitySignal | SharpSplitsSignal

  /** The money percentages of a splits record, each of which may be missing. */
  datatype MoneySplits = MoneySplits(awayMoneyPct: Option<real>, homeMoneyPct: Option<real>)

  /** The summary `detect_steam_movement_advanced` returns. */
  datatype SteamReport = SteamReport(steam: bool, confidence: real, signals: seq<Signal>)

  /** What each signal adds to the score. */
  function Weight(s: Signal): real {
    if s == VolatilitySignal then 0.5 else 1.0
  }

  /** The position of a signal in checking order. */
  function Rank(s: Signal): nat {
    match s
    case ZScoreSignal => 0
    case MomentumSignal => 1
    case VolatilitySignal => 2
    case SharpSplitsSignal => 3
  }

  function WeightSum(ss: seq<Signal>): real {
    if ss == [] then 0.0 else WeightSum(ss[..|ss| - 1]) + Weight(ss[|ss| - 1])
  }

  /** The z-score over 20 ips, 0 when there is none (`z_score(...) or 0.0`). */
  function SteamZScore(sqrt: SqrtFn, values: seq<real>): real {
    ZScore(sqrt, values, ZScoreLookback).GetOr(0.0)
  }

  /** MOM_V over 3 periods, 0 when there is none. */
  function SteamVelocity(values: seq<real>): real {
    MomentumFromIps(values, MomentumPeriod).momV.GetOr(0.0)
  }

  /** The standard deviation of the last 10 ips, or of all of them when there are fewer. */
  function SteamVolatility(sqrt: SqrtFn, values: seq<real>): real
    requires |values| > 0
  {
    if |values| >= SteamVolatilityWindow then Std(sqrt, values[|values| - SteamVolatilityWindow..]) else Std(sqrt, values)
  }

  /** Splits count when both money percentages are given and the larger (a missing one read as 0) exceeds 60. */
  function SharpSplits(splits: Option<MoneySplits>): bool {
    match splits
    case None => false
    case Some(m) =>
      var away, home := m.awayMoneyPct.GetOr(0.0), m.homeMoneyPct.GetOr(0.0);
      (if away >= home then away else home) > 60.0
  }

  /** `ss` with `s` appended when `raised` holds. */
  function AppendIf(ss: seq<Signal>, raised: bool, s: Signal): seq<Signal> {
    if raised then ss + [s] else ss
  }

  /** The signals raised by a z-score, a velocity, a volatility and the splits test, in checking order. */
  function SignalsOf(zs: real, momV: real, vol: real, sharp: bool): seq<Signal> {
    var afterZ := AppendIf([], Abs(zs) > 2.0, ZScoreSignal);
    var afterMomentum := AppendIf(afterZ, Abs(momV) > 0.0005, MomentumSignal);
    var afterVolatility := AppendIf(afterMomentum, vol > 0.02, VolatilitySignal);
    AppendIf(afterVolatility, sharp, SharpSplitsSignal)
  }

  /** The signals raised on a non-empty history. */
  function SteamSignals(sqrt: SqrtFn, values: seq<real>, splits: Option<MoneySplits>): seq<Signal>
    requires |values| > 0
  {
    SignalsOf(SteamZScore(sqrt, values), SteamVelocity(values), SteamVolatility(sqrt, values), SharpSplits(splits))
  }

  /** `min(1.0, score / 3.0)` */
  function SteamConfidence(score: real): real {
    if score / 3.0 < 1.0 then score / 3.0 else 1.0
  }

  /** The steam summary: nothing below six ips, otherwise the signals and the confidence they give. */
  function SteamOf(sqrt: SqrtFn, values: seq<real>, splits: Option<MoneySplits>): SteamReport {
    if |values| < SteamMinimum then SteamReport(false, 0.0, [])
    else
      var signals := SteamSignals(sqrt, values, splits);
      var confidence := SteamConfidence(WeightSum(signals));
      SteamReport(confidence > 0.4, confidence, signals)
  }

  lemma WeightSumAppend(ss: seq<Signal>, s: Signal)
    ensures WeightSum(ss + [s]) == WeightSum(ss) + Weight(s)
  {
    assert (ss + [s])[..|ss|] == ss;
  }

  /** `detect_steam_movement_advanced`: accumulates the score and the signals one check at a time. */
  method DetectSteam(sqrt: SqrtFn, valuesIp: seq<real>, splits: Option<MoneySplits>) returns (out: SteamReport)
    ensures out == SteamOf(sqrt, valuesIp, splits)
  {
    if |valuesIp| < SteamMinimum {
      return SteamReport(false, 0.0, []);
    }
    var zs := SteamZScore(sqrt, valuesIp);
    var momV := SteamVelocity(valuesIp);
    var vol := SteamVolatility(sqrt, valuesIp);
    var score := 0.0;
    var signals: seq<Signal> := [];
    if Abs(zs) > 2.0 {
      score := score + 1.0;
      WeightSumAppend(signals, ZScoreSignal);
      signals := signals + [ZScoreSignal];
    }
    ghost var afterZ := signals;
    assert afterZ == AppendIf([], Abs(zs) > 2.0, ZScoreSignal);
    assert score == WeightSum(signals);
    if Abs(momV) > 0.0005 {
      score := score + 1.0;
      WeightSumAppend(signals, MomentumSignal);
      signals := signals + [MomentumSignal];
    }
    ghost var afterMomentum := signals;
    assert afterMomentum == AppendIf(afterZ, Abs(momV) > 0.0005, MomentumSignal);
    assert score == WeightSum(signals);
    if vol > 0.02 {
      score := score + 0.5;
      WeightSumAppend(signals, VolatilitySignal);
      signals := signals + [VolatilitySignal];
    }
    ghost var afterVolatility := signals;
    assert afterVolatility == AppendIf(afterMomentum, vol > 0.02, VolatilitySignal);
    assert score == WeightSum(signals);
    if SharpSplits(splits) {
      score := score + 1.0;
      WeightSumAppend(signals, SharpSplitsSignal);
      signals := signals + [SharpSplitsSignal];
    }
    assert signals == AppendIf(afterVolatility, SharpSplits(splits), SharpSplitsSignal);
    assert score == WeightSum(signals);
    assert signals == SignalsOf(zs, momV, vol, SharpSplits(splits));
    assert signals == SteamSignals(sqrt, valuesIp, splits);
    var confidence := if score / 3.0 < 1.0 then score / 3.0 else 1.0;
    assert confidence == SteamConfidence(WeightSum(signals));
    out := SteamReport(confidence > 0.4, confidence, signals);
  }

  /** The score in half points: twice the weight of the signals. */
  function HalfPoints(ss: seq<Signal>): nat {
    if ss == [] then 0 else HalfPoints(ss[..|ss| - 1]) + (if ss[|ss| - 1] == VolatilitySignal then 1 else 2)
  }

  lemma {:induction false} WeightSumHalves(ss: seq<Signal>)
    ensures WeightSum(ss) == HalfPoints(ss) as real / 2.0
  {
    if ss != [] {
      WeightSumHalves(ss[..|ss| - 1]);
    }
  }

  /** Each signal at most once, in checking order. */
  predicate InCheckingOrder(ss: seq<Signal>) {
    forall i, j :: 0 <= i < j < |ss| ==> Rank(ss[i]) < Rank(ss[j])
  }

  /** Appending a signal ranked after every present one keeps the checking order. */
  lemma AppendIfOrdered(ss: seq<Signal>, raised: bool, s: Signal)
    requires InCheckingOrder(ss)
    requires forall i :: 0 <= i < |ss| ==> Rank(ss[i]) < Rank(s)
    ensures InCheckingOrder(AppendIf(ss, raised, s))
    ensures forall i :: 0 <= i < |AppendIf(ss, raised, s)| ==> Rank(AppendIf(ss, raised, s)[i]) <= Rank(s)
  {
  }

  /** The signals of a history appear in checking order. */
  lemma SignalsOrdered(zs: real, momV: real, vol: real, sharp: bool)
    ensures InCheckingOrder(SignalsOf(zs, momV, vol, sharp))
  {
    var afterZ := AppendIf([], Abs(zs) > 2.0, ZScoreSignal);
    AppendIfOrdered([], Abs(zs) > 2.0, ZScoreSignal);
    var afterMomentum := AppendIf(afterZ, Abs(momV) > 0.0005, MomentumSignal);
    AppendIfOrdered(afterZ, Abs(momV) > 0.0005, MomentumSignal);
    var afterVolatility := AppendIf(afterMomentum, vol > 0.02, VolatilitySignal);
    AppendIfOrdered(afterMomentum, vol > 0.02, VolatilitySignal);
    AppendIfOrdered(afterVolatility, sharp, SharpSplitsSignal);
  }

  /**
   * The confidence of any set of signals lies in [0, 1] and exceeds 0.4
   * exactly when the score reaches 1.5, scores being multiples of 0.5.
   */
  lemma ConfidenceThreshold(ss: seq<Signal>)
    ensures 0.0 <= SteamConfidence(WeightSum(ss)) <= 1.0
    ensures SteamConfidence(WeightSum(ss)) > 0.4 <==> WeightSum(ss) >= 1.5
  {
    WeightSumHalves(ss);
  }

  /**
   * Below six ips there is no steam, no confidence and no signal. Otherwise
   * the confidence lies in [0, 1], steam is flagged exactly when the score
   * reaches 1.5, and the signals appear at most once each, in checking order.
   */
  lemma SteamFacts(sqrt: SqrtFn, values: seq<real>, splits: Option<MoneySplits>)
    ensures |values| < SteamMinimum ==> SteamOf(sqrt, values, splits) == SteamReport(false, 0.0, [])
    ensures var r := SteamOf(sqrt, values, splits);
      0.0 <= r.confidence <= 1.0 && (r.steam <==> WeightSum(r.signals) >= 1.5) && InCheckingOrder(r.signals)
  {
    if |values| >= SteamMinimum {
      SignalsOrdered(SteamZScore(sqrt, values), SteamVelocity(values), SteamVolatility(sqrt, values), SharpSplits(splits));
      ConfidenceThreshold(SteamSignals(sqrt, values, splits));
    }
  }

  // ---------------------------------------------------------------------
  // Greeks
  // ---------------------------------------------------------------------

  datatype Greeks = Greeks(delta: Option<real>, gamma: Option<real>, vega: Option<real>)

  /** `[a / b for a, b in zip(dip, dp) if abs(b) > 1e-8]` */
  function Ratios(dip: seq<real>, dp: seq<real>): seq<real> {
    if dip == [] || dp == [] then []
    else (if Abs(dp[0]) > RatioEpsilon then [dip[0] / dp[0]] else []) + Ratios(dip[1..], dp[1..])
  }

  /** Some pair of the zip has a point move larger than the epsilon. */
  predicate PointMoves(dip: seq<real>, dp: seq<real>) {
    exists i :: 0 <= i < |dip| && i < |dp| && Abs(dp[i]) > RatioEpsilon
  }

  /** There are ratios exactly when some point move exceeds the epsilon. */
  lemma {:induction false} RatiosEmpty(dip: seq<real>, dp: seq<real>)
    ensures Ratios(dip, dp) != [] <==> PointMoves(dip, dp)
  {
    if dip != [] && dp != [] {
      RatiosEmpty(dip[1..], dp[1..]);
      if PointMoves(dip[1..], dp[1..]) {
        var i :| 0 <= i < |dip[1..]| && i < |dp[1..]| && Abs(dp[1..][i]) > RatioEpsilon;
        assert Abs(dp[i + 1]) > RatioEpsilon;
      }
      if PointMoves(dip, dp) && Abs(dp[0]) <= RatioEpsilon {
        var i :| 0 <= i < |dip| && i < |dp| && Abs(dp[i]) > RatioEpsilon;
        assert i > 0;
        assert dp[1..][i - 1] == dp[i];
      }
    }
  }

  /** Two different pairs of the zip have a point move larger than the epsilon. */
  predicate TwoPointMoves(dip: seq<real>, dp: seq<real>) {
    exists i, j :: 0 <= i < j < |dip| && j < |dp| && Abs(dp[i]) > RatioEpsilon && Abs(dp[j]) > RatioEpsilon
  }

  /** There are at least two ratios exactly when two point moves exceed the epsilon. */
  lemma {:induction false} RatiosTwo(dip: seq<real>, dp: seq<real>)
    ensures |Ratios(dip, dp)| >= 2 <==> TwoPointMoves(dip, dp)
  {
    if dip != [] && dp != [] {
      var dip', dp' := dip[1..], dp[1..];
      RatiosTwo(dip', dp');
      RatiosEmpty(dip', dp');
      if TwoPointMoves(dip', dp') {
        var i, j :| 0 <= i < j < |dip'| && j < |dp'| && Abs(dp'[i]) > RatioEpsilon && Abs(dp'[j]) > RatioEpsilon;
        assert Abs(dp[i + 1]) > RatioEpsilon && Abs(dp[j + 1]) > RatioEpsilon;
      }
      if Abs(dp[0]) > RatioEpsilon && PointMoves(dip', dp') {
        var j :| 0 <= j < |dip'| && j < |dp'| && Abs(dp'[j]) > RatioEpsilon;
        assert Abs(dp[j + 1]) > RatioEpsilon;
      }
      if TwoPointMoves(dip, dp) {
        var i, j :| 0 <= i < j < |dip| && j < |dp| && Abs(dp[i]) > RatioEpsilon && Abs(dp[j]) > RatioEpsilon;
        assert dp'[j - 1] == dp[j];
        if i > 0 {
          assert dp'[i - 1] == dp[i];
          assert TwoPointMoves(dip', dp');
        } else {
          assert PointMoves(dip', dp');
        }
      }
    }
  }

  /** `calculate_greeks_estimate` */
  function GreeksEstimate(nums: Numerics, valuesIp: seq<real>, points: Option<seq<real>>): Greeks {
    if valuesIp == [] || points.None? || |valuesIp| < 3 || |points.value| < 3 then Greeks(None, None, None)
    else
      var dip := Diffs(valuesIp);
      var ratios := Ratios(dip, Diffs(points.value));
      if ratios == [] then Greeks(None, None, None)
      else
        Greeks(
          Some(nums.median(ratios)),
          if |ratios| >= 2 then Some(nums.median(Diffs(ratios))) else None,
          Some(Std(nums.sqrt, dip)))
  }

  /**
   * Delta and vega are reported exactly when both series have at least three
   * samples and some point move exceeds the epsilon; gamma exactly when,
   * in addition, two point moves exceed it; vega is the non-negative spread of the ip moves.
   */
  lemma GreeksFacts(nums: Numerics, valuesIp: seq<real>, points: Option<seq<real>>)
    ensures var g := GreeksEstimate(nums, valuesIp, points);
      (g.delta.Some? <==>
        |valuesIp| >= 3 && points.Some? && |points.value| >= 3 &&
        PointMoves(Diffs(valuesIp), Diffs(points.value))) &&
      (g.vega.Some? <==> g.delta.Some?) &&
      (g.gamma.Some? <==> g.delta.Some? && points.Some? && TwoPointMoves(Diffs(valuesIp), Diffs(points.value))) &&
      (g.vega.Some? ==> g.vega.value == Std(nums.sqrt, Diffs(valuesIp)) && g.vega.value >= 0.0)
  {
    if |valuesIp| >= 3 && points.Some? && |points.value| >= 3 {
      RatiosEmpty(Diffs(valuesIp), Diffs(points.value));
      RatiosTwo(Diffs(valuesIp), Diffs(points.value));
      StdZero(nums.sqrt, Diffs(valuesIp));
    }
  }

  // ---------------------------------------------------------------------
  // All indicators of one series
  // ---------------------------------------------------------------------

  /** One point of a buffered series: its ip and its point value, either of which may be missing. */
  datatype SeriesPoint = SeriesPoint(ip: Option<real>, point: Option<real>)

  /** The result of `calculate_all_ta_indicators` when there is at least one ip. */
  datatype IndicatorSet = IndicatorSet(
    currentIp: real,
    dataPoints: nat,
    momentum: Momentum,
    rsi: Option<real>,
    zScore: Option<real>,
    sma: Option<real>,
    ema: Option<real>,
    adaptiveMa: Option<real>,
    bollingerWidth: Option<real>,
    atr: Option<real>,
    fibRetracement: Option<FibLevels>,
    fibExtensions: Option<FibExtensions>,
    steamDetection: SteamReport,
    greeks: Option<Greeks>,
    impliedVolatility: Option<real>,
    series: seq<real>)

  /** The ips that are present, in order. */
  function IpValues(series: seq<SeriesPoint>): seq<real> {
    if series == [] then []
    else
      var last := series[|series| - 1];
      IpValues(series[..|series| - 1]) + (if last.ip.Some? then [last.ip.value] else [])
  }

  /** The point values that are present, in order. */
  function PointValues(series: seq<SeriesPoint>): seq<real> {
    if series == [] then []
    else
      var last := series[|series| - 1];
      PointValues(series[..|series| - 1]) + (if last.point.Some? then [last.point.value] else [])
  }

  /** `calculate_all_ta_indicators`: nothing when no ip is present, otherwise every indicator. */
  function AllIndicators(nums: Numerics, series: seq<SeriesPoint>): Option<IndicatorSet> {
    var ips := IpValues(series);
    var points := PointValues(series);
    if ips == [] then None
    else
      Some(IndicatorSet(
        currentIp := ips[|ips| - 1],
        dataPoints := |ips|,
        momentum := MomentumFromIps(ips, MomentumPeriod),
        rsi := Rsi(ips, RsiPeriod),
        zScore := ZScore(nums.sqrt, ips, ZScoreLookback),
        sma := Sma(ips, SmaPeriod),
        ema := Some(EmaOf(ips, Alpha(EmaPeriod))),
        adaptiveMa := AdaptiveMa(nums.sqrt, ips, AdaptiveBasePeriod, AdaptiveMaxPeriod, AdaptiveSensitivity),
        bollingerWidth := BollingerWidth(nums.sqrt, ips, BollingerLookback),
        atr := Atr(points, AtrLookback),
        fibRetracement := FibonacciLevels(points, FibLookback),
        fibExtensions := FibonacciExtensions(points, FibLookback),
        steamDetection := SteamOf(nums.sqrt, ips, None),
        greeks := if points == [] then None else Some(GreeksEstimate(nums, ips, Some(points))),
        impliedVolatility := ImpliedVolatility(nums.sqrt, ips),
        series := Tail(ips, SeriesLength)))
  }

  /** No ip is present exactly when the ip list is empty. */
  lemma {:induction false} IpValuesEmpty(series: seq<SeriesPoint>)
    ensures IpValues(series) == [] <==> forall k :: 0 <= k < |series| ==> series[k].ip.None?
  {
    if series != [] {
      var init := series[..|series| - 1];
      IpValuesEmpty(init);
      assert forall k :: 0 <= k < |init| ==> init[k] == series[k];
    }
  }

  /** `series[j]` carries the ip `v`, and no later point carries one. */
  predicate LastIpAt(series: seq<SeriesPoint>, j: int, v: real) {
    0 <= j < |series| && series[j].ip == Some(v) && forall k :: j < k < |series| ==> series[k].ip.None?
  }

  /** The last ip in the list is the ip of the last series point that has one. */
  lemma {:induction false} IpValuesLast(series: seq<SeriesPoint>) returns (j: nat)
    requires IpValues(series) != []
    ensures LastIpAt(series, j, IpValues(series)[|IpValues(series)| - 1])
  {
    var init := series[..|series| - 1];
    if series[|series| - 1].ip.None? {
      assert IpValues(series) == IpValues(init);
      j := IpValuesLast(init);
      assert series[j] == init[j];
      assert forall k :: j < k < |series| - 1 ==> series[k] == init[k];
    } else {
      j := |series| - 1;
    }
  }

  /** The aggregate is empty exactly when no ip is present. */
  lemma AllIndicatorsEmpty(nums: Numerics, series: seq<SeriesPoint>)
    ensures AllIndicators(nums, series).None? <==> forall k :: 0 <= k < |series| ==> series[k].ip.None?
  {
    IpValuesEmpty(series);
  }

  /**
   * An aggregate `r` counts the present ips, reports the ip of point `j`,
   * the last series point that has one, as the current ip, keeps the last
   * 500 ips as the series (see `Stats.TailSuffix`), and runs steam detection
   * on the ips without splits.
   */
  lemma AllIndicatorsSummary(nums: Numerics, series: seq<SeriesPoint>, r: IndicatorSet) returns (j: nat)
    requires AllIndicators(nums, series) == Some(r)
    ensures r.dataPoints == |IpValues(series)|
    ensures LastIpAt(series, j, r.currentIp)
    ensures r.series == Tail(IpValues(series), SeriesLength)
    ensures r.steamDetection == SteamOf(nums.sqrt, IpValues(series), None)
  {
    var ips := IpValues(series);
    assert r.currentIp == ips[|ips| - 1];
    j := IpValuesLast(series);
  }
}
