/** indicators/oscillators.py: the relative strength index of the Close
    column. Values are exact reals; NaN is `None`, and the two IEEE
    divisions by zero the formula can meet are spelled out. */
module Oscillators {
  import opened Wrappers
  import opened Exceptions
  import opened Format
  import opened Models
  import opened MovingAverages

  /** The change of the price at index `k` from the sample before it. */
  function Change(x: seq<real>, k: nat): real
    requires 1 <= k < |x|
  {
    x[k] - x[k - 1]
  }

  /** `Series.diff()`: undefined at 0, the change from the previous sample after. */
  function Diff(x: seq<real>): (d: Series)
    ensures |d| == |x|
    ensures |x| > 0 ==> d[0] == None
    ensures forall i :: 1 <= i < |x| ==> d[i] == Some(Change(x, i))
  {
    seq(|x|, i requires 0 <= i < |x| => if i == 0 then None else Some(Change(x, i)))
  }

  /** `delta.where(delta > 0, 0)`: positive changes kept, everything else
      (including the undefined first change) replaced by 0. */
  function Gains(d: Series): (g: seq<real>)
    ensures |g| == |d| && forall i :: 0 <= i < |d| ==> 0.0 <= g[i]
  {
    seq(|d|, i requires 0 <= i < |d| => if d[i].Some? && d[i].value > 0.0 then d[i].value else 0.0)
  }

  /** `-delta.where(delta < 0, 0)`: the size of each fall, 0 elsewhere. */
  function Losses(d: Series): (l: seq<real>)
    ensures |l| == |d| && forall i :: 0 <= i < |d| ==> 0.0 <= l[i]
  {
    seq(|d|, i requires 0 <= i < |d| => if d[i].Some? && d[i].value < 0.0 then -d[i].value else 0.0)
  }

  lemma RollingMeanNonNegative(x: seq<real>, p: nat)
    requires forall k :: 0 <= k < |x| ==> 0.0 <= x[k]
    ensures forall i :: 0 <= i < |x| && RollingMean(x, p)[i].Some? ==> 0.0 <= RollingMean(x, p)[i].value
  {
    forall i | 0 <= i < |x| && RollingMean(x, p)[i].Some?
      ensures 0.0 <= RollingMean(x, p)[i].value
    {
      var w := Window(x, p, i);
      assert forall k :: 0 <= k < |w| ==> w[k] == x[i + 1 - p + k];
      SumNonNegative(w);
    }
  }

  /** `100 - 100 / (1 + avgGain / avgLoss)` with IEEE division: a positive
      gain over a zero loss is +inf, giving 100; 0/0 is NaN, giving NaN. */
  function RsiFromAverages(avgGain: real, avgLoss: real): Option<real>
    requires 0.0 <= avgGain && 0.0 <= avgLoss
  {
    if avgLoss == 0.0 then (if avgGain == 0.0 then None else Some(100.0))
    else Some(100.0 - 100.0 / (1.0 + avgGain / avgLoss))
  }

  /** The whole chain: diff, gains and losses, their rolling means, RS, RSI. */
  function Rsi(close: seq<real>, p: nat): (r: Series)
    ensures |r| == |close|
  {
    var d := Diff(close);
    var g, l := RollingMean(Gains(d), p), RollingMean(Losses(d), p);
    RollingMeanNonNegative(Gains(d), p);
    RollingMeanNonNegative(Losses(d), p);
    seq(|close|, i requires 0 <= i < |close| =>
      if g[i].None? || l[i].None? then None else RsiFromAverages(g[i].value, l[i].value))
  }

  lemma WindowSumNonNegative(x: seq<real>, p: nat, i: nat)
    requires p <= i + 1 <= |x|
    requires forall k :: 0 <= k < |x| ==> 0.0 <= x[k]
    ensures 0.0 <= Sum(Window(x, p, i))
  {
    var w := Window(x, p, i);
    assert forall k :: 0 <= k < |w| ==> w[k] == x[i + 1 - p + k];
    SumNonNegative(w);
  }

  /** The mean gain and mean loss over the window ending at `i`. */
  function AvgGain(close: seq<real>, p: nat, i: nat): (a: real)
    requires 1 <= p <= i + 1 <= |close|
    ensures 0.0 <= a
  {
    var total := Sum(Window(Gains(Diff(close)), p, i));
    WindowSumNonNegative(Gains(Diff(close)), p, i);
    QuotientNonNegative(total, p as real);
    total / p as real
  }

  function AvgLoss(close: seq<real>, p: nat, i: nat): (a: real)
    requires 1 <= p <= i + 1 <= |close|
    ensures 0.0 <= a
  {
    var total := Sum(Window(Losses(Diff(close)), p, i));
    WindowSumNonNegative(Losses(Diff(close)), p, i);
    QuotientNonNegative(total, p as real);
    total / p as real
  }

  /** The warm-up: no value before the window of `p` samples is full. The
      first change is taken as 0 rather than NaN, so index `p-1` already has
      a full window. */
  lemma RsiWarmUp(close: seq<real>, p: nat, i: nat)
    requires i < |close|
    ensures i + 1 < p || p == 0 ==> Rsi(close, p)[i] == None
    ensures 1 <= p <= i + 1 ==> Rsi(close, p)[i] == RsiFromAverages(AvgGain(close, p, i), AvgLoss(close, p, i))
  {
    if 1 <= p <= i + 1 {
      assert RollingMean(Gains(Diff(close)), p)[i] == Some(AvgGain(close, p, i));
      assert RollingMean(Losses(Diff(close)), p)[i] == Some(AvgLoss(close, p, i));
    }
  }

  /** RSI is the share of the gains in the total movement of the window:
      `100·G / (G + L)`, and undefined when nothing moved. */
  lemma RsiIsGainShare(close: seq<real>, p: nat, i: nat)
    requires 1 <= p <= i + 1 <= |close|
    ensures var g, l := AvgGain(close, p, i), AvgLoss(close, p, i);
      Rsi(close, p)[i] == if g + l == 0.0 then None else Some(100.0 * g / (g + l))
  {
    RsiWarmUp(close, p, i);
    var g, l := AvgGain(close, p, i), AvgLoss(close, p, i);
    if l != 0.0 {
      GainShareAlgebra(g, l);
    } else if g != 0.0 {
      assert 100.0 * g / (g + l) == 100.0;
    }
  }

  lemma GainShareAlgebra(g: real, l: real)
    requires 0.0 <= g && 0.0 < l
    ensures 100.0 - 100.0 / (1.0 + g / l) == 100.0 * g / (g + l)
  {
    var q := 1.0 + g / l;
    assert q * l == l + g;
    assert q == (l + g) / l;
    assert 100.0 / q == 100.0 * l / (l + g);
    var t := l + g;
    assert 0.0 < t;
    assert 100.0 == 100.0 * t / t;
    calc {
      100.0 - 100.0 * l / t;
      100.0 * t / t - 100.0 * l / t;
      (100.0 * t - 100.0 * l) / t;
      100.0 * g / t;
    }
  }

  /** Every defined value lies in [0, 100]. */
  lemma RsiBounds(close: seq<real>, p: nat, i: nat)
    requires i < |close|
    ensures Rsi(close, p)[i].Some? ==> 0.0 <= Rsi(close, p)[i].value <= 100.0
  {
    if Rsi(close, p)[i].Some? {
      RsiWarmUp(close, p, i);
      RsiIsGainShare(close, p, i);
      var g, l := AvgGain(close, p, i), AvgLoss(close, p, i);
      QuotientWithin(100.0 * g, g + l, 0.0, 100.0);
    }
  }

  /** Some price in the window ending at `i` differs from the one before it. */
  predicate MovesIn(close: seq<real>, p: nat, i: nat)
    requires i < |close|
  {
    exists k :: i + 1 - p <= k <= i && 1 <= k && Change(close, k) != 0.0
  }

  lemma WindowSumPositive(x: seq<real>, p: nat, i: nat, k: nat)
    requires p <= i + 1 <= |x|
    requires forall j :: 0 <= j < |x| ==> 0.0 <= x[j]
    requires i + 1 - p <= k <= i && 0.0 < x[k]
    ensures 0.0 < Sum(Window(x, p, i))
  {
    var w := Window(x, p, i);
    assert forall j :: 0 <= j < |w| ==> w[j] == x[i + 1 - p + j];
    SumPositive(w, k - (i + 1 - p));
  }

  lemma WindowSumZero(x: seq<real>, p: nat, i: nat)
    requires p <= i + 1 <= |x|
    requires forall j :: i + 1 - p <= j <= i ==> x[j] == 0.0
    ensures Sum(Window(x, p, i)) == 0.0
  {
    var w := Window(x, p, i);
    assert forall j :: 0 <= j < |w| ==> w[j] == x[i + 1 - p + j];
    SumConstant(w, 0.0);
  }

  /** At each index, a rise shows as a gain, a fall as a loss, and no change
      (or the first sample) as neither. */
  lemma GainLossAt(close: seq<real>, k: nat)
    requires k < |close|
    ensures var g, l := Gains(Diff(close))[k], Losses(Diff(close))[k];
      (k >= 1 && Change(close, k) > 0.0 ==> 0.0 < g) &&
      (k >= 1 && Change(close, k) < 0.0 ==> 0.0 < l) &&
      (k == 0 || Change(close, k) == 0.0 ==> g == 0.0 && l == 0.0) &&
      (k >= 1 && Change(close, k) >= 0.0 ==> l == 0.0)
  {
  }

  /** A move in the window makes its total gain plus loss positive. */
  lemma MovedWindowPositive(close: seq<real>, p: nat, i: nat)
    requires 1 <= p <= i + 1 <= |close| && MovesIn(close, p, i)
    ensures 0.0 < Sum(Window(Gains(Diff(close)), p, i)) + Sum(Window(Losses(Diff(close)), p, i))
  {
    var gs, ls := Gains(Diff(close)), Losses(Diff(close));
    WindowSumNonNegative(gs, p, i);
    WindowSumNonNegative(ls, p, i);
    var k :| i + 1 - p <= k <= i && 1 <= k && Change(close, k) != 0.0;
    GainLossAt(close, k);
    if Change(close, k) > 0.0 {
      WindowSumPositive(gs, p, i, k);
    } else {
      WindowSumPositive(ls, p, i, k);
    }
  }

  /** A window without a move has neither gains nor losses. */
  lemma StillWindowZero(close: seq<real>, p: nat, i: nat)
    requires 1 <= p <= i + 1 <= |close| && !MovesIn(close, p, i)
    ensures Sum(Window(Gains(Diff(close)), p, i)) == 0.0
    ensures Sum(Window(Losses(Diff(close)), p, i)) == 0.0
  {
    var gs, ls := Gains(Diff(close)), Losses(Diff(close));
    forall j | i + 1 - p <= j <= i ensures gs[j] == 0.0 && ls[j] == 0.0 {
      GainLossAt(close, j);
    }
    WindowSumZero(gs, p, i);
    WindowSumZero(ls, p, i);
  }

  lemma MeansPositive(a: real, b: real, n: real)
    requires 0.0 <= a && 0.0 <= b && 0.0 < a + b && 0.0 < n
    ensures 0.0 < a / n + b / n
  {
    assert a / n + b / n == (a + b) / n;
  }

  /** The two averages are both zero exactly when the price did not move. */
  lemma AveragesZeroIff(close: seq<real>, p: nat, i: nat)
    requires 1 <= p <= i + 1 <= |close|
    ensures AvgGain(close, p, i) + AvgLoss(close, p, i) != 0.0 <==> MovesIn(close, p, i)
  {
    var sg, sl := Sum(Window(Gains(Diff(close)), p, i)), Sum(Window(Losses(Diff(close)), p, i));
    assert AvgGain(close, p, i) == sg / p as real && AvgLoss(close, p, i) == sl / p as real;
    WindowSumNonNegative(Gains(Diff(close)), p, i);
    WindowSumNonNegative(Losses(Diff(close)), p, i);
    if MovesIn(close, p, i) {
      MovedWindowPositive(close, p, i);
      MeansPositive(sg, sl, p as real);
    } else {
      StillWindowZero(close, p, i);
    }
  }

  /** Past the warm-up, RSI is defined exactly when the price moved within
      the window (both averages 0 is 0/0). */
  lemma RsiDefinedIff(close: seq<real>, p: nat, i: nat)
    requires 1 <= p <= i + 1 <= |close|
    ensures Rsi(close, p)[i].Some? <==> MovesIn(close, p, i)
  {
    RsiIsGainShare(close, p, i);
    AveragesZeroIff(close, p, i);
  }

  /** A price series that never falls has no losses: every defined RSI is 100. */
  lemma RsiNonDecreasing(close: seq<real>, p: nat, i: nat)
    requires forall k :: 1 <= k < |close| ==> 0.0 <= Change(close, k)
    requires i < |close|
    ensures Rsi(close, p)[i].Some? ==> Rsi(close, p)[i] == Some(100.0)
  {
    if Rsi(close, p)[i].Some? {
      RsiWarmUp(close, p, i);
      RsiIsGainShare(close, p, i);
      var ls := Losses(Diff(close));
      forall j | i + 1 - p <= j <= i ensures ls[j] == 0.0 {
        GainLossAt(close, j);
      }
      WindowSumZero(ls, p, i);
    }
  }

  /** A strictly rising price series has RSI 100 at every index past the
      warm-up (and past the first sample, whose change counts as 0). */
  lemma RsiStrictlyIncreasing(close: seq<real>, p: nat, i: nat)
    requires forall k :: 1 <= k < |close| ==> 0.0 < Change(close, k)
    requires 1 <= p <= i + 1 <= |close| && 1 <= i
    ensures Rsi(close, p)[i] == Some(100.0)
  {
    assert Change(close, i) != 0.0;
    RsiDefinedIff(close, p, i);
    RsiNonDecreasing(close, p, i);
  }

  /** `RelativeStrengthIndex(period=14)`. */
  datatype RelativeStrengthIndex = RelativeStrengthIndex(period: int := 14)
  {
    /** `RSI_<period>`: the period reads back from the name. */
    function Name(): (r: string)
      ensures |r| > 4 && r[..4] == "RSI_" && IntText(r[4..]) && ParseInt(r[4..]) == period
    {
      ParseIntToString(period);
      var r := "RSI_" + IntToString(period);
      assert r[..4] == "RSI_" && r[4..] == IntToString(period);
      r
    }

    /** Drawn in its own panel below the price chart. */
    function Type(): (t: IndicatorType)
      ensures t == Oscillator
    {
      Oscillator
    }

    /** RSI of Close; pandas rejects a negative rolling window. */
    function Calculate(df: Frame): (r: Result<Series, Exc>)
      requires df.Aligned()
      ensures r.Err? <==> "Close" !in df.columns || period < 0
      ensures r.Err? ==> r.error.kind == IndicatorCalculationError
      ensures r.Ok? ==> |r.value| == df.Length()
      ensures r.Ok? ==> 0 <= period && r.value == Rsi(df.columns["Close"], period)
    {
      if "Close" !in df.columns then Err(CalculationFailed(Name(), MissingClose(Name())))
      else if period < 0 then Err(CalculationFailed(Name(), "window must be an integer 0 or greater"))
      else Ok(Rsi(df.columns["Close"], period))
    }
  }

  /** Indicators of different kinds never share a name, whatever their
      periods, so none replaces another in the engine's result map. */
  lemma IndicatorNamesDistinct(sma: SimpleMovingAverage, ema: ExponentialMovingAverage, rsi: RelativeStrengthIndex)
    ensures sma.Name() != ema.Name() && sma.Name() != rsi.Name() && ema.Name() != rsi.Name()
  {
    assert sma.Name()[0] == 'S' && ema.Name()[0] == 'E' && rsi.Name()[0] == 'R';
  }
}
