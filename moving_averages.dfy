/** indicators/moving_averages.py: the simple and the exponential moving
    average of the Close column. Values are exact reals; NaN is `None`. */
module MovingAverages {
  import opened Wrappers
  import opened Exceptions
  import opened Format
  import opened Models

  // ---------------------------------------------------------------------
  // Rolling mean: `Series.rolling(window=p).mean()` on a column without NaN
  // ---------------------------------------------------------------------

  function Sum(s: seq<real>): real {
    if s == [] then 0.0 else Sum(s[..|s| - 1]) + s[|s| - 1]
  }

  /** The window of the `p` samples ending at index `i`. */
  function Window(x: seq<real>, p: nat, i: nat): seq<real>
    requires p <= i + 1 <= |x|
  {
    x[i + 1 - p .. i + 1]
  }

  /** Output `i` is undefined until the window is full (and always for an
      empty window), and otherwise the mean of the window. */
  function RollingMean(x: seq<real>, p: nat): (r: Series)
    ensures |r| == |x|
    ensures forall i :: 0 <= i < |x| ==> (r[i] == None <==> p == 0 || i + 1 < p)
  {
    seq(|x|, i requires 0 <= i < |x| =>
      if p == 0 || i + 1 < p then None else Some(Sum(Window(x, p, i)) / p as real))
  }

  lemma {:induction false} SumAppend(a: seq<real>, b: seq<real>)
    ensures Sum(a + b) == Sum(a) + Sum(b)
  {
    if b == [] {
      assert a + b == a;
    } else {
      assert (a + b)[..|a + b| - 1] == a + b[..|b| - 1];
      SumAppend(a, b[..|b| - 1]);
    }
  }

  lemma {:induction false} SumBounds(s: seq<real>, lo: real, hi: real)
    requires forall k :: 0 <= k < |s| ==> lo <= s[k] <= hi
    ensures |s| as real * lo <= Sum(s) <= |s| as real * hi
  {
    if s != [] {
      SumBounds(s[..|s| - 1], lo, hi);
    }
  }

  lemma {:induction false} SumConstant(s: seq<real>, c: real)
    requires forall k :: 0 <= k < |s| ==> s[k] == c
    ensures Sum(s) == |s| as real * c
  {
    if s != [] {
      SumConstant(s[..|s| - 1], c);
    }
  }

  lemma {:induction false} SumNonNegative(s: seq<real>)
    requires forall k :: 0 <= k < |s| ==> 0.0 <= s[k]
    ensures 0.0 <= Sum(s)
  {
    if s != [] {
      SumNonNegative(s[..|s| - 1]);
    }
  }

  lemma {:induction false} SumPositive(s: seq<real>, k: nat)
    requires forall j :: 0 <= j < |s| ==> 0.0 <= s[j]
    requires k < |s| && 0.0 < s[k]
    ensures 0.0 < Sum(s)
  {
    if k == |s| - 1 {
      SumNonNegative(s[..|s| - 1]);
    } else {
      SumPositive(s[..|s| - 1], k);
    }
  }

  lemma QuotientNonNegative(a: real, b: real)
    requires 0.0 <= a && 0.0 < b
    ensures 0.0 <= a / b
  {
  }

  /** A total between n·lo and n·hi, divided by a positive n, lies between
      lo and hi. */
  lemma QuotientWithin(total: real, n: real, lo: real, hi: real)
    requires 0.0 < n && n * lo <= total <= n * hi
    ensures lo <= total / n <= hi
  {
    assert total / n - lo == (total - n * lo) / n;
    assert hi - total / n == (n * hi - total) / n;
    QuotientNonNegative(total - n * lo, n);
    QuotientNonNegative(n * hi - total, n);
  }

  /** Every defined output lies between the smallest and the largest sample of
      its window. */
  lemma RollingMeanBounds(x: seq<real>, p: nat, i: nat, lo: real, hi: real)
    requires i < |x| && RollingMean(x, p)[i].Some?
    requires forall k :: i + 1 - p <= k <= i ==> lo <= x[k] <= hi
    ensures lo <= RollingMean(x, p)[i].value <= hi
  {
    var w := Window(x, p, i);
    assert forall k :: 0 <= k < |w| ==> w[k] == x[i + 1 - p + k];
    SumBounds(w, lo, hi);
    QuotientWithin(Sum(w), p as real, lo, hi);
  }

  /** A constant column has a constant rolling mean once the window is full. */
  lemma RollingMeanConstant(x: seq<real>, p: nat, c: real, i: nat)
    requires 1 <= p <= i + 1 <= |x|
    requires forall k :: 0 <= k < |x| ==> x[k] == c
    ensures RollingMean(x, p)[i] == Some(c)
  {
    var w := Window(x, p, i);
    SumConstant(w, c);
    assert |w| == p;
    assert RollingMean(x, p)[i] == Some(Sum(w) / p as real);
    assert Sum(w) == p as real * c;
    assert (p as real * c) / p as real == c;
    assert Sum(w) / p as real == c;
  }

  lemma WindowSumSlide(x: seq<real>, p: nat, i: nat)
    requires 1 <= p <= i < |x|
    ensures Sum(Window(x, p, i)) == Sum(Window(x, p, i - 1)) + x[i] - x[i - p]
  {
    var mid := x[i + 1 - p .. i];
    assert Window(x, p, i - 1) == [x[i - p]] + mid;
    assert Window(x, p, i) == mid + [x[i]];
    SumAppend([x[i - p]], mid);
    SumAppend(mid, [x[i]]);
    assert [x[i]][..0] == [] && [x[i - p]][..0] == [];
  }

  /** Consecutive windows differ by the sample that enters and the one that
      leaves: `r[i] = r[i-1] + (x[i] - x[i-p]) / p`. */
  lemma RollingMeanSlide(x: seq<real>, p: nat, i: nat)
    requires 1 <= p <= i < |x|
    ensures RollingMean(x, p)[i].Some? && RollingMean(x, p)[i - 1].Some?
    ensures RollingMean(x, p)[i].value
         == RollingMean(x, p)[i - 1].value + (x[i] - x[i - p]) / p as real
  {
    WindowSumSlide(x, p, i);
    var a, b := Sum(Window(x, p, i - 1)), Sum(Window(x, p, i));
    assert b / p as real == a / p as real + (x[i] - x[i - p]) / p as real;
  }

  /** Close [10, 11, 12, 13, 14] with a window of 5: undefined for the first
      four bars, 12 at the fifth. */
  lemma SmaOfFiveBars()
    ensures var r := RollingMean([10.0, 11.0, 12.0, 13.0, 14.0], 5);
      r[0] == r[1] == r[2] == r[3] == None && r[4] == Some(12.0)
  {
    var x := [10.0, 11.0, 12.0, 13.0, 14.0];
    assert Window(x, 5, 4) == x;
    assert [10.0][..0] == [];
    assert Sum([10.0]) == 10.0;
    assert [10.0, 11.0][..1] == [10.0];
    assert Sum([10.0, 11.0]) == 21.0;
    assert [10.0, 11.0, 12.0][..2] == [10.0, 11.0];
    assert Sum([10.0, 11.0, 12.0]) == 33.0;
    assert [10.0, 11.0, 12.0, 13.0][..3] == [10.0, 11.0, 12.0];
    assert Sum([10.0, 11.0, 12.0, 13.0]) == 46.0;
    assert x[..4] == [10.0, 11.0, 12.0, 13.0];
    assert Sum(x) == 60.0;
  }

  // ---------------------------------------------------------------------
  // Exponential weighting: `Series.ewm(span=p, adjust=False).mean()`
  // ---------------------------------------------------------------------

  /** The smoothing factor of a span: `2 / (p + 1)`. */
  function Alpha(span: int): (a: real)
    requires span >= 1
    ensures 0.0 < a <= 1.0
  {
    2.0 / (span as real + 1.0)
  }

  /** The weighted series, seeded with the first sample. */
  function Ewm(x: seq<real>, alpha: real): (r: seq<real>)
    ensures |r| == |x|
  {
    if x == [] then []
    else
      var prev := Ewm(x[..|x| - 1], alpha);
      prev + [if |x| == 1 then x[0] else alpha * x[|x| - 1] + (1.0 - alpha) * prev[|x| - 2]]
  }

  /** Computing a longer series does not change the values of a prefix. */
  lemma {:induction false} EwmPrefix(x: seq<real>, alpha: real, k: nat)
    requires k <= |x|
    ensures Ewm(x[..k], alpha) == Ewm(x, alpha)[..k]
  {
    if k < |x| {
      assert x[..|x| - 1][..k] == x[..k];
      EwmPrefix(x[..|x| - 1], alpha, k);
    } else {
      assert x[..k] == x;
    }
  }

  /** The seed: the first output is the first sample. */
  lemma EwmFirst(x: seq<real>, alpha: real)
    requires |x| > 0
    ensures Ewm(x, alpha)[0] == x[0]
  {
    EwmPrefix(x, alpha, 1);
  }

  /** The recurrence `r[i] = α·x[i] + (1-α)·r[i-1]`. */
  lemma EwmStep(x: seq<real>, alpha: real, i: nat)
    requires 1 <= i < |x|
    ensures Ewm(x, alpha)[i] == alpha * x[i] + (1.0 - alpha) * Ewm(x, alpha)[i - 1]
  {
    EwmPrefix(x, alpha, i + 1);
    assert x[..i + 1][..i] == x[..i];
  }

  /** With `0 ≤ α ≤ 1`, every output lies within the range of the inputs. */
  lemma {:induction false} EwmBounds(x: seq<real>, alpha: real, lo: real, hi: real)
    requires 0.0 <= alpha <= 1.0
    requires forall k :: 0 <= k < |x| ==> lo <= x[k] <= hi
    ensures forall k :: 0 <= k < |x| ==> lo <= Ewm(x, alpha)[k] <= hi
  {
    if x != [] {
      var front := x[..|x| - 1];
      EwmBounds(front, alpha, lo, hi);
      if |x| > 1 {
        var y, v := x[|x| - 1], Ewm(front, alpha)[|x| - 2];
        MulNonNegative(alpha, y - lo);
        MulNonNegative(1.0 - alpha, v - lo);
        MulNonNegative(alpha, hi - y);
        MulNonNegative(1.0 - alpha, hi - v);
      }
    }
  }

  lemma MulNonNegative(a: real, b: real)
    requires 0.0 <= a && 0.0 <= b
    ensures 0.0 <= a * b
  {
  }

  /** A constant series is its own exponential average. */
  lemma EwmConstant(x: seq<real>, alpha: real, c: real)
    requires 0.0 <= alpha <= 1.0
    requires forall k :: 0 <= k < |x| ==> x[k] == c
    ensures forall k :: 0 <= k < |x| ==> Ewm(x, alpha)[k] == c
  {
    EwmBounds(x, alpha, c, c);
  }

  // ---------------------------------------------------------------------
  // The two indicator classes
  // ---------------------------------------------------------------------

  /** Every value of a column is defined (the frame has no NaN prices). */
  function Defined(x: seq<real>): (r: Series)
    ensures |r| == |x| && forall i :: 0 <= i < |x| ==> r[i] == Some(x[i])
  {
    seq(|x|, i requires 0 <= i < |x| => Some(x[i]))
  }

  /** The error `calculate` raises: whatever went wrong inside, re-raised as
      IndicatorCalculationError naming the indicator. */
  function CalculationFailed(name: string, inner: string): Exc {
    Exc(IndicatorCalculationError, name + " calculation failed: " + inner)
  }

  function MissingClose(name: string): string {
    name + ": 'Close' column missing"
  }

  /** `SimpleMovingAverage(period=20)`. */
  datatype SimpleMovingAverage = SimpleMovingAverage(period: int := 20)
  {
    /** `SMA_<period>`: the period reads back from the name. */
    function Name(): (r: string)
      ensures |r| > 4 && r[..4] == "SMA_" && IntText(r[4..]) && ParseInt(r[4..]) == period
    {
      ParseIntToString(period);
      var r := "SMA_" + IntToString(period);
      assert r[..4] == "SMA_" && r[4..] == IntToString(period);
      r
    }

    /** Drawn over the price chart. */
    function Type(): (t: IndicatorType)
      ensures t == Overlay
    {
      Overlay
    }

    /** The rolling mean of Close; pandas rejects a negative window. */
    function Calculate(df: Frame): (r: Result<Series, Exc>)
      requires df.Aligned()
      ensures r.Err? <==> "Close" !in df.columns || period < 0
      ensures r.Err? ==> r.error.kind == IndicatorCalculationError
      ensures r.Ok? ==> |r.value| == df.Length()
      ensures r.Ok? ==> r.value == RollingMean(df.columns["Close"], period)
    {
      if "Close" !in df.columns then Err(CalculationFailed(Name(), MissingClose(Name())))
      else if period < 0 then Err(CalculationFailed(Name(), "window must be an integer 0 or greater"))
      else Ok(RollingMean(df.columns["Close"], period))
    }
  }

  /** `ExponentialMovingAverage(period=20)`. */
  datatype ExponentialMovingAverage = ExponentialMovingAverage(period: int := 20)
  {
    /** `EMA_<period>`: the period reads back from the name. */
    function Name(): (r: string)
      ensures |r| > 4 && r[..4] == "EMA_" && IntText(r[4..]) && ParseInt(r[4..]) == period
    {
      ParseIntToString(period);
      var r := "EMA_" + IntToString(period);
      assert r[..4] == "EMA_" && r[4..] == IntToString(period);
      r
    }

    /** Drawn over the price chart. */
    function Type(): (t: IndicatorType)
      ensures t == Overlay
    {
      Overlay
    }

    /** The exponentially weighted mean of Close with `α = 2/(p+1)`; pandas
        rejects a span below 1. */
    function Calculate(df: Frame): (r: Result<Series, Exc>)
      requires df.Aligned()
      ensures r.Err? <==> "Close" !in df.columns || period < 1
      ensures r.Err? ==> r.error.kind == IndicatorCalculationError
      ensures r.Ok? ==> |r.value| == df.Length()
      ensures r.Ok? ==> r.value == Defined(Ewm(df.columns["Close"], Alpha(period)))
    {
      if "Close" !in df.columns then Err(CalculationFailed(Name(), MissingClose(Name())))
      else if period < 1 then Err(CalculationFailed(Name(), "span must satisfy: span >= 1"))
      else Ok(Defined(Ewm(df.columns["Close"], Alpha(period))))
    }
  }
}
