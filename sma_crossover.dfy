/** strategies/sma_crossover.py: the moving-average crossover detector.
    The `Signal` record and its type are declared here: the module imports
    them from core/models.py, which does not define them. */
module SmaCrossover {
  import opened Wrappers
  import opened Models

  datatype SignalType = Buy | Sell | Hold

  /** An immutable trading event at one bar of the frame. */
  datatype Signal = Signal(timestamp: Timestamp, signalType: SignalType, price: real, description: string)

  /** The decision at one index from the previous and current values of the
      fast and slow series: nothing if any is NaN; BUY when fast goes from at
      or below slow to strictly above it; otherwise SELL when it goes from at
      or above to strictly below. */
  function Cross(prevFast: Option<real>, prevSlow: Option<real>,
                 currFast: Option<real>, currSlow: Option<real>): Option<SignalType>
  {
    if currFast.None? || currSlow.None? || prevFast.None? || prevSlow.None? then None
    else if prevFast.value <= prevSlow.value && currFast.value > currSlow.value then Some(Buy)
    else if prevFast.value >= prevSlow.value && currFast.value < currSlow.value then Some(Sell)
    else None
  }

  function CrossAt(fast: Series, slow: Series, i: nat): Option<SignalType>
    requires 1 <= i && i < |fast| && i < |slow|
  {
    Cross(fast[i - 1], slow[i - 1], fast[i], slow[i])
  }

  /** The indices below `k` at which a crossover is detected, in index order. */
  function CrossIndices(fast: Series, slow: Series, k: nat): (c: seq<nat>)
    requires k <= |fast| && k <= |slow|
    ensures forall j :: 0 <= j < |c| ==> 1 <= c[j] < k && CrossAt(fast, slow, c[j]).Some?
  {
    if k <= 1 then []
    else CrossIndices(fast, slow, k - 1) + (if CrossAt(fast, slow, k - 1).Some? then [k - 1] else [])
  }

  /** BUY exactly on a strict upward cross from at-or-below. */
  lemma BuyIff(pf: Option<real>, ps: Option<real>, cf: Option<real>, cs: Option<real>)
    ensures Cross(pf, ps, cf, cs) == Some(Buy) <==>
      pf.Some? && ps.Some? && cf.Some? && cs.Some? && pf.value <= ps.value && cf.value > cs.value
  {
  }

  /** SELL exactly on a strict downward cross from at-or-above; the two never
      both apply, and an index where fast equals slow emits nothing. */
  lemma SellIff(pf: Option<real>, ps: Option<real>, cf: Option<real>, cs: Option<real>)
    ensures Cross(pf, ps, cf, cs) == Some(Sell) <==>
      pf.Some? && ps.Some? && cf.Some? && cs.Some? && pf.value >= ps.value && cf.value < cs.value
    ensures Cross(pf, ps, cf, cs) != Some(Hold)
    ensures cf.Some? && cs.Some? && cf.value == cs.value ==> Cross(pf, ps, cf, cs) == None
  {
  }

  /** An index is listed exactly when it is in `[1, k)` and a cross is detected there. */
  lemma {:induction false} CrossIndicesComplete(fast: Series, slow: Series, k: nat, i: nat)
    requires k <= |fast| && k <= |slow|
    ensures i in CrossIndices(fast, slow, k) <==> 1 <= i < k && CrossAt(fast, slow, i).Some?
  {
    if k > 1 {
      CrossIndicesComplete(fast, slow, k - 1, i);
    }
  }

  /** The indices are strictly increasing and lie in `[1, k)`, so there are at
      most `k - 1` of them: at most one signal per bar, in bar order. */
  lemma {:induction false} CrossIndicesOrdered(fast: Series, slow: Series, k: nat)
    requires k <= |fast| && k <= |slow|
    ensures var c := CrossIndices(fast, slow, k);
      (forall j1, j2 :: 0 <= j1 < j2 < |c| ==> c[j1] < c[j2]) &&
      |c| <= if k == 0 then 0 else k - 1
  {
    if k > 1 {
      CrossIndicesOrdered(fast, slow, k - 1);
    }
  }

  /** Fast [5,5,5,6,6] against slow [6,6,6,5,5]: one BUY, at index 3, and no SELL. */
  lemma SingleGoldenCross()
    ensures var fast := [Some(5.0), Some(5.0), Some(5.0), Some(6.0), Some(6.0)];
      var slow := [Some(6.0), Some(6.0), Some(6.0), Some(5.0), Some(5.0)];
      CrossIndices(fast, slow, 5) == [3] && CrossAt(fast, slow, 3) == Some(Buy)
  {
    var fast := [Some(5.0), Some(5.0), Some(5.0), Some(6.0), Some(6.0)];
    var slow := [Some(6.0), Some(6.0), Some(6.0), Some(5.0), Some(5.0)];
    assert CrossIndices(fast, slow, 2) == [];
    assert CrossIndices(fast, slow, 3) == [];
    assert CrossIndices(fast, slow, 4) == [3];
  }

  /** `SMACrossoverStrategy`: the names of the fast and slow indicator series. */
  class SmaCrossoverStrategy {
    const fastMaName: string
    const slowMaName: string

    constructor(fastMaName: string := "SMA_10", slowMaName: string := "SMA_50")
      ensures this.fastMaName == fastMaName && this.slowMaName == slowMaName
    {
      this.fastMaName := fastMaName;
      this.slowMaName := slowMaName;
    }

    /** The strategy's display name. */
    function Name(): (r: string)
      ensures r == "SMA Crossover"
    {
      "SMA Crossover"
    }

    function Description(t: SignalType): string {
      if t == Buy then "Golden Cross: " + fastMaName + " crossed above " + slowMaName
      else "Death Cross: " + fastMaName + " crossed below " + slowMaName
    }

    /** The signal emitted at a crossover index: that bar's timestamp and Close. */
    function SignalAt(df: Frame, fast: Series, slow: Series, i: nat): Signal
      requires df.Aligned() && "Close" in df.columns
      requires df.Length() <= |fast| && df.Length() <= |slow|
      requires 1 <= i < df.Length() && CrossAt(fast, slow, i).Some?
    {
      var t := CrossAt(fast, slow, i).value;
      Signal(df.index[i], t, df.columns["Close"][i], Description(t))
    }

    /** One signal per detected crossover, in index order; none at all when
        either named series is missing from the indicator map or the frame
        has fewer than two rows. Otherwise only the first `len(df)` values
        of each series are read, with Close. */
    method GenerateSignals(df: Frame, indicators: map<string, Series>) returns (signals: seq<Signal>)
      requires df.Aligned()
      requires fastMaName in indicators && slowMaName in indicators && df.Length() >= 2 ==>
        && df.Length() <= |indicators[fastMaName]| && df.Length() <= |indicators[slowMaName]|
        && "Close" in df.columns
      ensures fastMaName !in indicators || slowMaName !in indicators || df.Length() < 2 ==> signals == []
      ensures fastMaName in indicators && slowMaName in indicators && df.Length() >= 2 ==>
        var fast, slow := indicators[fastMaName], indicators[slowMaName];
        var c := CrossIndices(fast, slow, df.Length());
        |signals| == |c| &&
        forall j :: 0 <= j < |c| ==> signals[j] == SignalAt(df, fast, slow, c[j])
    {
      signals := [];
      if fastMaName !in indicators || slowMaName !in indicators {
        return;
      }
      var fast, slow := indicators[fastMaName], indicators[slowMaName];
      var n := df.Length();
      if n < 2 {
        return;
      }
      var close := df.columns["Close"];
      for i := 1 to n
        invariant |signals| == |CrossIndices(fast, slow, i)|
        invariant forall j :: 0 <= j < |signals| ==>
          signals[j] == SignalAt(df, fast, slow, CrossIndices(fast, slow, i)[j])
      {
        var price := close[i];
        var currFast, currSlow := fast[i], slow[i];
        var prevFast, prevSlow := fast[i - 1], slow[i - 1];
        if currFast.None? || currSlow.None? || prevFast.None? || prevSlow.None? {
          continue;
        }
        if prevFast.value <= prevSlow.value && currFast.value > currSlow.value {
          signals := signals + [Signal(df.index[i], Buy, price, Description(Buy))];
        } else if prevFast.value >= prevSlow.value && currFast.value < currSlow.value {
          signals := signals + [Signal(df.index[i], Sell, price, Description(Sell))];
        }
      }
    }
  }
}
