/** engine.py: TradingEngine.run fetches the data, calculates each indicator
    in list order, renders the chart and wraps everything in an
    AnalysisResult, translating failures stage by stage. The data source,
    the indicators and the visualizer are outside this model: their
    outcomes are the engine's function-valued fields, and a ghost call log
    records which of them ran, in order. */
module Engine {
  import opened Wrappers
  import opened Exceptions
  import opened Models

  /** One call the engine makes into a collaborator. */
  datatype Call<I> =
    | FetchCall(config: DataFetchConfig)
    | CalculateCall(indicator: I)
    | RenderCall(path: string)

  /** The calculate calls for the indicators `inds`, in order. */
  function CalculateCalls<I>(inds: seq<I>): (calls: seq<Call<I>>)
    ensures |calls| == |inds|
    ensures forall j :: 0 <= j < |inds| ==> calls[j] == CalculateCall(inds[j])
  {
    seq(|inds|, j requires 0 <= j < |inds| => CalculateCall(inds[j]))
  }

  /** `raise IndicatorCalculationError(f"Failed to calculate {name}: {e}")`. */
  function CalculationError(name: string, e: Exc): Exc {
    Exc(IndicatorCalculationError, "Failed to calculate " + name + ": " + e.message)
  }

  /** `raise VisualizationError(f"Failed to render visualization: {e}")`. */
  function RenderError(e: Exc): Exc {
    Exc(VisualizationError, "Failed to render visualization: " + e.message)
  }

  /** The outer handler: an engine error is re-raised as it is, anything
      else becomes a generic TradingEngineError. */
  function Escalate(e: Exc): (r: Exc)
    ensures IsEngineError(r.kind)
    ensures IsEngineError(e.kind) ==> r == e
    ensures !IsEngineError(e.kind) ==> r.kind == TradingEngineError
  {
    if IsEngineError(e.kind) then e
    else Exc(TradingEngineError, "An unexpected error occurred: " + e.message)
  }

  /** The index of the first indicator whose calculation fails, or the
      number of indicators when none does. */
  function FirstFailure<I>(inds: seq<I>, df: Frame, calculate: (I, Frame) -> Result<Series, Exc>): (k: nat)
    ensures k <= |inds|
    ensures forall j :: 0 <= j < k ==> calculate(inds[j], df).Ok?
    ensures k < |inds| ==> calculate(inds[k], df).Err?
  {
    if inds == [] || calculate(inds[0], df).Err? then 0
    else 1 + FirstFailure(inds[1..], df, calculate)
  }

  /** The `indicator_results` dict the loop builds: each indicator's series
      stored under its name, or the translated error of the first failure. */
  function CalculateAll<I>(inds: seq<I>, df: Frame, nameOf: I -> string,
                           calculate: (I, Frame) -> Result<Series, Exc>): Result<map<string, Series>, Exc>
  {
    if inds == [] then Ok(map[])
    else
      match CalculateAll(inds[..|inds| - 1], df, nameOf, calculate)
      case Err(e) => Err(e)
      case Ok(results) =>
        var ind := inds[|inds| - 1];
        match calculate(ind, df)
        case Err(e) => Err(CalculationError(nameOf(ind), e))
        case Ok(series) => Ok(results[nameOf(ind) := series])
  }

  /** The loop succeeds exactly when every indicator calculates. */
  lemma {:induction false} CalculateAllOkIff<I>(inds: seq<I>, df: Frame, nameOf: I -> string,
                                                calculate: (I, Frame) -> Result<Series, Exc>)
    ensures CalculateAll(inds, df, nameOf, calculate).Ok? <==>
      forall j :: 0 <= j < |inds| ==> calculate(inds[j], df).Ok?
  {
    if inds != [] {
      var front := inds[..|inds| - 1];
      CalculateAllOkIff(front, df, nameOf, calculate);
      assert forall j :: 0 <= j < |front| ==> front[j] == inds[j];
    }
  }

  /** Once a prefix fails, the later indicators change nothing. */
  lemma {:induction false} CalculateAllStops<I>(inds: seq<I>, k: nat, df: Frame, nameOf: I -> string,
                                                calculate: (I, Frame) -> Result<Series, Exc>)
    requires k <= |inds| && CalculateAll(inds[..k], df, nameOf, calculate).Err?
    ensures CalculateAll(inds, df, nameOf, calculate) == CalculateAll(inds[..k], df, nameOf, calculate)
  {
    if k < |inds| {
      assert inds[..|inds| - 1][..k] == inds[..k];
      CalculateAllStops(inds[..|inds| - 1], k, df, nameOf, calculate);
    } else {
      assert inds[..k] == inds;
    }
  }

  /** Any failure, even one already typed, is reported as the first failing
      indicator's IndicatorCalculationError. */
  lemma CalculateAllError<I>(inds: seq<I>, df: Frame, nameOf: I -> string,
                             calculate: (I, Frame) -> Result<Series, Exc>)
    requires FirstFailure(inds, df, calculate) < |inds|
    ensures var k := FirstFailure(inds, df, calculate);
      CalculateAll(inds, df, nameOf, calculate) ==
        Err(CalculationError(nameOf(inds[k]), calculate(inds[k], df).error))
  {
    var k := FirstFailure(inds, df, calculate);
    CalculateAllOkIff(inds[..k], df, nameOf, calculate);
    assert inds[..k + 1][..k] == inds[..k];
    CalculateAllStops(inds, k + 1, df, nameOf, calculate);
  }

  /** The result map is keyed by the indicators' names. */
  lemma {:induction false} CalculateAllKeys<I>(inds: seq<I>, df: Frame, nameOf: I -> string,
                                               calculate: (I, Frame) -> Result<Series, Exc>)
    requires CalculateAll(inds, df, nameOf, calculate).Ok?
    ensures CalculateAll(inds, df, nameOf, calculate).value.Keys ==
      set j | 0 <= j < |inds| :: nameOf(inds[j])
  {
    if inds != [] {
      var front := inds[..|inds| - 1];
      CalculateAllKeys(front, df, nameOf, calculate);
      var names := set j | 0 <= j < |inds| :: nameOf(inds[j]);
      var frontNames := set j | 0 <= j < |front| :: nameOf(front[j]);
      assert forall j :: 0 <= j < |front| ==> front[j] == inds[j];
      assert names == frontNames + {nameOf(inds[|inds| - 1])} by {
        forall n | n in names ensures n in frontNames + {nameOf(inds[|inds| - 1])} {
          var j :| 0 <= j < |inds| && n == nameOf(inds[j]);
          if j < |front| { assert n == nameOf(front[j]); }
        }
      }
    }
  }

  /** Under a name used by several indicators, the last one's series wins. */
  lemma {:induction false} CalculateAllLastWins<I>(inds: seq<I>, df: Frame, nameOf: I -> string,
                                                   calculate: (I, Frame) -> Result<Series, Exc>, j: nat)
    requires CalculateAll(inds, df, nameOf, calculate).Ok?
    requires j < |inds| && forall j' :: j < j' < |inds| ==> nameOf(inds[j']) != nameOf(inds[j])
    ensures calculate(inds[j], df).Ok?
    ensures nameOf(inds[j]) in CalculateAll(inds, df, nameOf, calculate).value
    ensures CalculateAll(inds, df, nameOf, calculate).value[nameOf(inds[j])] == calculate(inds[j], df).value
  {
    var last := |inds| - 1;
    if j < last {
      var front := inds[..last];
      assert front[j] == inds[j];
      assert forall j' :: j < j' < |front| ==> front[j'] == inds[j'];
      CalculateAllLastWins(front, df, nameOf, calculate, j);
    }
  }

  /** `TradingEngine(data_source, indicators, visualizer)`. */
  class TradingEngine<I> {
    /** `data_source.fetch_data(config)`. */
    const fetch: DataFetchConfig -> Result<Frame, Exc>
    /** The indicators, in the order they are calculated. */
    const indicators: seq<I>
    /** `indicator.name`. */
    const nameOf: I -> string
    /** `indicator.calculate(df)`. */
    const calculate: (I, Frame) -> Result<Series, Exc>
    /** `visualizer.render(df, indicator_results, output_path)`: None when it
        returns, the exception when it raises. */
    const render: (Frame, map<string, Series>, string) -> Option<Exc>

    constructor(fetch: DataFetchConfig -> Result<Frame, Exc>, indicators: seq<I>, nameOf: I -> string,
                calculate: (I, Frame) -> Result<Series, Exc>,
                render: (Frame, map<string, Series>, string) -> Option<Exc>)
      ensures this.fetch == fetch && this.indicators == indicators && this.nameOf == nameOf
      ensures this.calculate == calculate && this.render == render
    {
      this.fetch := fetch;
      this.indicators := indicators;
      this.nameOf := nameOf;
      this.calculate := calculate;
      this.render := render;
    }

    /** `run(config, output_path)`; `now` is the clock reading the result
        is stamped with. Stages run in order and only while nothing has
        failed; every failure is an engine error and carries no result. */
    method Run(config: DataFetchConfig, outputPath: string, now: int)
      returns (r: Result<AnalysisResult, Exc>, ghost calls: seq<Call<I>>)
      ensures r.Err? ==> IsEngineError(r.error.kind)
      ensures |calls| >= 1 && calls[0] == FetchCall(config)
      ensures fetch(config).Err? ==> calls == [FetchCall(config)] && r == Err(Escalate(fetch(config).error))
      ensures fetch(config).Ok? ==>
        var df := fetch(config).value;
        var k := FirstFailure(indicators, df, calculate);
        && (k < |indicators| ==>
              && calls == [FetchCall(config)] + CalculateCalls(indicators[..k + 1])
              && r == Err(CalculationError(nameOf(indicators[k]), calculate(indicators[k], df).error)))
        && (k == |indicators| ==>
              && CalculateAll(indicators, df, nameOf, calculate).Ok?
              && var results := CalculateAll(indicators, df, nameOf, calculate).value;
              && calls == [FetchCall(config)] + CalculateCalls(indicators) + [RenderCall(outputPath)]
              && (render(df, results, outputPath).Some? ==>
                    r == Err(RenderError(render(df, results, outputPath).value)))
              && (render(df, results, outputPath).None? ==>
                    r == Ok(AnalysisResult(df, now, results,
                                           map["ticker" := config.ticker, "interval" := config.interval]))))
    {
      calls := [FetchCall(config)];
      var fetched := fetch(config);
      if fetched.Err? {
        return Err(Escalate(fetched.error)), calls;
      }
      var df := fetched.value;
      var results: map<string, Series> := map[];
      for i := 0 to |indicators|
        invariant CalculateAll(indicators[..i], df, nameOf, calculate) == Ok(results)
        invariant calls == [FetchCall(config)] + CalculateCalls(indicators[..i])
      {
        assert indicators[..i + 1][..i] == indicators[..i];
        var indicator := indicators[i];
        calls := calls + [CalculateCall(indicator)];
        assert CalculateCalls(indicators[..i + 1]) == CalculateCalls(indicators[..i]) + [CalculateCall(indicator)];
        var series := calculate(indicator, df);
        if series.Err? {
          CalculateAllOkIff(indicators[..i], df, nameOf, calculate);
          assert FirstFailure(indicators, df, calculate) == i by {
            assert forall j :: 0 <= j < i ==> indicators[..i][j] == indicators[j];
          }
          return Err(CalculationError(nameOf(indicator), series.error)), calls;
        }
        results := results[nameOf(indicator) := series.value];
      }
      assert indicators[..|indicators|] == indicators;
      CalculateAllOkIff(indicators, df, nameOf, calculate);
      calls := calls + [RenderCall(outputPath)];
      var failure := render(df, results, outputPath);
      if failure.Some? {
        return Err(RenderError(failure.value)), calls;
      }
      r := Ok(AnalysisResult(df, now, results, map["ticker" := config.ticker, "interval" := config.interval]));
    }
  }
}
