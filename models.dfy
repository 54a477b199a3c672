/** The records of core/models.py and the data frame they carry. */
module Models {
  import opened Wrappers
  import opened Config

  /** A timestamp of the bar index (opaque: only equality and order matter). */
  type Timestamp = int

  /** A pandas DataFrame of bars: the timestamp index and the numeric columns
      by name ("Open", "High", "Low", "Close", "Volume"). */
  datatype Frame = Frame(index: seq<Timestamp>, columns: map<string, seq<real>>)
  {
    /** `len(df)`. */
    function Length(): nat { |index| }

    /** Every column has one value per row of the index. */
    predicate Aligned() {
      forall c :: c in columns ==> |columns[c]| == |index|
    }
  }

  /** `Indicator.type`: plotted on the price scale, or on a scale of its own. */
  datatype IndicatorType = Overlay | Oscillator

  /** A pandas Series of floats aligned with a frame; NaN is `None`. */
  type Series = seq<Option<real>>

  /** core/models.py DataFetchConfig: the ticker is required, the rest default. */
  datatype DataFetchConfig = DataFetchConfig(
    ticker: Value,
    interval: Value := Str("1d"),
    startDate: Value := Null,
    endDate: Value := Null)

  /** core/models.py AnalysisResult. `timestamp` defaults to `datetime.now()`
      in the source; the clock is a parameter here, so it has no default. */
  datatype AnalysisResult = AnalysisResult(
    data: Frame,
    timestamp: int,
    indicators: map<string, Series> := map[],
    metadata: map<string, Value> := map[])

  /** Building a fetch configuration from a ticker alone keeps the ticker and
      fills the documented defaults. */
  lemma DataFetchConfigDefaults(ticker: Value)
    ensures DataFetchConfig(ticker).ticker == ticker
    ensures DataFetchConfig(ticker).interval == Str("1d")
    ensures DataFetchConfig(ticker).startDate == Null
    ensures DataFetchConfig(ticker).endDate == Null
  {
  }

  /** Building a result from the data alone stores the data as given and
      starts with empty indicator and metadata maps. */
  lemma AnalysisResultDefaults(data: Frame, now: int)
    ensures AnalysisResult(data, now).data == data
    ensures AnalysisResult(data, now).indicators == map[]
    ensures AnalysisResult(data, now).metadata == map[]
  {
  }
}
