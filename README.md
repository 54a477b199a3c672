# trading-strategy core, modelled in Dafny

This project models the computational and orchestration core of a small
technical-analysis pipeline written in Python. The pipeline works in these steps:

- A **component factory** reads a configuration mapping. It checks the
  required sections and builds a fetch configuration, the data source, the
  indicators and the visualizer. Indicators and visualizers are created
  through two **plugin registries**.
- The **trading engine** fetches market data, calculates every indicator in
  order, renders a chart and returns an `AnalysisResult`. Each stage's
  failures are translated into the engine's own exception taxonomy.
- The **indicators** compute over the Close column: a simple moving average
  (pandas `rolling(window).mean()`), an exponential moving average (pandas
  `ewm(span, adjust=False).mean()`) and the relative strength index.
- A **crossover strategy** scans a fast and a slow series and emits BUY and
  SELL signals where they cross.
- A **time-to-live cache** is kept as one pickle file per key. The `cached`
  decorator serves a function's results from it.

Files, one module each:

| file | module | models |
|---|---|---|
| wrappers.dfy | Wrappers | `Option`, `Result` |
| exceptions.dfy | Exceptions | the exception classes (core/exceptions.py) and the Python built-ins the core raises |
| format.dfy | Format | `str(int)` for the indicator names |
| config.dfy | Config | configuration values and the Python operations the factory applies to them (`in`, `.get`, `[]`, iteration, truthiness) |
| models.dfy | Models | `DataFetchConfig`, `AnalysisResult`, the data frame and series |
| moving_averages.dfy | MovingAverages | SMA and EMA |
| oscillators.dfy | Oscillators | RSI |
| sma_crossover.dfy | SmaCrossover | the crossover strategy |
| decorators.dfy | Decorators | the two registries |
| factory.dfy | Factory | `ComponentFactory` |
| engine.dfy | Engine | `TradingEngine.run` |
| cache.dfy | Cache | `TTLCache` and `cached` |

Floating-point values are exact `real`s, and NaN is `None`. Indicator results
are `seq<Option<real>>`, aligned with the frame's index. Collaborators whose
code is outside the core are function-valued parameters or fields: the data
source's fetch, each indicator's calculation, the visualizer's render, a
registered class's constructor and the cached function. The clock is a `now`
parameter. The engine's `Run` returns a ghost log of the collaborator calls it
made, in order.

## Model

| member | source | states |
|---|---|---|
| SmaCrossover.SmaCrossoverStrategy.GenerateSignals | strategies/sma_crossover.py:19-59 | no signals when either named series is missing (whatever the frame holds) or the frame has fewer than two rows (Close is then not needed); otherwise exactly one signal per detected crossover index, in index order, carrying that bar's timestamp, Close price, type and description |
| SmaCrossover.BuyIff | strategies/sma_crossover.py:39-49 | BUY exactly when all four values are defined, previous fast ≤ previous slow, and current fast > current slow |
| SmaCrossover.SellIff | strategies/sma_crossover.py:39-57 | SELL exactly when all four are defined, previous fast ≥ previous slow, and current fast < current slow; never HOLD; nothing when current fast equals current slow |
| SmaCrossover.CrossIndices | strategies/sma_crossover.py:29-40 | every listed index lies in [1, n) and has a detected cross |
| SmaCrossover.CrossIndicesComplete | strategies/sma_crossover.py:29-57 | an index is listed if and only if it lies in [1, n) and a cross is detected there |
| SmaCrossover.CrossIndicesOrdered | strategies/sma_crossover.py:29-59 | the indices are strictly increasing, so there is at most one signal per bar and at most n-1 in all |
| SmaCrossover.SingleGoldenCross | strategies/sma_crossover.py:43-57 | fast [5,5,5,6,6] against slow [6,6,6,5,5] gives one BUY, at index 3, and no SELL |
| SmaCrossover.SmaCrossoverStrategy.constructor | strategies/sma_crossover.py:11-13 | the configured fast and slow names are kept; the defaults are SMA_10 and SMA_50 |
| SmaCrossover.SmaCrossoverStrategy.Name | strategies/sma_crossover.py:15-17 | the strategy's name is "SMA Crossover" |
| MovingAverages.RollingMean | indicators/moving_averages.py:32 | same length as the input; undefined exactly before the window is full (and everywhere for a zero window) |
| MovingAverages.RollingMeanBounds | indicators/moving_averages.py:32 | a defined mean lies between the smallest and the largest sample of its window |
| MovingAverages.RollingMeanConstant | indicators/moving_averages.py:32 | a constant column has that constant as its mean once the window is full |
| MovingAverages.RollingMeanSlide | indicators/moving_averages.py:32 | consecutive means differ by (entering sample − leaving sample) / p |
| MovingAverages.SmaOfFiveBars | indicators/moving_averages.py:32 | Close [10..14] with window 5 is undefined for four bars and 12 at the fifth |
| MovingAverages.Alpha | indicators/moving_averages.py:58 | the smoothing factor 2/(span+1) lies in (0, 1] for every span ≥ 1 |
| MovingAverages.EwmFirst | indicators/moving_averages.py:58 | the exponential average starts at the first sample |
| MovingAverages.EwmStep | indicators/moving_averages.py:58 | the recurrence r[i] = α·x[i] + (1−α)·r[i−1] |
| MovingAverages.EwmBounds | indicators/moving_averages.py:58 | every output lies within the range of the inputs |
| MovingAverages.EwmConstant | indicators/moving_averages.py:58 | a constant series is its own exponential average |
| MovingAverages.SimpleMovingAverage.Name | indicators/moving_averages.py:14-22 | the name is "SMA_" followed by text that parses back to the period |
| MovingAverages.SimpleMovingAverage.Type | indicators/moving_averages.py:17-26 | the SMA is an overlay |
| MovingAverages.SimpleMovingAverage.Calculate | indicators/moving_averages.py:28-34 | fails, as IndicatorCalculationError, exactly when Close is missing or the window is negative; otherwise the result is RollingMean of Close, one value per row |
| MovingAverages.ExponentialMovingAverage.Name | indicators/moving_averages.py:40-48 | the name is "EMA_" followed by text that parses back to the period |
| MovingAverages.ExponentialMovingAverage.Type | indicators/moving_averages.py:43-52 | the EMA is an overlay |
| MovingAverages.ExponentialMovingAverage.Calculate | indicators/moving_averages.py:54-60 | fails, as IndicatorCalculationError, exactly when Close is missing or the span is below 1; otherwise the result is Ewm of Close with α = 2/(span+1), defined at every row |
| Format.PrefixedNameInjective | indicators/moving_averages.py:16 | indicators of one kind with different periods have different names (`SMA_20` ≠ `SMA_50`) |
| Format.ParseIntToString | indicators/oscillators.py:16 | the period can be read back from the digits of the name |
| Oscillators.Diff | indicators/oscillators.py:33 | one difference per sample |
| Oscillators.Rsi | indicators/oscillators.py:33-39 | one value per Close sample |
| Oscillators.RsiWarmUp | indicators/oscillators.py:33-38 | undefined before index p−1; from index p−1 on, the RS formula over the window's average gain and loss (the first change counts as 0, not NaN) |
| Oscillators.RsiIsGainShare | indicators/oscillators.py:34-38 | past the warm-up, RSI equals 100·G/(G+L), and it is undefined when G+L = 0; a zero loss with a positive gain gives 100 |
| Oscillators.RsiBounds | indicators/oscillators.py:37-38 | every defined value lies in [0, 100] |
| Oscillators.AvgGain | indicators/oscillators.py:34 | the average gain is never negative |
| Oscillators.AvgLoss | indicators/oscillators.py:35 | the average loss is never negative |
| Oscillators.AveragesZeroIff | indicators/oscillators.py:34-35 | both averages are zero exactly when the price did not move within the window |
| Oscillators.RsiDefinedIff | indicators/oscillators.py:37-38 | past the warm-up, RSI is defined exactly when the price moved within the window |
| Oscillators.RsiNonDecreasing | indicators/oscillators.py:35-38 | for a price series that never falls, every defined RSI is 100 |
| Oscillators.RsiStrictlyIncreasing | indicators/oscillators.py:35-38 | for a strictly rising series, RSI is 100 at every index i ≥ 1 past the warm-up |
| Oscillators.RelativeStrengthIndex.Name | indicators/oscillators.py:14-22 | the name is "RSI_" followed by text that parses back to the period |
| Oscillators.RelativeStrengthIndex.Type | indicators/oscillators.py:17-26 | the RSI is an oscillator |
| Oscillators.IndicatorNamesDistinct | indicators/oscillators.py:16 | an SMA, an EMA and an RSI never share a name, whatever their periods (moving_averages.py:16 and 42 give the other two) |
| Oscillators.RelativeStrengthIndex.Calculate | indicators/oscillators.py:28-41 | fails, as IndicatorCalculationError, exactly when Close is missing or the window is negative; otherwise the result is Rsi of Close with that window, one value per row |
| Decorators.Lookup | utils/decorators.py:46-48 | succeeds exactly for a registered name, with the registered class; otherwise KeyError |
| Decorators.LookupAfterRegister | utils/decorators.py:15-48 | after registering a name, looking it up gives the registered class, and every other name looks up as before |
| Decorators.Registry.constructor | utils/decorators.py:3-4 | both registries start empty |
| Decorators.Registry.RegisterIndicator | utils/decorators.py:15-17 | the indicator registry maps the name to the class, overwriting any earlier entry; the visualizer registry is unchanged; the class is returned as given |
| Decorators.Registry.RegisterVisualizer | utils/decorators.py:29-31 | the visualizer registry maps the name to the class, overwriting; the indicator registry is unchanged; the class is returned as given |
| Decorators.Registry.GetIndicatorClass | utils/decorators.py:34-48 | the registered class, or KeyError when the name is absent |
| Decorators.Registry.GetVisualizerClass | utils/decorators.py:50-64 | the registered class, or KeyError when the name is absent |
| Decorators.RegistryRoundTrip | utils/decorators.py:15-64 | registering twice under one name keeps the last class, and a visualizer registration is found in its own registry |
| Factory.FirstMissing | core/factory.py:27-30 | none is missing exactly when every section is present; a missing one is named |
| Factory.NewComponentFactory | core/factory.py:12-30 | succeeds exactly when data_source, indicators and visualizer are all present, keeping the configuration unchanged; otherwise a ConfigurationError names the first missing section in that order |
| Factory.CreateFetchConfig | core/factory.py:41-50 | succeeds exactly when data_source is a mapping holding ticker; a mapping without ticker gives ConfigurationError; the ticker is kept, interval defaults to "1d" and the dates to None |
| Factory.CreateDataSource | core/factory.py:62-75 | "yfinance" and "csv" select their source; a missing or falsy type gives ConfigurationError; any other type gives FactoryError; a non-mapping section gives AttributeError |
| Factory.Params | core/factory.py:97 | exactly the entry's keys other than "name", with their values |
| Factory.ClassOf | core/factory.py:95 | a string name is looked up in the registry; any other hashable name is not found (KeyError) |
| Factory.Translate | core/factory.py:99-102 | every failure becomes a FactoryError; "is not registered" exactly for a KeyError; otherwise "Failed to create …" ending with the original message |
| Factory.Instantiate | core/factory.py:94-102 | errors are FactoryErrors; an unregistered string name gives "<Kind> '<name>' is not registered."; a registered name yields exactly what its constructor yields, and a constructor failure is translated |
| Factory.NamedEntries | core/factory.py:89-92 | the named entries are no more than the entries, and each is a mapping with a truthy name |
| Factory.BuildIndicatorsOk | core/factory.py:86-104 | on success every entry is a mapping, and the result holds one instance per named entry, in configuration order, each built from that entry's parameters |
| Factory.BuildIndicatorsSucceeds | core/factory.py:89-104 | when every entry is a mapping and every named entry instantiates, the whole list is built (the converse of BuildIndicatorsOk) |
| Factory.BuildIndicatorsStops | core/factory.py:89-102 | the first failing entry's error is the result; later entries are not looked at |
| Factory.UnregisteredIndicator | core/factory.py:99-100 | an entry naming an unregistered indicator, after successful entries, makes the call fail with "Indicator '<name>' is not registered." |
| Factory.CreateIndicators | core/factory.py:77-104 | a non-iterable indicators section fails as iteration does; otherwise the loop yields exactly the list specified by BuildIndicators |
| Factory.CreateVisualizer | core/factory.py:116-129 | a non-mapping section gives AttributeError; for a mapping, a missing or falsy name gives ConfigurationError, an unregistered name gives FactoryError, and a registered non-empty string name yields its constructor's instance when the constructor succeeds and the translated FactoryError when it fails; success means a registered string name, constructed with the section's keys other than "name"; for a mapping, every error is ConfigurationError or FactoryError |
| Models.DataFetchConfigDefaults | core/models.py:16-19 | the ticker is kept; interval defaults to "1d" and both dates to None |
| Models.AnalysisResultDefaults | core/models.py:31-33 | the data is kept; indicators and metadata default to empty maps |
| Engine.Escalate | engine.py:74-78 | an engine error is re-raised unchanged; any other error becomes TradingEngineError |
| Engine.FirstFailure | engine.py:49-56 | every indicator before the returned index calculates, and the one at the index fails |
| Engine.CalculateAllOkIff | engine.py:48-56 | the calculation stage succeeds exactly when every indicator calculates |
| Engine.CalculateAllError | engine.py:51-56 | any indicator failure, even one already typed, is reported as the first failing indicator's IndicatorCalculationError |
| Engine.CalculateAllStops | engine.py:49-56 | once an indicator fails, later indicators change nothing |
| Engine.CalculateAllKeys | engine.py:48-53 | the result map is keyed by exactly the indicators' names |
| Engine.CalculateAllLastWins | engine.py:53 | under a name shared by several indicators, the last one's series is kept |
| Engine.CalculateCalls | engine.py:49-52 | one calculate call per indicator, in list order |
| Engine.TradingEngine.constructor | engine.py:10-21 | the collaborators are kept as given |
| Engine.TradingEngine.Run | engine.py:23-78 | fetch is called first, then each indicator in order up to the first failure, then render only if all succeeded; a fetch error is escalated; an indicator error becomes IndicatorCalculationError; a render error becomes VisualizationError; success returns the fetched data, the indicator map and metadata {ticker, interval}; every error is an engine error |
| Cache.Read | utils/cache.py:27-49 | a value is returned only for a present file whose age is at most the time to live and whose payload loads; a missing, expired or unreadable file gives None |
| Cache.ReadAfterWrite | utils/cache.py:27-60 | a value written at t is read back while now − t ≤ ttl, an age exactly equal to ttl included |
| Cache.ReadOtherKey | utils/cache.py:58-60 | writing one key leaves every other key's reads unchanged |
| Cache.TTLCache.constructor | utils/cache.py:11-21 | the directory and the time to live are kept; the default is 3600 seconds |
| Cache.TTLCache.Get | utils/cache.py:27-49 | returns what Read specifies for the directory's files |
| Cache.TTLCache.Set | utils/cache.py:51-60 | overwrites the key's file with the value and the current time, and leaves the other files unchanged |
| Cache.Insert | utils/cache.py:80 | the result is the input with one more item (as a multiset) |
| Cache.SortByName | utils/cache.py:80 | a permutation of the keyword items |
| Cache.SortByNameSorted | utils/cache.py:80 | items with distinct names come out strictly ordered by Python's string order |
| Cache.SortedUnique | utils/cache.py:80 | two strictly ordered sequences of the same items are equal |
| Cache.SortByNameIgnoresOrder | utils/cache.py:80 | the sorted items do not depend on the order the keyword arguments were written in |
| Cache.BelowTotal | utils/cache.py:80 | Python's string order is total on distinct strings (also irreflexive, transitive and asymmetric, in the lemmas beside it) |
| Cache.JoinedKeyCollides | utils/cache.py:78-81 | for any module and qualified name, the source's "\|"-joined key string is the same for f("a\|b") and f("a", "b"), and for f("x=1") and f(x=1) |
| Cache.CollidingCallServed | utils/cache.py:78-92 | with the joined key, f("a\|b") followed, within the time to live of its stored result, by f("a", "b") serves the second call the first call's result without running f; with the length-prefixed key the second call runs f on its own arguments |
| Cache.EncodeInjective | utils/cache.py:78-82 | distinct part lists encode to distinct key strings under the length-prefixed encoding |
| Cache.CallKeyInjective | utils/cache.py:78-82 | two calls share a key only when they agree on the module, the qualified name, every positional argument's text and every keyword item's text |
| Cache.Unskipped | utils/cache.py:73 | popping `_skip_cache` keeps exactly the other keyword items |
| Cache.SkipFlagAt | utils/cache.py:73 | the skip flag is set exactly when a `_skip_cache` argument with a truthy value was passed |
| Cache.ToMapIgnoresOrder | utils/cache.py:73-74 | the keyword arguments, read as a dict by name, do not depend on the order they were written in |
| Cache.CallCached | utils/cache.py:71-92 | one call of the wrapper returns or raises, runs the function and leaves the files exactly as Step specifies, for the source's joined key and for the length-prefixed key alike; the function receives the keyword arguments in the order written; an exception it raises propagates before `set`, so nothing is stored; the clock is read once at the lookup and again when `set` stores a computed result, and that second reading is the entry's modification time |
| Cache.SkipBypassesCache | utils/cache.py:73-74 | under either key, with `_skip_cache` truthy, the function runs on the remaining arguments, and the files are neither read nor written |
| Cache.ErrorNeverStored | utils/cache.py:90-91 | under either key, an exception from the function reaches the caller and leaves the files unchanged; a returned result changes the files at most in the call's own key |
| Cache.RepeatedCallServed | utils/cache.py:84-92 | under either key, a call repeated within the time to live of the moment the earlier call stored its result is served from the cache without running it |
| Cache.ExpiredCallRecomputed | utils/cache.py:41-43 | under either key, a later call made once the time to live has passed since the earlier call's `set` reading runs the function again; when the earlier call raised, this holds for any later second call |
| Cache.FailedCallRetried | utils/cache.py:85-91 | under either key, after a call whose function raised, the files are unchanged and a later call runs the function again |
| Cache.RaisingCallExample | utils/cache.py:85-91 | a function that always raises runs on both calls, both calls raise its exception, and the cache stays empty |
| Cache.NoneNeverServed | utils/cache.py:87-91 | under either key, a returned None is stored but never served: the next call runs the function again |
| Cache.OtherArgumentsUnaffected | utils/cache.py:78-92 | with the length-prefixed key only, a call with different positional arguments neither sees nor disturbs another call's entry |
| Cache.KeyIgnoresKeywordOrder | utils/cache.py:73-82 | under either key, the skip flag and the key do not depend on the order the keyword arguments were written in |
| Cache.ReorderedCallServed | utils/cache.py:80-88 | under either key, a call whose keyword arguments are an earlier call's in another order is served the earlier result within the time to live of its write, whatever the function would return for the new order |
| Cache.StepIgnoresKeywordOrder | utils/cache.py:73-90 | under either key, for a function that reads its keyword arguments only by name, their order changes nothing about a call |
| Cache.KeywordOrderExample | utils/cache.py:71-92 | `def f(**kw): return list(kw)` cached: f(a=1, b=2) stores ["a", "b"], and f(b=2, a=1) is then served ["a", "b"] although f itself returns ["b", "a"] for it |
| Cache.DoublingExample | utils/cache.py:71-92 | under either key, a doubling function whose first call takes three seconds, called with 2, with 2 again twelve seconds after the first began (nine after its result was stored) and with 3, runs, is served from the cache, then runs |

## Left out

- Data sources (yfinance download, CSV reading), the matplotlib visualizer, logging and the command-line entry point are I/O. Fetch and render are outcome parameters of the engine. The factory's data-source choice returns a tag, not an instance.
- The built-in registrations of SMA, EMA and RSI happen when their modules are imported. The registries here start empty and are filled by explicit calls.
- `register_strategy`, `Strategy`, `Signal` and `SignalType` are imported by strategies/sma_crossover.py but defined in none of the files of the core. `Signal` and `SignalType` are declared locally. The strategy registration is not part of this model.
- md5 hashing of the key and pickle serialisation are left out. The key string names the file, and values are stored as they are. Only EOFError and UnpicklingError on loading are modelled (as an unreadable payload). Other loading errors would propagate.
- IEEE-754 rounding is not modelled. Prices are exact reals, a frame's columns contain no NaN, and NaN results are `None`.
- MovingAverages.SimpleMovingAverage.Calculate: a zero window is modelled as all-undefined, and a non-integer period is not modelled (periods are `int`; pandas `rolling` rejects a float window).
- MovingAverages.ExponentialMovingAverage.Calculate: a non-integer period is not modelled (periods are `int`), although pandas `ewm` accepts a float span such as 2.5.
- Oscillators.RelativeStrengthIndex.Calculate: a zero window is modelled as all-undefined, like the SMA, and a non-integer period is not modelled (periods are `int`; `rolling` rejects a float window).
- SmaCrossover.SmaCrossoverStrategy.GenerateSignals: when both named series are present and the frame has two or more rows, it requires each series to hold at least one value per row and the frame to have a Close column. On those excluded inputs the source raises an IndexError or a KeyError from pandas, and those failures are not modelled. With a series missing, or with fewer than two rows, nothing is required.
- Config.Show renders lists, dicts and floats only as a placeholder. Messages that embed such values (an unsupported data-source type, a non-string plugin name) are therefore not modelled character for character.
- Exception messages of collaborators are opaque strings. `str(e)` of a KeyError (which Python quotes) is not distinguished from other messages.
- Cache.OtherArgumentsUnaffected: holds for the length-prefixed key only. Under the source's "|"-joined key a call can be served another call's result (Cache.CollidingCallServed, see Findings).
- Under either key, two calls whose arguments have the same `str()` (1 and "1") share a key, as in the source: arguments are keyed by their text.
- Cache.TTLCache.constructor: creating the cache directory is left out. The Directory object stands for it and is shared by every TTLCache opened on it.
- The engine has no strategy stage, and the factory has no `create_strategy`. Neither exists in the modelled source.

## Findings

| source | as written | input that shows it | evidently intended | confidence | as-written member | corrected member |
|---|---|---|---|---|---|---|
| utils/cache.py:78-82 | the cache key joins the module, qualified name, `str(arg)` of each positional argument and `k=v` of each sorted keyword argument with "\|" | `f("a\|b")` and `f("a", "b")` both give `m\|f\|a\|b`; `f("x=1")` and `f(x=1)` both give `m\|f\|x=1`, so the second call is served the first call's result | a key unique to each call, as the comment at line 77 says | medium, not executed | Cache.CollidingCallServed | Cache.CallKeyInjective |
