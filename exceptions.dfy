/** The engine's exception taxonomy (core/exceptions.py) together with the
    Python built-in exceptions the core raises or catches. */
module Exceptions {

  datatype ExcKind =
    // core/exceptions.py: TradingEngineError and its five subclasses
    | TradingEngineError
    | DataFetchError
    | IndicatorCalculationError
    | VisualizationError
    | ConfigurationError
    | FactoryError
    // Python built-ins that the core raises or catches by name
    | KeyError
    | TypeError
    | AttributeError
    // any other exception a collaborator raises
    | OtherError

  /** `isinstance(e, TradingEngineError)`: the six kinds of core/exceptions.py. */
  predicate IsEngineError(k: ExcKind) {
    k in {TradingEngineError, DataFetchError, IndicatorCalculationError,
          VisualizationError, ConfigurationError, FactoryError}
  }

  /** A raised exception: its class and its message (`str(e)`). */
  datatype Exc = Exc(kind: ExcKind, message: string)
}
