/** core/factory.py: ComponentFactory builds the fetch configuration, the
    data source, the indicators and the visualizer from the configuration
    mapping. A registered class is a ClassRef; calling it with keyword
    arguments is the `construct` parameter, which returns the instance or
    the exception the class's `__init__` raises. */
module Factory {
  import opened Wrappers
  import opened Exceptions
  import opened Config
  import opened Models
  import opened Decorators

  /** The two data sources the factory knows by a hard-coded type name. */
  datatype DataSourceKind = YFinanceDataSource | CsvDataSource

  /** The two registries the factory instantiates from. */
  datatype Plugin = IndicatorPlugin | VisualizerPlugin
  {
    function Title(): string { if IndicatorPlugin? then "Indicator" else "Visualizer" }
    function Lower(): string { if IndicatorPlugin? then "indicator" else "visualizer" }
  }

  /** A factory that passed validation; it keeps the configuration as given. */
  datatype ComponentFactory = ComponentFactory(config: map<string, Value>)

  function MissingSection(section: string): Exc {
    Exc(ConfigurationError, "Missing required configuration section: '" + section + "'")
  }

  /** The first of `sections`, in order, that the configuration lacks. */
  function FirstMissing(config: map<string, Value>, sections: seq<string>): (r: Option<string>)
    ensures r.None? <==> forall j :: 0 <= j < |sections| ==> sections[j] in config
    ensures r.Some? ==> r.value in sections && r.value !in config
    ensures |sections| > 0 && sections[0] !in config ==> r == Some(sections[0])
  {
    if sections == [] then None
    else if sections[0] !in config then Some(sections[0])
    else FirstMissing(config, sections[1..])
  }

  /** `ComponentFactory(config)`: `_validate_config` checks the sections
      data_source, indicators, visualizer in that order and names the first
      one missing. */
  function NewComponentFactory(config: map<string, Value>): (r: Result<ComponentFactory, Exc>)
    ensures r.Ok? <==> "data_source" in config && "indicators" in config && "visualizer" in config
    ensures r.Ok? ==> r.value.config == config
    ensures "data_source" !in config ==> r == Err(MissingSection("data_source"))
    ensures "data_source" in config && "indicators" !in config ==> r == Err(MissingSection("indicators"))
    ensures "data_source" in config && "indicators" in config && "visualizer" !in config ==>
      r == Err(MissingSection("visualizer"))
  {
    var sections := ["data_source", "indicators", "visualizer"];
    var missing := FirstMissing(config, sections);
    assert missing.None? ==> sections[0] in config && sections[1] in config && sections[2] in config;
    if missing.Some? then Err(MissingSection(missing.value)) else Ok(ComponentFactory(config))
  }

  /** `self.config.get(section, default)`. */
  function Section(f: ComponentFactory, section: string, default: Value): Value {
    Get(f.config, section, default)
  }

  /** `create_fetch_config`: the ticker is required; interval defaults to
      "1d" and the dates to None. A data_source section that is not a
      mapping never yields a configuration. */
  function CreateFetchConfig(f: ComponentFactory): (r: Result<DataFetchConfig, Exc>)
    ensures var ds := Section(f, "data_source", Dict(map[]));
      && (r.Ok? <==> ds.Dict? && "ticker" in ds.entries)
      && (ds.Dict? && "ticker" !in ds.entries ==>
            r == Err(Exc(ConfigurationError, "Data source configuration missing 'ticker'.")))
      && (r.Ok? ==>
            && r.value.ticker == ds.entries["ticker"]
            && r.value.interval == Get(ds.entries, "interval", Str("1d"))
            && r.value.startDate == Get(ds.entries, "start_date")
            && r.value.endDate == Get(ds.entries, "end_date"))
  {
    var ds := Section(f, "data_source", Dict(map[]));
    match Contains(ds, "ticker")
    case Err(e) => Err(e)
    case Ok(present) =>
      if !present then Err(Exc(ConfigurationError, "Data source configuration missing 'ticker'."))
      else
        match Subscript(ds, "ticker")
        case Err(e) => Err(e)
        case Ok(ticker) =>
          Ok(DataFetchConfig(
            ticker := ticker,
            interval := Get(ds.entries, "interval", Str("1d")),
            startDate := Get(ds.entries, "start_date"),
            endDate := Get(ds.entries, "end_date")))
  }

  /** `create_data_source`: a missing or falsy type is a ConfigurationError,
      "yfinance" and "csv" select their source, any other type is a
      FactoryError. The registry is not consulted. */
  function CreateDataSource(f: ComponentFactory): (r: Result<DataSourceKind, Exc>)
    ensures var ds := Section(f, "data_source", Dict(map[]));
      && (!ds.Dict? ==> r.Err? && r.error.kind == AttributeError)
      && (ds.Dict? ==>
            var t := Get(ds.entries, "type");
            && (r == Ok(YFinanceDataSource) <==> t == Str("yfinance"))
            && (r == Ok(CsvDataSource) <==> t == Str("csv"))
            && (!Truthy(t) ==> r == Err(Exc(ConfigurationError, "Data source type not specified.")))
            && (Truthy(t) && t != Str("yfinance") && t != Str("csv") ==>
                  r.Err? && r.error.kind == FactoryError))
  {
    var ds := Section(f, "data_source", Dict(map[]));
    match GetAttr(ds, "type")
    case Err(e) => Err(e)
    case Ok(t) =>
      if !Truthy(t) then Err(Exc(ConfigurationError, "Data source type not specified."))
      else if t == Str("yfinance") then Ok(YFinanceDataSource)
      else if t == Str("csv") then Ok(CsvDataSource)
      else Err(Exc(FactoryError, "Unsupported data source type: '" + Show(t) + "'"))
  }

  /** `{k: v for k, v in conf.items() if k != 'name'}`. */
  function Params(conf: map<string, Value>): (p: map<string, Value>)
    ensures "name" !in p
    ensures forall k :: k != "name" ==> (k in p <==> k in conf)
    ensures forall k :: k in p ==> p[k] == conf[k]
  {
    conf - {"name"}
  }

  /** `get_X_class(name)` for a configured name: a string is looked up, an
      unhashable list or mapping is a TypeError, and any other value cannot
      equal a string key, so it is not found. */
  function ClassOf(plugin: Plugin, name: Value, registry: map<string, ClassRef>): (r: Result<ClassRef, Exc>)
    ensures name.Str? ==> r == Lookup(registry, name.s, plugin.Title())
    ensures r.Err? && !(name.List? || name.Dict?) ==> r.error.kind == KeyError
  {
    match name
    case Str(s) => Lookup(registry, s, plugin.Title())
    case List(_) => Err(Exc(TypeError, "unhashable type: 'list'"))
    case Dict(_) => Err(Exc(TypeError, "unhashable type: 'dict'"))
    case _ => Err(Exc(KeyError, plugin.Title() + " '" + Show(name) + "' not found in registry."))
  }

  function NotRegistered(plugin: Plugin, name: Value): Exc {
    Exc(FactoryError, plugin.Title() + " '" + Show(name) + "' is not registered.")
  }

  /** The factory's `except KeyError` / `except Exception` pair: a KeyError,
      raised by the lookup or by the constructor, reads as "not registered";
      anything else as a failed creation carrying the original message. */
  function Translate(plugin: Plugin, name: Value, e: Exc): (r: Exc)
    ensures r.kind == FactoryError
    ensures (r == NotRegistered(plugin, name)) <==> e.kind == KeyError
    ensures e.kind != KeyError ==>
      && |r.message| >= 16 + |e.message|
      && r.message[..16] == "Failed to create"
      && r.message[|r.message| - |e.message|..] == e.message
  {
    if e.kind == KeyError then NotRegistered(plugin, name)
    else
      var failed := "Failed to create " + plugin.Lower() + " '" + Show(name) + "': " + e.message;
      assert failed[0] == 'F' && NotRegistered(plugin, name).message[0] != 'F';
      Exc(FactoryError, failed)
  }

  /** Look up the class registered under `name` and call it with `params`. */
  function Instantiate<I>(plugin: Plugin, name: Value, params: map<string, Value>,
                          registry: map<string, ClassRef>,
                          construct: (ClassRef, map<string, Value>) -> Result<I, Exc>): (r: Result<I, Exc>)
    ensures r.Err? ==> r.error.kind == FactoryError
    ensures name.Str? && name.s !in registry ==> r == Err(NotRegistered(plugin, name))
    ensures name.Str? && name.s in registry ==>
      var made := construct(registry[name.s], params);
      (r.Ok? <==> made.Ok?) && (r.Ok? ==> r.value == made.value)
    ensures name.Str? && name.s in registry && construct(registry[name.s], params).Err? ==>
      r == Err(Translate(plugin, name, construct(registry[name.s], params).error))
    ensures r.Ok? ==> name.Str? && name.s in registry
  {
    match ClassOf(plugin, name, registry)
    case Err(e) => Err(Translate(plugin, name, e))
    case Ok(cls) =>
      match construct(cls, params)
      case Err(e) => Err(Translate(plugin, name, e))
      case Ok(x) => Ok(x)
  }

  /** One pass of the `create_indicators` loop: an entry whose name is
      missing or falsy is skipped; an entry that is not a mapping raises
      AttributeError outside the try block, so it is not translated. */
  function IndicatorStep<I>(entry: Value, registry: map<string, ClassRef>,
                            construct: (ClassRef, map<string, Value>) -> Result<I, Exc>): (r: Result<Option<I>, Exc>)
  {
    match GetAttr(entry, "name")
    case Err(e) => Err(e)
    case Ok(name) =>
      if !Truthy(name) then Ok(None)
      else
        match Instantiate(IndicatorPlugin, name, Params(entry.entries), registry, construct)
        case Err(e) => Err(e)
        case Ok(x) => Ok(Some(x))
  }

  /** The list `create_indicators` builds from `entries`: stops at the first
      failing entry. */
  function BuildIndicators<I>(entries: seq<Value>, registry: map<string, ClassRef>,
                              construct: (ClassRef, map<string, Value>) -> Result<I, Exc>): (r: Result<seq<I>, Exc>)
  {
    if entries == [] then Ok([])
    else
      match BuildIndicators(entries[..|entries| - 1], registry, construct)
      case Err(e) => Err(e)
      case Ok(xs) =>
        match IndicatorStep(entries[|entries| - 1], registry, construct)
        case Err(e) => Err(e)
        case Ok(None) => Ok(xs)
        case Ok(Some(x)) => Ok(xs + [x])
  }

  /** The entries the loop turns into indicators: mappings with a truthy name. */
  function NamedEntries(entries: seq<Value>): (named: seq<Value>)
    ensures |named| <= |entries|
    ensures forall j :: 0 <= j < |named| ==> named[j].Dict? && Truthy(Get(named[j].entries, "name"))
  {
    if entries == [] then []
    else
      var last := entries[|entries| - 1];
      NamedEntries(entries[..|entries| - 1]) +
        (if last.Dict? && Truthy(Get(last.entries, "name")) then [last] else [])
  }

  /** A successful build constructs exactly the named entries, in
      configuration order, each from its own parameters without "name". */
  lemma {:induction false} BuildIndicatorsOk<I>(entries: seq<Value>, registry: map<string, ClassRef>,
                                                construct: (ClassRef, map<string, Value>) -> Result<I, Exc>)
    requires BuildIndicators(entries, registry, construct).Ok?
    ensures var xs, named := BuildIndicators(entries, registry, construct).value, NamedEntries(entries);
      && (forall j :: 0 <= j < |entries| ==> entries[j].Dict?)
      && |xs| == |named| <= |entries|
      && forall j :: 0 <= j < |xs| ==>
           var made := Instantiate(IndicatorPlugin, Get(named[j].entries, "name"), Params(named[j].entries), registry, construct);
           made.Ok? && xs[j] == made.value
  {
    if entries != [] {
      var front := entries[..|entries| - 1];
      BuildIndicatorsOk(front, registry, construct);
      assert forall j :: 0 <= j < |front| ==> entries[j] == front[j];
    }
  }

  /** The converse: when every entry is a mapping and every named entry
      instantiates, the whole list is built. */
  lemma {:induction false} BuildIndicatorsSucceeds<I>(entries: seq<Value>, registry: map<string, ClassRef>,
                                                      construct: (ClassRef, map<string, Value>) -> Result<I, Exc>)
    requires forall j :: 0 <= j < |entries| ==> entries[j].Dict?
    requires forall j :: 0 <= j < |entries| && Truthy(Get(entries[j].entries, "name")) ==>
      Instantiate(IndicatorPlugin, Get(entries[j].entries, "name"), Params(entries[j].entries), registry, construct).Ok?
    ensures BuildIndicators(entries, registry, construct).Ok?
  {
    if entries != [] {
      var front := entries[..|entries| - 1];
      assert forall j :: 0 <= j < |front| ==> front[j] == entries[j];
      BuildIndicatorsSucceeds(front, registry, construct);
    }
  }

  /** A failure in a prefix of the entries is the failure of the whole list:
      later entries are never looked at. */
  lemma {:induction false} BuildIndicatorsStops<I>(entries: seq<Value>, k: nat, registry: map<string, ClassRef>,
                                                   construct: (ClassRef, map<string, Value>) -> Result<I, Exc>)
    requires k <= |entries| && BuildIndicators(entries[..k], registry, construct).Err?
    ensures BuildIndicators(entries, registry, construct) == BuildIndicators(entries[..k], registry, construct)
  {
    if k < |entries| {
      assert entries[..|entries| - 1][..k] == entries[..k];
      BuildIndicatorsStops(entries[..|entries| - 1], k, registry, construct);
    } else {
      assert entries[..k] == entries;
    }
  }

  /** The first entry naming an unregistered indicator makes the whole call
      fail with "Indicator '<name>' is not registered.". */
  lemma UnregisteredIndicator<I>(entries: seq<Value>, k: nat, registry: map<string, ClassRef>,
                                 construct: (ClassRef, map<string, Value>) -> Result<I, Exc>)
    requires k < |entries| && BuildIndicators(entries[..k], registry, construct).Ok?
    requires entries[k].Dict? && "name" in entries[k].entries
    requires var name := entries[k].entries["name"]; name.Str? && name.s != "" && name.s !in registry
    ensures BuildIndicators(entries, registry, construct) ==
      Err(NotRegistered(IndicatorPlugin, entries[k].entries["name"]))
  {
    assert entries[..k + 1][..k] == entries[..k];
    BuildIndicatorsStops(entries, k + 1, registry, construct);
  }

  /** `create_indicators`: walks the configured list in order, skipping the
      unnamed entries and appending one instance per named entry. */
  method CreateIndicators<I>(f: ComponentFactory, registry: map<string, ClassRef>,
                             construct: (ClassRef, map<string, Value>) -> Result<I, Exc>)
    returns (r: Result<seq<I>, Exc>)
    ensures var listed := Iterate(Section(f, "indicators", List([])));
      && (listed.Err? ==> r == Err(listed.error))
      && (listed.Ok? ==> r == BuildIndicators(listed.value, registry, construct))
  {
    var listed := Iterate(Section(f, "indicators", List([])));
    if listed.Err? {
      return Err(listed.error);
    }
    var entries := listed.value;
    var indicators: seq<I> := [];
    for i := 0 to |entries|
      invariant BuildIndicators(entries[..i], registry, construct) == Ok(indicators)
    {
      assert entries[..i + 1][..i] == entries[..i];
      var entry := entries[i];
      var got := GetAttr(entry, "name");
      if got.Err? {
        BuildIndicatorsStops(entries, i + 1, registry, construct);
        return Err(got.error);
      }
      var name := got.value;
      if !Truthy(name) {
        continue;
      }
      var made := Instantiate(IndicatorPlugin, name, Params(entry.entries), registry, construct);
      if made.Err? {
        BuildIndicatorsStops(entries, i + 1, registry, construct);
        return Err(made.error);
      }
      indicators := indicators + [made.value];
    }
    assert entries[..|entries|] == entries;
    r := Ok(indicators);
  }

  /** `create_visualizer`: the name is required (ConfigurationError), must be
      registered (FactoryError), and the class is called with the section's
      other keys. */
  function CreateVisualizer<V>(f: ComponentFactory, registry: map<string, ClassRef>,
                               construct: (ClassRef, map<string, Value>) -> Result<V, Exc>): (r: Result<V, Exc>)
    ensures var vis := Section(f, "visualizer", Dict(map[]));
      && (!vis.Dict? ==> r.Err? && r.error.kind == AttributeError)
      && (vis.Dict? ==>
            var name := Get(vis.entries, "name");
            && (!Truthy(name) ==> r == Err(Exc(ConfigurationError, "Visualizer name not specified.")))
            && (name.Str? && name.s != "" && name.s !in registry ==> r == Err(NotRegistered(VisualizerPlugin, name)))
            && (name.Str? && name.s != "" && name.s in registry ==>
                  var made := construct(registry[name.s], Params(vis.entries));
                  r == (if made.Ok? then made else Err(Translate(VisualizerPlugin, name, made.error))))
            && (r.Ok? ==>
                  name.Str? && name.s in registry && r == construct(registry[name.s], Params(vis.entries)))
            && (r.Err? ==> r.error.kind in {ConfigurationError, FactoryError}))
  {
    var vis := Section(f, "visualizer", Dict(map[]));
    match GetAttr(vis, "name")
    case Err(e) => Err(e)
    case Ok(name) =>
      if !Truthy(name) then Err(Exc(ConfigurationError, "Visualizer name not specified."))
      else Instantiate(VisualizerPlugin, name, Params(vis.entries), registry, construct)
  }
}
