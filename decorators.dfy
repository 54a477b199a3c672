/** utils/decorators.py: the two plugin registries, name to class. The
    module-level dictionaries are the two map fields of one Registry object. */
module Decorators {
  import opened Wrappers
  import opened Exceptions

  /** A registered Python class, known only by identity. */
  datatype ClassRef = ClassRef(qualname: string)

  /** `registry[name]` behind an explicit membership test: KeyError when absent. */
  function Lookup(registry: map<string, ClassRef>, name: string, what: string): (r: Result<ClassRef, Exc>)
    ensures r.Ok? <==> name in registry
    ensures r.Ok? ==> r.value == registry[name]
    ensures r.Err? ==> r.error.kind == KeyError
  {
    if name !in registry then Err(Exc(KeyError, what + " '" + name + "' not found in registry."))
    else Ok(registry[name])
  }

  /** After registering `cls` under `name`, looking up `name` gives `cls`
      and every other name gives what it gave before. */
  lemma LookupAfterRegister(registry: map<string, ClassRef>, name: string, cls: ClassRef,
                            other: string, what: string)
    ensures Lookup(registry[name := cls], name, what) == Ok(cls)
    ensures other != name ==> Lookup(registry[name := cls], other, what) == Lookup(registry, other, what)
  {
  }

  class Registry {
    /** `_INDICATOR_REGISTRY` */
    var indicators: map<string, ClassRef>
    /** `_VISUALIZER_REGISTRY` */
    var visualizers: map<string, ClassRef>

    /** Both registries start empty when the module is imported. */
    constructor()
      ensures indicators == map[] && visualizers == map[]
    {
      indicators := map[];
      visualizers := map[];
    }

    /** `@register_indicator(name)` applied to `cls`: the last registration
        of a name wins, the visualizer registry is untouched, and the class
        is returned unchanged. */
    method RegisterIndicator(name: string, cls: ClassRef) returns (r: ClassRef)
      modifies this
      ensures indicators == old(indicators)[name := cls]
      ensures visualizers == old(visualizers)
      ensures r == cls
    {
      indicators := indicators[name := cls];
      r := cls;
    }

    /** `@register_visualizer(name)` applied to `cls`. */
    method RegisterVisualizer(name: string, cls: ClassRef) returns (r: ClassRef)
      modifies this
      ensures visualizers == old(visualizers)[name := cls]
      ensures indicators == old(indicators)
      ensures r == cls
    {
      visualizers := visualizers[name := cls];
      r := cls;
    }

    /** `get_indicator_class(name)`: the registered class, or KeyError. */
    method GetIndicatorClass(name: string) returns (r: Result<ClassRef, Exc>)
      ensures r.Ok? <==> name in indicators
      ensures r.Ok? ==> r.value == indicators[name]
      ensures r.Err? ==> r.error.kind == KeyError
    {
      r := Lookup(indicators, name, "Indicator");
    }

    /** `get_visualizer_class(name)`: the registered class, or KeyError. */
    method GetVisualizerClass(name: string) returns (r: Result<ClassRef, Exc>)
      ensures r.Ok? <==> name in visualizers
      ensures r.Ok? ==> r.value == visualizers[name]
      ensures r.Err? ==> r.error.kind == KeyError
    {
      r := Lookup(visualizers, name, "Visualizer");
    }
  }

  /** Registration round trip on one registry object: a registered class is
      found, an overwritten one is replaced, and the other registry keeps
      its contents. */
  method RegistryRoundTrip(reg: Registry, first: ClassRef, second: ClassRef, vis: ClassRef)
    returns (found: Result<ClassRef, Exc>, visFound: Result<ClassRef, Exc>)
    modifies reg
    ensures found == Ok(second)
    ensures visFound == Ok(vis)
    ensures reg.indicators == old(reg.indicators)["X" := second]
    ensures reg.visualizers == old(reg.visualizers)["V" := vis]
  {
    var _ := reg.RegisterVisualizer("V", vis);
    var _ := reg.RegisterIndicator("X", first);
    var _ := reg.RegisterIndicator("X", second);
    found := reg.GetIndicatorClass("X");
    visFound := reg.GetVisualizerClass("V");
  }
}
