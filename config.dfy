/** Configuration values as the YAML loader hands them to the factory. */
module Config {
  import opened Wrappers
  import opened Exceptions
  import opened Format

  datatype Value =
    | Null
    | Bool(b: bool)
    | Int(i: int)
    | Real(r: real)
    | Str(s: string)
    | List(items: seq<Value>)
    | Dict(entries: map<string, Value>)

  /** Python truthiness: `not v` holds exactly for the falsy values. */
  predicate Truthy(v: Value) {
    match v
    case Null => false
    case Bool(b) => b
    case Int(i) => i != 0
    case Real(r) => r != 0.0
    case Str(s) => s != ""
    case List(items) => items != []
    case Dict(entries) => entries != map[]
  }

  /** `dict.get(key, default)`. */
  function Get(m: map<string, Value>, key: string, default: Value := Null): (v: Value)
    ensures key in m ==> v == m[key]
    ensures key !in m ==> v == default
  {
    if key in m then m[key] else default
  }

  /** `str(v)` inside an error message, for the scalar values a name can hold. */
  function Show(v: Value): string {
    match v
    case Null => "None"
    case Bool(b) => if b then "True" else "False"
    case Int(i) => IntToString(i)
    case Str(s) => s
    case _ => "<value>"
  }

  /** `type(v).__name__`. */
  function TypeName(v: Value): string {
    match v
    case Null => "NoneType"
    case Bool(_) => "bool"
    case Int(_) => "int"
    case Real(_) => "float"
    case Str(_) => "str"
    case List(_) => "list"
    case Dict(_) => "dict"
  }

  predicate OccursAt(key: string, s: string, i: int) {
    0 <= i && i + |key| <= |s| && s[i .. i + |key|] == key
  }

  /** `key` occurs in `s` as a contiguous substring. */
  predicate IsSubstring(key: string, s: string) {
    exists i | 0 <= i <= |s| - |key| :: OccursAt(key, s, i)
  }

  /** `key in v` for a string key: a dictionary tests its keys, a string its
      substrings, a list its elements; anything else is not iterable. */
  function Contains(v: Value, key: string): (r: Result<bool, Exc>)
    ensures v.Dict? ==> r == Ok(key in v.entries)
    ensures r.Err? <==> !(v.Dict? || v.Str? || v.List?)
  {
    match v
    case Dict(m) => Ok(key in m)
    case Str(s) => Ok(IsSubstring(key, s))
    case List(items) => Ok(Str(key) in items)
    case _ => Err(Exc(TypeError, "argument of type '" + TypeName(v) + "' is not iterable"))
  }

  /** `v.get(key, default)`: only a dictionary has `get`. */
  function GetAttr(v: Value, key: string, default: Value := Null): (r: Result<Value, Exc>)
    ensures v.Dict? ==> r == Ok(Get(v.entries, key, default))
    ensures !v.Dict? ==> r.Err? && r.error.kind == AttributeError
  {
    if v.Dict? then Ok(Get(v.entries, key, default))
    else Err(Exc(AttributeError, "'" + TypeName(v) + "' object has no attribute 'get'"))
  }

  /** `v[key]` for a string key: KeyError on a dictionary without it,
      TypeError on anything that is not a dictionary. */
  function Subscript(v: Value, key: string): (r: Result<Value, Exc>)
    ensures r.Ok? <==> v.Dict? && key in v.entries
    ensures r.Ok? ==> r.value == v.entries[key]
  {
    match v
    case Dict(m) => if key in m then Ok(m[key]) else Err(Exc(KeyError, "'" + key + "'"))
    case _ => Err(Exc(TypeError, "'" + TypeName(v) + "' object is not subscriptable by a string"))
  }

  /** The elements a `for` loop over `v` visits before the first `.get` on
      one of them. A list yields its items; an empty string or dictionary
      yields nothing; a non-empty one yields strings, on which `.get` raises
      AttributeError; a scalar is not iterable. */
  function Iterate(v: Value): (r: Result<seq<Value>, Exc>)
    ensures v.List? ==> r == Ok(v.items)
    ensures r.Ok? && !v.List? ==> r.value == []
  {
    match v
    case List(items) => Ok(items)
    case Str(s) => if s == "" then Ok([]) else Err(Exc(AttributeError, "'str' object has no attribute 'get'"))
    case Dict(m) => if m == map[] then Ok([]) else Err(Exc(AttributeError, "'str' object has no attribute 'get'"))
    case _ => Err(Exc(TypeError, "'" + TypeName(v) + "' object is not iterable"))
  }
}
