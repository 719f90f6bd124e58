/** The JSON scalars the settings cache can hold, with the Python
    semantics the session code applies to them: truthiness (`bool(v)`,
    `if v:`) and `dict.get`, which reads a JSON `null` as `None`. */
module Values {
  import opened Wrappers

  datatype Scalar = SInt(i: int) | SBool(b: bool) | SStr(s: string) | SNull

  /** Python truthiness of a scalar. */
  predicate Truthy(v: Scalar) {
    match v
    case SInt(i) => i != 0
    case SBool(b) => b
    case SStr(s) => s != ""
    case SNull => false
  }

  /** A JSON object as Python sees it after `json.load`. */
  type Dict = map<string, Scalar>

  /** `d.get(key)`: absent keys and JSON `null` both come back as `None`. */
  function Get(d: Dict, key: string): (r: Option<Scalar>)
    ensures r.Some? <==> key in d && d[key] != SNull
    ensures r.Some? ==> r.value == d[key]
  {
    if key in d && d[key] != SNull then Some(d[key]) else None
  }

  /** The process environment: `os.getenv(name)` is `Lookup(env, name)`. */
  type Env = map<string, string>

  function Lookup(env: Env, name: string): (r: Option<string>)
    ensures r.Some? <==> name in env
    ensures r.Some? ==> r.value == env[name]
  {
    if name in env then Some(env[name]) else None
  }

  /** `if os.getenv(name):` is true exactly when the variable is set and non-empty. */
  predicate EnvTruthy(env: Env, name: string) {
    name in env && env[name] != ""
  }

  /** Python truthiness of an optional string: present and non-empty. */
  function NonEmpty(o: Option<string>): (r: Option<string>)
    ensures r.Some? <==> o.Some? && o.value != ""
    ensures r.Some? ==> r == o
  {
    if o.Some? && o.value != "" then o else None
  }
}
