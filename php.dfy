/**
 * The handful of PHP value semantics the service provider depends on:
 * the shape of a configuration value, `empty()`, truthiness in an `if`,
 * `getenv` and the `$_SERVER[...] ?? null` lookup.
 */
module Php {

  /** A PHP value as it can appear in the configuration store (floats are not modelled). */
  datatype Value =
    | Null
    | Bool(b: bool)
    | Int(i: int)
    | Str(s: string)
    | Arr(elems: seq<Value>)
    | Other   // an object or any other non-empty, non-string value

  /** PHP's `empty($v)` on a defined variable. */
  function IsEmpty(v: Value): (r: bool)
    ensures r <==> v in {Null, Bool(false), Int(0), Str(""), Str("0"), Arr([])}
  {
    match v
    case Null => true
    case Bool(b) => !b
    case Int(i) => i == 0
    case Str(s) => s == "" || s == "0"
    case Arr(elems) => elems == []
    case Other => false
  }

  /** The boolean a value converts to in `if ($v)`: exactly the values `empty()` rejects are false. */
  function Truthy(v: Value): (r: bool)
    ensures r <==> v !in {Null, Bool(false), Int(0), Str(""), Str("0"), Arr([])}
  {
    !IsEmpty(v)
  }

  /**
   * `getenv($name)`: the variable's string when the process environment defines it,
   * otherwise `false`. PHP's `getenv` never yields `null`.
   */
  function GetEnv(env: map<string, string>, name: string): (r: Value)
    ensures r != Null
    ensures name in env <==> r.Str?
    ensures name in env ==> r == Str(env[name])
    ensures name !in env <==> r == Bool(false)
  {
    if name in env then Str(env[name]) else Bool(false)
  }

  /** `$_SERVER[$name] ?? null`: the entry, or `null` when it is missing. */
  function ServerVar(server: map<string, Value>, name: string): (r: Value)
    ensures name in server ==> r == server[name]
    ensures name !in server ==> r == Null
  {
    if name in server then server[name] else Null
  }
}
