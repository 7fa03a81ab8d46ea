/**
 * The decoded body of a successful response (what `response.json()` yields),
 * and Python's truth value of it, which decides whether a cached result counts.
 */
module Json {

  /** A decoded JSON document; objects keep their members in order, as Python dicts do. */
  datatype Value =
    | Null
    | Bool(b: bool)
    | Number(n: int)
    | String(s: string)
    | Array(items: seq<Value>)
    | Object(members: seq<(string, Value)>)

  /** Python's `bool(v)`: None, False, 0 and empty strings, lists and dicts are false. */
  predicate Truthy(v: Value)
  {
    match v
    case Null => false
    case Bool(b) => b
    case Number(n) => n != 0
    case String(s) => s != ""
    case Array(items) => items != []
    case Object(members) => members != []
  }

  /** Exactly six values are false: null, false, 0, "", [] and {}. */
  lemma FalsyValues(v: Value)
    ensures !Truthy(v) <==> v in {Null, Bool(false), Number(0), String(""), Array([]), Object([])}
  {
  }
}
