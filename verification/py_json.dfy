/**
  JSON documents as Python's `json` module hands them to the gateway, and the
  few Python operations the gateway applies to them: `d.get(k, default)`,
  `x or y` and `v[0]`.  Where Python would raise, the operation returns the
  exception instead.
*/
module PyJson {
  import opened Results

  /**
    A decoded JSON value.  Numbers are kept as reals: the gateway only copies
    them, and the one thing it ever asks of a number is whether it is zero.
  */
  datatype Json =
    | JNull
    | JBool(b: bool)
    | JNum(n: real)
    | JStr(s: string)
    | JArr(items: seq<Json>)
    | JObj(fields: map<string, Json>)

  /** The Python exceptions that reading a payload can raise. */
  datatype PyError =
    | AttributeError   // `.get` on something that is not a dict
    | IndexError       // `[0]` on an empty list or string
    | KeyError         // `[0]` on a dict: JSON keys are strings, never 0
    | TypeError        // `[0]` on None, a bool or a number
    | JSONDecodeError  // `resp.json()` on a body that is not JSON

  const EmptyObject: Json := JObj(map[])

  /** Python's `bool(v)`: None, False, zero and empty containers are false. */
  predicate Truthy(v: Json) {
    match v
    case JNull => false
    case JBool(b) => b
    case JNum(n) => n != 0.0
    case JStr(s) => s != ""
    case JArr(items) => items != []
    case JObj(fields) => fields != map[]
  }

  /** Python's `x or y`: `x` when it is truthy, otherwise `y`. */
  function Or(x: Json, y: Json): (r: Json)
    ensures Truthy(x) ==> r == x
    ensures !Truthy(x) ==> r == y
  {
    if Truthy(x) then x else y
  }

  /**
    Python's `d.get(key, default)`: the default is used only when the key is
    absent, so a key that holds null yields null.  Anything but a dict has no
    `get` method.
  */
  function Get(d: Json, key: string, default: Json): (r: Result<Json, PyError>)
    ensures r.Ok? <==> d.JObj?
    ensures d.JObj? ==> r == Ok(Lookup(d.fields, key, default))
    ensures !d.JObj? ==> r == Err(AttributeError)
  {
    match d
    case JObj(fields) => Ok(Lookup(fields, key, default))
    case _ => Err(AttributeError)
  }

  /** `get` on a value already known to be a dict, which cannot raise. */
  function Lookup(fields: map<string, Json>, key: string, default: Json): (r: Json)
    ensures key in fields ==> r == fields[key]
    ensures key !in fields ==> r == default
  {
    if key in fields then fields[key] else default
  }

  /**
    Python's `v[0]`: the first element of a non-empty list, the first
    character of a non-empty string; every other value raises.
  */
  function First(v: Json): (r: Result<Json, PyError>)
    ensures r.Ok? <==> (v.JArr? && v.items != []) || (v.JStr? && v.s != "")
    ensures v.JArr? && v.items != [] ==> r == Ok(v.items[0])
    ensures v == JArr([]) || v == JStr("") ==> r == Err(IndexError)
  {
    match v
    case JArr(items) => if items == [] then Err(IndexError) else Ok(items[0])
    case JStr(s) => if s == "" then Err(IndexError) else Ok(JStr(s[..1]))
    case JObj(_) => Err(KeyError)
    case _ => Err(TypeError)
  }
}
