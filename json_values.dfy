/** Parsed JSON values as the telemetry function receives them from `json.loads`,
    together with the two pieces of Python semantics the normaliser relies on:
    `dict.get` (a missing key reads as `None`) and comparing a value with an
    integer, either with `==` or as a dictionary key. */
module JsonValues {

  datatype Option<+T> = None | Some(value: T)

  datatype Result<+T, +E> = Ok(value: T) | Err(error: E)

  /** A JSON value after parsing. Python's parser yields `int` for a number
      written without fraction or exponent and `float` for one written with
      either, so a `JFloat` may be integral (`1.0`, `1e2`); floats are modelled
      as exact reals. Objects keep the last value of a repeated key, as
      Python's parser does. */
  datatype Json =
    | JNull
    | JBool(b: bool)
    | JInt(i: int)
    | JFloat(r: real)
    | JString(s: string)
    | JArray(items: seq<Json>)
    | JObject(fields: map<string, Json>)

  /** `fields.get(key)`: the value stored under `key`, or `None` (JSON null)
      when the key is missing. A missing key and a key bound to null read alike. */
  function Get(fields: map<string, Json>, key: string): Json
  {
    if key in fields then fields[key] else JNull
  }

  /** Python's `v == k` for a parsed JSON value `v` and an integer `k`:
      ints compare by value, a float equals `k` when it is exactly `k`,
      and `True`/`False` equal 1/0. Strings, null, lists and dicts never equal an int. */
  predicate PyEqualsInt(v: Json, k: int) {
    match v
    case JInt(i) => i == k
    case JFloat(r) => r == k as real
    case JBool(b) => k == (if b then 1 else 0)
    case _ => false
  }

  /** The integer a value stands for as a dictionary key: the one integer it
      compares equal to, if any. A dictionary with integer keys finds `v`
      under key `k` exactly when `CodeOf(v) == Some(k)`. */
  function CodeOf(v: Json): (c: Option<int>)
    ensures forall k :: PyEqualsInt(v, k) <==> c == Some(k)
  {
    match v
    case JInt(i) => Some(i)
    case JFloat(r) => if r == r.Floor as real then Some(r.Floor) else None
    case JBool(b) => Some(if b then 1 else 0)
    case _ => None
  }

  /** Values Python can use as a dictionary key; lists and dicts raise
      `TypeError: unhashable type` on lookup. */
  predicate Hashable(v: Json) {
    !v.JArray? && !v.JObject?
  }
}
