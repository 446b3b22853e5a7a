/** JSON-like values as they travel over the socket channel and through the REST API. */
module Values {

  datatype Option<+T> = None | Some(value: T)

  /** A deserialised JSON value. Numbers are modelled as integers. */
  datatype Json =
    | Null
    | Bool(b: bool)
    | Num(n: int)
    | Str(s: string)
    | Arr(items: seq<Json>)
    | Obj(fields: map<string, Json>)

  /** An event payload: a JSON object. A key that is absent stands for `undefined`. */
  type Payload = map<string, Json>

  /** JavaScript truthiness of a JSON value. */
  predicate Truthy(j: Json)
  {
    match j
    case Null => false
    case Bool(b) => b
    case Num(n) => n != 0
    case Str(s) => s != ""
    case Arr(_) => true
    case Obj(_) => true
  }

  /** Truthiness of a value that may be `undefined` (None). */
  predicate TruthyOpt(o: Option<Json>)
  {
    o.Some? && Truthy(o.value)
  }

  /** `data.key`: the field's value, or None for `undefined`. */
  function Field(data: Payload, key: string): (r: Option<Json>)
    ensures r.Some? <==> key in data
    ensures r.Some? ==> r.value == data[key]
  {
    if key in data then Some(data[key]) else None
  }

  /** `{a: data.a, b: data.b, ...}`: the fields of `data` named in `keys`, copied unchanged. */
  function Project(data: Payload, keys: set<string>): (r: Payload)
    ensures r.Keys == data.Keys * keys
    ensures forall k :: k in r ==> r[k] == data[k]
  {
    map k | k in data && k in keys :: data[k]
  }
}
