/** JSON values as the collectors receive them from their HTTP clients, and the
    handful of Python dictionary operations the collectors apply to them
    (`d.get(k)`, `d.get(k, default)`, `d[k]`, `xs[0]`, iteration, truthiness).
    Every Python exception these operations can raise becomes an `Err`. */
module Json {

  /** A decoded JSON document. Numbers are kept as reals; `Null` is Python's `None`. */
  datatype Json =
    | Null
    | Bool(b: bool)
    | Num(n: real)
    | Str(s: string)
    | Arr(items: seq<Json>)
    | Obj(fields: map<string, Json>)

  /** A decoded JSON object, as returned by `response.json()` for an object body. */
  type Object = map<string, Json>

  /** The Python exceptions the modelled code can raise. */
  datatype Error =
    | KeyError(key: string)
    | IndexError
    | TypeError
    | AttributeError
    | RequestFailed(status: int)

  datatype Result<T> = Ok(value: T) | Err(error: Error) {
    predicate IsFailure() { Err? }
    function PropagateFailure<U>(): Result<U> requires Err? { Err(error) }
    function Extract(): T requires Ok? { value }
  }

  /** `o.get(key, default)` on a dictionary. */
  function GetOr(o: Object, key: string, default: Json): (r: Json)
    ensures key in o ==> r == o[key]
    ensures key !in o ==> r == default
  {
    if key in o then o[key] else default
  }

  /** `o.get(key)` on a dictionary: `None` when the key is absent. */
  function Get(o: Object, key: string): (r: Json)
    ensures key !in o ==> r == Null
  {
    GetOr(o, key, Null)
  }

  /** `x.get(key, default)` on an arbitrary value: only dictionaries have `get`. */
  function GetOf(x: Json, key: string, default: Json): (r: Result<Json>)
    ensures r.Ok? <==> x.Obj?
    ensures r.Ok? ==> r.value == GetOr(x.fields, key, default)
    ensures r.Err? ==> r.error == AttributeError
  {
    if x.Obj? then Ok(GetOr(x.fields, key, default)) else Err(AttributeError)
  }

  /** `x[key]` with a string key: a `KeyError` on a dictionary without the key,
      a `TypeError` on anything that is not a dictionary. */
  function Field(x: Json, key: string): (r: Result<Json>)
    ensures r.Ok? <==> x.Obj? && key in x.fields
    ensures r.Ok? ==> r.value == x.fields[key]
  {
    match x
    case Obj(fields) => if key in fields then Ok(fields[key]) else Err(KeyError(key))
    case _ => Err(TypeError)
  }

  /** `x[key]` on a decoded top-level object. */
  function Member(o: Object, key: string): (r: Result<Json>)
    ensures r.Ok? <==> key in o
    ensures r.Ok? ==> r.value == o[key]
  {
    Field(Obj(o), key)
  }

  /** `x[i]` with an integer index: lists and strings are indexable, a
      dictionary with string keys has no integer key, the rest is a `TypeError`. */
  function At(x: Json, i: nat): (r: Result<Json>)
    ensures r.Ok? <==> (x.Arr? && i < |x.items|) || (x.Str? && i < |x.s|)
    ensures r.Ok? && x.Arr? ==> r.value == x.items[i]
    ensures r.Ok? && x.Str? ==> r.value == Str([x.s[i]])
  {
    match x
    case Arr(items) => if i < |items| then Ok(items[i]) else Err(IndexError)
    case Str(s) => if i < |s| then Ok(Str([s[i]])) else Err(IndexError)
    case Obj(_) => Err(KeyError(""))
    case _ => Err(TypeError)
  }

  /** The elements a `for` loop visits. Only JSON arrays are iterated here. */
  function Iter(x: Json): (r: Result<seq<Json>>)
    ensures r.Ok? <==> x.Arr?
    ensures r.Ok? ==> r.value == x.items
  {
    if x.Arr? then Ok(x.items) else Err(TypeError)
  }

  /** Python truthiness: `None`, `False`, `0`, `''`, `[]` and `{}` are falsy. */
  predicate Truthy(x: Json) {
    match x
    case Null => false
    case Bool(b) => b
    case Num(n) => n != 0.0
    case Str(s) => s != ""
    case Arr(items) => items != []
    case Obj(fields) => fields != map[]
  }
}
