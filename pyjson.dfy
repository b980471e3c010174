/** Parsed JSON values as Python's `json` module hands them over (dicts, lists,
    strings, numbers, booleans and None), together with the two pieces of Python
    semantics the client relies on when it reads a response: subscripting
    (`x[key]`, `x[0]`) with the exception it raises, and truthiness (`if not x`). */
module PyJson {

  /** A decoded JSON document. Numbers, integral or not, are kept as reals. */
  datatype Json =
    | Null
    | Bool(b: bool)
    | Number(n: real)
    | String(s: string)
    | Array(items: seq<Json>)
    | Object(fields: map<string, Json>)

  /** The built-in exceptions a failed subscript raises in Python. */
  datatype PyError = KeyError | IndexError | TypeError

  /** The outcome of one subscript: the value found, or the exception raised.
      `Item` and `First` chain further subscripts; the first exception wins,
      as it does when Python evaluates `x[a][b][0][c]` left to right. */
  datatype Subscript = Found(value: Json) | Raised(error: PyError) {

    /** `this[key]` with a string key. */
    function Item(key: string): Subscript {
      match this
      case Found(v) => GetItem(v, key)
      case Raised(_) => this
    }

    /** `this[0]`. */
    function First(): Subscript {
      match this
      case Found(v) => GetFirst(v)
      case Raised(_) => this
    }
  }

  /** Python's `bool(x)`: `None`, `False`, zero, `""`, `[]` and `{}` are falsy. */
  predicate Truthy(j: Json)
    ensures !Truthy(j) <==> j in {Null, Bool(false), Number(0.0), String(""), Array([]), Object(map[])}
  {
    match j
    case Null => false
    case Bool(b) => b
    case Number(n) => n != 0.0
    case String(s) => s != ""
    case Array(items) => items != []
    case Object(fields) => fields != map[]
  }

  /** `j[key]` for a string key: only a dict can be indexed by a string; a
      missing key raises KeyError, any other kind of value raises TypeError. */
  function GetItem(j: Json, key: string): (r: Subscript)
    ensures r.Found? <==> j.Object? && key in j.fields
    ensures r.Found? ==> r.value == j.fields[key]
    ensures r == Raised(KeyError) <==> j.Object? && key !in j.fields
  {
    match j
    case Object(fields) => if key in fields then Found(fields[key]) else Raised(KeyError)
    case _ => Raised(TypeError)
  }

  /** `j[0]`: the first element of a list, the first character of a string
      (itself a string); an empty one raises IndexError. A decoded dict has
      only string keys, so `d[0]` raises KeyError. Scalars raise TypeError. */
  function GetFirst(j: Json): (r: Subscript)
    ensures j.Array? && j.items != [] ==> r == Found(j.items[0])
    ensures r == Raised(IndexError) <==> j == Array([]) || j == String("")
  {
    match j
    case Array(items) => if items == [] then Raised(IndexError) else Found(items[0])
    case String(s) => if s == "" then Raised(IndexError) else Found(String(s[..1]))
    case Object(_) => Raised(KeyError)
    case _ => Raised(TypeError)
  }
}
