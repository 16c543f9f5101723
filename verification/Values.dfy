/**
 * The small slice of Python's object model that the client library relies on:
 * JSON-like values with Python's truthiness rule, mutable dictionaries, the
 * built-in exceptions the library lets escape, and the library behaviour that
 * is not modelled (str() of a container, json.dumps, json.loads) as oracles.
 */
module Values {

  /** A Python value as it reaches this library: None, a bool, an int, a str,
      a list (tuples too) or a dict with string keys. */
  datatype Value =
    | Null
    | Bool(b: bool)
    | Int(i: int)
    | Str(s: string)
    | List(items: seq<Value>)
    | Object(fields: map<string, Value>)

  /** Python's `bool(v)`: None, False, 0, "", [] and {} are falsy, everything else is truthy. */
  predicate Truthy(v: Value) {
    match v
    case Null => false
    case Bool(b) => b
    case Int(i) => i != 0
    case Str(s) => s != []
    case List(items) => items != []
    case Object(fields) => fields != map[]
  }

  /** The remote service's error document `{code, detail, source}` once validated. */
  datatype ErrorDocument = ErrorDocument(code: string, detail: string, source: Value)

  /** The library behaviour that the model does not reproduce, supplied by the caller. */
  datatype Runtime = Runtime(
    show: Value -> string,                               // str(v) for numbers, lists and dicts
    dumps: Value -> string,                              // json.dumps
    loads: string -> Option<Value>,                      // json.loads; None when it raises
    parseErrorDocument: string -> Option<ErrorDocument>) // the error model's parse_raw; None on ValidationError

  /** `str(v)` (and `f"{v}"`): a string is its own text, None, True and False have
      fixed spellings, the rest is left to the runtime. */
  function Text(v: Value, rt: Runtime): (t: string)
    ensures v.Str? ==> t == v.s
    ensures v == Null ==> t == "None"
  {
    match v
    case Str(s) => s
    case Null => "None"
    case Bool(b) => if b then "True" else "False"
    case _ => rt.show(v)
  }

  /** `d.get(key)`: the entry, or None when the key is absent. */
  function Lookup(m: map<string, Value>, key: string): (v: Value)
    ensures key in m ==> v == m[key]
    ensures key !in m ==> v == Null
  {
    if key in m then m[key] else Null
  }

  datatype Option<+T> = None | Some(value: T)

  /** The two ways a Python call ends: it returns a value or it raises. */
  datatype Outcome<+T, +E> = Returned(value: T) | Raised(error: E)

  /** Built-in exceptions that escape the library unchanged. */
  datatype BuiltinError =
    | AttributeError
    | TypeError
    | ValueError
    | JSONDecodeError
    | AssertionError(message: string)

  /** A Python dict that callers share by reference and the library updates in place. */
  class Dict {
    var items: map<string, Value>

    constructor (items: map<string, Value>)
      ensures this.items == items
    {
      this.items := items;
    }

    /** `d[key] = value` */
    method Set(key: string, value: Value)
      modifies this
      ensures items == old(items)[key := value]
    {
      items := items[key := value];
    }
  }

  /** `d or {}`: the dictionary itself when it is non-empty, otherwise a fresh empty one. */
  method OrEmpty(d: Dict?) returns (r: Dict)
    ensures d != null && d.items != map[] ==> r == d
    ensures d == null || d.items == map[] ==> fresh(r) && r.items == map[]
  {
    if d == null || d.items == map[] {
      r := new Dict(map[]);
    } else {
      r := d;
    }
  }
}
