/** Python values as the chat front end keeps them in its session bag and
    reads them from the conversation store, with Python's truthiness and the
    difference between a missing dictionary key and a key holding None. */
module Values {

  /** A JSON-like Python value: None, a bool, an int, a str, a list or a dict
      with string keys. */
  datatype Value =
    | Null
    | Bool(b: bool)
    | Int(i: int)
    | Str(s: string)
    | List(items: seq<Value>)
    | Dict(entries: map<string, Value>)

  /** Python truthiness, as `if x:` tests it: None, False, 0 and the empty
      str, list and dict are false, everything else is true. */
  predicate Truthy(v: Value) {
    match v
    case Null => false
    case Bool(b) => b
    case Int(i) => i != 0
    case Str(s) => s != ""
    case List(items) => items != []
    case Dict(entries) => entries != map[]
  }

  /** Whether a key is in a dictionary at all. `Present(Null)` is a key that
      holds None, which `"k" in d` still reports as present. */
  datatype Slot<T> = Absent | Present(value: T)

  datatype Option<T> = None | Some(value: T)
}
