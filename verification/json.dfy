/** JavaScript values as they travel in response bodies. Counts are integers;
    the only fractional numbers, the coordinates of an address, are stored and
    returned without arithmetic and are kept apart as `JReal`. */
module Json {
  import opened Common

  datatype Json =
    | JUndefined
    | JNull
    | JBool(b: bool)
    | JNum(n: int)
    | JReal(x: real)
    | JStr(s: string)
    | JArr(items: seq<Json>)
    | JObj(fields: map<string, Json>)
  {
    /** JavaScript truthiness: `undefined`, `null`, `false`, `0` and `""` are falsy;
        every array and object is truthy. */
    predicate Truthy() {
      match this
      case JUndefined => false
      case JNull => false
      case JBool(b) => b
      case JNum(n) => n != 0
      case JReal(x) => x != 0.0
      case JStr(s) => s != ""
      case JArr(_) => true
      case JObj(_) => true
    }

    /** `typeof v === 'object'` (arrays and `null` included). */
    predicate IsObjectLike() {
      JNull? || JArr? || JObj?
    }

    /** Property read `v.key`: `undefined` when `v` is not an object or lacks the key. */
    function Get(key: string): Json {
      if JObj? && key in fields then fields[key] else JUndefined
    }

    /** `key in v` for an object-like value. */
    predicate Has(key: string) {
      JObj? && key in fields
    }
  }

  function OptStr(o: Option<string>): Json
  {
    match o
    case Some(s) => JStr(s)
    case None => JNull
  }

  /** `const { [key]: _, ...rest } = o`: the object without one property. */
  function Omit(o: map<string, Json>, key: string): (r: map<string, Json>)
    ensures key !in r
    ensures forall k :: k != key ==> (k in r <==> k in o)
    ensures forall k :: k in r ==> r[k] == o[k]
  {
    map k | k in o && k != key :: o[k]
  }
}
