/** Values shared by every module: optional values, results of calls that may
    raise, and the dynamically typed values stored in the state's dictionaries. */
module Common {

  /** A value that may be absent (a missing dictionary key, Python's None). */
  datatype Option<+T> = None | Some(value: T) {
    function GetOr(default: T): T {
      match this
      case Some(v) => v
      case None => default
    }
  }

  /** The outcome of a call that may raise: the exception's text is kept. */
  datatype Result<+T> = Success(value: T) | Failure(error: string)

  /** A dynamically typed value held in one of the state's dictionaries.
      Numbers are only passed through by the core, so they are integers here;
      `Opaque` stands for a structured object the core never looks inside
      (a parsed extraction, a validation report). */
  datatype Value =
    | Text(s: string)
    | Number(n: int)
    | Record(fields: map<string, Value>)
    | Opaque(id: nat)

  /** A `Dict[str, Any]`. */
  type Fields = map<string, Value>

  /** `d.get(key, default)` */
  function Get(d: Fields, key: string, default: Value): (v: Value)
    ensures key in d ==> v == d[key]
    ensures key !in d ==> v == default
  {
    if key in d then d[key] else default
  }

  /** Python truthiness of a dictionary: it is truthy iff it is not empty. */
  predicate Truthy(d: Fields) {
    d != map[]
  }

  /** True iff every key of `keys` is present in `d` (so that indexing `d`
      with each of them raises no KeyError). */
  predicate HasKeys(d: Fields, keys: seq<string>) {
    forall i :: 0 <= i < |keys| ==> keys[i] in d
  }
}
