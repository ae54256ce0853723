/**
 * Lookups into decoded JSON objects. A key of a JSON object is either missing, holds
 * JSON null, or holds a value; Python's `dict.get` reads the first two alike, unless
 * it is given a default, which replaces only a missing key.
 */
module Fields {
  import opened Wrappers

  datatype Field<+T> = Absent | Null | Present(value: T) {
    /** `obj.get(key)` */
    function Get(): Option<T> {
      if Present? then Some(value) else None
    }

    /** `obj.get(key, default)`: a stored null is still None. */
    function GetOr(default: T): Option<T> {
      match this
      case Absent => Some(default)
      case Null => None
      case Present(v) => Some(v)
    }
  }

  /** Python truthiness of an optional string: not None and not empty. */
  predicate StrTruthy(s: Option<string>) {
    s.Some? && s.value != ""
  }

  /** Python truthiness of an optional list: not None and not empty. */
  predicate SeqTruthy<T>(s: Option<seq<T>>) {
    s.Some? && s.value != []
  }
}
