/** Small shared vocabulary: an optional value and the reply of an HTTP endpoint. */
module Common {

  /** A value that may be absent (a missing JSON key, a null, an unset field). */
  datatype Option<+T> = None | Some(value: T) {
    function GetOr(default: T): T {
      match this
      case Some(v) => v
      case None => default
    }
  }

  /** A key of a JSON request body: missing, sent as `null`, or sent with a value. */
  datatype Field<+T> = Absent | Null | Present(value: T) {
    /** Python `data.get(key, default)`: the default only for a missing key; `null` reads as None. */
    function Get(default: T): (r: Option<T>)
      ensures Absent? ==> r == Some(default)
      ensures Null? ==> r.None?
      ensures Present? ==> r == Some(value)
    {
      match this
      case Absent => Some(default)
      case Null => None
      case Present(v) => Some(v)
    }
  }

  /** What a route handler returns: a status code with either a body or an error message. */
  datatype Reply<+T> = Success(code: int, body: T) | Failure(code: int, error: string) {
    predicate IsOk() { Success? }
  }

  /** Python truthiness of an optional string: absent and "" are falsy. */
  predicate Truthy(s: Option<string>) {
    s.Some? && s.value != ""
  }

  /** JavaScript truthiness of `localStorage.getItem(key)`: present and not empty. */
  predicate Stored(storage: map<string, string>, key: string) {
    key in storage && storage[key] != ""
  }
}
