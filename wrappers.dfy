/** Optional values (`None` stands for JavaScript's `null` / `undefined`) and outcomes that may fail. */
module Wrappers {
  datatype Option<T> = None | Some(value: T)
  {
    function GetOr(default: T): T
    {
      match this
      case None => default
      case Some(v) => v
    }
  }

  /** The outcome of an operation that returns a value or throws. */
  datatype Result<T, E> = Ok(value: T) | Err(error: E)

  /** JavaScript truthiness of an optional string: present and non-empty. */
  predicate Truthy(s: Option<string>)
  {
    s.Some? && s.value != ""
  }

  /** `a || b` on optional strings. */
  function OrElse(a: Option<string>, b: Option<string>): (r: Option<string>)
    ensures Truthy(a) ==> r == a
    ensures !Truthy(a) ==> r == b
  {
    if Truthy(a) then a else b
  }
}
