/**
 * The two sum types of Rust's prelude that the library's signatures use.
 */
module Prelude {

  datatype Option<T> = None | Some(value: T) {
    /** `Option::ok_or`. */
    function OkOr<E>(e: E): (r: Result<T, E>)
      ensures Some? ==> r == Ok(value)
      ensures None? ==> r == Err(e)
    {
      match this case Some(v) => Ok(v) case None => Err(e)
    }
  }

  datatype Result<T, E> = Ok(value: T) | Err(error: E) {
    /** `Result::ok`: keeps the success value and forgets the error. */
    function ToOption(): (o: Option<T>)
      ensures o.Some? <==> Ok?
      ensures o.Some? ==> o.value == value
    {
      match this
      case Ok(v) => Some(v)
      case Err(_) => None
    }
  }

  function Min(a: nat, b: nat): nat { if a <= b then a else b }
}
