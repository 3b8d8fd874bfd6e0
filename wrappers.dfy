/** Option, the Rust-style fatal errors of the adapter, and values that may be one. */
module Wrappers {

  datatype Option<+T> = None | Some(value: T) {

    /** Rust's `Option::and_then`: absence propagates, presence is handed to `f`. */
    function AndThen<U>(f: T -> Option<U>): (r: Option<U>)
      ensures None? ==> r.None?
      ensures Some? ==> r == f(value)
    {
      match this
      case None => None
      case Some(v) => f(v)
    }
  }

  /** Why a Rust panic macro fired: `unreachable!`, `Option::unwrap` on `None`,
      `Option::expect` on `None` with its message. */
  datatype Panic =
    | Unreachable(context: string)
    | UnwrapNone
    | ExpectFailed(message: string)

  /** The outcome of a computation that may abort the process. */
  datatype Fallible<+T> = Ok(value: T) | Panicked(panic: Panic)

  /** `Option::unwrap`. */
  function Unwrap<T>(o: Option<T>): (r: Fallible<T>)
    ensures r.Ok? <==> o.Some?
    ensures r.Ok? ==> r.value == o.value
    ensures r.Panicked? ==> r.panic == UnwrapNone
  {
    match o
    case Some(v) => Ok(v)
    case None => Panicked(UnwrapNone)
  }

  /** `Option::expect(message)`. */
  function Expect<T>(o: Option<T>, message: string): (r: Fallible<T>)
    ensures r.Ok? <==> o.Some?
    ensures r.Ok? ==> r.value == o.value
    ensures r.Panicked? ==> r.panic == ExpectFailed(message)
  {
    match o
    case Some(v) => Ok(v)
    case None => Panicked(ExpectFailed(message))
  }
}
