/** Optional values and results with an error, used for JavaScript's
    `undefined`/`null` returns and thrown errors. */
module Wrappers {

  datatype Option<+T> = None | Some(value: T)

  datatype Result<+T, +E> = Success(value: T) | Failure(error: E)

  /** A result without a value: an operation that either completes or throws. */
  datatype Outcome<+E> = Pass | Fail(error: E)

  /** `o ?? default`: the value if there is one. */
  function OrDefault<T>(o: Option<T>, default: T): (r: T)
    ensures o.Some? ==> r == o.value
    ensures o.None? ==> r == default
  {
    if o.Some? then o.value else default
  }
}
