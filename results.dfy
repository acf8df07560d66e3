/** Failure-carrying return values shared by the flow store and the provider client. */
module Results {

  /** A value, or the reason there is none (Go's `(T, error)` pair). */
  datatype Result<+T, +E> = Ok(value: T) | Err(error: E)

  /** An optional value (Go's nil-able pointer or `error`). */
  datatype Option<+T> = None | Some(value: T)

  function Min(a: int, b: int): (m: int)
  {
    if a <= b then a else b
  }

  function Max(a: int, b: int): (m: int)
  {
    if a <= b then b else a
  }
}
