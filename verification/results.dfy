/** Failure-carrying wrappers shared by the stores and the HTTP handlers. */
module Results {

  /** A value that may be absent: a JSON body that failed to decode, a store call not made. */
  datatype Option<+T> = None | Some(value: T)

  /** Either a value or the error that replaced it; the handlers' validation phase
      yields the key to use or the response that rejects the request. */
  datatype Result<+T, +E> = Success(value: T) | Failure(error: E)

  /** What a Go store method returns: `(value, nil)` or `(zero, err)`, keeping the
      error's `Error()` text, which the handlers inspect. */
  datatype Reply<+T> = Ok(value: T) | Err(msg: string)
}
