/** Optional values and the (result, error) pairs the services return. */
module Wrappers {

  datatype Option<+T> = None | Some(value: T)

  /** A service outcome: a value, an error message the service returns itself,
      or an exception caught by the service's `except` branch. For `Crash`
      the message is `context` followed by the exception's text, which the
      model does not track. */
  datatype Result<+T> = Ok(value: T) | Err(msg: string) | Crash(context: string)
}
