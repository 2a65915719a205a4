/**
 Error values and the result shapes that the helper layer consumes and produces.
 A Go getter that returns `(value, error)` is modelled as a `Result`; a Go
 function that returns only `error` (nil on success) is modelled as an `Outcome`.
 */
module Results {

  /** A Go `error`: only its message is observable to the helpers. */
  datatype Error = Error(message: string)

  /** What a getter of an ipam object returned: its value, or the error it reported. */
  datatype Result<T> = Ok(value: T) | Err(error: Error)

  /** A Go `error` return: `Pass` stands for `nil`. */
  datatype Outcome = Pass | Fail(error: Error)

  datatype Option<T> = None | Some(value: T)
}
