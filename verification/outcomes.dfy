/** Shared failure-carrying datatypes of the s3s model.

  Go reports failure as an `error` value next to the result; this model keeps
  the error opaque (its message only) and pairs it with the value it replaces.
 */
module Outcomes {

  /** An opaque Go `error` returned by the storage client. */
  datatype Error = Error(message: string)

  /** A value that may be absent; stands for a Go pointer that may be nil. */
  datatype Option<+T> = None | Some(value: T)

  /** Either a value or the error that replaced it, as in Go's `(T, error)` return pairs. */
  datatype Result<+T> = Ok(value: T) | Err(error: Error)
}
