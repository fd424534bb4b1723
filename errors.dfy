/** Go `error` values as the client produces and passes them on. */
module Errors {

  /** The errors of the client's taxonomy. Errors raised by collaborators
      (the database driver, the codec, a generator) carry their message. */
  datatype Error =
    | EmptyKey                        // util.ErrEmptyKey, "key is empty"
    | TooManyValues(key: string)      // an error wrapping sqlc.ErrTooManyValues for `key`
    | NullColumn                      // database/sql: a NULL column scanned into a plain string
    | DriverError(message: string)    // template, connection, query or exec failure
    | CodecError(message: string)     // marshal or unmarshal failure
    | GeneratorError(message: string) // an error returned by a caller's generator function

  /** A Go `error` result: nil or an error. */
  datatype MaybeError = Nil | Err(error: Error)

  /** A value or the error that stopped its computation. */
  datatype Result<T> = Success(value: T) | Failure(error: Error)
}
