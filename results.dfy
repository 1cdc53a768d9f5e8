/** Option and error-carrying result, with the library's exception (`std::system_error`) as a value. */
module Results {

  datatype Option<+T> = None | Some(value: T)

  /** A `std::system_error`; only the text that names the failed call is kept, the errno is not. */
  datatype OsError = OsError(operation: string)

  /** The outcome of a call that either returns a value or throws an OsError. */
  datatype Result<+T> = Ok(value: T) | Err(error: OsError)

  /** The outcome of a call that returns nothing or throws an OsError. */
  datatype Outcome = Pass | Fail(error: OsError)
}
