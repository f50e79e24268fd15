/** Failure-carrying datatypes: a Java reference that may be null becomes an
    Option, a call that may throw returns a Result or an Outcome. */
module Wrappers {

  datatype Option<+T> = None | Some(value: T)

  datatype Result<+R, +E> = Success(value: R) | Failure(error: E)

  datatype Outcome<+E> = Pass | Fail(error: E)
}
