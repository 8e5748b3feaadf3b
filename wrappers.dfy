/** Failure-carrying values used where the page's Python code can raise or
    where a collaborator may hand over nothing. */
module Wrappers {

  datatype Option<+T> = None | Some(value: T)

  datatype Result<+R, +E> = Success(value: R) | Failure(error: E)
}
