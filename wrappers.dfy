/** Option and Result values for the lookups that may find nothing and the
    operations that may fail with an exception in the modelled Java code. */
module Wrappers {

  datatype Option<+T> = None | Some(value: T)

  datatype Result<+R, +E> = Success(value: R) | Failure(error: E)
}
