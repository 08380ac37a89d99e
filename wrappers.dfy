/** Option and Result, for the values pandas leaves undefined (the mean of an
    empty column, the first row of an empty table) and for raised errors. */
module Wrappers {

  datatype Option<+T> = None | Some(value: T)

  datatype Result<+T, +E> = Success(value: T) | Failure(error: E)
}
