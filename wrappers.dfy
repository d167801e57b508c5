/** Option and Result values for the outcomes of the manager's collaborators
    and for the (value, error) pairs its operations return. */
module Wrappers {

  datatype Option<+T> = None | Some(value: T)

  datatype Result<+T, +E> = Success(value: T) | Failure(error: E)
}
