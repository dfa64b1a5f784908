/** Optional values and results with an error, used wherever the controller returns `nil` or an `error`. */
module Wrappers {

  datatype Option<+T> = None | Some(value: T)

  datatype Result<+T, +E> = Ok(value: T) | Err(error: E)

  /** The errors whose kind the controller looks at; every other failure of an external call is `ApiError`. */
  datatype Error = ApiError | InvalidInput | CycleError | StrictFailure | RuntimeConfigError(unknown: set<string>)
}
