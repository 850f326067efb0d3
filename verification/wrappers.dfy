/** Failure-carrying values shared by every module of the model. */
module Wrappers {

  datatype Option<+T> = None | Some(value: T)

  datatype Result<+R, +E> = Success(value: R) | Failure(error: E)

  /** The outcome of code that may stop the process: a `fatalError`, a forced
      unwrap or cast of a missing value, or an out-of-range subscript. */
  datatype Guarded<+T> = Completes(value: T) | Traps

  /** The fate of an asynchronous completion handler: some code paths return
      before the handler is ever invoked. */
  datatype Completion<+T> = NeverCalled | Called(result: T)
}
