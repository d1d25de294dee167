/** Option and Result, the shapes the model uses for "may be absent" and
    "returned normally or raised". */
module Wrappers {

  datatype Option<+T> = None | Some(value: T)

  /** `Failure(e)` stands for an exception whose message is `e`. */
  datatype Result<+R, +E> = Success(value: R) | Failure(error: E)
}
