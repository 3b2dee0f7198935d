/** Option and Result values used throughout the model: `None` stands for a
    JavaScript `null`/`undefined` result, `Failure` for a thrown error or a
    rejected promise. */
module Wrappers {

  datatype Option<+T> = None | Some(value: T)

  datatype Result<+R, +E> = Success(value: R) | Failure(error: E)
}
