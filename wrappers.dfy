/** Failure-compatible result types shared by the model: a JavaScript
    `throw` becomes a `Failure`/`Fail` value, a nullable value an `Option`. */
module Wrappers {

  datatype Option<+T> = None | Some(value: T)

  datatype Result<+R, +E> = Success(value: R) | Failure(error: E)

  datatype Outcome<+E> = Pass | Fail(error: E)
}
