/** Failure-carrying return types: a C# `null` becomes `None`, a thrown exception a `Failure`/`Fail`. */
module Wrappers {

  datatype Option<+T> = None | Some(value: T)

  datatype Result<+R, +E> = Success(value: R) | Failure(error: E)

  /** The outcome of an operation that returns nothing (a C# `void` method). */
  datatype Outcome<+E> = Pass | Fail(error: E)
}
