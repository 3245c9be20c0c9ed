/** Failure-carrying values that stand in for the exceptions of the C# source. */
module Wrappers {

  /** A value that may be absent; also stands for a C# reference that may be null. */
  datatype Option<+T> = None | Some(value: T)

  /** The outcome of an operation that computes a value or fails with an error. */
  datatype Result<+T, +E> = Success(value: T) | Failure(error: E)

  /** The outcome of an operation that returns nothing (a C# `void` method) or fails. */
  datatype Outcome<+E> = Pass | Fail(error: E)
}
