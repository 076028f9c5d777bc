/** Optional values and the failures the pipeline can raise. */
module Wrappers {

  /** A value that may be missing: a NaN cell of an optional column, an optional argument. */
  datatype Option<+T> = None | Some(value: T)

  /** The exceptions the modelled Python code lets escape. */
  datatype Fault =
    | ZeroDivision               // Python `int / int` with a zero divisor
    | MissingColumn(name: string) // pandas `KeyError` on a column the frame does not have

  datatype Result<+R> = Success(value: R) | Failure(error: Fault)
}
