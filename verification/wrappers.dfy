/** Failure-carrying datatypes shared by the schema modules. */
module Wrappers {

  /** An optional value: an omitted field is `None`. */
  datatype Option<+T> = None | Some(value: T)

  /** The outcome of validating a candidate record: the record, or every violation found. */
  datatype Result<+T, +E> = Success(value: T) | Failure(error: E)
}
