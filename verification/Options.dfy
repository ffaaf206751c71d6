/** The two result shapes every other module shares. */
module Options {

  /** A value the ledger may not hold yet: a nullable column, a missing row. */
  datatype Option<+T> = None | Some(value: T)

  /** The outcome of an operation that the program may refuse by raising. */
  datatype Result<+T> = Ok(value: T) | Err(reason: string)
}
