/** Optional values and success/failure outcomes, the Dafny counterparts of
    TypeScript's `T | null`, `field?: T` and of a thrown-or-returned result. */
module Wrappers {

  /** An optional value: `None` stands for `null`, `undefined` or an absent field. */
  datatype Option<+T> = None | Some(value: T)

  /** The outcome of an operation that either returns a value or throws an error. */
  datatype Result<+T, +E> = Success(value: T) | Failure(error: E)
}
