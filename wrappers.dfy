/** Optional values and success-or-exception results, the Dafny stand-ins for
    Java's `null`/`Optional` and for a thrown exception. */
module Wrappers {

  datatype Option<+T> = None | Some(value: T)

  datatype Result<+T, +E> = Success(value: T) | Failure(error: E)
}
