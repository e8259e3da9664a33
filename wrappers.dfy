/** Optional values and results with an error, shared by every module of the model. */
module Wrappers {

  /** A nullable Kotlin value (`String?`, `Int?`, `Long?`). */
  datatype Option<+T> = None | Some(value: T)

  /** The value an operation returns, or the exception it throws instead. */
  datatype Result<+T, +E> = Ok(value: T) | Err(error: E)
}

/** The exceptions the two services throw (exception/Exception.kt and Kotlin's own). */
module Exceptions {

  datatype Error =
    | NotFound           // ResourceNotFoundException: no product or movement with that id
    | DuplicateResource  // DuplicateResourceException: a product with that name exists
    | InsufficientStock  // IllegalStateException: more units requested than in stock
}
