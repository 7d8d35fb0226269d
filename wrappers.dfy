/** Optional values and outcomes shared by every module of the model. */
module Wrappers {

  /** `None` stands for JavaScript's `null` or `undefined` where the client code allows either. */
  datatype Option<+T> = None | Some(value: T)

  /** The outcome of an asynchronous collaborator: a value, or a rejected promise. */
  datatype Result<+T, +E> = Success(value: T) | Failure(error: E)
}
