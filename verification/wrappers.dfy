/** Optional values and success-or-error results, used for the portal's lookups and transitions. */
module Wrappers {

  /** A value that may be missing: a dictionary lookup that found nothing, a session key that is not set. */
  datatype Option<+T> = None | Some(value: T)

  /** The outcome of a transition: the new state, or the reason it was refused. */
  datatype Result<+R, +E> = Success(value: R) | Failure(error: E)
}
