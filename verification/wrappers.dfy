/** Optional values and success-or-error results, used wherever the dashboard
    has a nullable selection (`useState<T | null>`) or a handler that either
    produces a request payload or stops with a validation message. */
module Wrappers {

  /** `null` / a value: the selected product, supplier, technician, ... */
  datatype Option<+T> = None | Some(value: T)

  /** The outcome of a submit handler: the payload it would post, or the
      validation error it shows instead. */
  datatype Result<+R, +E> = Success(value: R) | Failure(error: E)
}
