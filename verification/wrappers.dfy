/**
 * Failure-carrying wrappers shared by every module of the model: an optional
 * value (a Go nil pointer, a missing map entry, an undecodable JSON body) and
 * a value-or-error pair (a Go `(T, error)` return).
 */
module Wrappers {

  datatype Option<+T> = None | Some(value: T)

  datatype Result<+R, +E> = Success(value: R) | Failure(error: E)
}
