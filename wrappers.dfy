/** Failure-carrying values shared by the model.

    Go reports failures as a value of interface type `error`; every property
    in this model is about the text that `Error()` returns, so an error is
    represented by that text, and a nil error by `None`. */
module Wrappers {

  /** The text of a Go `error`. */
  type Error = string

  /** A possibly absent value: a nil map, a nil error, an absent file. */
  datatype Option<+T> = None | Some(value: T)

  /** The outcome of a call that yields a value or an error. */
  datatype Result<+T> = Ok(value: T) | Err(error: Error)
}
