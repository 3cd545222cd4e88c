/** Values that stand for the source's nulls and exceptions. */
module Resultados {

  /** A value that may be absent (a missing configuration key, a token that is not there). */
  datatype Option<T> = None | Some(value: T)

  /** How a call ended: it returned a value, or it threw an exception with a message. */
  datatype Outcome<T> = Returned(value: T) | Threw(message: string)
}
