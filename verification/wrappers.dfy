/**
 * The optional value used wherever the Python code returns `None` and the
 * TypeScript code `null` or `undefined`, and the reply of an HTTP endpoint.
 */
module Wrappers {

  datatype Option<T> = None | Some(value: T) {

    /** The wrapped value, or `default` when there is none (`x ?? default`). */
    function GetOr(default: T): T {
      match this
      case Some(v) => v
      case None => default
    }
  }

  /** A reply body, or an HTTP error with its status code and detail. */
  datatype Reply<T> = Reply(value: T) | HttpError(status: nat, detail: string)
}
