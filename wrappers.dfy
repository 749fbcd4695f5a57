/** Optional values and the replies of the HTTP route handlers. */
module Wrappers {

  datatype Option<+T> = None | Some(value: T) {
    function GetOr(default: T): T {
      match this
      case Some(v) => v
      case None => default
    }
  }

  /** What a route handler answers: a JSON body, or an HTTP error status with its message. */
  datatype Reply<+T> = Ok(body: T) | Fail(status: nat, message: string)
}
