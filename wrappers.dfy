/** Small value types shared by every module: an optional value (a nullable
    column or an absent request field) and the reply a route handler sends. */
module Wrappers {

  datatype Option<+T> = None | Some(value: T) {
    function GetOr(default: T): T {
      match this
      case Some(v) => v
      case None => default
    }
  }

  /** The reply of a route handler: a JSON body with status 200, or an error
      status with the handler's error message. */
  datatype Reply<+T> = Ok(value: T) | Error(status: nat, message: string)
}
