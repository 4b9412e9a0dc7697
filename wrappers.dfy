/** Optional values and error-carrying results, standing in for TypeScript's
    optional fields (`x?: T`) and for the early `return` of a form handler. */
module Wrappers {

  datatype Option<+T> = None | Some(value: T) {
    function GetOr(default: T): T {
      match this
      case Some(v) => v
      case None => default
    }
  }

  datatype Result<+R, +E> = Ok(value: R) | Err(error: E)
}
