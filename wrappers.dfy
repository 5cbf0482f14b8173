/** Optional values, results, and the status codes carried by the application's `AppError`. */
module Wrappers {

  datatype Option<+T> = None | Some(value: T)

  /** The HTTP status of an `AppError` raised by a service (app/errors.py). */
  datatype Error =
    | BadRequest    // 400
    | Unauthorized  // 401
    | Forbidden     // 403
    | NotFound      // 404
    | Conflict      // 409
  {
    function Code(): (c: int)
      ensures 400 <= c < 500
    {
      match this
      case BadRequest => 400
      case Unauthorized => 401
      case Forbidden => 403
      case NotFound => 404
      case Conflict => 409
    }
  }

  datatype Result<+T> = Success(value: T) | Failure(error: Error)

  /** `x or default` for an optional string. */
  function OrElse(s: Option<string>, default: string): string
  {
    match s
    case None => default
    case Some(v) => if v == "" then default else v
  }
}
