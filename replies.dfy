/** HTTP replies of the route handlers: a success body or an error code with its message. */
module Replies {
  datatype Code = BadRequest | Unauthorized | NotFound {
    /** The HTTP status the handler sends. */
    function Status(): int {
      match this
      case BadRequest => 400
      case Unauthorized => 401
      case NotFound => 404
    }
  }

  datatype Reply<+T> = Ok(value: T) | Fail(code: Code, error: string)
}
