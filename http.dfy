/** Shared wrappers for the route handlers: an optional value and the
    outcome of a request, standing for the JSON body and HTTP status that
    the handlers hand back to the framework. */
module Http {

  datatype Option<+T> = None | Some(value: T) {
    function GetOr(default: T): T {
      match this
      case Some(v) => v
      case None => default
    }
  }

  /** What a handler answers: status 200, 201, 400, 401 or 404 with its body.
      Storage failures (the 500 path) are not modelled. */
  datatype Response<+T> =
    | Ok(body: T)
    | Created(body: T)
    | BadRequest(error: string)
    | Unauthorized
    | NotFound(error: string)

  /** The token resolver's answer: the requester's user id, or None without valid credentials. */
  type UserId = nat
  type Auth = Option<UserId>
}
