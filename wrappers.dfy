/** Option, the HTTP exceptions the services throw, and a Result that carries one of them. */
module Wrappers {

  datatype Option<T> = None | Some(value: T)

  /** The NestJS exceptions raised by the services, each with its message. An uncaught
      TypeError or driver error becomes InternalError (answered with status 500). */
  datatype HttpError =
    | BadRequest(message: string)
    | Unauthorized(message: string)
    | NotFound(message: string)
    | InternalError(message: string)

  /** The outcome of an operation that may throw. */
  datatype Result<T> = Ok(value: T) | Err(error: HttpError)
}
