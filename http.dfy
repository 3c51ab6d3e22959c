/**
 * Controller results as values: the status codes of section 15 of RFC 9110
 * the controllers use, response bodies, the exceptions they tell apart, and
 * the outcome of a service call.
 */
module Http {

  const OK := 200
  const BAD_REQUEST := 400
  const NOT_FOUND := 404
  const NOT_ACCEPTABLE := 406
  const INTERNAL_SERVER_ERROR := 500

  /** No body (`build()` or a null body), a text body, or a JSON-serialized value. */
  datatype Body<T> = Empty | Text(text: string) | Json(value: T)

  datatype Response<T> = Response(status: int, body: Body<T>)

  datatype Exception =
    | EntityExistsException(message: string)
    | EntityNotFoundException(message: string)
    | BadCredentialsException(message: string)
    | AccessDeniedException
    | OtherException(message: string)

  /** What a service call did: returned a value, or threw. */
  datatype Outcome<T> = Returned(value: T) | Threw(exception: Exception)

  /** What a handler did: answered, or let an exception out to the framework. */
  datatype Handled<T> = Respond(response: Response<T>) | Propagate(exception: Exception)
}
