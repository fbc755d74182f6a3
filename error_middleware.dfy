/** The error responder: the status, message and body it sends for an error passed to `next`. */
module ErrorMiddleware {
  import opened Wrappers
  import opened Models

  const DefaultMessage := "Internal Server Error"
  const Development := "development"

  /** The response: its status and the JSON body `{ message }` or `{ message, stack }`. */
  datatype ErrorResponse = ErrorResponse(status: int, message: string, stack: Option<string>)

  /**
   * `errorHandler(err)` with NODE_ENV = `nodeEnv`: the status is
   * `err.statusCode || 500`, the message `err.message || 'Internal Server Error'`,
   * and the stack is included only in development.
   */
  function ErrorHandler(err: ErrorValue, nodeEnv: Option<string>): (r: ErrorResponse)
    ensures err.statusCode.Some? && err.statusCode.value != 0 ==> r.status == err.statusCode.value
    ensures err.statusCode.None? || err.statusCode.value == 0 ==> r.status == 500
    ensures r.status != 0
    ensures err.message != [] ==> r.message == err.message
    ensures err.message == [] ==> r.message == DefaultMessage
    ensures r.message != []
    ensures r.stack.Some? <==> nodeEnv == Some(Development)
    ensures r.stack.Some? ==> r.stack.value == err.stack
  {
    var statusCode := if err.statusCode.Some? && err.statusCode.value != 0 then err.statusCode.value else 500;
    var message := if err.message != [] then err.message else DefaultMessage;
    if nodeEnv == Some(Development) then ErrorResponse(statusCode, message, Some(err.stack))
    else ErrorResponse(statusCode, message, None)
  }

  /**
   * The responder ignores the `status` field: an error that carries only
   * `status`, as `protect` and the wishlist routes throw them, is answered
   * with 500 whatever its status says.
   */
  lemma StatusFieldIsIgnored(message: string, status: int, nodeEnv: Option<string>)
    ensures ErrorHandler(StatusError(message, status), nodeEnv).status == 500
    ensures ErrorHandler(StatusError(message, status), nodeEnv).message == (if message == [] then DefaultMessage else message)
  {
  }
}
