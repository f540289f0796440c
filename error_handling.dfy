/**
 * The Express error-handling middleware of src/middleware/error-handler.ts,
 * the one the application mounts last. Its effect on the response is returned
 * as a value: either the error is handed on to `next`, or a status and a JSON
 * body are written (after a log line, on the unexpected-error path).
 */
module ErrorHandling {
  import opened Wrappers
  import opened Errors

  /** The JSON body `{ success, message }`. */
  datatype ResponseBody = ResponseBody(success: bool, message: string)

  /** What `logger.error('Unexpected error:', { message, stack })` records (the stack is not modelled). */
  datatype LogEntry = UnexpectedError(message: string)

  /** Either `next(err)` is called and nothing is written, or the logged lines, the status and the body. */
  datatype Outcome =
    | Delegate(err: Thrown)
    | Respond(logged: seq<LogEntry>, status: int, body: ResponseBody)

  /** The template both handlers share: 500 with the default message of `InternalServerError`. */
  ghost predicate IsInternalServerErrorResponse(o: Outcome) {
    o.Respond? && o.status == 500 && o.body == ResponseBody(false, "Internal Server Error")
  }

  /** `errorHandler(err, req, res, next)`, with `res.headersSent` as `headersSent`. */
  function ErrorHandler(err: Thrown, headersSent: bool): (o: Outcome)
    // Headers already sent: delegate to Express's default handler, write nothing.
    ensures headersSent ==> o == Delegate(err)
    // An ApplicationError keeps its own status and message; nothing is logged.
    ensures !headersSent && err.AppError? ==>
      o == Respond([], err.error.status, ResponseBody(false, err.error.message))
    // Any other error: 500 'Internal Server Error', the original message only reaches the log.
    ensures !headersSent && err.OtherError? ==>
      IsInternalServerErrorResponse(o) && o.logged == [UnexpectedError(err.message)]
    // Every written response says `success: false`, and only the unexpected path logs.
    ensures o.Respond? ==> !o.body.success && (o.logged != [] <==> err.OtherError?)
  {
    if headersSent then
      Delegate(err)
    else
      match err
      case AppError(e) =>
        Respond([], e.status, ResponseBody(false, e.message))
      case OtherError(message) =>
        var internalError := NewInternalServerError(None);
        Respond([UnexpectedError(message)], internalError.status, ResponseBody(false, internalError.message))
  }

  /** Every error class reaches the client with the status its constructor fixed. */
  lemma SubclassResponses(m: Option<string>)
    ensures ErrorHandler(AppError(NewBadRequest(m)), false).status == 400
    ensures ErrorHandler(AppError(NewUnauthorizedError(m)), false).status == 401
    ensures ErrorHandler(AppError(NewNotFoundError(m)), false).status == 404
    ensures ErrorHandler(AppError(NewInternalServerError(m)), false).status == 500
    ensures ErrorHandler(AppError(NewApplicationError(m, None)), false).status == 500
    ensures ErrorHandler(AppError(NewBadRequest(m)), false).body.message == m.GetOr("Bad request")
  {
  }

  /** A thrown `InternalServerError` and an unexpected error look alike to the client, unless the former carries its own message. */
  lemma InternalServerErrorLooksUnexpected(unexpected: string)
    ensures ErrorHandler(AppError(NewInternalServerError(None)), false).status
         == ErrorHandler(OtherError(unexpected), false).status
    ensures ErrorHandler(AppError(NewInternalServerError(None)), false).body
         == ErrorHandler(OtherError(unexpected), false).body
  {
  }
}
