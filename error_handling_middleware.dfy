/**
 * src/middleware/error-handler.middleware.ts: a second `errorHandler`, a copy of
 * the one in src/middleware/error-handler.ts, which the application does not mount.
 */
module ErrorHandlingMiddleware {
  import opened Wrappers
  import opened Errors
  import ErrorHandling

  /** `errorHandler(err, req, res, next)` of the middleware file. */
  function ErrorHandler(err: Thrown, headersSent: bool): (o: ErrorHandling.Outcome)
    ensures headersSent ==> o == ErrorHandling.Delegate(err)
    ensures !headersSent && err.AppError? ==>
      o == ErrorHandling.Respond([], err.error.status, ErrorHandling.ResponseBody(false, err.error.message))
    ensures !headersSent && err.OtherError? ==>
      ErrorHandling.IsInternalServerErrorResponse(o) && o.logged == [ErrorHandling.UnexpectedError(err.message)]
    ensures o.Respond? ==> !o.body.success && (o.logged != [] <==> err.OtherError?)
  {
    if headersSent then
      ErrorHandling.Delegate(err)
    else if err.AppError? then
      ErrorHandling.Respond([], err.error.status, ErrorHandling.ResponseBody(false, err.error.message))
    else
      var internalError := NewInternalServerError(None);
      ErrorHandling.Respond([ErrorHandling.UnexpectedError(err.message)], internalError.status,
                            ErrorHandling.ResponseBody(false, internalError.message))
  }

  /** The two handlers cannot be told apart: same outcome for every error and every response state. */
  lemma SameAsMountedHandler(err: Thrown, headersSent: bool)
    ensures ErrorHandler(err, headersSent) == ErrorHandling.ErrorHandler(err, headersSent)
  {
  }
}
