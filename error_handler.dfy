/** The Express error handler: how a thrown error becomes the JSON error
    response, and at which severity it is logged. The logging itself is not
    modelled; only the decision of whether and how loudly to log is. */
module ErrorHandler {
  import opened Wrappers
  import opened Errors

  datatype LogSeverity = ErrorSeverity | WarnSeverity

  /** The `error` object of the response body. */
  datatype ErrorBody = ErrorBody(message: string, statusCode: int, stack: Option<string>)

  /** `res.status(status).json({success, error})`. */
  datatype ErrorResponse = ErrorResponse(status: int, success: bool, error: ErrorBody)

  /** The response sent, the operational flag the handler settled on, and the
      log entry it wrote, if any. */
  datatype Handled = Handled(response: ErrorResponse, isOperational: bool, log: Option<LogSeverity>)

  /** The handler for `thrown`, whose stack trace is `stack` (absent when the
      error has none), under the process's `NODE_ENV`. */
  function HandleError(thrown: Failure, stack: Option<string>, nodeEnv: Option<string>): (h: Handled)
    ensures !h.response.success && h.response.status == h.response.error.statusCode
    ensures thrown.App? ==>
              && h.response.status == thrown.error.statusCode
              && h.response.error.message == thrown.error.message
              && h.isOperational == thrown.error.isOperational
    ensures thrown.Plain? ==>
              && h.response.status == 500
              && h.response.error.message == "Internal Server Error"
              && !h.isOperational
    ensures h.response.error.stack.Some? <==> nodeEnv == Some("development") && stack.Some?
    ensures h.response.error.stack.Some? ==> h.response.error.stack == stack
    ensures h.log.None? <==> nodeEnv == Some("test")
    ensures h.log == Some(ErrorSeverity) <==> nodeEnv != Some("test") && h.response.status >= 500
  {
    var (statusCode, message, isOperational) :=
      if thrown.App? then (thrown.error.statusCode, thrown.error.message, thrown.error.isOperational)
      else (500, "Internal Server Error", false);
    var log :=
      if nodeEnv == Some("test") then None
      else if statusCode >= 500 then Some(ErrorSeverity)
      else Some(WarnSeverity);
    var shownStack := if nodeEnv == Some("development") then stack else None;
    Handled(ErrorResponse(statusCode, false, ErrorBody(message, statusCode, shownStack)), isOperational, log)
  }

  /** An error that is not an `AppError` never shows its message to the
      client: two such errors get the same response. */
  lemma PlainErrorsAreIndistinguishable(m1: string, m2: string, stack: Option<string>, nodeEnv: Option<string>)
    requires nodeEnv != Some("development")
    ensures HandleError(Plain(m1), stack, nodeEnv) == HandleError(Plain(m2), stack, nodeEnv)
  {
  }

  /** Errors raised through the four subclasses are client errors: they are
      answered with their own status and message and logged as warnings
      outside the test environment. */
  lemma SubclassErrorsAreWarnings(e: AppError, stack: Option<string>, nodeEnv: Option<string>)
    requires e == AuthenticationError(e.message) || e == ValidationError(e.message)
          || e == NotFoundError(e.message) || e == RateLimitError(e.message)
    requires nodeEnv != Some("test")
    ensures HandleError(App(e), stack, nodeEnv).log == Some(WarnSeverity)
    ensures HandleError(App(e), stack, nodeEnv).response.status == e.statusCode
  {
    SubclassErrorsAreClientErrors(e);
  }
}
