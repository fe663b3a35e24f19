/** The application's error hierarchy (`AppError` and its four subclasses) as
    a value, and what a handler can throw: an `AppError` or some other error. */
module Errors {
  import opened Wrappers

  /** Which class of the hierarchy an error was built with. `Base` is an
      `AppError` constructed directly. */
  datatype ErrorClass = Base | Authentication | Validation | NotFound | RateLimit

  /** The fields an `AppError` carries. */
  datatype AppError = AppError(cls: ErrorClass, statusCode: int, message: string, isOperational: bool)

  /** Anything thrown: an `AppError`, or any other `Error` (a library or
      database failure, a failed configuration check), of which only the
      message is kept. */
  datatype Failure = App(error: AppError) | Plain(message: string) {
    predicate IsAuthentication() {
      App? && error.cls == Authentication
    }
  }

  /** `new AppError(statusCode, message, isOperational = true)`. */
  function NewAppError(statusCode: int, message: string, isOperational: bool := true): AppError {
    AppError(Base, statusCode, message, isOperational)
  }

  /** The status code each subclass passes to `AppError`. */
  function SubclassStatus(cls: ErrorClass): int
    requires cls != Base
  {
    match cls
    case Authentication => 401
    case Validation => 400
    case NotFound => 404
    case RateLimit => 429
  }

  function AuthenticationError(message: string := "Authentication failed"): AppError {
    AppError(Authentication, SubclassStatus(Authentication), message, true)
  }

  /** `ValidationError` has no default message. */
  function ValidationError(message: string): AppError {
    AppError(Validation, SubclassStatus(Validation), message, true)
  }

  function NotFoundError(message: string := "Resource not found"): AppError {
    AppError(NotFound, SubclassStatus(NotFound), message, true)
  }

  function RateLimitError(message: string := "Too many requests"): AppError {
    AppError(RateLimit, SubclassStatus(RateLimit), message, true)
  }

  /** The subclass a client can infer from a response status. */
  function ClassOfStatus(statusCode: int): (c: Option<ErrorClass>)
    ensures c.Some? ==> c.value != Base && SubclassStatus(c.value) == statusCode
    ensures c.None? ==> forall cls :: cls != Base ==> SubclassStatus(cls) != statusCode
  {
    if statusCode == 401 then Some(Authentication)
    else if statusCode == 400 then Some(Validation)
    else if statusCode == 404 then Some(NotFound)
    else if statusCode == 429 then Some(RateLimit)
    else None
  }

  /** Every error built by a subclass constructor is operational, carries a
      client-error (4xx) status, and that status names its subclass. */
  lemma SubclassErrorsAreClientErrors(e: AppError)
    requires e == AuthenticationError(e.message) || e == ValidationError(e.message)
          || e == NotFoundError(e.message) || e == RateLimitError(e.message)
    ensures e.isOperational && 400 <= e.statusCode < 500
    ensures ClassOfStatus(e.statusCode) == Some(e.cls)
  {
  }

  /** The default messages of the subclasses that have one. */
  lemma DefaultMessages()
    ensures AuthenticationError().message == "Authentication failed"
    ensures NotFoundError().message == "Resource not found"
    ensures RateLimitError().message == "Too many requests"
    ensures NewAppError(500, "m").isOperational
  {
  }
}
