/**
 * The application's error classes (the files under src/errors). Every one of them is an
 * `ApplicationError`: a JavaScript `Error` carrying an HTTP status, whose `name`
 * is the name of the class that constructed it.
 */
module Errors {
  import opened Wrappers

  /** The classes of the hierarchy; `ApplicationError` is the root of the other four. */
  datatype ErrorClass =
    | ApplicationErrorClass
    | BadRequestClass
    | InternalServerErrorClass
    | NotFoundErrorClass
    | UnauthorizedErrorClass

  /** `this.constructor.name`: the declared name of each class. */
  function ClassName(c: ErrorClass): string {
    match c
    case ApplicationErrorClass => "ApplicationError"
    case BadRequestClass => "BadRequest"
    case InternalServerErrorClass => "InternalServerError"
    case NotFoundErrorClass => "NotFoundError"
    case UnauthorizedErrorClass => "UnauthorizedError"
  }

  /** An instance of `ApplicationError` or of one of its subclasses. */
  datatype ApplicationError = ApplicationError(message: string, status: int, name: string)

  /** A value thrown inside a request handler: an `ApplicationError`, or any other `Error`. */
  datatype Thrown = AppError(error: ApplicationError) | OtherError(message: string)

  /**
   * The body of the `ApplicationError` constructor run on behalf of class `cls`
   * (directly, or through `super(...)` from a subclass); an absent argument takes
   * its default, 'ApplicationError' and 500.
   */
  function ApplicationErrorInit(cls: ErrorClass, message: Option<string>, status: Option<int>): (e: ApplicationError)
    ensures message.None? ==> e.message == "ApplicationError"
    ensures message.Some? ==> e.message == message.value
    ensures status.None? ==> e.status == 500
    ensures status.Some? ==> e.status == status.value
    ensures e.name == ClassName(cls)
  {
    ApplicationError(message.GetOr("ApplicationError"), status.GetOr(500), ClassName(cls))
  }

  /** `new ApplicationError(message?, status?)`. */
  function NewApplicationError(message: Option<string>, status: Option<int>): (e: ApplicationError)
    ensures e == ApplicationErrorInit(ApplicationErrorClass, message, status)
    ensures e.name == "ApplicationError"
  {
    ApplicationErrorInit(ApplicationErrorClass, message, status)
  }

  /** `new BadRequest(message?)`: status 400 whatever the message. */
  function NewBadRequest(message: Option<string>): (e: ApplicationError)
    ensures e.status == 400
    ensures message.None? ==> e.message == "Bad request"
    ensures message.Some? ==> e.message == message.value
    ensures e.name == "BadRequest"
  {
    ApplicationErrorInit(BadRequestClass, Some(message.GetOr("Bad request")), Some(400))
  }

  /** `new InternalServerError(message?)`: status 500 whatever the message. */
  function NewInternalServerError(message: Option<string>): (e: ApplicationError)
    ensures e.status == 500
    ensures message.None? ==> e.message == "Internal Server Error"
    ensures message.Some? ==> e.message == message.value
    ensures e.name == "InternalServerError"
  {
    ApplicationErrorInit(InternalServerErrorClass, Some(message.GetOr("Internal Server Error")), Some(500))
  }

  /** `new NotFoundError(message?)`: status 404 whatever the message. */
  function NewNotFoundError(message: Option<string>): (e: ApplicationError)
    ensures e.status == 404
    ensures message.None? ==> e.message == "Not Found"
    ensures message.Some? ==> e.message == message.value
    ensures e.name == "NotFoundError"
  {
    ApplicationErrorInit(NotFoundErrorClass, Some(message.GetOr("Not Found")), Some(404))
  }

  /** `new UnauthorizedError(message?)`: status 401 whatever the message. */
  function NewUnauthorizedError(message: Option<string>): (e: ApplicationError)
    ensures e.status == 401
    ensures message.None? ==> e.message == "Unauthorized"
    ensures message.Some? ==> e.message == message.value
    ensures e.name == "UnauthorizedError"
  {
    ApplicationErrorInit(UnauthorizedErrorClass, Some(message.GetOr("Unauthorized")), Some(401))
  }
}
