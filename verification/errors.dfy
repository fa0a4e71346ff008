/** The exceptions the services and controllers throw.
    NestJS HTTP exceptions carry a status and a message; a plain `Error`
    carries only a message; errors of the database client carry the
    Prisma error code ("P2002" unique constraint, "P2025" record not found). */
module Errors {

  datatype Status = BadRequest | Unauthorized | NotFound | Conflict | Locked | InternalServerError {

    /** The HTTP status code the framework answers with. */
    function Code(): nat {
      match this
      case BadRequest => 400
      case Unauthorized => 401
      case NotFound => 404
      case Conflict => 409
      case Locked => 423
      case InternalServerError => 500
    }
  }

  datatype Error =
    | HttpError(status: Status, message: string)
    | PlainError(message: string)
    | StorageError(prismaCode: string)
  {
    /** `error instanceof NotFoundException`, whatever the message. */
    predicate IsNotFound() {
      HttpError? && status == NotFound
    }
  }

  function BadRequestError(message: string): Error { HttpError(BadRequest, message) }
  function UnauthorizedError(message: string): Error { HttpError(Unauthorized, message) }
  function NotFoundError(message: string): Error { HttpError(NotFound, message) }
  function ConflictError(message: string): Error { HttpError(Conflict, message) }
  function InternalError(message: string): Error { HttpError(InternalServerError, message) }

  /** Prisma's code for a violated unique constraint. */
  const UniqueViolation := "P2002"
  /** Prisma's code for an operation whose target record does not exist. */
  const RecordNotFound := "P2025"
}
