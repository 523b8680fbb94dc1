/** The exceptions the core raises or passes through. */
module Errors {
  import opened Domain

  /** One entry of a binding result: the rejected field and the constraint's message. */
  datatype FieldError = FieldError(field: string, defaultMessage: string)

  /**
   * The exception kinds the handlers distinguish. `message` is `getMessage()`
   * (and `getLocalizedMessage()`, which Java defaults to the same text).
   * `OtherException` stands for every other exception: a failed database
   * write, a duplicate registry key, and so on.
   */
  datatype Exception =
    | BusinessException(message: string)
    | NotFoundException(message: string)
    | MethodArgumentNotValidException(fieldErrors: seq<FieldError>, message: string)
    | OtherException(message: string)

  /** The exception the planner raises for a mode with no strategy. */
  function UnsupportedMode(m: TransportMode): Exception
  {
    BusinessException("Modo de transporte no soportado: " + ModeName(m))
  }
}
