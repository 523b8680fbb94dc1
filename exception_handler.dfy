/**
 * GlobalExceptionHandler: turns an exception that reached the web layer into
 * an error body and a response status.
 */
module ExceptionHandler {
  import opened Domain
  import opened Errors
  import opened Text

  datatype HttpStatus = BAD_REQUEST | NOT_FOUND | INTERNAL_SERVER_ERROR
  {
    function Code(): int
    {
      match this
      case BAD_REQUEST => 400
      case NOT_FOUND => 404
      case INTERNAL_SERVER_ERROR => 500
    }
  }

  /** The error body; `timestamp` is the clock reading when it was built. */
  datatype ApiError = ApiError(timestamp: Timestamp, status: HttpStatus, message: string, details: string)

  /** A response: its body and the status it is sent with. */
  datatype ResponseEntity = ResponseEntity(body: ApiError, status: HttpStatus)

  /** One field error as the validation handler prints it: `field: message`. */
  function FieldErrorText(e: FieldError): string
  {
    e.field + ": " + e.defaultMessage
  }

  /** The field errors printed and joined with "; ". */
  function FieldErrorsText(errors: seq<FieldError>): string
  {
    Join(seq(|errors|, i requires 0 <= i < |errors| => FieldErrorText(errors[i])), "; ")
  }

  /** `handleBusinessException`. */
  function HandleBusinessException(message: string, description: string, now: Timestamp): ResponseEntity
  {
    ResponseEntity(ApiError(now, BAD_REQUEST, message, description), BAD_REQUEST)
  }

  /** `handleNotFoundException`. */
  function HandleNotFoundException(message: string, description: string, now: Timestamp): ResponseEntity
  {
    ResponseEntity(ApiError(now, NOT_FOUND, message, description), NOT_FOUND)
  }

  /** `handleValidationExceptions`. */
  function HandleValidationExceptions(errors: seq<FieldError>, description: string, now: Timestamp): ResponseEntity
  {
    ResponseEntity(ApiError(now, BAD_REQUEST, "Validation Error", FieldErrorsText(errors) + " - " + description),
                   BAD_REQUEST)
  }

  /** `handleAllUncaughtException`. */
  function HandleAllUncaughtException(message: string, description: string, now: Timestamp): ResponseEntity
  {
    ResponseEntity(ApiError(now, INTERNAL_SERVER_ERROR, "An unexpected error occurred",
                            message + " - " + description),
                   INTERNAL_SERVER_ERROR)
  }

  /**
   * The handler chosen for an exception: the most specific of the four.
   * `description` is `request.getDescription(false)`.
   */
  function Handle(ex: Exception, description: string, now: Timestamp): (r: ResponseEntity)
    ensures r.body.status == r.status
    ensures r.body.timestamp == now
    ensures r.status == BAD_REQUEST <==> ex.BusinessException? || ex.MethodArgumentNotValidException?
    ensures r.status == NOT_FOUND <==> ex.NotFoundException?
    ensures r.status == INTERNAL_SERVER_ERROR <==> ex.OtherException?
    ensures ex.BusinessException? || ex.NotFoundException? ==>
              r.body.message == ex.message && r.body.details == description
    ensures ex.MethodArgumentNotValidException? ==>
              r.body.message == "Validation Error" &&
              r.body.details == FieldErrorsText(ex.fieldErrors) + " - " + description
    ensures ex.OtherException? ==>
              r.body.message == "An unexpected error occurred" && r.body.details == ex.message + " - " + description
  {
    match ex
    case BusinessException(message) => HandleBusinessException(message, description, now)
    case NotFoundException(message) => HandleNotFoundException(message, description, now)
    case MethodArgumentNotValidException(errors, _) => HandleValidationExceptions(errors, description, now)
    case OtherException(message) => HandleAllUncaughtException(message, description, now)
  }

  /** With no field errors the details are just the separator and the description. */
  lemma NoFieldErrors(description: string, now: Timestamp)
    ensures HandleValidationExceptions([], description, now).body.details == " - " + description
  {
  }

  /** One field error is printed alone, with no separator. */
  lemma OneFieldError(e: FieldError, description: string, now: Timestamp)
    ensures HandleValidationExceptions([e], description, now).body.details
            == e.field + ": " + e.defaultMessage + " - " + description
  {
    assert seq(1, i requires 0 <= i < 1 => FieldErrorText([e][i])) == [FieldErrorText(e)];
  }

  /** Two nonempty groups of field errors are printed apart, with one "; " between them. */
  lemma {:induction false} FieldErrorsAppend(a: seq<FieldError>, b: seq<FieldError>)
    requires |a| > 0 && |b| > 0
    ensures FieldErrorsText(a + b) == FieldErrorsText(a) + "; " + FieldErrorsText(b)
  {
    var ta := seq(|a|, i requires 0 <= i < |a| => FieldErrorText(a[i]));
    var tb := seq(|b|, i requires 0 <= i < |b| => FieldErrorText(b[i]));
    var ab := a + b;
    assert seq(|ab|, i requires 0 <= i < |ab| => FieldErrorText(ab[i])) == ta + tb;
    JoinAppend(ta, tb, "; ");
  }

  /** The planner's unsupported-mode failure becomes a 400 that names the mode. */
  lemma UnsupportedModeIsBadRequest(m: TransportMode, description: string, now: Timestamp)
    ensures Handle(UnsupportedMode(m), description, now).status.Code() == 400
    ensures Handle(UnsupportedMode(m), description, now).body.message
            == "Modo de transporte no soportado: " + ModeName(m)
  {
  }
}
