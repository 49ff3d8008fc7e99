/**
 * The application error record, its message form, its cause, and the
 * constructors for the common failure kinds, each fixing a code, an HTTP
 * status and a details text. A cause is represented by its message.
 */
module AppErrors {
  import opened Wrappers

  datatype AppError = AppError(code: string, message: string, details: string, statusCode: int,
                               fields: map<string, string>, cause: Option<string>)

  /** Error(): "message: details", or the message alone when there are no details. */
  function ErrorText(e: AppError): string {
    if e.details != "" then e.message + ": " + e.details else e.message
  }

  /** Unwrap: the wrapped cause. */
  function Unwrap(e: AppError): Option<string> {
    e.cause
  }

  function NewValidationError(message: string, fields: map<string, string>): AppError {
    AppError("VALIDATION_ERROR", message, "One or more fields failed validation", 400, fields, None)
  }

  function NewNotFoundError(resource: string): AppError {
    AppError("NOT_FOUND", resource + " not found", "The requested resource was not found", 404, map[], None)
  }

  function NewUnauthorizedError(message: string): AppError {
    AppError("UNAUTHORIZED", message, "Authentication required or invalid credentials", 401, map[], None)
  }

  function NewForbiddenError(message: string): AppError {
    AppError("FORBIDDEN", message, "Insufficient permissions to access this resource", 403, map[], None)
  }

  function NewConflictError(message: string): AppError {
    AppError("CONFLICT", message, "The request conflicts with the current state of the resource", 409, map[], None)
  }

  function NewDatabaseError(message: string, cause: Option<string>): AppError {
    AppError("DATABASE_ERROR", message, "Database operation failed", 500, map[], cause)
  }

  function NewInternalServerError(message: string, cause: Option<string>): AppError {
    AppError("INTERNAL_SERVER_ERROR", message, "An unexpected error occurred on the server", 500, map[], cause)
  }

  function NewBusinessLogicError(message: string): AppError {
    AppError("BUSINESS_LOGIC_ERROR", message, "The operation violates business rules", 400, map[], None)
  }

  function NewExternalServiceError(service: string, message: string, cause: Option<string>): AppError {
    AppError("EXTERNAL_SERVICE_ERROR", service + " service error: " + message,
             "External service is currently unavailable", 503, map[], cause)
  }

  function NewRateLimitError(message: string): AppError {
    AppError("RATE_LIMIT_EXCEEDED", message, "Too many requests, please try again later", 429, map[], None)
  }

  function NewTimeoutError(operation: string): AppError {
    AppError("TIMEOUT_ERROR", operation + " operation timed out", "The operation took too long to complete", 408, map[], None)
  }

  /** The kinds of error the constructors make, with the arguments each takes. */
  datatype Kind =
    | Validation(vMessage: string, vFields: map<string, string>)
    | NotFound(resource: string)
    | Unauthorized(uMessage: string)
    | Forbidden(fMessage: string)
    | Conflict(cMessage: string)
    | Database(dMessage: string, dCause: Option<string>)
    | Internal(iMessage: string, iCause: Option<string>)
    | BusinessLogic(bMessage: string)
    | ExternalService(service: string, eMessage: string, eCause: Option<string>)
    | RateLimit(rMessage: string)
    | Timeout(operation: string)

  /** The constructor each kind calls. */
  function Make(k: Kind): AppError {
    match k
    case Validation(m, f) => NewValidationError(m, f)
    case NotFound(r) => NewNotFoundError(r)
    case Unauthorized(m) => NewUnauthorizedError(m)
    case Forbidden(m) => NewForbiddenError(m)
    case Conflict(m) => NewConflictError(m)
    case Database(m, c) => NewDatabaseError(m, c)
    case Internal(m, c) => NewInternalServerError(m, c)
    case BusinessLogic(m) => NewBusinessLogicError(m)
    case ExternalService(s, m, c) => NewExternalServiceError(s, m, c)
    case RateLimit(m) => NewRateLimitError(m)
    case Timeout(o) => NewTimeoutError(o)
  }

  /** The code and status table the constructors implement. */
  const StatusOf: map<string, int> := map[
    "VALIDATION_ERROR" := 400,
    "NOT_FOUND" := 404,
    "UNAUTHORIZED" := 401,
    "FORBIDDEN" := 403,
    "CONFLICT" := 409,
    "DATABASE_ERROR" := 500,
    "INTERNAL_SERVER_ERROR" := 500,
    "BUSINESS_LOGIC_ERROR" := 400,
    "EXTERNAL_SERVICE_ERROR" := 503,
    "RATE_LIMIT_EXCEEDED" := 429,
    "TIMEOUT_ERROR" := 408
  ]

  /** Every constructed error carries a code of the table with that code's status, so the code alone determines the status. */
  lemma CodeFixesStatus(k: Kind)
    ensures Make(k).code in StatusOf && Make(k).statusCode == StatusOf[Make(k).code]
  {
  }

  /** Constructed errors with equal codes have equal statuses; only the database, internal and external-service kinds get a 5xx status. */
  lemma SameCodeSameStatus(k1: Kind, k2: Kind)
    ensures Make(k1).code == Make(k2).code ==> Make(k1).statusCode == Make(k2).statusCode
    ensures 400 <= Make(k1).statusCode < 600
    ensures Make(k1).statusCode >= 500 <==> k1.Database? || k1.Internal? || k1.ExternalService?
  {
    CodeFixesStatus(k1);
    CodeFixesStatus(k2);
  }

  /** Every constructor fills in details, so a constructed error always prints as "message: details". */
  lemma ConstructedErrorText(k: Kind)
    ensures Make(k).details != ""
    ensures ErrorText(Make(k)) == Make(k).message + ": " + Make(k).details
  {
  }

  /**
   * Error() always begins with the message, and is the message alone exactly
   * when there are no details.
   */
  lemma ErrorTextMeaning(e: AppError)
    ensures e.message <= ErrorText(e)
    ensures ErrorText(e) == e.message <==> e.details == ""
  {
  }

  /** Only the database, internal and external-service constructors keep a cause, and they keep the one given. */
  lemma UnwrapGivesCause(k: Kind)
    ensures k.Database? ==> Unwrap(Make(k)) == k.dCause
    ensures k.Internal? ==> Unwrap(Make(k)) == k.iCause
    ensures k.ExternalService? ==> Unwrap(Make(k)) == k.eCause
    ensures !(k.Database? || k.Internal? || k.ExternalService?) ==> Unwrap(Make(k)) == None
  {
  }

  /**
   * The three formatted messages, and the validation fields kept as given;
   * the not-found and timeout messages name their resource and operation
   * unambiguously.
   */
  lemma MessageFormats(resource: string, service: string, message: string, operation: string, fields: map<string, string>,
                       resource2: string, operation2: string)
    ensures NewNotFoundError(resource).message == resource + " not found"
    ensures NewExternalServiceError(service, message, None).message == service + " service error: " + message
    ensures NewTimeoutError(operation).message == operation + " operation timed out"
    ensures NewValidationError(message, fields).fields == fields
    ensures NewNotFoundError(resource).message == NewNotFoundError(resource2).message ==> resource == resource2
    ensures NewTimeoutError(operation).message == NewTimeoutError(operation2).message ==> operation == operation2
  {
    if NewNotFoundError(resource).message == NewNotFoundError(resource2).message {
      assert (resource + " not found")[..|resource|] == resource;
      assert (resource2 + " not found")[..|resource2|] == resource2;
    }
    if NewTimeoutError(operation).message == NewTimeoutError(operation2).message {
      assert (operation + " operation timed out")[..|operation|] == operation;
      assert (operation2 + " operation timed out")[..|operation2|] == operation2;
    }
  }
}
