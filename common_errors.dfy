/**
 * The shared error taxonomy (packages/common/errors.js): a base application
 * error with a configurable HTTP status and code, nine fixed kinds derived
 * from it, and the JSON body each one renders to.
 *
 * A constructor argument that JavaScript sees as `undefined` is `None`.
 */
module CommonErrors {
  import opened Wrappers
  import opened Json

  /** The nine subclasses of the base error. */
  datatype Kind =
    | Validation
    | NotFound
    | Unauthorized
    | Forbidden
    | Conflict
    | RateLimit
    | BadRequest
    | InsufficientFunds
    | DailyLimitExceeded

  /**
   * An error object: its class name, message, HTTP status and code, and the
   * `details` property, which only a validation error has.
   */
  datatype AppError = AppError(
    name: string,
    message: string,
    statusCode: int,
    code: string,
    details: Option<Value>)

  /** The body `toJSON` produces; `details` is `None` when the key is absent. */
  datatype ErrorJson = ErrorJson(error: string, message: string, details: Option<Value>)

  const BaseStatus := 500
  const BaseCode := "INTERNAL_ERROR"

  function ClassName(k: Kind): string {
    match k
    case Validation => "ValidationError"
    case NotFound => "NotFoundError"
    case Unauthorized => "UnauthorizedError"
    case Forbidden => "ForbiddenError"
    case Conflict => "ConflictError"
    case RateLimit => "RateLimitError"
    case BadRequest => "BadRequestError"
    case InsufficientFunds => "InsufficientFundsError"
    case DailyLimitExceeded => "DailyLimitExceededError"
  }

  function StatusOf(k: Kind): (s: int)
    ensures 400 <= s < 500
  {
    match k
    case Validation => 400
    case NotFound => 404
    case Unauthorized => 401
    case Forbidden => 403
    case Conflict => 409
    case RateLimit => 429
    case BadRequest => 400
    case InsufficientFunds => 422
    case DailyLimitExceeded => 429
  }

  function CodeOf(k: Kind): (c: string)
    ensures c != BaseCode
  {
    match k
    case Validation => "VALIDATION_ERROR"
    case NotFound => "NOT_FOUND"
    case Unauthorized => "UNAUTHORIZED"
    case Forbidden => "FORBIDDEN"
    case Conflict => "CONFLICT"
    case RateLimit => "RATE_LIMIT"
    case BadRequest => "BAD_REQUEST"
    case InsufficientFunds => "INSUFFICIENT_FUNDS"
    case DailyLimitExceeded => "DAILY_LIMIT_EXCEEDED"
  }

  function DefaultMessage(k: Kind): (m: string)
    ensures m != ""
  {
    match k
    case Validation => "Validation failed"
    case NotFound => "Resource not found"
    case Unauthorized => "Authentication required"
    case Forbidden => "Insufficient permissions"
    case Conflict => "Resource conflict"
    case RateLimit => "Too many requests"
    case BadRequest => "Bad request"
    case InsufficientFunds => "Insufficient funds"
    case DailyLimitExceeded => "Daily credit limit exceeded"
  }

  /** `undefined` and `""` are the falsy strings that `message || default` replaces. */
  predicate FalsyMessage(message: Option<string>) {
    message.None? || message.value == ""
  }

  /** `new AppError(message, statusCode, code)` with its two defaulted parameters. */
  function NewAppError(message: Option<string>, statusCode: Option<int>, code: Option<string>): (e: AppError)
    ensures e.name == "AppError" && e.details.None?
    ensures statusCode.None? ==> e.statusCode == BaseStatus
    ensures statusCode.Some? ==> e.statusCode == statusCode.value
    ensures code.None? ==> e.code == BaseCode
    ensures code.Some? ==> e.code == code.value
    ensures message.None? ==> e.message == ""
    ensures message.Some? ==> e.message == message.value
  {
    AppError("AppError", message.GetOr(""), statusCode.GetOr(BaseStatus), code.GetOr(BaseCode), None)
  }

  /** `new ValidationError(message, details)`: `details || null` is stored. */
  function NewValidationError(message: Option<string>, details: Option<Value>): (e: AppError)
    ensures e.name == "ValidationError"
    ensures e.statusCode == 400 && e.code == "VALIDATION_ERROR"
    ensures e.message != ""
    ensures FalsyMessage(message) ==> e.message == DefaultMessage(Validation)
    ensures !FalsyMessage(message) ==> e.message == message.value
    ensures e.details.Some?
    ensures details.Some? && Truthy(details.value) ==> e.details == details
    ensures details.None? || !Truthy(details.value) ==> e.details == Some(Null)
  {
    var m := if FalsyMessage(message) then DefaultMessage(Validation) else message.value;
    var d := if details.Some? && Truthy(details.value) then details.value else Null;
    AppError(ClassName(Validation), m, StatusOf(Validation), CodeOf(Validation), Some(d))
  }

  /**
   * `new XError(message)` for each of the nine kinds (a validation error
   * built this way has no details).
   */
  function NewError(k: Kind, message: Option<string>): (e: AppError)
    ensures e.name == ClassName(k)
    ensures e.statusCode == StatusOf(k) && e.code == CodeOf(k)
    ensures e.message != ""
    ensures FalsyMessage(message) ==> e.message == DefaultMessage(k)
    ensures !FalsyMessage(message) ==> e.message == message.value
    ensures k == Validation <==> e.details.Some?
    ensures k == Validation ==> e.details == Some(Null)
  {
    if k == Validation then NewValidationError(message, None)
    else
      var m := if FalsyMessage(message) then DefaultMessage(k) else message.value;
      AppError(ClassName(k), m, StatusOf(k), CodeOf(k), None)
  }

  /**
   * `toJSON()`: the base class renders `{ error, message }`; a validation
   * error adds `details` when it is truthy.
   */
  function ToJSON(e: AppError): (j: ErrorJson)
    ensures j.error == e.code && j.message == e.message
    ensures j.details.Some? <==> e.details.Some? && Truthy(e.details.value)
    ensures j.details.Some? ==> j.details == e.details
  {
    var d := if e.details.Some? && Truthy(e.details.value) then e.details else None;
    ErrorJson(e.code, e.message, d)
  }

  /** Recovers the kind from its code; the base code belongs to no kind. */
  function KindOfCode(code: string): (k: Option<Kind>)
    ensures k.Some? ==> CodeOf(k.value) == code
  {
    match code
    case "VALIDATION_ERROR" => Some(Validation)
    case "NOT_FOUND" => Some(NotFound)
    case "UNAUTHORIZED" => Some(Unauthorized)
    case "FORBIDDEN" => Some(Forbidden)
    case "CONFLICT" => Some(Conflict)
    case "RATE_LIMIT" => Some(RateLimit)
    case "BAD_REQUEST" => Some(BadRequest)
    case "INSUFFICIENT_FUNDS" => Some(InsufficientFunds)
    case "DAILY_LIMIT_EXCEEDED" => Some(DailyLimitExceeded)
    case _ => None
  }

  /** Every kind's code maps back to that kind. */
  lemma KindOfCodeRoundTrip(k: Kind)
    ensures KindOfCode(CodeOf(k)) == Some(k)
  {
  }

  /**
   * The codes are pairwise distinct, although the statuses are not (two
   * kinds answer 400 and two answer 429): the code alone identifies the kind.
   */
  lemma CodesDistinct(k1: Kind, k2: Kind)
    requires CodeOf(k1) == CodeOf(k2)
    ensures k1 == k2
  {
    KindOfCodeRoundTrip(k1);
    KindOfCodeRoundTrip(k2);
  }

  /** A kind's rendered body carries its code, whichever message was given. */
  lemma RenderedBodyIdentifiesKind(k: Kind, message: Option<string>)
    ensures KindOfCode(ToJSON(NewError(k, message)).error) == Some(k)
    ensures ToJSON(NewError(k, message)).details.None?
  {
    KindOfCodeRoundTrip(k);
  }

  /** A validation error's body has `details` exactly when truthy details were given. */
  lemma ValidationDetailsRendered(message: Option<string>, details: Option<Value>)
    ensures ToJSON(NewValidationError(message, details)).details.Some?
            <==> details.Some? && Truthy(details.value)
  {
  }
}
