/**
 * The API's own error taxonomy (apps/api/utils/errors.js): a base error and
 * seven kinds. Unlike the shared package, a default message is used only
 * when the argument is omitted, so an explicit empty message is kept, and
 * there is neither a validation nor a rate-limit kind.
 */
module ApiErrors {
  import opened Wrappers
  import CommonErrors

  /** The seven subclasses of the base error; together with it, the eight exported classes. */
  datatype Kind =
    | NotFound
    | Unauthorized
    | Forbidden
    | BadRequest
    | Conflict
    | InsufficientFunds
    | DailyLimitExceeded

  datatype AppError = AppError(message: string, statusCode: int, code: string)

  const BaseStatus := 500
  const BaseCode := "INTERNAL_ERROR"

  function StatusOf(k: Kind): (s: int)
    ensures 400 <= s < 500
  {
    match k
    case NotFound => 404
    case Unauthorized => 401
    case Forbidden => 403
    case BadRequest => 400
    case Conflict => 409
    case InsufficientFunds => 422
    case DailyLimitExceeded => 429
  }

  function CodeOf(k: Kind): (c: string)
    ensures c != BaseCode
  {
    match k
    case NotFound => "NOT_FOUND"
    case Unauthorized => "UNAUTHORIZED"
    case Forbidden => "FORBIDDEN"
    case BadRequest => "BAD_REQUEST"
    case Conflict => "CONFLICT"
    case InsufficientFunds => "INSUFFICIENT_FUNDS"
    case DailyLimitExceeded => "DAILY_LIMIT_EXCEEDED"
  }

  function DefaultMessage(k: Kind): (m: string)
    ensures m != ""
  {
    match k
    case NotFound => "Not found"
    case Unauthorized => "Unauthorized"
    case Forbidden => "Forbidden"
    case BadRequest => "Bad request"
    case Conflict => "Conflict"
    case InsufficientFunds => "Insufficient funds"
    case DailyLimitExceeded => "Daily credit limit exceeded"
  }

  /** `new AppError(message, statusCode, code)` with its two defaulted parameters. */
  function NewAppError(message: Option<string>, statusCode: Option<int>, code: Option<string>): (e: AppError)
    ensures statusCode.None? ==> e.statusCode == BaseStatus
    ensures statusCode.Some? ==> e.statusCode == statusCode.value
    ensures code.None? ==> e.code == BaseCode
    ensures code.Some? ==> e.code == code.value
    ensures message.None? ==> e.message == ""
    ensures message.Some? ==> e.message == message.value
  {
    AppError(message.GetOr(""), statusCode.GetOr(BaseStatus), code.GetOr(BaseCode))
  }

  /** `new XError(message)`: the default applies only to an omitted message. */
  function NewError(k: Kind, message: Option<string>): (e: AppError)
    ensures e.statusCode == StatusOf(k) && e.code == CodeOf(k)
    ensures e.code != BaseCode && 400 <= e.statusCode < 500
    ensures message.None? ==> e.message == DefaultMessage(k)
    ensures message.Some? ==> e.message == message.value
  {
    AppError(message.GetOr(DefaultMessage(k)), StatusOf(k), CodeOf(k))
  }

  /** The shared package's kind of the same name. */
  function ToCommonKind(k: Kind): (c: CommonErrors.Kind)
    ensures CommonErrors.StatusOf(c) == StatusOf(k)
    ensures CommonErrors.CodeOf(c) == CodeOf(k)
    ensures c != CommonErrors.Validation && c != CommonErrors.RateLimit
  {
    match k
    case NotFound => CommonErrors.NotFound
    case Unauthorized => CommonErrors.Unauthorized
    case Forbidden => CommonErrors.Forbidden
    case BadRequest => CommonErrors.BadRequest
    case Conflict => CommonErrors.Conflict
    case InsufficientFunds => CommonErrors.InsufficientFunds
    case DailyLimitExceeded => CommonErrors.DailyLimitExceeded
  }

  /** Distinct API kinds have distinct codes, inherited from the shared package. */
  lemma CodesDistinct(k1: Kind, k2: Kind)
    requires CodeOf(k1) == CodeOf(k2)
    ensures k1 == k2
  {
    CommonErrors.CodesDistinct(ToCommonKind(k1), ToCommonKind(k2));
  }

  /**
   * The two packages agree on the default message only for a bad request,
   * insufficient funds and the daily limit; the other four read differently.
   */
  lemma SharedDefaultMessages(k: Kind)
    ensures DefaultMessage(k) == CommonErrors.DefaultMessage(ToCommonKind(k))
            <==> k == BadRequest || k == InsufficientFunds || k == DailyLimitExceeded
  {
    match k
    case NotFound =>
    case Unauthorized =>
    case Forbidden =>
    case BadRequest =>
    case Conflict =>
    case InsufficientFunds =>
    case DailyLimitExceeded =>
  }

  /**
   * An explicitly empty message survives here but is replaced by the
   * default in the shared package; an omitted one is defaulted by both.
   */
  lemma EmptyMessageDiverges(k: Kind)
    ensures NewError(k, Some("")).message == ""
    ensures CommonErrors.NewError(ToCommonKind(k), Some("")).message != ""
    ensures NewError(k, None).message != ""
  {
  }
}
