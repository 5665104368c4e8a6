/** The application's error value: status code, message, and a data record
    whose `errors` is normalised to a list, stamped with a timestamp. The
    environment (whether NODE_ENV is "development", the clock reading as an
    ISO string, the captured stack) is a parameter. */
module ApiErrors {
  import opened MeetingTypes

  datatype Env = Env(development: bool, timestamp: string, stack: string)

  /** The `errors` key of the data: absent, a list, or (from an untyped
      caller) a lone string. */
  datatype ErrorsField = NoErrors | ErrorList(items: seq<string>) | ErrorText(text: string)

  /** What `details` holds: the caught error (by name and message) or a
      field reference. */
  datatype Details = Cause(name: string, message: Option<string>) | FieldDetails(field: Option<string>)

  datatype ApiErrorData = ApiErrorData(
    errors: ErrorsField,
    details: Option<Details>,
    code: Option<string>,
    field: Option<string>,
    timestamp: Option<string>,
    path: Option<string>)

  const EmptyData := ApiErrorData(NoErrors, None, None, None, None, None)

  datatype ApiError = ApiError(
    statusCode: int,
    message: string,
    data: ApiErrorData,
    success: bool,
    isOperational: bool,
    name: string,
    stack: string)

  /** JavaScript truthiness of the `errors` value. */
  predicate ErrorsTruthy(e: ErrorsField) {
    e.ErrorList? || (e.ErrorText? && e.text != "")
  }

  /** `errors` after the constructor: a truthy non-list is wrapped in a list. */
  function NormaliseErrors(e: ErrorsField): (r: ErrorsField)
    ensures e.ErrorList? ==> r == e
    ensures e.ErrorText? && e.text != "" ==> r == ErrorList([e.text])
    ensures !ErrorsTruthy(e) ==> r == e
    ensures ErrorsTruthy(r) ==> r.ErrorList?
  {
    if ErrorsTruthy(e) && !e.ErrorList? then ErrorList([e.text]) else e
  }

  /** `new ApiError(statusCode, message, data?, isOperational = true)`. */
  function NewApiError(statusCode: int, message: string, data: Option<ApiErrorData>, isOperational: Option<bool>, env: Env)
    : (e: ApiError)
    ensures e.statusCode == statusCode && e.message == message
    ensures !e.success
    ensures e.isOperational == isOperational.GetOr(true)
    ensures e.name == "ApiError"
    ensures e.data.timestamp == Some(env.timestamp)
    ensures ErrorsTruthy(e.data.errors) ==> e.data.errors.ErrorList?
    ensures e.data.errors == NormaliseErrors(data.GetOr(EmptyData).errors)
    ensures var d := data.GetOr(EmptyData);
      e.data.details == d.details && e.data.code == d.code && e.data.field == d.field && e.data.path == d.path
  {
    var d := data.GetOr(EmptyData);
    ApiError(statusCode, message,
      d.(errors := NormaliseErrors(d.errors), timestamp := Some(env.timestamp)),
      false, isOperational.GetOr(true), "ApiError", env.stack)
  }

  /** The factories whose `errors` is the message itself. */
  datatype ClientKind =
    | BadRequest | Forbidden | NotFound | Unauthorized | Internal
    | Conflict | TooManyRequests | FileTooLarge | UnsupportedMedia

  function ClientStatus(kind: ClientKind): int {
    match kind
    case BadRequest => 400
    case Unauthorized => 401
    case Forbidden => 403
    case NotFound => 404
    case Conflict => 409
    case FileTooLarge => 413
    case UnsupportedMedia => 415
    case TooManyRequests => 429
    case Internal => 500
  }

  function ClientCode(kind: ClientKind): string {
    match kind
    case BadRequest => "BAD_REQUEST"
    case Unauthorized => "UNAUTHORIZED"
    case Forbidden => "FORBIDDEN"
    case NotFound => "NOT_FOUND"
    case Conflict => "CONFLICT"
    case FileTooLarge => "FILE_TOO_LARGE"
    case UnsupportedMedia => "UNSUPPORTED_MEDIA_TYPE"
    case TooManyRequests => "TOO_MANY_REQUESTS"
    case Internal => "INTERNAL_ERROR"
  }

  function ClientDefaultMessage(kind: ClientKind): string {
    match kind
    case BadRequest => "Bad request"
    case Unauthorized => "Unauthorized"
    case Forbidden => "Forbidden"
    case NotFound => "Resource not found"
    case Conflict => "Conflict"
    case FileTooLarge => "Uploaded file is too large"
    case UnsupportedMedia => "Unsupported file format"
    case TooManyRequests => "Too many requests"
    case Internal => "Internal server error"
  }

  /** `ApiError.badRequest`, `forbidden`, `notFound`, `unauthorized`,
      `internal`, `conflict`, `tooManyRequests`, `fileTooLarge` and
      `unsupportedMedia`; an absent message takes the factory's default. */
  function ClientError(kind: ClientKind, message: Option<string>, details: Option<Details>, env: Env): ApiError {
    var msg := message.GetOr(ClientDefaultMessage(kind));
    NewApiError(ClientStatus(kind), msg,
      Some(ApiErrorData(ErrorList([msg]), details, Some(ClientCode(kind)), None, None, None)), None, env)
  }

  /** The arguments of `validationError`: a list or a lone message. */
  datatype ValidationErrors = Messages(items: seq<string>) | Message(text: string)

  /** `ApiError.validationError`. */
  function ValidationError(errors: ValidationErrors, details: Option<Details>, env: Env): ApiError {
    var errorArray := match errors case Messages(items) => items case Message(text) => [text];
    NewApiError(422, "Validation failed",
      Some(ApiErrorData(ErrorList(errorArray), details, Some("VALIDATION_ERROR"), None, None, None)), None, env)
  }

  /** The factories for a failing upstream service, with fixed `errors` texts. */
  datatype UpstreamKind = ServiceUnavailable | BadGateway | GatewayTimeout

  function UpstreamStatus(kind: UpstreamKind): int {
    match kind
    case ServiceUnavailable => 503
    case BadGateway => 502
    case GatewayTimeout => 504
  }

  function UpstreamCode(kind: UpstreamKind): string {
    match kind
    case ServiceUnavailable => "SERVICE_UNAVAILABLE"
    case BadGateway => "BAD_GATEWAY"
    case GatewayTimeout => "GATEWAY_TIMEOUT"
  }

  function UpstreamDefaultMessage(kind: UpstreamKind): string {
    match kind
    case ServiceUnavailable => "Service temporarily unavailable"
    case BadGateway => "Bad gateway"
    case GatewayTimeout => "Gateway timeout"
  }

  function UpstreamText(kind: UpstreamKind): string {
    match kind
    case ServiceUnavailable => "The service is temporarily down. Please try again later."
    case BadGateway => "External service error. Please try again later."
    case GatewayTimeout => "The request took too long to complete. Please try again later."
  }

  /** `ApiError.serviceUnavailable`, `badGateway` and `gatewayTimeout`. */
  function UpstreamError(kind: UpstreamKind, message: Option<string>, details: Option<Details>, env: Env): ApiError {
    NewApiError(UpstreamStatus(kind), message.GetOr(UpstreamDefaultMessage(kind)),
      Some(ApiErrorData(ErrorList([UpstreamText(kind)]), if env.development then details else None,
                        Some(UpstreamCode(kind)), None, None, None)), None, env)
  }

  /** The fields `development` adds to the JSON form. */
  datatype DevFields = DevFields(path: Option<string>, stack: string, details: Option<Details>)

  /** The JSON form of an error. */
  datatype ErrorJson = ErrorJson(
    success: bool,
    statusCode: int,
    message: string,
    errors: ErrorsField,
    code: Option<string>,
    timestamp: Option<string>,
    dev: Option<DevFields>)

  /** `toJSON`. */
  function ToJson(e: ApiError, env: Env): (j: ErrorJson)
    ensures j.success == e.success && j.statusCode == e.statusCode && j.message == e.message
    ensures j.errors == e.data.errors && j.code == e.data.code && j.timestamp == e.data.timestamp
    ensures j.dev.Some? <==> env.development
    ensures j.dev.Some? ==> j.dev.value == DevFields(e.data.path, e.stack, e.data.details)
  {
    ErrorJson(e.success, e.statusCode, e.message, e.data.errors, e.data.code, e.data.timestamp,
      if env.development then Some(DevFields(e.data.path, e.stack, e.data.details)) else None)
  }

  // ---------------------------------------------------------------------------
  // Properties of the factories

  /** The client factories: their status and code, the message (or its
      default) as the only entry of `errors`, the details kept. */
  lemma ClientErrorShape(kind: ClientKind, message: Option<string>, details: Option<Details>, env: Env)
    ensures var e := ClientError(kind, message, details, env);
      && e.statusCode == ClientStatus(kind) && 400 <= e.statusCode <= 500
      && e.message == message.GetOr(ClientDefaultMessage(kind))
      && e.data.errors == ErrorList([e.message])
      && e.data.code == Some(ClientCode(kind))
      && e.data.details == details
      && !e.success && e.isOperational
  {
  }

  /** Different factories never share a status code. */
  lemma ClientStatusInjective(a: ClientKind, b: ClientKind)
    requires ClientStatus(a) == ClientStatus(b)
    ensures a == b
  {
  }

  /** `validationError` wraps a lone message, keeps a list, and always says
      'Validation failed'. */
  lemma ValidationErrorShape(errors: ValidationErrors, details: Option<Details>, env: Env)
    ensures var e := ValidationError(errors, details, env);
      && e.statusCode == 422 && e.message == "Validation failed"
      && e.data.code == Some("VALIDATION_ERROR")
      && (errors.Messages? ==> e.data.errors == ErrorList(errors.items))
      && (errors.Message? ==> e.data.errors == ErrorList([errors.text]))
      && e.data.details == details
  {
  }

  /** The upstream factories use fixed texts and keep `details` only in
      development. */
  lemma UpstreamErrorShape(kind: UpstreamKind, message: Option<string>, details: Option<Details>, env: Env)
    ensures var e := UpstreamError(kind, message, details, env);
      && e.statusCode == UpstreamStatus(kind) && 502 <= e.statusCode <= 504
      && e.message == message.GetOr(UpstreamDefaultMessage(kind))
      && e.data.errors == ErrorList([UpstreamText(kind)])
      && e.data.code == Some(UpstreamCode(kind))
      && (e.data.details.Some? ==> env.development)
      && (env.development ==> e.data.details == details)
  {
  }

  /** Every error a factory makes is operational and unsuccessful, and its
      `errors` is a list. */
  lemma FactoriesNormalised(e: ApiError, kind: ClientKind, up: UpstreamKind, v: ValidationErrors,
                            message: Option<string>, details: Option<Details>, env: Env)
    requires e == ClientError(kind, message, details, env) || e == UpstreamError(up, message, details, env)
          || e == ValidationError(v, details, env)
    ensures !e.success && e.isOperational && e.data.errors.ErrorList? && e.data.timestamp == Some(env.timestamp)
  {
  }

  /** The constructor leaves an empty-string `errors` as it is, whatever the
      status, message, other data keys and flag: only truthy values are
      wrapped, so such an error carries no list. */
  lemma EmptyTextErrorsNotWrapped(statusCode: int, message: string, data: ApiErrorData,
                                  isOperational: Option<bool>, env: Env)
    requires data.errors == ErrorText("")
    ensures var e := NewApiError(statusCode, message, Some(data), isOperational, env);
      e.data.errors == ErrorText("") && !e.data.errors.ErrorList?
  {
  }
}
