/** The wrapper around every route handler: a handler that completes calls no
    `next`; one that fails calls `next` exactly once, with the failure turned
    into an `ApiError` by the first of an ordered list of rules that matches. */
module AsyncHandler {
  import opened MeetingTypes
  import opened ApiErrors

  /** `error.code`: absent, a number (the store's 11000), or a text code. */
  datatype ErrorCode = NoCode | NumericCode(n: int) | TextCode(s: string)

  datatype AxiosResponse = AxiosResponse(status: int, statusText: string)

  /** The fields of a thrown value the rules look at. `fieldErrors` are the
      messages of `Object.values(error.errors)` and `keyValueKeys` the keys of
      `error.keyValue`, in order; `value` is `error.value` as text. */
  datatype ErrorObject = ErrorObject(
    name: string,
    message: Option<string>,
    code: ErrorCode,
    fieldErrors: seq<string>,
    keyValueKeys: seq<string>,
    path: string,
    value: string,
    isMulterError: bool,
    field: Option<string>,
    isAxiosError: bool,
    response: Option<AxiosResponse>)

  datatype Thrown = ThrownApiError(error: ApiError) | ThrownObject(obj: ErrorObject)

  /** How the wrapped handler finishes. */
  datatype Completion = Resolved | Failed(thrown: Thrown)

  /** The rules, in the order they are tried. */
  datatype Rule =
    | PassThrough | Validation | DuplicateKey | Cast | InvalidToken | ExpiredToken
    | FileSize | Upload | External | Fallback

  function Rank(r: Rule): nat {
    match r
    case PassThrough => 0
    case Validation => 1
    case DuplicateKey => 2
    case Cast => 3
    case InvalidToken => 4
    case ExpiredToken => 5
    case FileSize => 6
    case Upload => 7
    case External => 8
    case Fallback => 9
  }

  /** The test of each rule on its own, regardless of the others. */
  predicate Matches(t: Thrown, r: Rule) {
    match r
    case PassThrough => t.ThrownApiError?
    case Validation => t.ThrownObject? && t.obj.name == "ValidationError"
    case DuplicateKey => t.ThrownObject? && t.obj.code == NumericCode(11000)
    case Cast => t.ThrownObject? && t.obj.name == "CastError"
    case InvalidToken => t.ThrownObject? && t.obj.name == "JsonWebTokenError"
    case ExpiredToken => t.ThrownObject? && t.obj.name == "TokenExpiredError"
    case FileSize => t.ThrownObject? && t.obj.isMulterError && t.obj.code == TextCode("LIMIT_FILE_SIZE")
    case Upload => t.ThrownObject? && t.obj.isMulterError && t.obj.code != TextCode("LIMIT_FILE_SIZE")
    case External => t.ThrownObject? && t.obj.isAxiosError
    case Fallback => t.ThrownObject?
  }

  /** The rule the handler applies: the chain of tests in source order. */
  function RuleOf(t: Thrown): Rule {
    if t.ThrownApiError? then PassThrough
    else
      var o := t.obj;
      if o.name == "ValidationError" then Validation
      else if o.code == NumericCode(11000) then DuplicateKey
      else if o.name == "CastError" then Cast
      else if o.name == "JsonWebTokenError" then InvalidToken
      else if o.name == "TokenExpiredError" then ExpiredToken
      else if o.isMulterError then (if o.code == TextCode("LIMIT_FILE_SIZE") then FileSize else Upload)
      else if o.isAxiosError then External
      else Fallback
  }

  /** The chain picks the first rule, in rank order, whose test matches. */
  lemma RuleOfIsFirstMatch(t: Thrown, r: Rule)
    ensures RuleOf(t) == r <==> Matches(t, r) && forall q: Rule :: Rank(q) < Rank(r) ==> !Matches(t, q)
  {
    var chosen := RuleOf(t);
    assert Matches(t, chosen);
    if RuleOf(t) == r {
      forall q: Rule | Rank(q) < Rank(r)
        ensures !Matches(t, q)
      {
        match q
        case PassThrough =>
        case Validation =>
        case DuplicateKey =>
        case Cast =>
        case InvalidToken =>
        case ExpiredToken =>
        case FileSize =>
        case Upload =>
        case External =>
        case Fallback =>
      }
    } else if Matches(t, r) {
      assert Rank(chosen) < Rank(r) || Rank(r) < Rank(chosen) by {
        match r
        case PassThrough =>
        case Validation =>
        case DuplicateKey =>
        case Cast =>
        case InvalidToken =>
        case ExpiredToken =>
        case FileSize =>
        case Upload =>
        case External =>
        case Fallback =>
      }
      assert Rank(chosen) < Rank(r);
    }
  }

  function CauseOf(o: ErrorObject): Details {
    Cause(o.name, o.message)
  }

  /** `${field} already exists` with the first key of `keyValue`; JavaScript
      prints a missing key as "undefined". */
  function DuplicateKeyMessage(keys: seq<string>): string {
    (if |keys| == 0 then "undefined" else keys[0]) + " already exists"
  }

  function CastMessage(o: ErrorObject): string {
    "Invalid " + o.path + ": " + o.value
  }

  /** `error.response?.status || 502`. */
  function AxiosStatus(o: ErrorObject): int {
    if o.response.Some? && o.response.value.status != 0 then o.response.value.status else 502
  }

  /** The message of an external-service failure. */
  function AxiosMessage(o: ErrorObject): string {
    if o.code == TextCode("ECONNABORTED") then "External service timeout"
    else if o.response.Some? && o.response.value.statusText != "" then o.response.value.statusText
    else "External service error"
  }

  /** `error?.message || 'Something went wrong'`. */
  function FallbackMessage(o: ErrorObject): string {
    if o.message.Some? && o.message.value != "" then o.message.value else "Something went wrong"
  }

  /** The `ApiError` handed to `next` for a failure. */
  function Classify(t: Thrown, env: Env): ApiError {
    match RuleOf(t)
    case PassThrough => t.error
    case Validation => ValidationError(Messages(t.obj.fieldErrors), Some(CauseOf(t.obj)), env)
    case DuplicateKey =>
      ValidationError(Messages([DuplicateKeyMessage(t.obj.keyValueKeys)]), Some(CauseOf(t.obj)), env)
    case Cast => ValidationError(Messages([CastMessage(t.obj)]), Some(CauseOf(t.obj)), env)
    case InvalidToken => ClientError(Unauthorized, Some("Invalid token"), None, env)
    case ExpiredToken => ClientError(Unauthorized, Some("Token expired"), None, env)
    case FileSize =>
      ClientError(FileTooLarge, Some("Each uploaded file must be less than 5MB"), Some(FieldDetails(t.obj.field)), env)
    case Upload => ClientError(BadRequest, t.obj.message, Some(FieldDetails(t.obj.field)), env)
    case External =>
      UpstreamError(if AxiosStatus(t.obj) == 504 then GatewayTimeout else BadGateway,
                    Some(AxiosMessage(t.obj)), Some(CauseOf(t.obj)), env)
    case Fallback => ClientError(Internal, Some(FallbackMessage(t.obj)), Some(CauseOf(t.obj)), env)
  }

  /** The `next` calls the wrapper makes for one request. */
  function NextCalls(c: Completion, env: Env): (calls: seq<ApiError>)
    ensures |calls| <= 1
    ensures |calls| == 1 <==> c.Failed?
  {
    match c
    case Resolved => []
    case Failed(thrown) => [Classify(thrown, env)]
  }

  // ---------------------------------------------------------------------------
  // What each rule produces

  /** A failure calls `next` once, with its classification; a completed
      handler never calls it. */
  lemma FailureCallsNextOnce(c: Completion, env: Env)
    ensures c.Resolved? ==> NextCalls(c, env) == []
    ensures c.Failed? ==> NextCalls(c, env) == [Classify(c.thrown, env)]
  {
  }

  /** An `ApiError` is forwarded unchanged. */
  lemma ApiErrorPassesThrough(e: ApiError, env: Env)
    ensures Classify(ThrownApiError(e), env) == e
  {
  }

  /** Any other failure becomes an unsuccessful, operational error whose
      `errors` is a list and whose status is one the rules produce. */
  lemma ClassifiedShape(o: ErrorObject, env: Env)
    ensures var e := Classify(ThrownObject(o), env);
      && !e.success && e.isOperational && e.data.errors.ErrorList?
      && e.data.timestamp == Some(env.timestamp)
      && e.statusCode in {400, 401, 413, 422, 500, 502, 504}
  {
    var t := ThrownObject(o);
    var e := Classify(t, env);
    match RuleOf(t)
    case Validation => ValidationErrorShape(Messages(o.fieldErrors), Some(CauseOf(o)), env);
    case DuplicateKey => ValidationErrorShape(Messages([DuplicateKeyMessage(o.keyValueKeys)]), Some(CauseOf(o)), env);
    case Cast => ValidationErrorShape(Messages([CastMessage(o)]), Some(CauseOf(o)), env);
    case InvalidToken => ClientErrorShape(Unauthorized, Some("Invalid token"), None, env);
    case ExpiredToken => ClientErrorShape(Unauthorized, Some("Token expired"), None, env);
    case FileSize =>
      ClientErrorShape(FileTooLarge, Some("Each uploaded file must be less than 5MB"), Some(FieldDetails(o.field)), env);
    case Upload => ClientErrorShape(BadRequest, o.message, Some(FieldDetails(o.field)), env);
    case External =>
      var kind := if AxiosStatus(o) == 504 then GatewayTimeout else BadGateway;
      UpstreamErrorShape(kind, Some(AxiosMessage(o)), Some(CauseOf(o)), env);
    case Fallback => ClientErrorShape(Internal, Some(FallbackMessage(o)), Some(CauseOf(o)), env);
  }

  /** Store validation, duplicate-key and cast failures, and only they,
      become 422 'Validation failed'. */
  lemma ValidationRules(o: ErrorObject, env: Env)
    ensures var e := Classify(ThrownObject(o), env);
      (e.statusCode == 422) <==> (o.name == "ValidationError" || o.code == NumericCode(11000) || o.name == "CastError")
    ensures var e := Classify(ThrownObject(o), env);
      e.statusCode == 422 ==>
        (e.message == "Validation failed" && e.data.code == Some("VALIDATION_ERROR") && e.data.details == Some(CauseOf(o)))
    ensures o.name == "ValidationError" ==>
      Classify(ThrownObject(o), env).data.errors == ErrorList(o.fieldErrors)
    ensures o.name != "ValidationError" && o.code == NumericCode(11000) ==>
      Classify(ThrownObject(o), env).data.errors == ErrorList([DuplicateKeyMessage(o.keyValueKeys)])
    ensures o.name == "CastError" && o.code != NumericCode(11000) ==>
      Classify(ThrownObject(o), env).data.errors == ErrorList(["Invalid " + o.path + ": " + o.value])
  {
  }

  /** Token failures become 401 with their own message, unless an earlier
      rule caught them. */
  lemma TokenRules(o: ErrorObject, env: Env)
    requires o.code != NumericCode(11000)
    ensures o.name == "JsonWebTokenError" ==>
      var e := Classify(ThrownObject(o), env); e.statusCode == 401 && e.message == "Invalid token"
    ensures o.name == "TokenExpiredError" ==>
      var e := Classify(ThrownObject(o), env); e.statusCode == 401 && e.message == "Token expired"
    ensures Classify(ThrownObject(o), env).statusCode == 401 <==>
      o.name == "JsonWebTokenError" || o.name == "TokenExpiredError"
  {
  }

  /** Upload failures: an oversized file is 413 with the 5MB message, any other
      upload failure is 400 with the failure's own message; both name the field. */
  lemma UploadRules(o: ErrorObject, env: Env)
    requires o.isMulterError
    requires o.name !in {"ValidationError", "CastError", "JsonWebTokenError", "TokenExpiredError"}
    requires o.code != NumericCode(11000)
    ensures var e := Classify(ThrownObject(o), env);
      && e.data.details == Some(FieldDetails(o.field))
      && (o.code == TextCode("LIMIT_FILE_SIZE") ==>
            e.statusCode == 413 && e.message == "Each uploaded file must be less than 5MB")
      && (o.code != TextCode("LIMIT_FILE_SIZE") ==>
            e.statusCode == 400 && e.message == o.message.GetOr("Bad request"))
  {
  }

  /** External-service failures: 504 exactly when the response said 504,
      otherwise 502 (whatever the response said); the timeout message exactly
      when the code is ECONNABORTED. */
  lemma ExternalRules(o: ErrorObject, env: Env)
    requires o.isAxiosError && !o.isMulterError
    requires o.name !in {"ValidationError", "CastError", "JsonWebTokenError", "TokenExpiredError"}
    requires o.code != NumericCode(11000)
    ensures var e := Classify(ThrownObject(o), env);
      && (e.statusCode == 504 <==> o.response.Some? && o.response.value.status == 504)
      && (e.statusCode != 504 ==> e.statusCode == 502)
      && (e.message == "External service timeout" <==>
            o.code == TextCode("ECONNABORTED")
            || (o.response.Some? && o.response.value.statusText == "External service timeout"))
      && (o.response.None? && o.code != TextCode("ECONNABORTED") ==> e.message == "External service error")
      && (e.data.details.Some? <==> env.development)
  {
  }

  /** Anything no rule recognises is a 500 with its own message, or
      'Something went wrong' when it has none. */
  lemma FallbackRule(o: ErrorObject, env: Env)
    requires RuleOf(ThrownObject(o)) == Fallback
    ensures var e := Classify(ThrownObject(o), env);
      && e.statusCode == 500 && e.data.code == Some("INTERNAL_ERROR")
      && (o.message.Some? && o.message.value != "" ==> e.message == o.message.value)
      && (o.message.None? || o.message == Some("") ==> e.message == "Something went wrong")
  {
  }

  /** A store validation failure takes precedence over a duplicate-key code:
      its own messages are reported, not the duplicate key. */
  lemma ValidationBeforeDuplicateKey(o: ErrorObject, env: Env)
    requires o.name == "ValidationError" && o.code == NumericCode(11000)
    ensures RuleOf(ThrownObject(o)) == Validation
    ensures Classify(ThrownObject(o), env).data.errors == ErrorList(o.fieldErrors)
  {
  }
}
