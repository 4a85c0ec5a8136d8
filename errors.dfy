/** The OpenAI-style error envelope and the global exception handlers of
    app/main.py: every failure kind the request path can raise is turned into
    one fixed HTTP status and one stable machine-readable code. */
module Errors {
  import opened Wrappers

  /** `OpenAIErrorDetail`: the body of an error response. */
  datatype ErrorDetail = ErrorDetail(message: string, errType: string, param: Option<string>, code: Option<string>)

  /** An error response: status, body, and whether it carries the
      `WWW-Authenticate: Bearer` challenge header. */
  datatype ErrorReply = ErrorReply(status: int, detail: ErrorDetail, bearerChallenge: bool)

  /** What the request path can raise. Each upstream kind carries `str(exc)`.
      `HttpException` is what the proxy raises itself (already an error reply). */
  datatype Failure =
    | HttpException(reply: ErrorReply)
    | GeminiAuthError(text: string)
    | GeminiUsageLimitExceeded(text: string)
    | GeminiModelInvalid(text: string)
    | GeminiTemporarilyBlocked(text: string)
    | GeminiTimeoutError(text: string)
    | HttpxReadTimeout(text: string)
    | GeminiApiError(text: string)
    | GeminiGenericError(text: string)
    | OtherException(text: string)

  function Envelope(status: int, prefix: string, text: string, errType: string, param: Option<string>, code: string): (r: ErrorReply)
    ensures r.status == status && r.detail.code == Some(code) && r.detail.errType == errType
    ensures r.detail.param == param && !r.bearerChallenge
    ensures |r.detail.message| >= |text| && r.detail.message[|r.detail.message| - |text|..] == text
  {
    ErrorReply(status, ErrorDetail(prefix + ": " + text, errType, param, Some(code)), false)
  }

  /** The status each handler answers with. */
  function StatusOf(f: Failure): int {
    match f
    case HttpException(reply) => reply.status
    case GeminiAuthError(_) => 401
    case GeminiUsageLimitExceeded(_) => 429
    case GeminiModelInvalid(_) => 400
    case GeminiTemporarilyBlocked(_) => 429
    case GeminiTimeoutError(_) => 504
    case HttpxReadTimeout(_) => 504
    case GeminiApiError(_) => 502
    case GeminiGenericError(_) => 500
    case OtherException(_) => 500
  }

  /** The machine-readable code each handler answers with. */
  function CodeOf(f: Failure): Option<string> {
    match f
    case HttpException(reply) => reply.detail.code
    case GeminiAuthError(_) => Some("gemini_auth_failure")
    case GeminiUsageLimitExceeded(_) => Some("gemini_usage_limit")
    case GeminiModelInvalid(_) => Some("gemini_model_invalid")
    case GeminiTemporarilyBlocked(_) => Some("gemini_temporarily_blocked")
    case GeminiTimeoutError(_) => Some("gemini_timeout")
    case HttpxReadTimeout(_) => Some("upstream_read_timeout")
    case GeminiApiError(_) => Some("gemini_library_error")
    case GeminiGenericError(_) => Some("gemini_generic_error")
    case OtherException(_) => Some("internal_proxy_error")
  }

  /** The OpenAI error type each handler answers with. */
  function ErrTypeOf(f: Failure): string {
    match f
    case HttpException(reply) => reply.detail.errType
    case GeminiAuthError(_) => "authentication_error"
    case GeminiUsageLimitExceeded(_) => "insufficient_quota"
    case GeminiModelInvalid(_) => "invalid_request_error"
    case GeminiTemporarilyBlocked(_) => "rate_limit_exceeded"
    case _ => "api_error"
  }

  /** The fixed part of each handler's message, before `str(exc)`. */
  function MessagePrefix(f: Failure): string {
    match f
    case HttpException(_) => ""
    case GeminiAuthError(_) => "Authentication error with Gemini service (invalid or expired cookies?)"
    case GeminiUsageLimitExceeded(_) => "Usage limit for the Gemini model has been exceeded"
    case GeminiModelInvalid(_) => "The specified Gemini model is invalid or unavailable"
    case GeminiTemporarilyBlocked(_) => "Access to Gemini service temporarily blocked (possible IP block)"
    case GeminiTimeoutError(_) => "Timeout (Gemini library) while communicating with Gemini service"
    case HttpxReadTimeout(_) => "Timeout (httpx) while communicating with upstream service"
    case GeminiApiError(_) => "Error in the communication library for Gemini API"
    case GeminiGenericError(_) => "Generic error while interacting with Gemini service"
    case OtherException(_) => "Unexpected internal server error in proxy"
  }

  /** The exception handlers: HTTPException passes through unchanged,
      every other kind gets its fixed status, type and code, a message that
      ends with the exception's text, and no challenge header. */
  function HandleFailure(f: Failure): (r: ErrorReply)
    ensures f.HttpException? ==> r == f.reply
    ensures !f.HttpException? ==> r.status == StatusOf(f) && r.detail.code == CodeOf(f) && r.detail.errType == ErrTypeOf(f)
    ensures !f.HttpException? ==> (r.detail.param == Some("model") <==> f.GeminiModelInvalid?) && !r.bearerChallenge
    ensures !f.HttpException? ==> |r.detail.message| >= |f.text| && r.detail.message[|r.detail.message| - |f.text|..] == f.text
  {
    if f.HttpException? then f.reply
    else Envelope(StatusOf(f), MessagePrefix(f), f.text, ErrTypeOf(f), if f.GeminiModelInvalid? then Some("model") else None, CodeOf(f).value)
  }

  /** The handler table, row by row: (kind, status, code). */
  lemma HandlerTable(t: string)
    ensures StatusOf(GeminiAuthError(t)) == 401 && CodeOf(GeminiAuthError(t)) == Some("gemini_auth_failure")
    ensures StatusOf(GeminiUsageLimitExceeded(t)) == 429 && CodeOf(GeminiUsageLimitExceeded(t)) == Some("gemini_usage_limit")
    ensures StatusOf(GeminiModelInvalid(t)) == 400 && CodeOf(GeminiModelInvalid(t)) == Some("gemini_model_invalid")
    ensures StatusOf(GeminiTemporarilyBlocked(t)) == 429 && CodeOf(GeminiTemporarilyBlocked(t)) == Some("gemini_temporarily_blocked")
    ensures StatusOf(GeminiTimeoutError(t)) == 504 && CodeOf(GeminiTimeoutError(t)) == Some("gemini_timeout")
    ensures StatusOf(HttpxReadTimeout(t)) == 504 && CodeOf(HttpxReadTimeout(t)) == Some("upstream_read_timeout")
    ensures StatusOf(GeminiApiError(t)) == 502 && CodeOf(GeminiApiError(t)) == Some("gemini_library_error")
    ensures StatusOf(GeminiGenericError(t)) == 500 && CodeOf(GeminiGenericError(t)) == Some("gemini_generic_error")
    ensures StatusOf(OtherException(t)) == 500 && CodeOf(OtherException(t)) == Some("internal_proxy_error")
  {
  }

  /** The position of a failure's kind in the handler table. */
  function KindIndex(f: Failure): nat {
    match f
    case HttpException(_) => 0
    case GeminiAuthError(_) => 1
    case GeminiUsageLimitExceeded(_) => 2
    case GeminiModelInvalid(_) => 3
    case GeminiTemporarilyBlocked(_) => 4
    case GeminiTimeoutError(_) => 5
    case HttpxReadTimeout(_) => 6
    case GeminiApiError(_) => 7
    case GeminiGenericError(_) => 8
    case OtherException(_) => 9
  }

  /** Same failure kind, whatever the text. */
  predicate SameKind(a: Failure, b: Failure) {
    KindIndex(a) == KindIndex(b)
  }

  /** The reply's status and code depend on the kind only, and the code
      alone tells the upstream kinds apart. */
  lemma HandleFailureIsStableAndDistinct(a: Failure, b: Failure)
    requires !a.HttpException? && !b.HttpException?
    ensures SameKind(a, b) ==> HandleFailure(a).status == HandleFailure(b).status
    ensures SameKind(a, b) <==> HandleFailure(a).detail.code == HandleFailure(b).detail.code
  {
    CodesDistinct(a, b);
    if SameKind(a, b) {
      assert StatusOf(a) == StatusOf(b);
    }
  }

  lemma CodesDistinct(a: Failure, b: Failure)
    requires !a.HttpException? && !b.HttpException?
    ensures SameKind(a, b) <==> CodeOf(a) == CodeOf(b)
  {
    var ca, cb := CodeOf(a).value, CodeOf(b).value;
    if !SameKind(a, b) {
      // every code differs from every other in its length or in one character
      assert |ca| != |cb| || ca[7] != cb[7] || ca[8] != cb[8] || ca[0] != cb[0];
    }
  }

  // Errors the proxy raises itself as HTTPException.

  /** 401 `missing_authorization_header`. */
  const MissingAuthorization := ErrorReply(401,
    ErrorDetail("Authorization header is missing.", "authentication_error", None, Some("missing_authorization_header")), true)

  /** 401 `invalid_authorization_format`. */
  const InvalidAuthorizationFormat := ErrorReply(401,
    ErrorDetail("Invalid authorization header format. Expected 'Bearer <token>'.", "authentication_error", None, Some("invalid_authorization_format")), true)

  /** 403 `invalid_api_key`. */
  const InvalidApiKey := ErrorReply(403,
    ErrorDetail("Invalid API Key.", "authentication_error", None, Some("invalid_api_key")), false)

  /** 400 `missing_messages`. */
  const MissingMessages := ErrorReply(400,
    ErrorDetail("messages is a required field and cannot be empty.", "invalid_request_error", Some("messages"), Some("missing_messages")), false)

  /** 400 `invalid_prompt`. */
  const InvalidPrompt := ErrorReply(400,
    ErrorDetail("Could not extract a valid prompt from the messages provided.", "invalid_request_error", Some("messages"), Some("invalid_prompt")), false)
}
