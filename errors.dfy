/**
  The API's error taxonomy. Every exception the service raises carries an HTTP
  status, a human-readable detail and a machine-readable code; each kind fixes
  its status and supplies a default code (and, for two kinds, a default detail).
*/
module Errors {
  import opened Wrappers

  datatype ApiError = ApiError(status: int, detail: string, code: string)

  /** The exception classes derived from the base API exception. */
  datatype ErrorKind = ChatError | ProfileError | ConfigError | AuthenticationError | RateLimitError

  /** The base exception: the status and detail as given, the code "ERROR" unless one is supplied. */
  function BaseApiException(status: int, detail: string, code: string := "ERROR"): (e: ApiError)
    ensures e.status == status && e.detail == detail && e.code == code
  {
    ApiError(status, detail, code)
  }

  function ChatException(detail: string, code: string := "CHAT_ERROR"): (e: ApiError)
    ensures e.status == 400 && e.detail == detail && e.code == code
  {
    BaseApiException(400, detail, code)
  }

  function ProfileException(detail: string, code: string := "PROFILE_ERROR"): (e: ApiError)
    ensures e.status == 400 && e.detail == detail && e.code == code
  {
    BaseApiException(400, detail, code)
  }

  function ConfigException(detail: string, code: string := "CONFIG_ERROR"): (e: ApiError)
    ensures e.status == 500 && e.detail == detail && e.code == code
  {
    BaseApiException(500, detail, code)
  }

  function AuthenticationException(detail: string := "Not authenticated", code: string := "AUTH_ERROR"): (e: ApiError)
    ensures e.status == 401 && e.detail == detail && e.code == code
  {
    BaseApiException(401, detail, code)
  }

  function RateLimitException(detail: string := "Rate limit exceeded", code: string := "RATE_LIMIT_ERROR"): (e: ApiError)
    ensures e.status == 429 && e.detail == detail && e.code == code
  {
    BaseApiException(429, detail, code)
  }

  /** The default code of each kind. */
  function DefaultCode(k: ErrorKind): string {
    match k
    case ChatError => "CHAT_ERROR"
    case ProfileError => "PROFILE_ERROR"
    case ConfigError => "CONFIG_ERROR"
    case AuthenticationError => "AUTH_ERROR"
    case RateLimitError => "RATE_LIMIT_ERROR"
  }

  /** Raises an exception of kind `k` with the given detail and that kind's default code. */
  function Raise(k: ErrorKind, detail: string): (e: ApiError)
    ensures e.detail == detail && e.code == DefaultCode(k)
    ensures 400 <= e.status < 600
    ensures e.status >= 500 <==> k == ConfigError
  {
    match k
    case ChatError => ChatException(detail)
    case ProfileError => ProfileException(detail)
    case ConfigError => ConfigException(detail)
    case AuthenticationError => AuthenticationException(detail)
    case RateLimitError => RateLimitException(detail)
  }

  /** Reads back the kind of an error from its code, as a client of the JSON error body would. */
  function KindOf(e: ApiError): (k: Option<ErrorKind>)
    ensures k.Some? ==> DefaultCode(k.value) == e.code
  {
    if e.code == "CHAT_ERROR" then Some(ChatError)
    else if e.code == "PROFILE_ERROR" then Some(ProfileError)
    else if e.code == "CONFIG_ERROR" then Some(ConfigError)
    else if e.code == "AUTH_ERROR" then Some(AuthenticationError)
    else if e.code == "RATE_LIMIT_ERROR" then Some(RateLimitError)
    else None
  }

  /** The default codes tell the kinds apart: an error raised with its kind's default code is recognised as that kind. */
  lemma KindOfRaise(k: ErrorKind, detail: string)
    ensures KindOf(Raise(k, detail)) == Some(k)
  {
  }

  /** The defaults of the two exceptions whose detail is optional. */
  lemma DefaultDetails()
    ensures AuthenticationException() == ApiError(401, "Not authenticated", "AUTH_ERROR")
    ensures RateLimitException() == ApiError(429, "Rate limit exceeded", "RATE_LIMIT_ERROR")
    ensures BaseApiException(418, "teapot") == ApiError(418, "teapot", "ERROR")
  {
  }
}
