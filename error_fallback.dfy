/**
 * The error fallback's classification: an ordered chain of cases choosing
 * the title, description, severity and whether a retry button is offered.
 */
module ErrorFallback {
  import opened Wrappers

  datatype Severity = Info | Warning | Error

  datatype ErrorData = ErrorData(message: Option<string>)

  /** The error a query reports; every field may be missing. */
  datatype FetchError = FetchError(status: Option<int>, message: Option<string>, data: Option<ErrorData>)

  datatype ErrorContent = ErrorContent(title: string, description: string, severity: Severity, showButton: bool)

  const LOADING_CONTENT: ErrorContent :=
    ErrorContent("Loading...", "Please wait while we fetch your data.", Info, false)
  const DEFAULT_TITLE: string := "Something went wrong"
  const DEFAULT_DESCRIPTION: string := "An unexpected error occurred. Please try again."
  const CONNECTION_TITLE: string := "Connection Problem"
  const CONNECTION_DESCRIPTION: string :=
    "Unable to connect to the server. Please check your internet connection and try again."
  const SERVER_TITLE: string := "Server Error"
  const SERVER_DESCRIPTION: string := "Our servers are experiencing issues. Please try again in a few moments."
  const AUTH_TITLE: string := "Authentication Required"
  const AUTH_DESCRIPTION: string := "Your session has expired. Please log in again."
  const FORBIDDEN_TITLE: string := "Access Denied"
  const FORBIDDEN_DESCRIPTION: string := "You don't have permission to access this resource."
  const NOT_FOUND_TITLE: string := "Not Found"
  const NOT_FOUND_DESCRIPTION: string := "The requested resource could not be found."
  const GENERIC_TITLE: string := "Error"
  const GENERIC_MESSAGE: string := "An unexpected error occurred"

  /** `s || fallback` on an optional string: missing and empty both give the fallback. */
  function OrElse(s: Option<string>, fallback: string): string
  {
    if s.Some? && s.value != "" then s.value else fallback
  }

  /** `s.includes(part)`: `part` occurs somewhere in `s`. */
  predicate Contains(s: string, part: string)
  {
    if part <= s then true
    else if s == [] then false
    else Contains(s[1..], part)
  }

  /** Status 0, or a message mentioning "network" (case-sensitive). */
  predicate IsNetworkError(e: FetchError)
  {
    e.status == Some(0) || (e.message.Some? && Contains(e.message.value, "network"))
  }

  /** `error.status && error.status >= 500`. */
  predicate IsServerError(e: FetchError)
  {
    e.status.Some? && e.status.value != 0 && e.status.value >= 500
  }

  /** The generic description: `data.message || message || GENERIC_MESSAGE`. */
  function GenericDescription(e: FetchError): string
  {
    OrElse(if e.data.Some? then e.data.value.message else None, OrElse(e.message, GENERIC_MESSAGE))
  }

  /** The `showRetry = true` default: an omitted prop offers the retry button. */
  function RetryOrDefault(showRetry: Option<bool>): (retry: bool)
    ensures showRetry.None? ==> retry
    ensures showRetry.Some? ==> retry == showRetry.value
  {
    if showRetry.Some? then showRetry.value else true
  }

  /**
   * `getErrorContent`: loading overrides everything; no error uses the
   * given title and description or the defaults; then, in this order, a
   * network problem, a server error (>= 500), 401, 403 and 404; anything
   * else is a generic error whose description is the first non-empty of the
   * given description, `data.message`, `message` and the default text. An
   * omitted `showRetry` counts as true.
   */
  function GetErrorContent(error: Option<FetchError>, isLoading: bool, title: Option<string>,
                           description: Option<string>, showRetry: Option<bool>): (r: ErrorContent)
    ensures isLoading ==> r == LOADING_CONTENT
    ensures r.severity == Info <==> isLoading
    ensures !isLoading && error.None? ==>
      r == ErrorContent(OrElse(title, DEFAULT_TITLE), OrElse(description, DEFAULT_DESCRIPTION), Warning,
                        RetryOrDefault(showRetry))
    ensures !isLoading && error.Some? && IsNetworkError(error.value) ==>
      r == ErrorContent(CONNECTION_TITLE, CONNECTION_DESCRIPTION, Error, true)
    ensures !isLoading && error.Some? && !IsNetworkError(error.value) && IsServerError(error.value) ==>
      r == ErrorContent(SERVER_TITLE, SERVER_DESCRIPTION, Error, true)
    ensures !isLoading && error.Some? && !IsNetworkError(error.value) && error.value.status == Some(401) ==>
      r == ErrorContent(AUTH_TITLE, AUTH_DESCRIPTION, Warning, false)
    ensures !isLoading && error.Some? && !IsNetworkError(error.value) && error.value.status == Some(403) ==>
      r == ErrorContent(FORBIDDEN_TITLE, FORBIDDEN_DESCRIPTION, Warning, false)
    ensures !isLoading && error.Some? && !IsNetworkError(error.value) && error.value.status == Some(404) ==>
      r == ErrorContent(NOT_FOUND_TITLE, NOT_FOUND_DESCRIPTION, Warning, true)
    ensures !isLoading && error.Some? && !IsNetworkError(error.value) && !IsServerError(error.value)
            && error.value.status !in {Some(401), Some(403), Some(404)} ==>
      r == ErrorContent(OrElse(title, GENERIC_TITLE), OrElse(description, GenericDescription(error.value)),
                        Error, RetryOrDefault(showRetry))
  {
    var retry := RetryOrDefault(showRetry);
    if isLoading then LOADING_CONTENT
    else if error.None? then
      ErrorContent(OrElse(title, DEFAULT_TITLE), OrElse(description, DEFAULT_DESCRIPTION), Warning, retry)
    else
      var e := error.value;
      if IsNetworkError(e) then ErrorContent(CONNECTION_TITLE, CONNECTION_DESCRIPTION, Error, true)
      else if IsServerError(e) then ErrorContent(SERVER_TITLE, SERVER_DESCRIPTION, Error, true)
      else if e.status == Some(401) then ErrorContent(AUTH_TITLE, AUTH_DESCRIPTION, Warning, false)
      else if e.status == Some(403) then ErrorContent(FORBIDDEN_TITLE, FORBIDDEN_DESCRIPTION, Warning, false)
      else if e.status == Some(404) then ErrorContent(NOT_FOUND_TITLE, NOT_FOUND_DESCRIPTION, Warning, true)
      else ErrorContent(OrElse(title, GENERIC_TITLE), OrElse(description, GenericDescription(e)), Error, retry)
  }

  /** The retry button is rendered when the content offers it and nothing is loading. */
  function RetryButtonShown(content: ErrorContent, isLoading: bool): (shown: bool)
    ensures isLoading ==> !shown
    ensures !isLoading ==> (shown <==> content.showButton)
  {
    content.showButton && !isLoading
  }

  /**
   * When the retry button appears: never while loading; without an error
   * when `showRetry` is omitted or true; for a network or server problem or a 404 always
   * (whatever `showRetry` says); for 401 and 403 never; otherwise when
   * `showRetry` is omitted or true.
   */
  lemma RetryButtonShownIff(error: Option<FetchError>, isLoading: bool, title: Option<string>,
                            description: Option<string>, showRetry: Option<bool>)
    ensures RetryButtonShown(GetErrorContent(error, isLoading, title, description, showRetry), isLoading) <==>
      && !isLoading
      && (error.None? ==> RetryOrDefault(showRetry))
      && (error.Some? ==>
            || IsNetworkError(error.value) || IsServerError(error.value) || error.value.status == Some(404)
            || (RetryOrDefault(showRetry) && error.value.status != Some(401) && error.value.status != Some(403)))
  {
  }

  /** A message mentioning "network" with a 503 status is a connection problem, not a server error. */
  lemma NetworkCheckedBeforeServer()
    ensures GetErrorContent(Some(FetchError(Some(503), Some("network timeout"), None)), false, None, None, Some(false)).title
         == CONNECTION_TITLE
  {
    assert "network" <= "network timeout";
  }

  /**
   * A page that omits `showRetry` offers the retry button for a generic
   * error, and passing false withdraws it.
   */
  lemma OmittedShowRetryOffersRetry(error: FetchError)
    requires !IsNetworkError(error) && !IsServerError(error) && error.status !in {Some(401), Some(403), Some(404)}
    ensures RetryButtonShown(GetErrorContent(Some(error), false, None, None, None), false)
    ensures !RetryButtonShown(GetErrorContent(Some(error), false, None, None, Some(false)), false)
  {
  }
}
