/** Classification of chat errors into codes with fixed user messages, and the
    handlers that log them and mark an error as handled
    (src/features/chat/chatErrorHandler.ts). */
module ChatErrorHandler {
  import opened Wrappers
  import opened Strings
  import opened JsErrors

  datatype ErrorCode =
    | NetworkError
    | TimeoutError
    | ApiError
    | RateLimit
    | ValidationError
    | InternalError
    | StreamError
    | UnknownError

  function CodeName(c: ErrorCode): string {
    match c
    case NetworkError => "NETWORK_ERROR"
    case TimeoutError => "TIMEOUT_ERROR"
    case ApiError => "API_ERROR"
    case RateLimit => "RATE_LIMIT"
    case ValidationError => "VALIDATION_ERROR"
    case InternalError => "INTERNAL_ERROR"
    case StreamError => "STREAM_ERROR"
    case UnknownError => "UNKNOWN_ERROR"
  }

  /** The `ERROR_MESSAGES` table. */
  function ErrorMessage(c: ErrorCode): string {
    match c
    case NetworkError => "Network connection error. Please check your internet connection and try again."
    case TimeoutError => "The request timed out. Please try again later."
    case ApiError => "There was an issue communicating with the chat service. Please try again later."
    case RateLimit => "You have exceeded the rate limit. Please wait a moment before trying again."
    case ValidationError => "The request contained invalid data. Please check your input and try again."
    case InternalError => "An internal error occurred. Our team has been notified."
    case StreamError => "There was an error processing the chat stream. Please try again."
    case UnknownError => "An unexpected error occurred. Please try again later."
  }

  datatype Classification = Classification(code: ErrorCode, userMessage: string, retryable: bool)

  predicate FetchTypeError(e: ErrorInfo) {
    e.name == "TypeError" && Contains(e.message, "fetch")
  }

  predicate TimeoutLike(e: ErrorInfo) {
    e.name == "AbortError" || Contains(e.message, "timeout")
  }

  /** The HTTP status bucket: 429 Too Many Requests (section 4 of RFC 6585),
      400 Bad Request and 422 Unprocessable Content (sections 15.5.1 and 15.5.21
      of RFC 9110), and the 5xx server errors (section 15.6 of RFC 9110). Any
      other status is not recognised and leaves the default in place. */
  function StatusCode(status: int): ErrorCode {
    if status == 429 then RateLimit
    else if status == 400 || status == 422 then ValidationError
    else if status >= 500 then ApiError
    else UnknownError
  }

  function Code(e: ErrorInfo): ErrorCode {
    if FetchTypeError(e) then NetworkError
    else if TimeoutLike(e) then TimeoutError
    else if HasStatus(e) then StatusCode(e.status.value)
    else if Contains(e.message, "dataStream") then StreamError
    else if Contains(e.message, "JSON") then InternalError
    else UnknownError
  }

  /** `classifyError(error)` */
  function ClassifyError(e: ErrorInfo): (c: Classification)
    ensures c.code == Code(e)
    ensures c.userMessage == ErrorMessage(c.code)
    ensures !c.retryable <==> c.code == ValidationError || c.code == InternalError
  {
    var code := Code(e);
    Classification(code, ErrorMessage(code), !(code == ValidationError || code == InternalError))
  }

  /** First match in the order fetch, timeout, status, `dataStream`, `JSON`. */
  lemma CodeFirstMatch(e: ErrorInfo)
    ensures Code(e) == NetworkError <==> FetchTypeError(e)
    ensures Code(e) == TimeoutError <==> !FetchTypeError(e) && TimeoutLike(e)
    ensures Code(e) in {RateLimit, ValidationError, ApiError} ==> !FetchTypeError(e) && !TimeoutLike(e) && HasStatus(e)
    ensures Code(e) == StreamError <==>
      !FetchTypeError(e) && !TimeoutLike(e) && !HasStatus(e) && Contains(e.message, "dataStream")
    ensures Code(e) == InternalError <==>
      !FetchTypeError(e) && !TimeoutLike(e) && !HasStatus(e) &&
      !Contains(e.message, "dataStream") && Contains(e.message, "JSON")
  {
  }

  /** Once a status is present it alone decides: its bucket, or the default
      when it is in none, without looking at `dataStream` or `JSON`. */
  lemma StatusDecides(e: ErrorInfo)
    requires !FetchTypeError(e) && !TimeoutLike(e) && HasStatus(e)
    ensures Code(e) == RateLimit <==> e.status.value == 429
    ensures Code(e) == ValidationError <==> e.status.value == 400 || e.status.value == 422
    ensures Code(e) == ApiError <==> e.status.value >= 500 && e.status.value != 0
    ensures Code(e) == UnknownError <==>
      e.status.value != 429 && e.status.value != 400 && e.status.value != 422 && e.status.value < 500
  {
  }

  /** An aborted request is a retryable timeout. */
  lemma AbortIsRetryableTimeout(e: ErrorInfo)
    requires e.name == "AbortError"
    ensures ClassifyError(e).code == TimeoutError && ClassifyError(e).retryable
  {
  }

  /** What the handlers return; `errorCode` is only set by the stream handler. */
  datatype ChatErrorResponse = ChatErrorResponse(userMessage: string, retryable: bool, errorCode: Option<string>)

  /** The detailed system-context log runs for internal errors, and for unknown
      errors not yet marked as handled. */
  predicate NeedsDetailedLog(code: ErrorCode, handled: bool) {
    code == InternalError || (code == UnknownError && !handled)
  }

  /** The thrown error object; `handled` is the flag the handler sets on it. */
  class TrackedError {
    const info: ErrorInfo
    var handled: bool

    constructor (info: ErrorInfo, handled: bool)
      ensures this.info == info && this.handled == handled
    {
      this.info := info;
      this.handled := handled;
    }
  }

  /** `handleChatError(error, chatId)`. `detailed` says whether the detailed
      context log was written. */
  method HandleChatError(error: TrackedError) returns (r: ChatErrorResponse, detailed: bool)
    modifies error
    ensures r == ChatErrorResponse(ClassifyError(error.info).userMessage, ClassifyError(error.info).retryable, None)
    ensures detailed == NeedsDetailedLog(Code(error.info), old(error.handled))
    ensures error.handled == (old(error.handled) || detailed)
    ensures error.handled ==> !NeedsDetailedLog(UnknownError, error.handled)
  {
    var classification := ClassifyError(error.info);
    detailed := false;
    if classification.code == InternalError || (classification.code == UnknownError && !error.handled) {
      detailed := true;
      error.handled := true;
    }
    r := ChatErrorResponse(classification.userMessage, classification.retryable, None);
  }

  /** Handling the same unknown error twice writes the detailed log on the first
      call only (and not at all when it was already handled). */
  method HandleUnknownTwice(error: TrackedError) returns (first: bool, second: bool)
    requires Code(error.info) == UnknownError
    modifies error
    ensures first == !old(error.handled) && !second && error.handled
  {
    var r1, r2;
    r1, first := HandleChatError(error);
    r2, second := HandleChatError(error);
  }

  predicate DataStreamStack(e: ErrorInfo) {
    Contains(e.stack, "processDataStream") || Contains(e.stack, "onErrorPart")
  }

  const StreamProcessingMessage := "There was an error processing the chat response. Please try again."

  /** `handleStreamProcessingError(error, streamInfo)` */
  method HandleStreamProcessingError(error: TrackedError) returns (r: ChatErrorResponse, detailed: bool)
    modifies error
    ensures DataStreamStack(error.info) ==>
      r == ChatErrorResponse(StreamProcessingMessage, true, Some("STREAM_PROCESSING_ERROR")) &&
      !detailed && error.handled == old(error.handled)
    ensures !DataStreamStack(error.info) ==>
      r == ChatErrorResponse(ClassifyError(error.info).userMessage, ClassifyError(error.info).retryable, None) &&
      detailed == NeedsDetailedLog(Code(error.info), old(error.handled)) &&
      error.handled == (old(error.handled) || detailed)
  {
    if DataStreamStack(error.info) {
      return ChatErrorResponse(StreamProcessingMessage, true, Some("STREAM_PROCESSING_ERROR")), false;
    }
    r, detailed := HandleChatError(error);
  }
}
