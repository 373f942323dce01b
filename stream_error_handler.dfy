/** Server-side classification of stream errors and the JSON error response
    built from it (src/lib/logger/stream-error-handler.ts). */
module StreamErrorHandler {
  import opened Wrappers
  import opened Strings
  import opened Json
  import opened JsErrors

  datatype StreamErrorType =
    | DataStreamProcessing
    | StreamInterruption
    | MalformedChunk
    | JsonParsing
    | NetworkError
    | Timeout
    | Unknown

  /** The enum's string value. */
  function TypeName(t: StreamErrorType): string {
    match t
    case DataStreamProcessing => "DATA_STREAM_PROCESSING"
    case StreamInterruption => "STREAM_INTERRUPTION"
    case MalformedChunk => "MALFORMED_CHUNK"
    case JsonParsing => "JSON_PARSING"
    case NetworkError => "NETWORK_ERROR"
    case Timeout => "TIMEOUT"
    case Unknown => "UNKNOWN"
  }

  datatype StreamErrorResult = StreamErrorResult(
    errorType: StreamErrorType,
    userMessage: string,
    retryable: bool,
    errorId: string)

  function Sentence(t: StreamErrorType): string {
    match t
    case DataStreamProcessing => "There was a problem processing the response stream. Please try again."
    case JsonParsing => "There was an error processing the response format. Please try again."
    case MalformedChunk => "The response contained an invalid chunk. Please try again."
    case Timeout => "The request timed out. Please try again."
    case NetworkError => "A network error occurred. Please check your connection and try again."
    case StreamInterruption => "The response stream was interrupted. Please try again."
    case Unknown => "An unexpected error occurred. Please try again."
  }

  predicate DataStreamStack(e: ErrorInfo) {
    Contains(e.stack, "processDataStream") || Contains(e.stack, "onErrorPart")
  }

  predicate JsonHint(e: ErrorInfo) {
    Contains(e.stack, "JSON.parse") || Contains(e.message, "JSON")
  }

  predicate MalformedHint(e: ErrorInfo) {
    Contains(e.stack, "TypeError") && (Contains(e.stack, "undefined") || Contains(e.stack, "null"))
  }

  predicate TimeoutHint(e: ErrorInfo) {
    Contains(e.stack, "AbortError") || Contains(e.message, "timeout")
  }

  predicate NetworkHint(e: ErrorInfo) {
    Contains(e.stack, "fetch") || Contains(e.message, "network")
  }

  predicate InterruptionHint(e: ErrorInfo) {
    Contains(e.stack, "stream") || Contains(e.stack, "readable")
  }

  function Classify(e: ErrorInfo): StreamErrorType {
    if DataStreamStack(e) then
      if JsonHint(e) then JsonParsing
      else if MalformedHint(e) then MalformedChunk
      else DataStreamProcessing
    else if TimeoutHint(e) then Timeout
    else if NetworkHint(e) then NetworkError
    else if InterruptionHint(e) then StreamInterruption
    else Unknown
  }

  /** `crypto.randomUUID().slice(0, 8)` for the given UUID. */
  function ErrorId(uuid: string): (id: string)
    ensures |id| <= 8 && StartsWith(uuid, id)
  {
    Prefix(uuid, 8)
  }

  /** `handleStreamError(error)` with the random UUID passed in. */
  function HandleStreamError(e: ErrorInfo, uuid: string): (r: StreamErrorResult)
    ensures r.errorType == Classify(e)
    ensures r.retryable
    ensures r.errorId == ErrorId(uuid)
    ensures EndsWith(r.userMessage, ErrorIdTag(r.errorId))
  {
    var t := Classify(e);
    var id := ErrorId(uuid);
    var message := Sentence(t) + " " + ErrorIdTag(id);
    assert message[|message| - |ErrorIdTag(id)|..] == ErrorIdTag(id);
    StreamErrorResult(t, message, true, id)
  }

  /** The order of the tests, each type with its own condition. */
  lemma ClassifyFirstMatch(e: ErrorInfo)
    ensures Classify(e) in {DataStreamProcessing, JsonParsing, MalformedChunk} <==> DataStreamStack(e)
    ensures Classify(e) == JsonParsing <==> DataStreamStack(e) && JsonHint(e)
    ensures Classify(e) == MalformedChunk <==> DataStreamStack(e) && !JsonHint(e) && MalformedHint(e)
    ensures Classify(e) == Timeout <==> !DataStreamStack(e) && TimeoutHint(e)
    ensures Classify(e) == NetworkError <==> !DataStreamStack(e) && !TimeoutHint(e) && NetworkHint(e)
    ensures Classify(e) == StreamInterruption <==>
      !DataStreamStack(e) && !TimeoutHint(e) && !NetworkHint(e) && InterruptionHint(e)
    ensures Classify(e) == Unknown <==>
      !DataStreamStack(e) && !TimeoutHint(e) && !NetworkHint(e) && !InterruptionHint(e)
  {
  }

  /** Outside the stream-parsing code, a stack naming `AbortError` is a
      timeout, whatever else the stack or the message holds (a `fetch` frame
      or the word `network` included). */
  lemma AbortInFetchIsTimeout(e: ErrorInfo)
    requires Contains(e.stack, "AbortError")
    requires !DataStreamStack(e)
    ensures Classify(e) == Timeout && Classify(e) != NetworkError
  {
  }

  /** An HTTP response as the route returns it. */
  datatype Response = Response(status: int, body: string, headers: seq<Member>)

  function BodyValue(r: StreamErrorResult): Value {
    Obj([Member("error", Str(r.userMessage)),
         Member("errorType", Str(TypeName(r.errorType))),
         Member("errorId", Str(r.errorId))])
  }

  function Header(headers: seq<Member>, name: string): Value {
    Get(headers, name)
  }

  /** The response for one classification: a 500 whose JSON body and headers
      carry the same type and id. */
  function ErrorResponse(r: StreamErrorResult): (resp: Response)
    ensures resp.status == 500
    ensures Some(resp.body) == Stringify(BodyValue(r))
    ensures Header(resp.headers, "Content-Type") == Str("application/json")
    ensures Header(resp.headers, "X-Error-Id") == Get(BodyValue(r).members, "errorId") == Str(r.errorId)
    ensures Header(resp.headers, "X-Error-Type") == Get(BodyValue(r).members, "errorType")
    ensures Get(BodyValue(r).members, "error") == Str(r.userMessage)
  {
    var h0, h1, h2 := Member("Content-Type", Str("application/json")),
      Member("X-Error-Id", Str(r.errorId)), Member("X-Error-Type", Str(TypeName(r.errorType)));
    var headers := [h0, h1, h2];
    assert headers == [h0] + [h1] + [h2] && [h0] == [] + [h0];
    GetSnoc([h0] + [h1], h2, "Content-Type");
    GetSnoc([h0] + [h1], h2, "X-Error-Id");
    GetSnoc([h0], h1, "Content-Type");
    GetSnoc([], h0, "Content-Type");
    var body := BodyValue(r).members;
    assert body == [body[0]] + [body[1]] + [body[2]] && [body[0]] == [] + [body[0]];
    GetSnoc([body[0]] + [body[1]], body[2], "error");
    GetSnoc([body[0]] + [body[1]], body[2], "errorType");
    GetSnoc([body[0]], body[1], "error");
    GetSnoc([], body[0], "error");
    Response(500, Text(BodyValue(r)), headers)
  }

  /** `createStreamErrorResponse(error)` */
  function CreateStreamErrorResponse(e: ErrorInfo, uuid: string): (resp: Response)
    ensures resp == ErrorResponse(HandleStreamError(e, uuid))
    ensures resp.status == 500
  {
    ErrorResponse(HandleStreamError(e, uuid))
  }

  /** `withStreamErrorHandling(streamFn)` given how `streamFn()` settled: the
      value passes through unchanged; a failure is thrown as the error response. */
  function WithStreamErrorHandling<T>(outcome: Settled<T, ErrorInfo>, uuid: string): (r: Settled<T, Response>)
    ensures outcome.Resolved? ==> r == Resolved(outcome.value)
    ensures outcome.Rejected? ==> r.Rejected? && r.error == CreateStreamErrorResponse(outcome.error, uuid)
  {
    match outcome
    case Resolved(v) => Resolved(v)
    case Rejected(err) => Rejected(CreateStreamErrorResponse(err, uuid))
  }
}
