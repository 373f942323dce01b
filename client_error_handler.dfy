/** Client-side classification of streaming errors, the `StreamProcessingError`
    wrapper and the retry loop with exponential backoff
    (src/lib/client/errorHandler.ts). */
module ClientErrorHandler {
  import opened Wrappers
  import opened Strings
  import opened JsErrors

  datatype StreamErrorType =
    | NetworkError
    | StreamProcessingError
    | JsonParsingError
    | TimeoutError
    | AbortedError
    | UnknownError

  datatype StreamErrorDetails = StreamErrorDetails(
    kind: StreamErrorType,
    message: string,
    retryable: bool,
    originalError: ErrorInfo,
    errorId: string)

  /** The user-facing sentence for each type; the error id tag follows it. */
  function Sentence(kind: StreamErrorType): string {
    match kind
    case StreamProcessingError => "There was a problem processing the response. Please try again."
    case JsonParsingError => "There was an error in the response format. Please try again."
    case NetworkError => "A network error occurred. Please check your connection and try again."
    case TimeoutError => "The request timed out. Please try again."
    case AbortedError => "The request was aborted. Please try again."
    case UnknownError => "An unexpected error occurred. Please try again."
  }

  predicate StreamStack(e: ErrorInfo) {
    Contains(e.stack, "onErrorPart") || Contains(e.stack, "processDataStream")
  }

  predicate JsonHint(e: ErrorInfo) {
    Contains(e.stack, "JSON.parse") || Contains(e.message, "JSON")
  }

  predicate NetworkHint(e: ErrorInfo) {
    Contains(e.message, "network") || Contains(e.stack, "fetch")
  }

  predicate TimeoutHint(e: ErrorInfo) {
    Contains(e.message, "timeout") || Contains(e.stack, "timeout")
  }

  predicate AbortHint(e: ErrorInfo) {
    Contains(e.message, "aborted") || Contains(e.stack, "aborted")
  }

  /** The type the if/else chain settles on. */
  function Kind(e: ErrorInfo): StreamErrorType {
    if StreamStack(e) then (if JsonHint(e) then JsonParsingError else StreamProcessingError)
    else if NetworkHint(e) then NetworkError
    else if TimeoutHint(e) then TimeoutError
    else if AbortHint(e) then AbortedError
    else UnknownError
  }

  /** `handleClientStreamError(error)` with the random id passed in. */
  function HandleClientStreamError(e: ErrorInfo, errorId: string): (d: StreamErrorDetails)
    ensures d.kind == Kind(e)
    ensures d.errorId == errorId && d.originalError == e
    ensures EndsWith(d.message, ErrorIdTag(errorId))
    ensures d.retryable <==> d.kind != AbortedError
  {
    var kind := Kind(e);
    var message := Sentence(kind) + " " + ErrorIdTag(errorId);
    assert message[|message| - |ErrorIdTag(errorId)|..] == ErrorIdTag(errorId);
    StreamErrorDetails(kind, message, kind != AbortedError, e, errorId)
  }

  /** The report to `/api/log-client-error` is sent only for this final type. */
  predicate ReportedToServer(d: StreamErrorDetails) {
    d.kind == StreamProcessingError
  }

  /** The first rule that fires decides the type: each type is characterised by
      its own test and the failure of every earlier one. */
  lemma {:induction false} KindFirstMatch(e: ErrorInfo)
    ensures Kind(e) in {StreamProcessingError, JsonParsingError} <==> StreamStack(e)
    ensures Kind(e) == JsonParsingError <==> StreamStack(e) && JsonHint(e)
    ensures Kind(e) == NetworkError <==> !StreamStack(e) && NetworkHint(e)
    ensures Kind(e) == TimeoutError <==> !StreamStack(e) && !NetworkHint(e) && TimeoutHint(e)
    ensures Kind(e) == AbortedError <==>
      !StreamStack(e) && !NetworkHint(e) && !TimeoutHint(e) && AbortHint(e)
    ensures Kind(e) == UnknownError <==>
      !StreamStack(e) && !NetworkHint(e) && !TimeoutHint(e) && !AbortHint(e)
  {
  }

  /** A refined JSON type is not reported; only the plain stream type is. */
  lemma ReportOnlyUnrefined(e: ErrorInfo, errorId: string)
    ensures ReportedToServer(HandleClientStreamError(e, errorId)) <==> StreamStack(e) && !JsonHint(e)
  {
  }

  /** The id the caller sees is the one inside the message. */
  lemma {:induction false} MessageMentionsId(e: ErrorInfo, errorId: string)
    ensures Contains(HandleClientStreamError(e, errorId).message, errorId)
  {
    var d := HandleClientStreamError(e, errorId);
    var prefix := Sentence(d.kind) + " (Error ID: ";
    assert d.message == prefix + errorId + ")";
    assert StartsWith(errorId, errorId);
    StartsWithContains(errorId, errorId);
    ContainsInConcat(prefix, errorId, ")", errorId);
  }

  /** The error thrown once the wrapper gives up: an `Error` named
      `StreamProcessingError`. `stack` is the original error's stack when it has
      one; otherwise it is the new error's own trace, which is not modelled (`None`). */
  datatype StreamProcessingErrorValue = StreamProcessingErrorValue(
    name: string,
    message: string,
    errorType: StreamErrorType,
    errorId: string,
    retryable: bool,
    stack: Option<string>)

  /** `new StreamProcessingError(details)` */
  function NewStreamProcessingError(d: StreamErrorDetails): (x: StreamProcessingErrorValue)
    ensures x.name == "StreamProcessingError" && x.message == d.message
    ensures x.errorType == d.kind && x.errorId == d.errorId && x.retryable == d.retryable
    ensures x.stack.Some? <==> d.originalError.stack != ""
    ensures x.stack.Some? ==> x.stack.value == d.originalError.stack
  {
    StreamProcessingErrorValue("StreamProcessingError", d.message, d.kind, d.errorId, d.retryable,
      if d.originalError.stack != "" then Some(d.originalError.stack) else None)
  }

  const DefaultMaxRetries: int := 3

  function Min(a: int, b: int): int {
    if a <= b then a else b
  }

  function Pow2(n: nat): (r: nat)
    ensures r >= 1
  {
    if n == 0 then 1 else 2 * Pow2(n - 1)
  }

  /** `Math.min(1000 * Math.pow(2, retries), 10000)` */
  function Backoff(retries: nat): (ms: nat)
    ensures ms <= 10000
    ensures retries >= 4 ==> ms == 10000
    ensures retries <= 3 ==> ms == 1000 * Pow2(retries)
  {
    if retries >= 4 then Pow2Grows(retries); Min(1000 * Pow2(retries), 10000)
    else Min(1000 * Pow2(retries), 10000)
  }

  lemma {:induction false} Pow2Grows(n: nat)
    requires n >= 4
    ensures Pow2(n) >= 16
  {
    if n > 4 {
      Pow2Grows(n - 1);
    }
  }

  /** The `n`-th wait (from 0) is the backoff for `n + 1` retries. */
  predicate BackoffSchedule(delays: seq<nat>) {
    forall n :: 0 <= n < |delays| ==> delays[n] == Backoff(n + 1)
  }

  lemma ExtendSchedule(delays: seq<nat>)
    requires BackoffSchedule(delays)
    ensures BackoffSchedule(delays + [Backoff(|delays| + 1)])
  {
  }

  /** The outcome of the wrapper when the `k`-th call (from 0) yields
      `attempt(k)` and the error id drawn for it is `ids(k)`, starting with
      `retries` failed calls already behind. */
  function Retry<T>(attempt: nat -> Settled<T, ErrorInfo>, ids: nat -> string, maxRetries: int, retries: nat)
    : Settled<T, StreamProcessingErrorValue>
    decreases if retries <= maxRetries then maxRetries - retries else 0
  {
    match attempt(retries)
    case Resolved(v) => Resolved(v)
    case Rejected(err) =>
      var d := HandleClientStreamError(err, ids(retries));
      if !d.retryable || retries >= maxRetries then Rejected(NewStreamProcessingError(d))
      else Retry(attempt, ids, maxRetries, retries + 1)
  }

  /** The number of calls of `fetchFn` the wrapper makes. */
  function Calls<T>(attempt: nat -> Settled<T, ErrorInfo>, ids: nat -> string, maxRetries: int, retries: nat)
    : (n: nat)
    ensures n >= 1
    ensures retries <= maxRetries ==> n <= maxRetries - retries + 1
    ensures retries > maxRetries ==> n == 1
    decreases if retries <= maxRetries then maxRetries - retries else 0
  {
    match attempt(retries)
    case Resolved(_) => 1
    case Rejected(err) =>
      var d := HandleClientStreamError(err, ids(retries));
      if !d.retryable || retries >= maxRetries then 1
      else 1 + Calls(attempt, ids, maxRetries, retries + 1)
  }

  /** `fetchWithStreamErrorHandling(fetchFn, maxRetries)`. Besides the outcome it
      returns how many times `fetchFn` ran and the waits, in order. */
  method FetchWithStreamErrorHandling<T>(attempt: nat -> Settled<T, ErrorInfo>, ids: nat -> string, maxRetries: int)
    returns (result: Settled<T, StreamProcessingErrorValue>, calls: nat, delays: seq<nat>)
    ensures result == Retry(attempt, ids, maxRetries, 0)
    ensures calls == Calls(attempt, ids, maxRetries, 0)
    ensures 1 <= calls <= (if maxRetries > 0 then maxRetries else 0) + 1
    ensures |delays| == calls - 1
    ensures BackoffSchedule(delays)
  {
    var retries: nat := 0;
    delays := [];
    while true
      invariant retries == |delays|
      invariant retries > 0 ==> retries <= maxRetries
      invariant Retry(attempt, ids, maxRetries, retries) == Retry(attempt, ids, maxRetries, 0)
      invariant Calls(attempt, ids, maxRetries, 0) == retries + Calls(attempt, ids, maxRetries, retries)
      invariant BackoffSchedule(delays)
      decreases maxRetries - retries
    {
      var outcome := attempt(retries);
      if outcome.Resolved? {
        return Resolved(outcome.value), retries + 1, delays;
      }
      var details := HandleClientStreamError(outcome.error, ids(retries));
      if !details.retryable || retries >= maxRetries {
        return Rejected(NewStreamProcessingError(details)), retries + 1, delays;
      }
      retries := retries + 1;
      ExtendSchedule(delays);
      delays := delays + [Backoff(retries)];
    }
  }

  /** The wrapper's outcome is decided by its last call: that call's value is
      returned unchanged, or its failure is wrapped, and the wrapper gave up on it
      only because it was not retryable or the retries were used up. */
  lemma {:induction false} RetryLastCall<T>(attempt: nat -> Settled<T, ErrorInfo>, ids: nat -> string,
                                            maxRetries: int, retries: nat)
    ensures var k := retries + Calls(attempt, ids, maxRetries, retries) - 1;
      match Retry(attempt, ids, maxRetries, retries)
      case Resolved(v) => attempt(k) == Resolved(v)
      case Rejected(x) =>
        attempt(k).Rejected? &&
        var d := HandleClientStreamError(attempt(k).error, ids(k));
        x == NewStreamProcessingError(d) && (!d.retryable || k >= maxRetries)
    decreases if retries <= maxRetries then maxRetries - retries else 0
  {
    if attempt(retries).Rejected? {
      var d := HandleClientStreamError(attempt(retries).error, ids(retries));
      if d.retryable && retries < maxRetries {
        RetryLastCall(attempt, ids, maxRetries, retries + 1);
      }
    }
  }

  /** A first failure that is not retryable ends the wrapper after one call. */
  lemma OneCallWhenNotRetryable<T>(attempt: nat -> Settled<T, ErrorInfo>, ids: nat -> string, maxRetries: int)
    requires attempt(0).Rejected? && !HandleClientStreamError(attempt(0).error, ids(0)).retryable
    ensures Calls(attempt, ids, maxRetries, 0) == 1
    ensures Retry(attempt, ids, maxRetries, 0) ==
      Rejected(NewStreamProcessingError(HandleClientStreamError(attempt(0).error, ids(0))))
  {
  }

  /** With the default bound of 3 the waits are 2000, 4000 and 8000 ms. */
  lemma DefaultBackoffs()
    ensures Backoff(1) == 2000 && Backoff(2) == 4000 && Backoff(3) == 8000
  {
  }
}
