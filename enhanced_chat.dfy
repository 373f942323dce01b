/** The chat hook wrapper with a stale-request guard, retries and an error
    state (src/hooks/useEnhancedChat.ts). The underlying `chat.append` and
    `chat.reload` calls are given as their outcome per attempt. */
module EnhancedChat {
  import opened Wrappers
  import opened Json
  import opened JsErrors
  import CE = ClientErrorHandler

  /** The hook's options as passed; `None` where the caller left them out. */
  datatype ChatOptions = ChatOptions(
    tool: Option<string>,
    notes: Option<string>,
    image: Option<string>,
    hasOnError: bool,
    maxRetries: Option<int>)

  /** The options after the destructuring defaults. */
  datatype Settings = Settings(tool: string, notes: string, image: string, hasOnError: bool, maxRetries: int)

  function WithDefaults(o: ChatOptions): (s: Settings)
    ensures s.tool == (if o.tool.Some? then o.tool.value else "none")
    ensures s.notes == (if o.notes.Some? then o.notes.value else "")
    ensures s.image == (if o.image.Some? then o.image.value else "")
    ensures s.maxRetries == (if o.maxRetries.Some? then o.maxRetries.value else 3)
    ensures s.hasOnError == o.hasOnError
  {
    Settings(o.tool.GetOr("none"), o.notes.GetOr(""), o.image.GetOr(""), o.hasOnError, o.maxRetries.GetOr(3))
  }

  /** `{...(message.extra || {}), tool, notes, image}` */
  function RequestExtra(extra: Value, s: Settings): seq<Member> {
    Spread(Spread([], OwnEnumerable(Or(extra, Obj([])))),
      [Member("tool", Str(s.tool)), Member("notes", Str(s.notes)), Member("image", Str(s.image))])
  }

  /** `{...message, extra: RequestExtra}` */
  function SentMessage(message: seq<Member>, s: Settings): seq<Member> {
    Spread(message, [Member("extra", Obj(RequestExtra(Get(message, "extra"), s)))])
  }

  /** The three option keys override the message's own extras; every other key
      of `message.extra` is sent as it was. */
  lemma {:induction false} ExtraOverrides(extra: Value, s: Settings, k: string)
    ensures Get(RequestExtra(extra, s), "tool") == Str(s.tool)
    ensures Get(RequestExtra(extra, s), "notes") == Str(s.notes)
    ensures Get(RequestExtra(extra, s), "image") == Str(s.image)
    ensures k != "tool" && k != "notes" && k != "image" ==>
      Get(RequestExtra(extra, s), k) == Get(OwnEnumerable(Or(extra, Obj([]))), k)
  {
    var own := OwnEnumerable(Or(extra, Obj([])));
    var m0, m1, m2 := Member("tool", Str(s.tool)), Member("notes", Str(s.notes)), Member("image", Str(s.image));
    var keys := [m0, m1, m2];
    assert keys == [m0] + [m1] + [m2] && [m0] == [] + [m0];
    forall key | key in {"tool", "notes", "image", k}
      ensures Get(RequestExtra(extra, s), key) ==
        if HasKey(keys, key) then Get(keys, key) else Get(own, key)
    {
      GetSpread([], own, key);
      GetSpread(Spread([], own), keys, key);
    }
    GetSnoc([m0] + [m1], m2, "tool");
    GetSnoc([m0] + [m1], m2, "notes");
    GetSnoc([m0], m1, "tool");
    GetSnoc([], m0, "tool");
    GetSnoc([m0] + [m1], m2, k);
    GetSnoc([m0], m1, k);
    GetSnoc([], m0, k);
  }

  /** The message sent carries the rebuilt extras and keeps every other key. */
  lemma {:induction false} SentMessageKeys(message: seq<Member>, s: Settings, k: string)
    ensures Get(SentMessage(message, s), "extra") == Obj(RequestExtra(Get(message, "extra"), s))
    ensures k != "extra" ==> Get(SentMessage(message, s), k) == Get(message, k)
  {
    var m := Member("extra", Obj(RequestExtra(Get(message, "extra"), s)));
    assert [m] == [] + [m];
    GetSpread(message, [m], "extra");
    GetSpread(message, [m], k);
    GetSnoc([], m, "extra");
    GetSnoc([], m, k);
  }

  /** The error the guard throws for an outdated request. Its stack trace is
      whatever the runtime records, passed in. */
  function Superseded(stack: string): ErrorInfo {
    ErrorInfo("Error", "Request superseded by newer request", stack, None)
  }

  /** The attempt function handed to the retry wrapper: it proceeds only while
      the counter still equals the captured id. */
  function Guarded<T>(current: nat, id: nat, attempt: nat -> Settled<T, ErrorInfo>, stack: string)
    : nat -> Settled<T, ErrorInfo>
  {
    (k: nat) => if current == id then attempt(k) else Rejected(Superseded(stack))
  }

  /** Outcomes of the retry wrapper depend only on the outcome of each attempt. */
  lemma {:induction false} RetryPointwise<T>(f: nat -> Settled<T, ErrorInfo>, g: nat -> Settled<T, ErrorInfo>,
                                             ids: nat -> string, maxRetries: int, retries: nat)
    requires forall k :: f(k) == g(k)
    ensures CE.Retry(f, ids, maxRetries, retries) == CE.Retry(g, ids, maxRetries, retries)
    ensures CE.Calls(f, ids, maxRetries, retries) == CE.Calls(g, ids, maxRetries, retries)
    decreases if retries <= maxRetries then maxRetries - retries else 0
  {
    if f(retries).Rejected? {
      var d := CE.HandleClientStreamError(f(retries).error, ids(retries));
      if d.retryable && retries < maxRetries {
        RetryPointwise(f, g, ids, maxRetries, retries + 1);
      }
    }
  }

  /** An attempt whose request has been superseded never reaches the chat: each
      of its calls fails with the superseded error, so the wrapper ends with a
      failure however the chat would have answered. */
  lemma {:induction false} SupersededFails<T>(current: nat, id: nat, attempt: nat -> Settled<T, ErrorInfo>,
                                              stack: string, ids: nat -> string, maxRetries: int, retries: nat)
    requires current != id
    ensures forall k :: Guarded(current, id, attempt, stack)(k) == Rejected(Superseded(stack))
    ensures CE.Retry(Guarded(current, id, attempt, stack), ids, maxRetries, retries).Rejected?
    decreases if retries <= maxRetries then maxRetries - retries else 0
  {
    var d := CE.HandleClientStreamError(Superseded(stack), ids(retries));
    if d.retryable && retries < maxRetries {
      SupersededFails(current, id, attempt, stack, ids, maxRetries, retries + 1);
    }
  }

  class EnhancedChatHook {
    const settings: Settings
    /** `requestCount.current` */
    var requestCount: nat
    /** The `error` state (`None` for `null`). */
    var error: Option<CE.StreamProcessingErrorValue>
    /** The errors passed to `onError`, in order. */
    var reported: seq<CE.StreamProcessingErrorValue>

    constructor (options: ChatOptions)
      ensures settings == WithDefaults(options)
      ensures requestCount == 0 && error == None && reported == []
    {
      settings := WithDefaults(options);
      requestCount := 0;
      error := None;
      reported := [];
    }

    /** The synchronous start of `append`/`reload`: clear the error, bump the
        counter and capture its new value. */
    method Begin() returns (id: nat)
      modifies this
      ensures requestCount == old(requestCount) + 1 && id == requestCount
      ensures error == None && reported == old(reported)
    {
      error := None;
      requestCount := requestCount + 1;
      id := requestCount;
    }

    /** The `catch` block: record the error, tell `onError` once, rethrow. */
    method Fail(x: CE.StreamProcessingErrorValue) returns (thrown: CE.StreamProcessingErrorValue)
      modifies this
      ensures thrown == x && error == Some(x)
      ensures reported == old(reported) + (if settings.hasOnError then [x] else [])
      ensures requestCount == old(requestCount)
    {
      error := Some(x);
      if settings.hasOnError {
        reported := reported + [x];
      }
      thrown := x;
    }

    /** `append(message)` run to completion with nothing else starting in
        between. `attempt(k)` is how `chat.append(sent)` settles on the `k`-th
        try; `stack` is the trace the guard's error would carry. */
    method Append<T>(message: seq<Member>, attempt: nat -> Settled<T, ErrorInfo>, ids: nat -> string, stack: string)
      returns (sent: seq<Member>, r: Settled<T, CE.StreamProcessingErrorValue>)
      modifies this
      ensures requestCount == old(requestCount) + 1
      ensures sent == SentMessage(message, settings)
      ensures r == CE.Retry(attempt, ids, settings.maxRetries, 0)
      ensures r.Resolved? ==> error == None && reported == old(reported)
      ensures r.Rejected? ==>
        error == Some(r.error) && reported == old(reported) + (if settings.hasOnError then [r.error] else [])
    {
      var id := Begin();
      sent := SentMessage(message, settings);
      r := Run(id, attempt, ids, stack);
    }

    /** `reload()` run to completion; `attempt(k)` is how `chat.reload()` settles. */
    method Reload<T>(attempt: nat -> Settled<T, ErrorInfo>, ids: nat -> string, stack: string)
      returns (r: Settled<T, CE.StreamProcessingErrorValue>)
      modifies this
      ensures requestCount == old(requestCount) + 1
      ensures r == CE.Retry(attempt, ids, settings.maxRetries, 0)
      ensures r.Resolved? ==> error == None && reported == old(reported)
      ensures r.Rejected? ==>
        error == Some(r.error) && reported == old(reported) + (if settings.hasOnError then [r.error] else [])
    {
      var id := Begin();
      r := Run(id, attempt, ids, stack);
    }

    /** The guarded retry and the `catch` block shared by both. */
    method Run<T>(id: nat, attempt: nat -> Settled<T, ErrorInfo>, ids: nat -> string, stack: string)
      returns (r: Settled<T, CE.StreamProcessingErrorValue>)
      requires requestCount == id && error == None
      modifies this
      ensures requestCount == old(requestCount)
      ensures r == CE.Retry(attempt, ids, settings.maxRetries, 0)
      ensures r.Resolved? ==> error == None && reported == old(reported)
      ensures r.Rejected? ==>
        error == Some(r.error) && reported == old(reported) + (if settings.hasOnError then [r.error] else [])
    {
      var guarded := Guarded(requestCount, id, attempt, stack);
      RetryPointwise(guarded, attempt, ids, settings.maxRetries, 0);
      var calls, delays;
      r, calls, delays := CE.FetchWithStreamErrorHandling(guarded, ids, settings.maxRetries);
      if r.Rejected? {
        var thrown := Fail(r.error);
      }
    }
  }

  /** A second request started before the first one's attempt supersedes it:
      the first one's attempts fail whatever the chat would answer, and its
      `catch` then sets `error` (the one the second request had just cleared)
      and reports the failure to `onError` when one is given. */
  method SupersededScenario<T>(hook: EnhancedChatHook, attempt: nat -> Settled<T, ErrorInfo>,
                               ids: nat -> string, stack: string)
    returns (first: nat, second: nat, outcome: Settled<T, CE.StreamProcessingErrorValue>)
    modifies hook
    ensures second == first + 1 == hook.requestCount
    ensures outcome == CE.Retry(Guarded(hook.requestCount, first, attempt, stack), ids, hook.settings.maxRetries, 0)
    ensures outcome.Rejected?
    ensures hook.error == Some(outcome.error)
    ensures hook.reported == old(hook.reported) + (if hook.settings.hasOnError then [outcome.error] else [])
  {
    first := hook.Begin();
    second := hook.Begin();
    SupersededFails(hook.requestCount, first, attempt, stack, ids, hook.settings.maxRetries, 0);
    var calls, delays;
    outcome, calls, delays :=
      CE.FetchWithStreamErrorHandling(Guarded(hook.requestCount, first, attempt, stack), ids, hook.settings.maxRetries);
    var thrown := hook.Fail(outcome.error);
  }
}
