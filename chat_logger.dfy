/** The chat route's logger (src/lib/logger/chat-logger.ts). It extends the
    edge logger; here it holds that logger as `base` and works on its
    context and console. */
module ChatLogger {
  import opened Wrappers
  import opened Strings
  import opened Json
  import opened LogText
  import opened LoggerIndex
  import StreamErrorHandler
  import JsErrors

  /** `truncateResult(result)` */
  function TruncateResult(result: Value): (r: Value)
    ensures !Truthy(result) ==> r == Null
    ensures Truthy(result) && result.Str? ==> r == Str(Truncate(result.s, 100))
    ensures Truthy(result) && result.Arr? ==> r == Str("Array with " + NatToString(|result.items|) + " items")
    ensures Truthy(result) && (result.Obj? || result.ErrorObj?) ==>
      r == Str("Object with keys: " + Join(Keys(OwnEnumerable(result)), ", "))
    ensures Truthy(result) && (result.Bool? || result.Num?) ==> r == result
  {
    if !Truthy(result) then Null
    else if result.Str? then Str(Truncate(result.s, 100))
    else if result.Arr? then Str("Array with " + NatToString(|result.items|) + " items")
    else if result.Obj? || result.ErrorObj? then Str("Object with keys: " + Join(Keys(OwnEnumerable(result)), ", "))
    else result
  }

  predicate Secret(k: string) {
    k == "apiKey" || k == "token"
  }

  /** `sanitizeParams(params)`: a shallow copy with a truthy `apiKey` or
      `token` masked as `***`. */
  function SanitizeParams(params: Value): (r: Value)
    ensures !Truthy(params) ==> r == Null
    ensures Truthy(params) ==> r.Obj?
  {
    if !Truthy(params) then Null
    else
      var copy := Spread([], OwnEnumerable(params));
      var masked := if Truthy(Get(copy, "apiKey")) then Put(copy, "apiKey", Str("***")) else copy;
      Obj(if Truthy(Get(masked, "token")) then Put(masked, "token", Str("***")) else masked)
  }

  /** The copy has the same keys as the parameters; the secrets that were set
      read `***` and every other field is equal. */
  lemma SanitizeParamsFields(params: Value, k: string)
    requires Truthy(params)
    ensures HasKey(SanitizeParams(params).members, k) == HasKey(OwnEnumerable(params), k)
    ensures Get(SanitizeParams(params).members, k) ==
      if Secret(k) && Truthy(Get(OwnEnumerable(params), k)) then Str("***") else Get(OwnEnumerable(params), k)
  {
    var own := OwnEnumerable(params);
    var copy := Spread([], own);
    CopyKeeps(own, k);
    CopyKeeps(own, "apiKey");
    CopyKeeps(own, "token");
    var masked := if Truthy(Get(copy, "apiKey")) then Put(copy, "apiKey", Str("***")) else copy;
    GetPut(copy, "apiKey", Str("***"), k);
    GetPut(copy, "apiKey", Str("***"), "token");
    GetPut(masked, "token", Str("***"), k);
  }

  /** `chunkCount % 5 === 0 || chunkCount <= 2` (for `chunkCount <= 2` both
      remainders agree, so Euclidean `%` is exact here). */
  predicate StreamSampled(chunkCount: int) {
    chunkCount % 5 == 0 || chunkCount <= 2
  }

  /** The first two chunks are logged, then every fifth. */
  lemma StreamSampling(chunkCount: int)
    ensures chunkCount > 2 ==> (StreamSampled(chunkCount) <==> chunkCount % 5 == 0)
    ensures 1 <= chunkCount <= 2 ==> StreamSampled(chunkCount)
    ensures StreamSampled(chunkCount) <==> StreamSampled(chunkCount + 5) || chunkCount <= 2
  {
  }

  /** `error.stack?.includes(...)` for the three data-stream markers. */
  predicate IsDataStreamError(stack: Option<string>) {
    stack.Some? &&
    (Contains(stack.value, "processDataStream") || Contains(stack.value, "onErrorPart") ||
     Contains(stack.value, "toDataStreamResponse"))
  }

  /** Every error the stream handler treats as a data-stream error is also one
      here; this logger accepts `toDataStreamResponse` as well. */
  lemma DataStreamStacksAgree(e: JsErrors.ErrorInfo)
    requires StreamErrorHandler.DataStreamStack(e)
    ensures IsDataStreamError(Some(e.stack))
  {
  }

  /** A non-numeric `stepCount` is never written; it would read as 0 here. */
  function StepCount(v: Value): (n: int)
    ensures !Truthy(v) ==> n == 0
  {
    if v.Num? then v.n else 0
  }

  /** The context fields `logChatStart` sets. */
  function ChatStartContext(tool: string, model: string, messages: Value, hasNotes: bool, hasImage: bool): (ctx: seq<Member>)
    ensures Get(ctx, "messagesCount") == Num(LengthOrZero(messages))
    ensures Get(ctx, "tool") == Str(tool) && Get(ctx, "model") == Str(model)
  {
    var m0, m1, m2 := Member("tool", Str(tool)), Member("model", Str(model)), Member("messagesCount", Num(LengthOrZero(messages)));
    var m3, m4 := Member("notesProvided", Bool(hasNotes)), Member("imageProvided", Bool(hasImage));
    var ctx := [m0, m1, m2, m3, m4];
    assert ctx == [m0] + [m1] + [m2] + [m3] + [m4] && [m0] == [] + [m0];
    forall k | k in {"messagesCount", "tool", "model"}
      ensures Get(ctx, k) == if k == "tool" then m0.value else if k == "model" then m1.value else m2.value
    {
      GetSnoc([m0] + [m1] + [m2] + [m3], m4, k);
      GetSnoc([m0] + [m1] + [m2], m3, k);
      GetSnoc([m0] + [m1], m2, k);
      GetSnoc([m0], m1, k);
      GetSnoc([], m0, k);
    }
    ctx
  }

  /** `messages[messages.length - 1]?.content` */
  function LastContent(messages: Value, length: int): Value {
    var last := Get(OwnEnumerable(messages), IntToString(length - 1));
    if last.Undefined? || last.Null? then Undefined else Get(OwnEnumerable(last), "content")
  }

  /** The `lastMessagePreview`: `No messages` without messages, else the last
      message's content truncated to 100 characters. */
  function ChatStartPreview(messages: Value): (r: Outcome<Value>)
    ensures LengthOrZero(messages) <= 0 ==> r == Returns(Str("No messages"))
    ensures LengthOrZero(messages) > 0 ==> r == TruncateValue(LastContent(messages, LengthOrZero(messages)), 100)
  {
    if NumericLength(messages).Some? && NumericLength(messages).value > 0 then
      TruncateValue(LastContent(messages, NumericLength(messages).value), 100)
    else Returns(Str("No messages"))
  }

  /** The fields copied from a step event into the debug line. */
  function StepData(e: seq<Member>): seq<Member> {
    [Member("step", Get(e, "step")), Member("type", Get(e, "type")), Member("name", Get(e, "name")),
     Member("toolName", Get(e, "toolName")), Member("inputTokens", Get(e, "inputTokens")),
     Member("outputTokens", Get(e, "outputTokens")), Member("duration", Get(e, "duration"))]
  }

  function StreamErrorInfo(chunkCount: int): Value {
    Obj([Member("errorLocation", Str("processDataStream/onErrorPart")),
         Member("errorType", Str("DATA_STREAM_PROCESSING")),
         Member("streamState", Obj([Member("chunksProcessed", Num(chunkCount)), Member("atFinalChunk", Bool(false))]))])
  }

  class ChatLogger {
    const base: Logger

    /** `new ChatLogger()`: category `chat`, empty context. */
    constructor (console: Console, env: Env)
      ensures fresh(base) && base.console == console && base.env == env
      ensures base.category == Chat && base.context == []
    {
      base := new Logger(console, env, Some(Chat), None);
    }

    /** `logChatStart(params)`. `threw` is set when building the preview
        throws, after the context was already extended. */
    method LogChatStart(tool: string, model: string, messages: Value, hasNotes: bool, hasImage: bool, timestamp: string)
      returns (threw: bool)
      modifies base, base.console
      ensures base.context == Spread(old(base.context), ChatStartContext(tool, model, messages, hasNotes, hasImage))
      ensures Get(base.context, "messagesCount") == Num(LengthOrZero(messages))
      ensures base.category == old(base.category)
      ensures threw <==> ChatStartPreview(messages).Throws?
      ensures threw ==> base.console.emitted == old(base.console.emitted)
      ensures !threw ==>
        base.console.emitted == old(base.console.emitted) +
          Emitted(base.env, Info, Printed(Info, timestamp, base.category,
            "Chat request initiated with " + tool + " tool and " + model + " model",
            Obj([Member("lastMessagePreview", ChatStartPreview(messages).value)])))
    {
      var patch := ChatStartContext(tool, model, messages, hasNotes, hasImage);
      GetSpread(base.context, patch, "messagesCount");
      base.ExtendContext(patch);
      var preview := ChatStartPreview(messages);
      if preview.Throws? {
        return true;
      }
      base.Log(Info, "Chat request initiated with " + tool + " tool and " + model + " model",
        Obj([Member("lastMessagePreview", preview.value)]), timestamp);
      threw := false;
    }

    /** `logStepCompletion(stepEvent)`: one more step in the context. */
    method LogStepCompletion(stepEvent: seq<Member>, timestamp: string)
      modifies base, base.console
      ensures Get(base.context, "stepCount") == Num(StepCount(Get(old(base.context), "stepCount")) + 1)
      ensures forall k :: k != "stepCount" ==> Get(base.context, k) == Get(old(base.context), k)
      ensures base.category == old(base.category)
      ensures base.console.emitted == old(base.console.emitted) +
        Emitted(base.env, Debug, Printed(Debug, timestamp, base.category,
          "Step completed: " + ToJsString(Get(stepEvent, "type")), Obj(StepData(stepEvent))))
    {
      var next := StepCount(Get(base.context, "stepCount")) + 1;
      var patch := [Member("stepCount", Num(next))];
      assert patch == [] + [Member("stepCount", Num(next))];
      GetSnoc([], Member("stepCount", Num(next)), "stepCount");
      forall k | k != "stepCount" ensures !HasKey(patch, k) {
        GetSnoc([], Member("stepCount", Num(next)), k);
      }
      base.ExtendContext(patch);
      base.Log(Debug, "Step completed: " + ToJsString(Get(stepEvent, "type")), Obj(StepData(stepEvent)), timestamp);
    }

    /** `logStreamProgress(chunkCount, tokenCount)`: a trace on a `stream`
        child logger for the sampled chunks. */
    method LogStreamProgress(chunkCount: int, tokenCount: int, timestamp: string)
      modifies base.console
      ensures base.console.emitted == old(base.console.emitted) +
          if StreamSampled(chunkCount) then
            Emitted(base.env, Trace, Printed(Trace, timestamp, Stream,
              "Stream progress: " + IntToString(chunkCount) + " chunks, ~" + IntToString(tokenCount) + " tokens", Undefined))
          else []
    {
      if StreamSampled(chunkCount) {
        var streamLogger := base.Child([Member("streamChunks", Num(chunkCount)), Member("streamTokens", Num(tokenCount))], Some(Stream));
        streamLogger.Log(Trace, "Stream progress: " + IntToString(chunkCount) + " chunks, ~" + IntToString(tokenCount) + " tokens",
          Undefined, timestamp);
      }
    }

    /** `logStreamError(error, chunkCount)`: data-stream errors carry the
        stream state. */
    method LogStreamError(error: Value, chunkCount: int, timestamp: string)
      requires error.ErrorObj?
      modifies base.console
      ensures base.console.emitted == old(base.console.emitted) +
          if IsDataStreamError(error.stack) then
            Emitted(base.env, Error, Printed(Error, timestamp, Stream, "Stream processing error",
              Obj(ErrorData(StreamErrorInfo(chunkCount), ErrorPayload(error)))))
          else
            Emitted(base.env, Error, Printed(Error, timestamp, Stream, "Streaming error",
              Obj(ErrorData(Undefined, ErrorPayload(error)))))
    {
      var streamLogger := base.Child([Member("streamChunks", Num(chunkCount))], Some(Stream));
      if IsDataStreamError(error.stack) {
        streamLogger.LogError("Stream processing error", error, StreamErrorInfo(chunkCount), timestamp);
      } else {
        streamLogger.LogError("Streaming error", error, Undefined, timestamp);
      }
    }
  }
}
