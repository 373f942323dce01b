/** The chat feature's logger over the server-side logger
    (src/features/chat/chatLogger.ts). It extends that logger; here it holds
    it as `base`. `nodeEnv` is `process.env.NODE_ENV`. */
module ChatLogFeatures {
  import opened Wrappers
  import opened Strings
  import opened Json
  import LoggerIndex
  import UL = UtilsLogger

  /** `chunkNumber % 10 === 0 || chunkNumber === 1`. Only a zero remainder is
      tested, and the truncating and Euclidean remainders are zero together. */
  predicate ChunkLogged(chunkNumber: int) {
    chunkNumber % 10 == 0 || chunkNumber == 1
  }

  /** Of the positive chunk numbers, the first one and then every tenth are
      logged. */
  lemma ChunkSampling(chunkNumber: int)
    ensures chunkNumber > 1 ==> (ChunkLogged(chunkNumber) <==> chunkNumber % 10 == 0)
  {
  }

  /** The message preview: only in development, the first 100 characters and
      `...` when something was cut. */
  function MessagePreview(nodeEnv: Option<string>, content: string): (r: Value)
    ensures nodeEnv != Some("development") ==> r == Undefined
    ensures nodeEnv == Some("development") && |content| <= 100 ==> r == Str(content)
    ensures nodeEnv == Some("development") && |content| > 100 ==> r == Str(content[..100] + "...")
  {
    if nodeEnv != Some("development") then Undefined
    else if |content| > 100 then Str(content[..100] + "...")
    else Str(content)
  }

  /** A development preview never exceeds 103 characters and starts with the
      content's first characters. */
  lemma PreviewBounds(content: string)
    ensures var p := MessagePreview(Some("development"), content).s;
      |p| <= 103 && StartsWith(p, Prefix(content, 100)) && (|p| == 103 <==> |content| > 100)
  {
  }

  /** `additionalInfo` in `logApiError`, picked in order: an abort, a JSON
      type error, a truthy `status`; none otherwise. */
  function AdditionalInfo(error: Value): (r: seq<Member>)
    requires error.ErrorObj?
    ensures error.name == "AbortError" ==> r == [Member("reason", Str("Request timed out or was aborted"))]
    ensures error.name != "AbortError" && error.name == "TypeError" && Contains(error.message, "JSON") ==>
      r == [Member("reason", Str("Invalid JSON in response"))]
    ensures r == [] <==>
      error.name != "AbortError" && !(error.name == "TypeError" && Contains(error.message, "JSON")) &&
      !Truthy(Get(error.own, "status"))
  {
    if error.name == "AbortError" then [Member("reason", Str("Request timed out or was aborted"))]
    else if error.name == "TypeError" && Contains(error.message, "JSON") then [Member("reason", Str("Invalid JSON in response"))]
    else if Truthy(Get(error.own, "status")) then
      [Member("statusCode", Get(error.own, "status")), Member("statusText", Get(error.own, "statusText"))]
    else []
  }

  /** A status is reported only when neither reason applies, and then with
      its value. */
  lemma StatusReported(error: Value)
    requires error.ErrorObj? && error.name != "AbortError" && !(error.name == "TypeError" && Contains(error.message, "JSON"))
    requires Truthy(Get(error.own, "status"))
    ensures Get(AdditionalInfo(error), "statusCode") == Get(error.own, "status")
    ensures !HasKey(AdditionalInfo(error), "reason")
  {
    var m0, m1 := Member("statusCode", Get(error.own, "status")), Member("statusText", Get(error.own, "statusText"));
    assert AdditionalInfo(error) == [m0] + [m1] && [m0] == [] + [m0];
    GetSnoc([m0], m1, "statusCode");
    GetSnoc([], m0, "statusCode");
    GetSnoc([m0], m1, "reason");
    GetSnoc([], m0, "reason");
  }

  /** `{...additionalInfo, request: ...}` */
  function ApiErrorData(error: Value, requestData: Value): seq<Member>
    requires error.ErrorObj?
  {
    Spread(Spread([], AdditionalInfo(error)),
      [Member("request", if Truthy(requestData) then
        Obj([Member("endpoint", Get(OwnEnumerable(requestData), "endpoint")),
             Member("model", Get(OwnEnumerable(requestData), "model"))])
       else Undefined)])
  }

  /** `errorInfo`: the name, the message and, outside production, the stack. */
  function ApiErrorInfo(error: Value, nodeEnv: Option<string>): (r: seq<Member>)
    requires error.ErrorObj?
    ensures Get(r, "stack") == if nodeEnv != Some("production") && error.stack.Some? then Str(error.stack.value) else Undefined
  {
    var m0, m1 := Member("name", Str(error.name)), Member("message", Str(error.message));
    var m2 := Member("stack", if nodeEnv != Some("production") && error.stack.Some? then Str(error.stack.value) else Undefined);
    assert [m0, m1, m2] == [m0] + [m1] + [m2];
    GetSnoc([m0] + [m1], m2, "stack");
    [m0, m1, m2]
  }

  /** `logApiError` as written logs `error` itself, not the `errorInfo` it
      builds: the record's error carries the stack in production too. */
  lemma ProductionStackLogged(error: Value, requestData: Value)
    requires error.ErrorObj? && error.stack.Some? && !HasKey(error.own, "stack")
    ensures var payload := UL.ErrorPayload(error);
      Get(LoggerIndex.ErrorData(Obj(ApiErrorData(error, requestData)), payload), "error") == payload &&
      Get(payload.members, "stack") == Str(error.stack.value)
    ensures Get(ApiErrorInfo(error, Some("production")), "stack") == Undefined
  {
    UL.ErrorPayloadFields(error, "stack");
  }

  /** The record data `logApiError` evidently means to log: `errorInfo` in
      place of the error, so that no stack reaches a production log. */
  function CorrectedApiErrorData(error: Value, requestData: Value, nodeEnv: Option<string>): (r: seq<Member>)
    requires error.ErrorObj?
    ensures Get(r, "error") == Obj(ApiErrorInfo(error, nodeEnv))
    ensures nodeEnv == Some("production") ==> Get(Get(r, "error").members, "stack") == Undefined
  {
    LoggerIndex.ErrorData(Obj(ApiErrorData(error, requestData)), Obj(ApiErrorInfo(error, nodeEnv)))
  }

  /** `responseData.usage?.<field>`; reading `usage` of a missing response throws. */
  function UsageField(responseData: Value, field: string): (r: Outcome<Value>)
    ensures r.Throws? <==> responseData.Undefined? || responseData.Null?
  {
    match Property(responseData, "usage")
    case None => Throws
    case Some(usage) => Returns(if usage.Undefined? || usage.Null? then Undefined else Get(OwnEnumerable(usage), field))
  }

  /** `JSON.stringify(x).length` for a value that is not `undefined`. */
  function JsonLength(v: Value): (n: nat)
    ensures !v.Undefined? ==> Stringify(v) == Some(Text(v)) && n == |Text(v)|
  {
    if v.Undefined? then 0 else |Text(v)|
  }

  /** The context fields `logRequestInitiated` sets. */
  function RequestPatch(chatId: string, userId: string, modelId: Option<string>): seq<Member> {
    [Member("chatId", Str(chatId)), Member("userId", Str(userId)),
     Member("modelId", if modelId.Some? then Str(modelId.value) else Undefined)]
  }

  /** After `logRequestInitiated` the context holds the chat, user and model
      ids and keeps every other field. */
  lemma RequestContextFields(ctx: seq<Member>, chatId: string, userId: string, modelId: Option<string>, k: string)
    ensures Get(Spread(ctx, RequestPatch(chatId, userId, modelId)), k) ==
      if k == "chatId" then Str(chatId)
      else if k == "userId" then Str(userId)
      else if k == "modelId" then (if modelId.Some? then Str(modelId.value) else Undefined)
      else Get(ctx, k)
  {
    var p := RequestPatch(chatId, userId, modelId);
    GetSpread(ctx, p, k);
    GetThree(p[0], p[1], p[2], k);
  }

  /** The context fields `logApiResponse` sets. */
  function ResponsePatch(latencyMs: int, promptTokens: Value, completionTokens: Value): seq<Member> {
    [Member("latency", Num(latencyMs)), Member("promptTokens", promptTokens), Member("completionTokens", completionTokens)]
  }

  /** After `logApiResponse` the context holds the latency and the usage's
      token counts and keeps every other field. */
  lemma ResponseContextFields(ctx: seq<Member>, responseData: Value, latencyMs: int, k: string)
    requires !(responseData.Undefined? || responseData.Null?)
    ensures var p := ResponsePatch(latencyMs, UsageField(responseData, "prompt_tokens").value,
                                     UsageField(responseData, "completion_tokens").value);
      Get(Spread(ctx, p), k) ==
        if k == "latency" then Num(latencyMs)
        else if k == "promptTokens" then UsageField(responseData, "prompt_tokens").value
        else if k == "completionTokens" then UsageField(responseData, "completion_tokens").value
        else Get(ctx, k)
  {
    var p := ResponsePatch(latencyMs, UsageField(responseData, "prompt_tokens").value,
                           UsageField(responseData, "completion_tokens").value);
    GetSpread(ctx, p, k);
    GetThree(p[0], p[1], p[2], k);
  }

  class ChatLogger {
    const base: UL.Logger
    const nodeEnv: Option<string>

    /** `new ChatLogger(initialContext?)`: category `chat`. */
    constructor (sink: UL.Sink, nodeEnv: Option<string>, initialContext: Option<seq<Member>>)
      ensures fresh(base) && base.sink == sink && this.nodeEnv == nodeEnv
      ensures base.category == UL.Chat
      ensures base.context == if initialContext.Some? then Spread([], initialContext.value) else []
    {
      base := new UL.Logger(sink, Some(UL.Chat), initialContext);
      this.nodeEnv := nodeEnv;
    }

    /** `logRequestInitiated(chatId, userId, messageContent, modelId?)` */
    method LogRequestInitiated(chatId: string, userId: string, messageContent: string, modelId: Option<string>)
      modifies base, base.sink
      ensures base.context == Spread(old(base.context), RequestPatch(chatId, userId, modelId))
      ensures base.category == old(base.category)
      ensures base.sink.entries == old(base.sink.entries) +
        [UL.Entry(UL.Info, UL.LogData(base.category, base.context,
          Obj([Member("messageLength", Num(|messageContent|)), Member("messagePreview", MessagePreview(nodeEnv, messageContent))])),
          "Chat request initiated")]
    {
      var patch := RequestPatch(chatId, userId, modelId);
      base.SetContext(patch);
      base.Log(UL.Info, "Chat request initiated",
        Obj([Member("messageLength", Num(|messageContent|)), Member("messagePreview", MessagePreview(nodeEnv, messageContent))]));
    }

    /** `logApiRequest(requestData)`; a missing request throws on `.endpoint`. */
    method LogApiRequest(requestData: Value) returns (threw: bool)
      modifies base.sink
      ensures threw <==> requestData.Undefined? || requestData.Null?
      ensures threw ==> base.sink.entries == old(base.sink.entries)
      ensures !threw ==>
        var own := OwnEnumerable(requestData);
        base.sink.entries == old(base.sink.entries) +
          [UL.Entry(UL.Debug, UL.LogData(base.category, base.context,
            Obj([Member("endpoint", Get(own, "endpoint")), Member("requestSize", Num(JsonLength(requestData))),
                 Member("requestMeta", Obj([Member("model", Get(own, "model")), Member("maxTokens", Get(own, "maxTokens")),
                                            Member("temperature", Get(own, "temperature"))]))])),
            "Sending request to chat API")]
    {
      if requestData.Undefined? || requestData.Null? {
        return true;
      }
      var own := OwnEnumerable(requestData);
      base.Log(UL.Debug, "Sending request to chat API",
        Obj([Member("endpoint", Get(own, "endpoint")), Member("requestSize", Num(JsonLength(requestData))),
             Member("requestMeta", Obj([Member("model", Get(own, "model")), Member("maxTokens", Get(own, "maxTokens")),
                                        Member("temperature", Get(own, "temperature"))]))]));
      threw := false;
    }

    /** `logApiResponse(responseData, latencyMs)`: latency and token counts go
        into the context. */
    method LogApiResponse(responseData: Value, latencyMs: int) returns (threw: bool)
      modifies base, base.sink
      ensures threw <==> responseData.Undefined? || responseData.Null?
      ensures threw ==> base.context == old(base.context) && base.sink.entries == old(base.sink.entries)
      ensures !threw ==>
        base.context == Spread(old(base.context), ResponsePatch(latencyMs,
          UsageField(responseData, "prompt_tokens").value, UsageField(responseData, "completion_tokens").value))
      ensures !threw ==>
        var own := OwnEnumerable(responseData);
        base.sink.entries == old(base.sink.entries) +
          [UL.Entry(UL.Debug, UL.LogData(base.category, base.context,
            Obj([Member("statusCode", Get(own, "status")), Member("responseSize", Num(JsonLength(responseData))),
                 Member("usage", Get(own, "usage"))])),
            "Received response from chat API")]
    {
      var prompt := UsageField(responseData, "prompt_tokens");
      var completion := UsageField(responseData, "completion_tokens");
      if prompt.Throws? {
        return true;
      }
      var patch := ResponsePatch(latencyMs, prompt.value, completion.value);
      base.SetContext(patch);
      var own := OwnEnumerable(responseData);
      base.Log(UL.Debug, "Received response from chat API",
        Obj([Member("statusCode", Get(own, "status")), Member("responseSize", Num(JsonLength(responseData))),
             Member("usage", Get(own, "usage"))]));
      threw := false;
    }

    /** `logApiError(error, requestData?)`, as written: the error itself is
        logged. */
    method LogApiError(error: Value, requestData: Value)
      requires error.ErrorObj?
      modifies base.sink
      ensures base.sink.entries == old(base.sink.entries) +
        [UL.Entry(UL.Error, UL.LogData(base.category, base.context,
          Obj(LoggerIndex.ErrorData(Obj(ApiErrorData(error, requestData)), UL.ErrorPayload(error)))),
          "Error in chat API call")]
    {
      base.LogError("Error in chat API call", error, Obj(ApiErrorData(error, requestData)));
    }

    /** `logStreamChunk(chunkNumber, chunkSize)` */
    method LogStreamChunk(chunkNumber: int, chunkSize: int)
      modifies base.sink
      ensures base.sink.entries == old(base.sink.entries) +
        if ChunkLogged(chunkNumber) then
          [UL.Entry(UL.Trace, UL.LogData(base.category, base.context, Obj([Member("chunkSize", Num(chunkSize))])),
            "Received stream chunk #" + IntToString(chunkNumber))]
        else []
    {
      if ChunkLogged(chunkNumber) {
        base.Log(UL.Trace, "Received stream chunk #" + IntToString(chunkNumber), Obj([Member("chunkSize", Num(chunkSize))]));
      }
    }

    /** `logStreamComplete(totalChunks, totalLatencyMs)` */
    method LogStreamComplete(totalChunks: int, totalLatencyMs: int)
      modifies base.sink
      ensures base.sink.entries == old(base.sink.entries) +
        [UL.Entry(UL.Info, UL.LogData(base.category, base.context,
          Obj([Member("totalChunks", Num(totalChunks)), Member("totalLatency", Str(IntToString(totalLatencyMs) + "ms"))])),
          "Chat stream completed")]
    {
      base.Log(UL.Info, "Chat stream completed",
        Obj([Member("totalChunks", Num(totalChunks)), Member("totalLatency", Str(IntToString(totalLatencyMs) + "ms"))]));
    }

    /** `logStreamError(error, chunkNumber)` */
    method LogStreamError(error: Value, chunkNumber: int)
      modifies base.sink
      ensures base.sink.entries == old(base.sink.entries) +
        [UL.Entry(UL.Error, UL.LogData(base.category, base.context,
          Obj(LoggerIndex.ErrorData(Undefined, UL.ErrorPayload(error)))),
          "Error in stream processing at chunk #" + IntToString(chunkNumber))]
    {
      base.LogError("Error in stream processing at chunk #" + IntToString(chunkNumber), error, Undefined);
    }
  }
}
