/** The composer route's logger (src/lib/logger/composer-logger.ts). It
    extends the edge logger; here it holds that logger as `base`. */
module ComposerLogger {
  import opened Wrappers
  import opened Strings
  import opened Json
  import opened LogText
  import opened LoggerIndex

  /** `sanitized.<field> && sanitized.<field>.length > 200` */
  predicate TooLong(v: Value) {
    Truthy(v) && NumericLength(v).Some? && NumericLength(v).value > 200
  }

  /** A long field is cut to 200 characters; only strings can be cut, so a
      long array or object makes the helper throw. */
  function Shortened(v: Value): (r: Outcome<Value>)
    ensures !TooLong(v) ==> r == Returns(v)
    ensures TooLong(v) && v.Str? ==> r == Returns(Str(v.s[..200] + "..."))
    ensures r.Throws? <==> TooLong(v) && !v.Str?
  {
    if !TooLong(v) then Returns(v)
    else if v.Str? then Returns(Str(Truncate(v.s, 200)))
    else Throws
  }

  /** `if (sanitized.<key> && sanitized.<key>.length > 200) sanitized.<key> =
      truncateString(sanitized.<key>, 200)` */
  function ShortenField(ms: seq<Member>, key: string): Outcome<seq<Member>> {
    var v := Get(ms, key);
    match Shortened(v)
    case Throws => Throws
    case Returns(w) => Returns(if TooLong(v) then Put(ms, key, w) else ms)
  }

  lemma ShortenFieldGet(ms: seq<Member>, key: string, k: string)
    ensures ShortenField(ms, key).Throws? <==> TooLong(Get(ms, key)) && !Get(ms, key).Str?
    ensures ShortenField(ms, key).Returns? ==>
      HasKey(ShortenField(ms, key).value, k) == HasKey(ms, k) &&
      Get(ShortenField(ms, key).value, k) ==
        if k == key && TooLong(Get(ms, k)) then Str(Get(ms, k).s[..200] + "...") else Get(ms, k)
  {
    var v := Get(ms, key);
    if Shortened(v).Returns? {
      GetPut(ms, key, Shortened(v).value, k);
    }
  }

  /** `if (sanitized.messages && Array.isArray(sanitized.messages)) { ... }` */
  function MaskMessages(ms: seq<Member>): seq<Member> {
    var msgs := Get(ms, "messages");
    if msgs.Arr? then Put(Put(ms, "messageCount", Num(|msgs.items|)), "messages", Str("Messages array truncated"))
    else ms
  }

  lemma MaskMessagesGet(ms: seq<Member>, k: string)
    ensures HasKey(MaskMessages(ms), k) <==> HasKey(ms, k) || (k == "messageCount" && Get(ms, "messages").Arr?)
    ensures Get(MaskMessages(ms), k) ==
      if k == "messages" && Get(ms, "messages").Arr? then Str("Messages array truncated")
      else if k == "messageCount" && Get(ms, "messages").Arr? then Num(|Get(ms, "messages").items|)
      else Get(ms, k)
  {
    var msgs := Get(ms, "messages");
    if msgs.Arr? {
      var c := Put(ms, "messageCount", Num(|msgs.items|));
      GetPut(ms, "messageCount", Num(|msgs.items|), k);
      GetPut(ms, "messageCount", Num(|msgs.items|), "messages");
      GetPut(c, "messages", Str("Messages array truncated"), k);
    }
  }

  /** `sanitizeParams(params)` */
  function SanitizeParams(params: Value): (r: Outcome<Value>)
    ensures !Truthy(params) ==> r == Returns(Null)
    ensures Truthy(params) && r.Returns? ==> r.value.Obj?
  {
    if !Truthy(params) then Returns(Null)
    else
      match ShortenField(Spread([], OwnEnumerable(params)), "editorHTML")
      case Throws => Throws
      case Returns(c1) =>
        match ShortenField(c1, "prompt")
        case Throws => Throws
        case Returns(c2) => Returns(Obj(MaskMessages(c2)))
  }

  /** What a sanitized field holds, key by key. */
  function SanitizedField(own: seq<Member>, k: string): Value {
    var v := Get(own, k);
    var msgs := Get(own, "messages");
    if (k == "editorHTML" || k == "prompt") && TooLong(v) && v.Str? then Str(v.s[..200] + "...")
    else if k == "messages" && msgs.Arr? then Str("Messages array truncated")
    else if k == "messageCount" && msgs.Arr? then Num(|msgs.items|)
    else v
  }

  /** Sanitizing throws exactly when a long `editorHTML` or `prompt` is not a
      string; otherwise the copy holds the parameters' keys (plus
      `messageCount` for an array of messages) and the fields of
      `SanitizedField`. */
  lemma SanitizeParamsFields(params: Value, k: string)
    requires Truthy(params)
    ensures var own := OwnEnumerable(params);
      SanitizeParams(params).Throws? <==>
        (TooLong(Get(own, "editorHTML")) && !Get(own, "editorHTML").Str?) ||
        (TooLong(Get(own, "prompt")) && !Get(own, "prompt").Str?)
    ensures var own := OwnEnumerable(params);
      SanitizeParams(params).Returns? ==>
        Get(SanitizeParams(params).value.members, k) == SanitizedField(own, k) &&
        (HasKey(SanitizeParams(params).value.members, k) <==>
          HasKey(own, k) || (k == "messageCount" && Get(own, "messages").Arr?))
  {
    var own := OwnEnumerable(params);
    var copy := Spread([], own);
    CopyKeeps(own, k);
    CopyKeeps(own, "editorHTML");
    CopyKeeps(own, "prompt");
    CopyKeeps(own, "messages");
    ShortenFieldGet(copy, "editorHTML", k);
    ShortenFieldGet(copy, "editorHTML", "prompt");
    ShortenFieldGet(copy, "editorHTML", "messages");
    var s1 := ShortenField(copy, "editorHTML");
    if s1.Returns? {
      ShortenFieldGet(s1.value, "prompt", k);
      ShortenFieldGet(s1.value, "prompt", "messages");
      var s2 := ShortenField(s1.value, "prompt");
      if s2.Returns? {
        MaskMessagesGet(s2.value, k);
      }
    }
  }

  /** `rawResponseLength` as written: a string's length, else the length of
      its JSON text, which `JSON.stringify` does not give for `undefined`. */
  function RawResponseLengthAsWritten(raw: Value): (r: Outcome<int>)
    ensures raw.Str? ==> r == Returns(|raw.s|)
    ensures r.Throws? <==> raw.Undefined?
  {
    if raw.Str? then Returns(|raw.s|)
    else match Stringify(raw)
      case None => Throws
      case Some(text) => Returns(|text|)
  }


  /** The length the logger evidently means: 0 when there is no raw response. */
  function RawResponseLength(raw: Value): (n: nat)
    ensures raw.Undefined? ==> n == 0
    ensures raw.Str? ==> n == |raw.s|
    ensures !raw.Undefined? ==> RawResponseLengthAsWritten(raw) == Returns(n)
  {
    if raw.Str? then |raw.s|
    else match Stringify(raw)
      case None => 0
      case Some(text) => |text|
  }

  /** The previews `logComposerStart` computes, the prompt's first. */
  function StartPreviews(prompt: Value, editorHTML: Value): (r: Outcome<seq<Member>>)
    ensures r.Throws? <==> TruncateValue(prompt, 100).Throws? || TruncateValue(editorHTML, 150).Throws?
    ensures prompt.Str? && editorHTML.Str? ==>
      r == Returns([Member("promptPreview", Str(Truncate(prompt.s, 100))),
                    Member("editorHTMLPreview", Str(Truncate(editorHTML.s, 150)))])
  {
    match TruncateValue(prompt, 100)
    case Throws => Throws
    case Returns(p) =>
      match TruncateValue(editorHTML, 150)
      case Throws => Throws
      case Returns(e) => Returns([Member("promptPreview", p), Member("editorHTMLPreview", e)])
  }

  function StartContext(model: string, prompt: Value, editorHTML: Value, messages: Value): seq<Member> {
    [Member("model", Str(model)), Member("promptLength", Num(LengthOrZero(prompt))),
     Member("editorHTMLLength", Num(LengthOrZero(editorHTML))), Member("messageCount", Num(LengthOrZero(messages)))]
  }

  function GenerationContext(result: seq<Member>, durationMs: int): seq<Member> {
    [Member("updateEditorHTML", Get(result, "updateEditorHTML")),
     Member("responseHTMLLength", Num(LengthOrZero(Get(result, "editorHTML")))),
     Member("responseMessageLength", Num(LengthOrZero(Get(result, "message")))),
     Member("suggestedPromptsCount", Num(LengthOrZero(Get(result, "nextPrompt")))),
     Member("duration", Num(durationMs))]
  }

  function GenerationData(preview: Value, result: seq<Member>, durationMs: int): seq<Member> {
    [Member("responsePreview", preview),
     Member("editorUpdateRequested", Get(result, "updateEditorHTML")),
     Member("editorHTMLLength", Num(LengthOrZero(Get(result, "editorHTML")))),
     Member("nextPromptCount", Num(LengthOrZero(Get(result, "nextPrompt")))),
     Member("durationMs", Num(durationMs))]
  }

  /** The data `logSchemaError` passes on, computed before anything is
      logged; building it throws when the length cannot be read. */
  function SchemaData(raw: Value): (r: Outcome<seq<Member>>)
    ensures r.Throws? <==> RawResponseLengthAsWritten(raw).Throws?
    ensures r.Returns? ==> r.value == [Member("errorType", Str("SCHEMA_VALIDATION")),
                                       Member("rawResponseLength", Num(RawResponseLength(raw)))]
  {
    match RawResponseLengthAsWritten(raw)
    case Throws => Throws
    case Returns(n) => Returns([Member("errorType", Str("SCHEMA_VALIDATION")), Member("rawResponseLength", Num(n))])
  }

  /** The schema-error data the logger evidently means, with length 0 when
      there is no raw response; wherever the as-written data can be built,
      the two agree. */
  function SchemaDataCorrected(raw: Value): (data: seq<Member>)
    ensures Get(data, "errorType") == Str("SCHEMA_VALIDATION")
    ensures Get(data, "rawResponseLength") == Num(RawResponseLength(raw))
    ensures raw.Undefined? ==> Get(data, "rawResponseLength") == Num(0)
    ensures SchemaData(raw).Returns? ==> SchemaData(raw).value == data
  {
    var m0, m1 := Member("errorType", Str("SCHEMA_VALIDATION")), Member("rawResponseLength", Num(RawResponseLength(raw)));
    GetTwo(m0, m1, "errorType");
    GetTwo(m0, m1, "rawResponseLength");
    [m0, m1]
  }

  /** Logging a schema error without a raw response (the parameter is
      optional) throws before the error line is written; any other raw
      response gets its length. */
  lemma MissingRawResponseThrows(raw: Value)
    ensures SchemaData(raw).Throws? <==> raw.Undefined?
    ensures SchemaData(Undefined) == Throws
    ensures raw.Str? ==> SchemaData(raw) == Returns([Member("errorType", Str("SCHEMA_VALIDATION")),
                                                     Member("rawResponseLength", Num(|raw.s|))])
  {
  }

  class ComposerLogger {
    const base: Logger

    /** `new ComposerLogger(initialContext?)`: category `composer`. */
    constructor (console: Console, env: Env, initialContext: Option<seq<Member>>)
      ensures fresh(base) && base.console == console && base.env == env
      ensures base.category == Composer
      ensures base.context == if initialContext.Some? then Spread([], initialContext.value) else []
    {
      base := new Logger(console, env, Some(Composer), initialContext);
    }

    /** `logComposerStart(params)`: the lengths go into the context, the
        previews into an info line; `threw` when a preview cannot be cut. */
    method LogComposerStart(model: string, prompt: Value, editorHTML: Value, messages: Value, timestamp: string)
      returns (threw: bool)
      modifies base, base.console
      ensures base.context == Spread(old(base.context), StartContext(model, prompt, editorHTML, messages))
      ensures base.category == old(base.category)
      ensures threw <==> StartPreviews(prompt, editorHTML).Throws?
      ensures threw ==> base.console.emitted == old(base.console.emitted)
      ensures !threw ==>
        base.console.emitted == old(base.console.emitted) +
          Emitted(base.env, Info, Printed(Info, timestamp, base.category,
            "Composer request initiated with " + model + " model", Obj(StartPreviews(prompt, editorHTML).value)))
    {
      base.ExtendContext(StartContext(model, prompt, editorHTML, messages));
      var previews := StartPreviews(prompt, editorHTML);
      if previews.Throws? {
        return true;
      }
      base.Log(Info, "Composer request initiated with " + model + " model", Obj(previews.value), timestamp);
      threw := false;
    }

    /** `logModelValidation(model, isValid)`: a warning for an invalid model,
        a debug line for a valid one. */
    method LogModelValidation(model: string, isValid: bool, timestamp: string)
      modifies base.console
      ensures base.console.emitted == old(base.console.emitted) +
        if isValid then
          Emitted(base.env, Debug, Printed(Debug, timestamp, base.category,
            "Valid model selected: " + model, Obj([Member("validationResult", Bool(true))])))
        else
          Emitted(base.env, Warn, Printed(Warn, timestamp, base.category,
            "Invalid model requested: " + model, Obj([Member("validationResult", Bool(false))])))
    {
      if !isValid {
        base.Log(Warn, "Invalid model requested: " + model, Obj([Member("validationResult", Bool(false))]), timestamp);
      } else {
        base.Log(Debug, "Valid model selected: " + model, Obj([Member("validationResult", Bool(true))]), timestamp);
      }
    }

    /** `logObjectGeneration(result, durationMs)` */
    method LogObjectGeneration(result: seq<Member>, durationMs: int, timestamp: string) returns (threw: bool)
      modifies base, base.console
      ensures base.context == Spread(old(base.context), GenerationContext(result, durationMs))
      ensures base.category == old(base.category)
      ensures threw <==> TruncateValue(Get(result, "message"), 100).Throws?
      ensures threw ==> base.console.emitted == old(base.console.emitted)
      ensures !threw ==>
        base.console.emitted == old(base.console.emitted) +
          Emitted(base.env, Info, Printed(Info, timestamp, base.category, "Object generated successfully",
            Obj(GenerationData(TruncateValue(Get(result, "message"), 100).value, result, durationMs))))
    {
      base.ExtendContext(GenerationContext(result, durationMs));
      var preview := TruncateValue(Get(result, "message"), 100);
      if preview.Throws? {
        return true;
      }
      base.Log(Info, "Object generated successfully", Obj(GenerationData(preview.value, result, durationMs)), timestamp);
      threw := false;
    }

    /** `logGenerationError(error, params?)` */
    method LogGenerationError(error: Value, params: Value, timestamp: string) returns (threw: bool)
      modifies base.console
      ensures threw <==> SanitizeParams(params).Throws?
      ensures threw ==> base.console.emitted == old(base.console.emitted)
      ensures !threw ==>
        base.console.emitted == old(base.console.emitted) +
          Emitted(base.env, Error, Printed(Error, timestamp, base.category, "Object generation failed",
            Obj(ErrorData(Obj([Member("requestParams", SanitizeParams(params).value)]), ErrorPayload(error)))))
    {
      var sanitized := SanitizeParams(params);
      if sanitized.Throws? {
        return true;
      }
      base.LogError("Object generation failed", error, Obj([Member("requestParams", sanitized.value)]), timestamp);
      threw := false;
    }

    /** `logSchemaError(error, rawResponse?)`: `threw` when the raw response's
        length cannot be read, which happens exactly when there is none, and
        then nothing is written. */
    method LogSchemaError(error: Value, rawResponse: Value, timestamp: string) returns (threw: bool)
      modifies base.console
      ensures threw <==> rawResponse.Undefined?
      ensures threw ==> base.console.emitted == old(base.console.emitted)
      ensures !threw ==>
        base.console.emitted == old(base.console.emitted) +
          Emitted(base.env, Error, Printed(Error, timestamp, base.category, "Schema validation error",
            Obj(ErrorData(Obj(SchemaData(rawResponse).value), ErrorPayload(error)))))
    {
      var data := SchemaData(rawResponse);
      if data.Throws? {
        return true;
      }
      base.LogError("Schema validation error", error, Obj(data.value), timestamp);
      threw := false;
    }

    /** `logModelConfig(model, config)` */
    method LogModelConfig(model: string, config: Value, timestamp: string)
      modifies base.console
      ensures base.console.emitted == old(base.console.emitted) +
        Emitted(base.env, Debug, Printed(Debug, timestamp, base.category,
          "Applied model-specific configuration", Obj([Member("model", Str(model)), Member("config", config)])))
    {
      base.Log(Debug, "Applied model-specific configuration", Obj([Member("model", Str(model)), Member("config", config)]), timestamp);
    }
  }
}
