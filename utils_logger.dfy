/** The server-side logger over a pino sink (src/utils/logger.ts). The pino
    instance is modelled as a `Sink` that records each call; pino's own level
    filter and output formatting are not part of this model. */
module UtilsLogger {
  import opened Wrappers
  import opened Json
  import LoggerIndex

  datatype LogLevel = Trace | Debug | Info | Warn | Error | Fatal

  function LevelName(l: LogLevel): string {
    match l
    case Trace => "trace"
    case Debug => "debug"
    case Info => "info"
    case Warn => "warn"
    case Error => "error"
    case Fatal => "fatal"
  }

  datatype LogCategory = Api | Database | Auth | Chat | Performance | Security | General

  function CategoryName(c: LogCategory): string {
    match c
    case Api => "api"
    case Database => "database"
    case Auth => "auth"
    case Chat => "chat"
    case Performance => "performance"
    case Security => "security"
    case General => "general"
  }

  /** One `pinoLogger[level](logData, message)` call. */
  datatype Entry = Entry(level: LogLevel, data: seq<Member>, message: string)

  class Sink {
    var entries: seq<Entry>

    constructor ()
      ensures entries == []
    {
      entries := [];
    }
  }

  /** `logData`: the category and context, and `data` only when it is truthy. */
  function LogData(category: LogCategory, context: seq<Member>, data: Value): (r: seq<Member>)
    ensures Get(r, "category") == Str(CategoryName(category))
    ensures Get(r, "context") == Obj(context)
    ensures HasKey(r, "data") <==> Truthy(data)
    ensures Truthy(data) ==> Get(r, "data") == data
    ensures forall k :: HasKey(r, k) ==> k == "category" || k == "context" || k == "data"
  {
    var m0, m1 := Member("category", Str(CategoryName(category))), Member("context", Obj(context));
    var head := [m0, m1];
    assert head == [m0] + [m1] && [m0] == [] + [m0];
    var tail := if Truthy(data) then [Member("data", data)] else [];
    assert [Member("data", data)] == [] + [Member("data", data)];
    forall k
      ensures HasKey(head + tail, k) <==> k == "category" || k == "context" || (k == "data" && Truthy(data))
      ensures Get(head + tail, k) ==
        if k == "category" then m0.value else if k == "context" then m1.value
        else if k == "data" && Truthy(data) then data else Undefined
    {
      GetSnoc([], m0, k);
      GetSnoc([m0], m1, k);
      if Truthy(data) {
        GetSnoc(head, Member("data", data), k);
      }
    }
    head + tail
  }

  /** `errorData`: an `Error` becomes its message, stack and name followed by
      its own enumerable properties, which win; anything else is passed on. */
  function ErrorPayload(error: Value): (r: Value)
    ensures !error.ErrorObj? ==> r == error
    ensures error.ErrorObj? ==> r.Obj?
  {
    match error
    case ErrorObj(name, message, stack, own) =>
      Obj(Spread([Member("message", Str(message)),
                  Member("stack", if stack.Some? then Str(stack.value) else Undefined),
                  Member("name", Str(name))], own))
    case _ => error
  }

  /** The payload of an `Error`, key by key. */
  lemma ErrorPayloadFields(error: Value, k: string)
    requires error.ErrorObj?
    ensures HasKey(ErrorPayload(error).members, k) <==>
      HasKey(error.own, k) || k == "message" || k == "stack" || k == "name"
    ensures Get(ErrorPayload(error).members, k) ==
      if HasKey(error.own, k) then Get(error.own, k)
      else if k == "message" then Str(error.message)
      else if k == "name" then Str(error.name)
      else if k == "stack" then (if error.stack.Some? then Str(error.stack.value) else Undefined)
      else Undefined
  {
    var m0 := Member("message", Str(error.message));
    var m1 := Member("stack", if error.stack.Some? then Str(error.stack.value) else Undefined);
    var m2 := Member("name", Str(error.name));
    var base := [m0, m1, m2];
    assert base == [m0] + [m1] + [m2] && [m0] == [] + [m0];
    GetSpread(base, error.own, k);
    GetSnoc([m0] + [m1], m2, k);
    GetSnoc([m0], m1, k);
    GetSnoc([], m0, k);
  }

  class Logger {
    var context: seq<Member>
    var category: LogCategory
    const sink: Sink

    /** `new Logger(category?, initialContext?)` */
    constructor (sink: Sink, category: Option<LogCategory>, initialContext: Option<seq<Member>>)
      ensures this.sink == sink
      ensures this.category == category.GetOr(General)
      ensures context == if initialContext.Some? then Spread([], initialContext.value) else []
    {
      this.sink := sink;
      this.category := category.GetOr(General);
      context := if initialContext.Some? then Spread([], initialContext.value) else [];
    }

    /** `setContext(context)`: supplied keys override, the others are kept. */
    method SetContext(ctx: seq<Member>)
      modifies this
      ensures context == Spread(old(context), ctx)
      ensures forall k :: Get(context, k) == if HasKey(ctx, k) then Get(ctx, k) else Get(old(context), k)
      ensures forall k :: HasKey(context, k) <==> HasKey(ctx, k) || HasKey(old(context), k)
      ensures category == old(category)
    {
      forall k ensures Get(Spread(context, ctx), k) == (if HasKey(ctx, k) then Get(ctx, k) else Get(context, k))
        && (HasKey(Spread(context, ctx), k) <==> HasKey(ctx, k) || HasKey(context, k))
      {
        GetSpread(context, ctx, k);
      }
      context := Spread(context, ctx);
    }

    method SetCategory(c: LogCategory)
      modifies this
      ensures category == c && context == old(context)
    {
      category := c;
    }

    /** `child(additionalContext, category?)`: a new logger on the same sink;
        this one is not touched. */
    method Child(additional: seq<Member>, c: Option<LogCategory>) returns (child: Logger)
      ensures fresh(child) && child != this
      ensures child.sink == sink
      ensures child.category == c.GetOr(category)
      ensures child.context == Spread([], Spread(Spread([], context), additional))
      ensures forall k :: Get(child.context, k) == if HasKey(additional, k) then Get(additional, k) else Get(context, k)
      ensures forall k :: HasKey(child.context, k) <==> HasKey(additional, k) || HasKey(context, k)
    {
      var merged := Spread(Spread([], context), additional);
      forall k ensures Get(Spread([], merged), k) == (if HasKey(additional, k) then Get(additional, k) else Get(context, k))
        && (HasKey(Spread([], merged), k) <==> HasKey(additional, k) || HasKey(context, k))
      {
        GetSpread([], context, k);
        GetSpread(Spread([], context), additional, k);
        GetSpread([], merged, k);
      }
      child := new Logger(sink, Some(c.GetOr(category)), Some(merged));
    }

    /** `log(level, message, data?)`: one sink call through the level's method. */
    method Log(level: LogLevel, message: string, data: Value)
      modifies sink
      ensures sink.entries == old(sink.entries) + [Entry(level, LogData(category, context, data), message)]
    {
      sink.entries := sink.entries + [Entry(level, LogData(category, context, data), message)];
    }

    /** `error(message, error?, data?)`: `{...data, error: errorData}`. */
    method LogError(message: string, error: Value, data: Value)
      modifies sink
      ensures sink.entries == old(sink.entries) +
        [Entry(Error, LogData(category, context, Obj(LoggerIndex.ErrorData(data, ErrorPayload(error)))), message)]
    {
      Log(Error, message, Obj(LoggerIndex.ErrorData(data, ErrorPayload(error))));
    }

    /** `fatal(message, error?, data?)` */
    method LogFatal(message: string, error: Value, data: Value)
      modifies sink
      ensures sink.entries == old(sink.entries) +
        [Entry(Fatal, LogData(category, context, Obj(LoggerIndex.ErrorData(data, ErrorPayload(error)))), message)]
    {
      Log(Fatal, message, Obj(LoggerIndex.ErrorData(data, ErrorPayload(error))));
    }
  }

  /** A response whose headers the middleware sets in place. */
  class Response {
    const status: int
    var headers: map<string, string>

    constructor (status: int, headers: map<string, string>)
      ensures this.status == status && this.headers == headers
    {
      this.status := status;
      this.headers := headers;
    }
  }

  /** The request id: the incoming `x-request-id`, or the fresh UUID. */
  function RequestId(req: LoggerIndex.Request, uuid: string): (id: string)
    ensures "x-request-id" in req.headers && req.headers["x-request-id"] != "" ==> id == req.headers["x-request-id"]
    ensures !("x-request-id" in req.headers && req.headers["x-request-id"] != "") ==> id == uuid
  {
    LoggerIndex.OrElse(LoggerIndex.HeaderValue(req, "x-request-id"), uuid)
  }

  /** The context of the request logger. */
  function MiddlewareContext(req: LoggerIndex.Request, uuid: string): seq<Member> {
    [Member("requestId", Str(RequestId(req, uuid))),
     Member("route", Str(req.pathname)),
     Member("method", Str(req.httpMethod)),
     Member("ip", Str(LoggerIndex.OrElse(req.ip, LoggerIndex.OrElse(LoggerIndex.HeaderValue(req, "x-forwarded-for"), "unknown")))),
     Member("userAgent", Str(LoggerIndex.OrElse(LoggerIndex.HeaderValue(req, "user-agent"), "unknown")))]
  }

  function RequestLine(req: LoggerIndex.Request): string {
    req.httpMethod + " " + req.pathname
  }

  /** The middleware `createRequestMiddleware()` returns, for one request.
      `outcome` is how `next()` settles and `duration` the formatted elapsed
      time. A response comes back with the request id set; an error is logged
      and rethrown. `forwarded` is the cloned request headers. */
  method HandleRequest(sink: Sink, req: LoggerIndex.Request, uuid: string, outcome: Settled<Response, Value>, duration: string)
    returns (result: Settled<Response, Value>, forwarded: map<string, string>)
    modifies sink, if outcome.Resolved? then {outcome.value} else {}
    ensures forwarded == req.headers["x-request-id" := RequestId(req, uuid)]
    ensures result == outcome
    ensures outcome.Resolved? ==>
      outcome.value.headers == old(outcome.value.headers)["x-request-id" := RequestId(req, uuid)]
    ensures var ctx := Spread([], MiddlewareContext(req, uuid));
      var started := Entry(Info, LogData(Api, ctx, Undefined), "Request started: " + RequestLine(req));
      sink.entries == old(sink.entries) + [started] +
        if outcome.Resolved? then
          [Entry(Info, LogData(Api, ctx, Obj([Member("statusCode", Num(outcome.value.status)), Member("duration", Str(duration))])),
                 "Request completed: " + RequestLine(req))]
        else
          [Entry(Error, LogData(Api, ctx, Obj(LoggerIndex.ErrorData(Obj([Member("duration", Str(duration))]), ErrorPayload(outcome.error)))),
                 "Request failed: " + RequestLine(req))]
  {
    var requestId := RequestId(req, uuid);
    forwarded := req.headers["x-request-id" := requestId];
    var requestLogger := new Logger(sink, Some(Api), Some(MiddlewareContext(req, uuid)));
    requestLogger.Log(Info, "Request started: " + RequestLine(req), Undefined);
    match outcome
    case Resolved(response) =>
      requestLogger.Log(Info, "Request completed: " + RequestLine(req),
        Obj([Member("statusCode", Num(response.status)), Member("duration", Str(duration))]));
      response.headers := response.headers["x-request-id" := requestId];
      result := Resolved(response);
    case Rejected(error) =>
      requestLogger.LogError("Request failed: " + RequestLine(req), error, Obj([Member("duration", Str(duration))]));
      result := Rejected(error);
  }
}
