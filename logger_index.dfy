/** The edge logger (src/lib/logger/index.ts): level threshold, context and
    category fields, child loggers, the error payload, the console call each log
    makes, the cycle-safe serialiser and the request context. Console output
    is the shared `Console`'s `emitted` list; the clock and the UUID source are parameters. */
module LoggerIndex {
  import opened Wrappers
  import opened Strings
  import opened Json

  datatype LogLevel = Trace | Debug | Info | Warn | Error | Fatal

  function LevelName(l: LogLevel): string {
    match l
    case Trace => "trace"
    case Debug => "debug"
    case Info => "info"
    case Warn => "warn"
    case Error => "error"
    case Fatal => "fatal"
  }

  datatype LogCategory = Chat | Tools | Composer | Embedding | Model | Database | Stream | Security | General

  function CategoryName(c: LogCategory): string {
    match c
    case Chat => "chat"
    case Tools => "tools"
    case Composer => "composer"
    case Embedding => "embedding"
    case Model => "model"
    case Database => "database"
    case Stream => "stream"
    case Security => "security"
    case General => "general"
  }

  /** The `levels` table: `None` for a name it does not hold. */
  function Rank(name: string): (r: Option<nat>)
    ensures r.Some? ==> r.value <= 5
    ensures forall l: LogLevel :: name == LevelName(l) ==> r.Some?
  {
    if name == "trace" then Some(0)
    else if name == "debug" then Some(1)
    else if name == "info" then Some(2)
    else if name == "warn" then Some(3)
    else if name == "error" then Some(4)
    else if name == "fatal" then Some(5)
    else None
  }

  function LevelRank(l: LogLevel): (r: nat)
    ensures Rank(LevelName(l)) == Some(r)
  {
    Rank(LevelName(l)).value
  }

  /** The two environment variables the logger reads once. */
  datatype Env = Env(loggingEnabled: Option<string>, logLevel: Option<string>)

  /** `NEXT_PUBLIC_LOGGING_ENABLED !== 'false'` */
  function Enabled(env: Env): (b: bool)
    ensures !b <==> env.loggingEnabled == Some("false")
  {
    env.loggingEnabled != Some("false")
  }

  /** `NEXT_PUBLIC_LOG_LEVEL || 'info'` */
  function ConfiguredLevel(env: Env): (level: string)
    ensures env.logLevel.Some? && env.logLevel.value != "" ==> level == env.logLevel.value
    ensures env.logLevel.None? || env.logLevel.value == "" ==> level == "info"
  {
    if env.logLevel.Some? && env.logLevel.value != "" then env.logLevel.value else "info"
  }

  /** `shouldLog(level)`: the comparison with the rank of an unknown configured
      level is with `undefined`, which is false. */
  function ShouldLog(env: Env, level: LogLevel): (emit: bool) {
    var configured := Rank(ToLower(ConfiguredLevel(env)));
    Enabled(env) && configured.Some? && LevelRank(level) >= configured.value
  }

  /** The levels from least to most severe. */
  const LevelOrder: seq<string> := ["trace", "debug", "info", "warn", "error", "fatal"]

  /** A message is emitted exactly when logging is on and, in the list from
      least to most severe, the (lower-cased) configured level is one of the
      names and sits no later than the message's level; an unknown configured
      level therefore silences everything. */
  lemma ShouldLogThreshold(env: Env, level: LogLevel)
    ensures ShouldLog(env, level) <==>
      Enabled(env) &&
      exists i, j :: 0 <= i <= j < |LevelOrder| &&
        LevelOrder[i] == ToLower(ConfiguredLevel(env)) && LevelOrder[j] == LevelName(level)
  {
    var c := ToLower(ConfiguredLevel(env));
    assert forall i :: 0 <= i < |LevelOrder| ==> Rank(LevelOrder[i]) == Some(i);
    var j := LevelRank(level);
    assert LevelOrder[j] == LevelName(level) by {
      match level
      case Trace => case Debug => case Info => case Warn => case Error => case Fatal =>
    }
    if ShouldLog(env, level) {
      var i := Rank(c).value;
      assert LevelOrder[i] == c;
      assert 0 <= i <= j < |LevelOrder|;
    }
  }

  /** A level that passes lets every higher level pass. */
  lemma ShouldLogMonotone(env: Env, lower: LogLevel, higher: LogLevel)
    requires LevelRank(lower) <= LevelRank(higher)
    requires ShouldLog(env, lower)
    ensures ShouldLog(env, higher)
  {
  }

  /** Unset, the level is `info`: trace and debug are dropped, the rest kept. */
  lemma DefaultLevelIsInfo(level: LogLevel)
    ensures var env := Env(None, None);
      ShouldLog(env, level) <==> level != Trace && level != Debug
  {
    assert ToLower("info") == "info";
  }

  /** The configured level is compared without regard to ASCII case. */
  lemma LevelCaseInsensitive(enabled: Option<string>, configured: string, level: LogLevel)
    ensures ShouldLog(Env(enabled, Some(configured)), level) == ShouldLog(Env(enabled, Some(ToLower(configured))), level)
  {
    ToLowerIdempotent(configured);
  }

  /** Which console method a level is written with. */
  datatype Channel = ConsoleDebug | ConsoleLog | ConsoleWarn | ConsoleError

  function ChannelOf(l: LogLevel): Channel {
    match l
    case Trace => ConsoleDebug
    case Debug => ConsoleDebug
    case Info => ConsoleLog
    case Warn => ConsoleWarn
    case Error => ConsoleError
    case Fatal => ConsoleError
  }

  /** The `logData` record: the six fixed fields, then `data` when it is
      truthy. `log` builds it and never uses it. */
  function Record(level: LogLevel, timestamp: string, category: LogCategory, context: seq<Member>,
                  message: string, data: Value): (r: seq<Member>)
    ensures HasKey(r, "data") <==> Truthy(data)
    ensures Get(r, "data") == if Truthy(data) then data else Undefined
    ensures Get(r, "context") == Obj(context) && Get(r, "message") == Str(message)
    ensures Get(r, "level") == Str(LevelName(level)) && Get(r, "category") == Str(CategoryName(category))
  {
    var m0, m1, m2 := Member("level", Str(LevelName(level))), Member("timestamp", Str(timestamp)),
      Member("category", Str(CategoryName(category)));
    var m3, m4 := Member("context", Obj(context)), Member("message", Str(message));
    var fixed := [m0, m1, m2, m3, m4];
    assert fixed == [m0] + [m1] + [m2] + [m3] + [m4] && [m0] == [] + [m0];
    forall k | k in {"data", "context", "message", "level", "category"}
      ensures HasKey(fixed, k) <==> k != "data" && k in {"context", "message", "level", "category", "timestamp"}
      ensures Get(fixed, k) == if k == "level" then m0.value else if k == "category" then m2.value
        else if k == "context" then m3.value else if k == "message" then m4.value else Undefined
    {
      GetSnoc([m0] + [m1] + [m2] + [m3], m4, k);
      GetSnoc([m0] + [m1] + [m2], m3, k);
      GetSnoc([m0] + [m1], m2, k);
      GetSnoc([m0], m1, k);
      GetSnoc([], m0, k);
    }
    var extra := if Truthy(data) then [Member("data", data)] else [];
    assert [Member("data", data)] == [] + [Member("data", data)];
    GetSpread(fixed, extra, "data");
    GetSpread(fixed, extra, "context");
    GetSpread(fixed, extra, "message");
    GetSpread(fixed, extra, "level");
    GetSpread(fixed, extra, "category");
    GetSnoc([], Member("data", data), "data");
    GetSnoc([], Member("data", data), "context");
    GetSnoc([], Member("data", data), "message");
    GetSnoc([], Member("data", data), "level");
    GetSnoc([], Member("data", data), "category");
    Spread(fixed, extra)
  }

  /** What one console call receives: the method for the level, the parts of
      the `[timestamp] [level] [category] message` line, and the data shown
      under it when the data is truthy. The logger's context is not written. */
  datatype Emission = Emission(channel: Channel, level: LogLevel, timestamp: string, category: LogCategory,
                               message: string, data: Option<Value>)

  /** The console call `log` makes for the given level, time, category,
      message and data. */
  function Printed(level: LogLevel, timestamp: string, category: LogCategory, message: string, data: Value): (e: Emission)
    ensures e.channel == ChannelOf(level)
    ensures e.data.Some? <==> Truthy(data)
  {
    Emission(ChannelOf(level), level, timestamp, category, message, if Truthy(data) then Some(data) else None)
  }

  /** The console call shows `logData` without its `context`: level, category,
      message and data agree with the record, for every context. */
  lemma PrintedAgreesWithRecord(level: LogLevel, timestamp: string, category: LogCategory, context: seq<Member>,
                                message: string, data: Value)
    ensures var r, e := Record(level, timestamp, category, context, message, data),
                        Printed(level, timestamp, category, message, data);
      Get(r, "level") == Str(LevelName(e.level)) && Get(r, "category") == Str(CategoryName(e.category)) &&
      Get(r, "message") == Str(e.message) && Get(r, "data") == e.data.GetOr(Undefined) &&
      Get(r, "context") == Obj(context)
  {
  }

  predicate Excluded(k: string) {
    k == "name" || k == "message" || k == "stack"
  }

  /** The own enumerable properties the payload loop copies, each with the
      value `error[key]` reads, in enumeration order. */
  function Extras(ms: seq<Member>, whole: seq<Member>): (r: seq<Member>)
    decreases |ms|
  {
    if ms == [] then []
    else
      var last := ms[|ms| - 1];
      Extras(ms[..|ms| - 1], whole) + (if Excluded(last.key) then [] else [Member(last.key, Get(whole, last.key))])
  }

  /** An extra is present exactly for the own keys other than `name`,
      `message` and `stack`, with the error's value for that key. */
  lemma {:induction false} ExtrasGet(ms: seq<Member>, whole: seq<Member>, k: string)
    ensures HasKey(Extras(ms, whole), k) <==> HasKey(ms, k) && !Excluded(k)
    ensures HasKey(Extras(ms, whole), k) ==> Get(Extras(ms, whole), k) == Get(whole, k)
    decreases |ms|
  {
    if ms != [] {
      var init, last := ms[..|ms| - 1], ms[|ms| - 1];
      assert ms == init + [last];
      GetSnoc(init, last, k);
      ExtrasGet(init, whole, k);
      if Excluded(last.key) {
        assert Extras(ms, whole) == Extras(init, whole) + [];
        assert Extras(init, whole) + [] == Extras(init, whole);
      } else {
        assert Extras(ms, whole) == Extras(init, whole) + [Member(last.key, Get(whole, last.key))];
        GetSnoc(Extras(init, whole), Member(last.key, Get(whole, last.key)), k);
      }
    }
  }

  lemma {:induction false} SpreadSnoc(a: seq<Member>, b: seq<Member>, m: Member)
    ensures Spread(a, b + [m]) == Put(Spread(a, b), m.key, m.value)
    decreases |b|
  {
    if b == [] {
      assert [m][1..] == [];
    } else {
      assert (b + [m])[1..] == b[1..] + [m];
      SpreadSnoc(Put(a, b[0].key, b[0].value), b[1..], m);
    }
  }

  function ErrorBase(name: string, message: string, stack: Option<string>): seq<Member> {
    [Member("name", Str(name)), Member("message", Str(message)),
     Member("stack", if stack.Some? then Str(stack.value) else Undefined)]
  }

  /** The `errorData` of `error`/`fatal`. */
  function ErrorPayload(error: Value): Value {
    match error
    case ErrorObj(name, message, stack, own) => Obj(Spread(ErrorBase(name, message, stack), Extras(own, own)))
    case _ => if Truthy(error) then error else Null
  }

  /** `errorData` as the handlers build it: the three standard fields, then
      the `for...in` loop over the error's own enumerable keys. */
  method BuildErrorPayload(error: Value) returns (errorData: Value)
    ensures errorData == ErrorPayload(error)
  {
    if !error.ErrorObj? {
      errorData := if Truthy(error) then error else Null;
      return;
    }
    var own := error.own;
    var fields := ErrorBase(error.name, error.message, error.stack);
    var i := 0;
    while i < |own|
      invariant 0 <= i <= |own|
      invariant fields == Spread(ErrorBase(error.name, error.message, error.stack), Extras(own[..i], own))
    {
      var key := own[i].key;
      assert own[..i + 1][..i] == own[..i] && own[..i + 1][i] == own[i];
      assert Extras(own[..i + 1], own) ==
        Extras(own[..i], own) + (if Excluded(key) then [] else [Member(key, Get(own, key))]);
      if Excluded(key) {
        assert Extras(own[..i], own) + [] == Extras(own[..i], own);
      } else {
        SpreadSnoc(ErrorBase(error.name, error.message, error.stack), Extras(own[..i], own), Member(key, Get(own, key)));
        fields := Put(fields, key, Get(own, key));
      }
      i := i + 1;
    }
    assert own[..|own|] == own;
    errorData := Obj(fields);
  }

  /** The payload of an `Error` holds its name, message and stack, plus every
      other own enumerable property with its value; any other truthy argument
      is passed through, and an absent one gives `null`. */
  lemma ErrorPayloadFields(error: Value, k: string)
    ensures error.ErrorObj? ==>
      Get(ErrorPayload(error).members, "name") == Str(error.name) &&
      Get(ErrorPayload(error).members, "message") == Str(error.message) &&
      Get(ErrorPayload(error).members, "stack") == (if error.stack.Some? then Str(error.stack.value) else Undefined)
    ensures error.ErrorObj? && !Excluded(k) ==>
      HasKey(ErrorPayload(error).members, k) == HasKey(error.own, k) &&
      Get(ErrorPayload(error).members, k) == Get(error.own, k)
    ensures !error.ErrorObj? ==> ErrorPayload(error) == if Truthy(error) then error else Null
  {
    if error.ErrorObj? {
      var base := ErrorBase(error.name, error.message, error.stack);
      var extras := Extras(error.own, error.own);
      assert base == [base[0]] + [base[1]] + [base[2]] && [base[0]] == [] + [base[0]];
      BaseKey(base, extras, error.own, "name");
      BaseKey(base, extras, error.own, "message");
      BaseKey(base, extras, error.own, "stack");
      BaseKey(base, extras, error.own, k);
    }
  }

  lemma BaseKey(base: seq<Member>, extras: seq<Member>, own: seq<Member>, key: string)
    requires |base| == 3 && extras == Extras(own, own)
    ensures Get(Spread(base, extras), key) ==
      if HasKey(own, key) && !Excluded(key) then Get(own, key)
      else if base[2].key == key then base[2].value
      else if base[1].key == key then base[1].value
      else if base[0].key == key then base[0].value
      else Undefined
    ensures HasKey(Spread(base, extras), key) <==>
      (HasKey(own, key) && !Excluded(key)) || key == base[0].key || key == base[1].key || key == base[2].key
  {
    assert base == [base[0]] + [base[1]] + [base[2]] && [base[0]] == [] + [base[0]];
    GetSpread(base, extras, key);
    ExtrasGet(own, own, key);
    GetSnoc([base[0]] + [base[1]], base[2], key);
    GetSnoc([base[0]], base[1], key);
    GetSnoc([], base[0], key);
  }

  /** `{...data, error: errorData}` */
  function ErrorData(data: Value, payload: Value): (r: seq<Member>)
    ensures Get(r, "error") == payload
    ensures forall k :: k != "error" ==> Get(r, k) == Get(OwnEnumerable(data), k)
  {
    var e := Member("error", payload);
    assert [e] == [] + [e];
    forall k ensures Get(Spread(Spread([], OwnEnumerable(data)), [e]), k) ==
      if k == "error" then payload else Get(OwnEnumerable(data), k)
    {
      GetSpread([], OwnEnumerable(data), k);
      GetSpread(Spread([], OwnEnumerable(data)), [e], k);
      GetSnoc([], e, k);
    }
    Spread(Spread([], OwnEnumerable(data)), [e])
  }

  /** `{ ...o }` keeps every key and value. */
  lemma CopyKeeps(ms: seq<Member>, k: string)
    ensures HasKey(Spread([], ms), k) == HasKey(ms, k) && Get(Spread([], ms), k) == Get(ms, k)
  {
    GetSpread([], ms, k);
  }

  /** The console every logger writes to. */
  class Console {
    var emitted: seq<Emission>

    constructor ()
      ensures emitted == []
    {
      emitted := [];
    }
  }

  class Logger {
    var context: seq<Member>
    var category: LogCategory
    const env: Env
    const console: Console

    /** `new Logger(category?, initialContext?)` */
    constructor (console: Console, env: Env, category: Option<LogCategory>, initialContext: Option<seq<Member>>)
      ensures this.console == console && this.env == env
      ensures this.category == category.GetOr(General)
      ensures context == if initialContext.Some? then Spread([], initialContext.value) else []
    {
      this.console := console;
      this.env := env;
      this.category := category.GetOr(General);
      context := if initialContext.Some? then Spread([], initialContext.value) else [];
    }

    /** `setContext(context)`: a right-biased merge. */
    method SetContext(ctx: seq<Member>)
      modifies this
      ensures context == Spread(old(context), ctx)
      ensures forall k :: Get(context, k) == if HasKey(ctx, k) then Get(ctx, k) else Get(old(context), k)
      ensures forall k :: HasKey(context, k) <==> HasKey(ctx, k) || HasKey(old(context), k)
      ensures category == old(category)
    {
      forall k ensures Get(Spread(context, ctx), k) == (if HasKey(ctx, k) then Get(ctx, k) else Get(context, k))
        && (HasKey(Spread(context, ctx), k) <==> HasKey(ctx, k) || HasKey(context, k))
      {
        GetSpread(context, ctx, k);
      }
      context := Spread(context, ctx);
    }

    /** `extendContext(context)`: the same merge as `setContext`. */
    method ExtendContext(ctx: seq<Member>)
      modifies this
      ensures context == Spread(old(context), ctx)
      ensures forall k :: Get(context, k) == if HasKey(ctx, k) then Get(ctx, k) else Get(old(context), k)
      ensures category == old(category)
    {
      SetContext(ctx);
    }

    method SetCategory(c: LogCategory)
      modifies this
      ensures category == c && context == old(context)
    {
      category := c;
    }

    /** `child(additionalContext, category?)`: a new logger on the same console;
        this one is not touched. */
    method Child(additional: seq<Member>, c: Option<LogCategory>) returns (child: Logger)
      ensures fresh(child) && child != this
      ensures child.env == env && child.console == console
      ensures child.category == c.GetOr(category)
      ensures child.context == Spread([], Spread(context, additional))
      ensures forall k :: Get(child.context, k) == if HasKey(additional, k) then Get(additional, k) else Get(context, k)
    {
      var merged := Spread(context, additional);
      child := new Logger(console, env, Some(c.GetOr(category)), Some(merged));
      forall k ensures Get(child.context, k) == if HasKey(additional, k) then Get(additional, k) else Get(context, k) {
        CopyKeeps(merged, k);
        GetSpread(context, additional, k);
      }
    }

    /** `log(level, message, data)` at time `timestamp`. */
    method Log(level: LogLevel, message: string, data: Value, timestamp: string)
      modifies console
      ensures console.emitted == old(console.emitted) + Emitted(env, level, Printed(level, timestamp, category, message, data))
    {
      if !ShouldLog(env, level) {
        return;
      }
      console.emitted := console.emitted + [Printed(level, timestamp, category, message, data)];
    }

    /** `error(message, error, data)` */
    method LogError(message: string, error: Value, data: Value, timestamp: string)
      modifies console
      ensures console.emitted == old(console.emitted) +
        Emitted(env, Error, Printed(Error, timestamp, category, message, Obj(ErrorData(data, ErrorPayload(error)))))
    {
      var payload := BuildErrorPayload(error);
      Log(Error, message, Obj(ErrorData(data, payload)), timestamp);
    }

    /** `fatal(message, error, data)` */
    method LogFatal(message: string, error: Value, data: Value, timestamp: string)
      modifies console
      ensures console.emitted == old(console.emitted) +
        Emitted(env, Fatal, Printed(Fatal, timestamp, category, message, Obj(ErrorData(data, ErrorPayload(error)))))
    {
      var payload := BuildErrorPayload(error);
      Log(Fatal, message, Obj(ErrorData(data, payload)), timestamp);
    }
  }

  /** What one log call writes: its console call, or nothing when the level
      is filtered out. */
  function Emitted(env: Env, level: LogLevel, e: Emission): (out: seq<Emission>)
    ensures |out| <= 1
    ensures out != [] <==> ShouldLog(env, level)
    ensures out != [] ==> out[0] == e
  {
    if ShouldLog(env, level) then [e] else []
  }

  // ---------------------------------------------------------------------------
  // safeStringify over an object graph

  /** A value in the object graph: a primitive, or a reference to a heap object. */
  datatype HValue = Prim(v: Value) | Ref(id: nat)

  datatype Field = Field(key: string, value: HValue)

  datatype Node = ArrNode(items: seq<HValue>) | ObjNode(fields: seq<Field>)

  type Heap = map<nat, Node>

  function Unvisited(heap: Heap, seen: set<nat>): nat {
    |heap.Keys - seen|
  }

  lemma UnvisitedMonotone(heap: Heap, seen: set<nat>, more: set<nat>)
    requires seen <= more
    ensures Unvisited(heap, more) <= Unvisited(heap, seen)
  {
    assert heap.Keys - more <= heap.Keys - seen;
    SubsetCard(heap.Keys - more, heap.Keys - seen);
  }

  lemma {:induction false} SubsetCard(a: set<nat>, b: set<nat>)
    requires a <= b
    ensures |a| <= |b|
    decreases |b|
  {
    if a != {} {
      var x :| x in a;
      SubsetCard(a - {x}, b - {x});
    }
  }

  lemma VisitShrinks(heap: Heap, seen: set<nat>, id: nat)
    requires id in heap && id !in seen
    ensures Unvisited(heap, seen + {id}) < Unvisited(heap, seen)
  {
    assert heap.Keys - (seen + {id}) == (heap.Keys - seen) - {id};
  }

  /** The replacer's walk: an object met again (shared or on a cycle) becomes
      `"[Circular]"`; a new one is marked and its members walked in order.
      The set of marked objects only grows. A reference outside the heap
      cannot arise in JavaScript; it is read as `undefined`. */
  function WalkValue(heap: Heap, v: HValue, seen: set<nat>): (r: (Value, set<nat>))
    ensures seen <= r.1 <= seen + heap.Keys
    ensures v.Ref? && v.id in seen ==> r == (Str("[Circular]"), seen)
    ensures v.Ref? && v.id !in seen && v.id in heap ==> v.id in r.1 && (r.0.Arr? || r.0.Obj?)
    ensures v.Prim? ==> r == (v.v, seen)
    decreases Unvisited(heap, seen), 0, 0
  {
    match v
    case Prim(p) => (p, seen)
    case Ref(id) =>
      if id in seen then (Str("[Circular]"), seen)
      else if id !in heap then (Undefined, seen)
      else
        VisitShrinks(heap, seen, id);
        match heap[id]
        case ArrNode(items) =>
          var walked := WalkItems(heap, items, seen + {id});
          (Arr(walked.0), walked.1)
        case ObjNode(fields) =>
          var walked := WalkFields(heap, fields, seen + {id});
          (Obj(walked.0), walked.1)
  }

  function WalkItems(heap: Heap, items: seq<HValue>, seen: set<nat>): (r: (seq<Value>, set<nat>))
    ensures seen <= r.1 <= seen + heap.Keys
    ensures |r.0| == |items|
    decreases Unvisited(heap, seen), 1, |items|
  {
    if items == [] then ([], seen)
    else
      var first := WalkValue(heap, items[0], seen);
      UnvisitedMonotone(heap, seen, first.1);
      var rest := WalkItems(heap, items[1..], first.1);
      ([first.0] + rest.0, rest.1)
  }

  function WalkFields(heap: Heap, fields: seq<Field>, seen: set<nat>): (r: (seq<Member>, set<nat>))
    ensures seen <= r.1 <= seen + heap.Keys
    ensures |r.0| == |fields|
    ensures forall i :: 0 <= i < |fields| ==> r.0[i].key == fields[i].key
    decreases Unvisited(heap, seen), 1, |fields|
  {
    if fields == [] then ([], seen)
    else
      var first := WalkValue(heap, fields[0].value, seen);
      UnvisitedMonotone(heap, seen, first.1);
      var rest := WalkFields(heap, fields[1..], first.1);
      ([Member(fields[0].key, first.0)] + rest.0, rest.1)
  }

  /** The members of a node whose fields hold only primitive values. */
  function PrimMembers(fields: seq<Field>): seq<Member>
    requires forall i :: 0 <= i < |fields| ==> fields[i].value.Prim?
  {
    if fields == [] then [] else [Member(fields[0].key, fields[0].value.v)] + PrimMembers(fields[1..])
  }

  /** Fields holding only primitives are copied as they are, whatever has
      been seen, and mark nothing. */
  lemma {:induction false} FlatFieldsCopied(heap: Heap, fields: seq<Field>, seen: set<nat>)
    requires forall i :: 0 <= i < |fields| ==> fields[i].value.Prim?
    ensures WalkFields(heap, fields, seen) == (PrimMembers(fields), seen)
  {
    if fields != [] {
      FlatFieldsCopied(heap, fields[1..], seen);
    }
  }

  /** On its first visit, an object whose members are all primitive is written
      with exactly those members and no `"[Circular]"` marker of its own; on
      any later visit it is the marker. */
  lemma FlatObjectCopied(heap: Heap, id: nat, seen: set<nat>)
    requires id in heap && heap[id].ObjNode?
    requires forall i :: 0 <= i < |heap[id].fields| ==> heap[id].fields[i].value.Prim?
    ensures id !in seen ==> WalkValue(heap, Ref(id), seen) == (Obj(PrimMembers(heap[id].fields)), seen + {id})
    ensures id in seen ==> WalkValue(heap, Ref(id), seen) == (Str("[Circular]"), seen)
  {
    if id !in seen {
      FlatFieldsCopied(heap, heap[id].fields, seen + {id});
    }
  }

  /** `safeStringify(obj)` (the JSON text without its two-space layout);
      `None` where `JSON.stringify` returns `undefined`. */
  function SafeStringify(heap: Heap, root: HValue): Option<string> {
    Stringify(WalkValue(heap, root, {}).0)
  }

  /** A self-reference is cut: `{self: obj}` is written `{"self":"[Circular]"}`. */
  lemma CycleCut()
    ensures var heap := map[0 := ObjNode([Field("self", Ref(0))])];
      WalkValue(heap, Ref(0), {}).0 == Obj([Member("self", Str("[Circular]"))])
  {
    var heap := map[0 := ObjNode([Field("self", Ref(0))])];
    var fields := [Field("self", Ref(0))];
    var m := Member("self", Str("[Circular]"));
    assert fields[1..] == [];
    assert WalkFields(heap, fields[1..], {0}) == ([], {0});
    assert WalkValue(heap, fields[0].value, {0}) == (Str("[Circular]"), {0});
    assert [m] + [] == [m];
    assert WalkFields(heap, fields, {0}) == ([m], {0});
  }

  /** A shared, acyclic object is also cut on its second visit. */
  lemma SharedCut()
    ensures var heap := map[0 := ObjNode([Field("a", Ref(1)), Field("b", Ref(1))]), 1 := ObjNode([])];
      WalkValue(heap, Ref(0), {}).0 == Obj([Member("a", Obj([])), Member("b", Str("[Circular]"))])
  {
    var heap := map[0 := ObjNode([Field("a", Ref(1)), Field("b", Ref(1))]), 1 := ObjNode([])];
    var fields := [Field("a", Ref(1)), Field("b", Ref(1))];
    var a, b := Member("a", Obj([])), Member("b", Str("[Circular]"));
    assert fields[1..] == [Field("b", Ref(1))] && fields[1..][1..] == [];
    assert WalkFields(heap, [], {0, 1}) == ([], {0, 1});
    assert {0} + {1} == {0, 1};
    assert heap[1] == ObjNode([]);
    assert WalkValue(heap, Ref(1), {0}) == (Obj([]), {0, 1});
    assert WalkValue(heap, Ref(1), {0, 1}) == (Str("[Circular]"), {0, 1});
    assert [b] + [] == [b];
    assert WalkFields(heap, fields[1..], {0, 1}) == ([b], {0, 1});
    assert [a] + [b] == [a, b];
    assert WalkFields(heap, fields, {0}) == ([a, b], {0, 1});
  }

  // ---------------------------------------------------------------------------
  // getRequestContext

  /** The parts of a request the context reads; `headers` maps lower-case
      names to values, and `ip` is `req.ip`. */
  datatype Request = Request(headers: map<string, string>, pathname: string, httpMethod: string, ip: Option<string>)

  /** `req.headers.get(name)` */
  function HeaderValue(req: Request, name: string): Option<string> {
    if name in req.headers then Some(req.headers[name]) else None
  }

  /** `a || b` on an optional string: a missing or empty string falls back. */
  function OrElse(a: Option<string>, fallback: string): (r: string)
    ensures a.Some? && a.value != "" ==> r == a.value
    ensures a.None? || a.value == "" ==> r == fallback
  {
    if a.Some? && a.value != "" then a.value else fallback
  }

  function OptionalStr(a: Option<string>): (v: Value)
    ensures a.Some? && a.value != "" ==> v == Str(a.value)
    ensures a.None? || a.value == "" ==> v == Undefined
  {
    if a.Some? && a.value != "" then Str(a.value) else Undefined
  }

  /** `getRequestContext(req)`; `uuid` is the value `crypto.randomUUID()` would give. */
  function GetRequestContext(req: Request, uuid: string): (ctx: seq<Member>)
    ensures |ctx| == 8 && UniqueKeys(ctx)
    ensures ctx[0] == Member("requestId", Str(OrElse(HeaderValue(req, "x-request-id"), uuid)))
    ensures ctx[1] == Member("route", Str(req.pathname)) && ctx[2] == Member("method", Str(req.httpMethod))
    ensures ctx[3] == Member("ip", Str(OrElse(req.ip, OrElse(HeaderValue(req, "x-forwarded-for"), "unknown"))))
    ensures ctx[4] == Member("userAgent", Str(OrElse(HeaderValue(req, "user-agent"), "unknown")))
    ensures ctx[5] == Member("referer", Str(OrElse(HeaderValue(req, "referer"), "unknown")))
    ensures ctx[6] == Member("userId", OptionalStr(HeaderValue(req, "x-user-id")))
    ensures ctx[7] == Member("sessionId", OptionalStr(HeaderValue(req, "x-session-id")))
  {
    [Member("requestId", Str(OrElse(HeaderValue(req, "x-request-id"), uuid))),
     Member("route", Str(req.pathname)),
     Member("method", Str(req.httpMethod)),
     Member("ip", Str(OrElse(req.ip, OrElse(HeaderValue(req, "x-forwarded-for"), "unknown")))),
     Member("userAgent", Str(OrElse(HeaderValue(req, "user-agent"), "unknown"))),
     Member("referer", Str(OrElse(HeaderValue(req, "referer"), "unknown"))),
     Member("userId", OptionalStr(HeaderValue(req, "x-user-id"))),
     Member("sessionId", OptionalStr(HeaderValue(req, "x-session-id")))]
  }

  /** Looking a key up in a context with unique keys finds its own member. */
  lemma {:induction false} GetUnique(ms: seq<Member>, i: int)
    requires UniqueKeys(ms) && 0 <= i < |ms|
    ensures Get(ms, ms[i].key) == ms[i].value
    decreases |ms|
  {
    if i < |ms| - 1 {
      GetUnique(ms[..|ms| - 1], i);
    }
  }

  /** The request id comes from the header when it is set, else the fresh
      UUID; the client fields default to `unknown`; the user and session ids
      stay `undefined` when their headers are absent. */
  lemma RequestContextDefaults(req: Request, uuid: string)
    ensures var ctx := GetRequestContext(req, uuid);
      Get(ctx, "requestId") == Str(if "x-request-id" in req.headers && req.headers["x-request-id"] != ""
                                   then req.headers["x-request-id"] else uuid) &&
      ("user-agent" !in req.headers ==> Get(ctx, "userAgent") == Str("unknown")) &&
      ("referer" !in req.headers ==> Get(ctx, "referer") == Str("unknown")) &&
      ("x-user-id" !in req.headers ==> Get(ctx, "userId") == Undefined) &&
      ("x-session-id" !in req.headers ==> Get(ctx, "sessionId") == Undefined)
  {
    var ctx := GetRequestContext(req, uuid);
    GetUnique(ctx, 0);
    GetUnique(ctx, 4);
    GetUnique(ctx, 5);
    GetUnique(ctx, 6);
    GetUnique(ctx, 7);
  }
}
