/** Tool-call extraction from chat messages of several shapes (src/types.ts).
    A message is a JSON object; the shapes are told apart by the `content`,
    `parts` and `toolInvocations` members it has. */
module Types {
  import opened Wrappers
  import opened Json

  /** The extracted call: `{toolName, args}` as read from the part. */
  datatype Invocation = Invocation(toolName: Value, args: Value)

  /** `typeof v === 'object' && v !== null` */
  predicate IsObject(v: Value) {
    v.Obj? || v.Arr? || v.ErrorObj?
  }

  /** `p.type === 'tool-call'` for a part whose `type` can be read. */
  predicate ContentToolCall(p: Value) {
    Property(p, "type") == Some(Str("tool-call"))
  }

  /** A content part the search reads and passes over. */
  predicate Passes(p: Value) {
    Property(p, "type").Some? && !ContentToolCall(p)
  }

  /** Every part before index `n` is read and passed over. */
  predicate PassedBefore(parts: seq<Value>, n: int)
    requires 0 <= n <= |parts|
  {
    forall j :: 0 <= j < n ==> Passes(parts[j])
  }

  /** `parts[i]` is the first part the content search stops at. */
  predicate FirstContentMatchAt(parts: seq<Value>, i: int) {
    0 <= i < |parts| && PassedBefore(parts, i) && ContentToolCall(parts[i])
  }

  /** The content search reads the `type` of `undefined` or `null` at index `i`. */
  predicate ThrowsAt(parts: seq<Value>, i: int) {
    0 <= i < |parts| && PassedBefore(parts, i) && Property(parts[i], "type").None?
  }

  /** `parts.find(part => part.type === 'tool-call')` */
  function FindContentPart(parts: seq<Value>): (r: Outcome<Option<Value>>)
    ensures r == Returns(None) <==> PassedBefore(parts, |parts|)
    ensures r.Throws? <==> exists i :: ThrowsAt(parts, i)
    ensures r.Returns? && r.value.Some? ==> exists i :: FirstContentMatchAt(parts, i) && parts[i] == r.value.value
  {
    if parts == [] then Returns(None)
    else if Property(parts[0], "type").None? then
      assert ThrowsAt(parts, 0);
      assert !PassedBefore(parts, |parts|);
      Throws
    else if ContentToolCall(parts[0]) then
      assert FirstContentMatchAt(parts, 0);
      assert !PassedBefore(parts, |parts|);
      forall i | 0 < i <= |parts| ensures !PassedBefore(parts, i) {
        assert !Passes(parts[0]);
      }
      Returns(Some(parts[0]))
    else
      var r := FindContentPart(parts[1..]);
      ShiftPassed(parts);
      if r.Throws? then
        var i :| ThrowsAt(parts[1..], i);
        assert ThrowsAt(parts, i + 1);
        r
      else
        assert forall i :: ThrowsAt(parts, i) ==> ThrowsAt(parts[1..], i - 1);
        if r.value.Some? then
          var i :| FirstContentMatchAt(parts[1..], i) && parts[1..][i] == r.value.value;
          assert FirstContentMatchAt(parts, i + 1);
          r
        else r
  }

  /** Passing over a first part that is read and does not match shifts every
      index by one. */
  lemma ShiftPassed(parts: seq<Value>)
    requires parts != [] && Passes(parts[0])
    ensures forall n :: 1 <= n <= |parts| ==> (PassedBefore(parts, n) <==> PassedBefore(parts[1..], n - 1))
  {
    forall n | 1 <= n <= |parts|
      ensures PassedBefore(parts, n) <==> PassedBefore(parts[1..], n - 1)
    {
      if PassedBefore(parts[1..], n - 1) {
        forall j | 0 <= j < n ensures Passes(parts[j]) {
          if j > 0 { assert parts[j] == parts[1..][j - 1]; }
        }
      }
      if PassedBefore(parts, n) {
        forall j | 0 <= j < n - 1 ensures Passes(parts[1..][j]) {
          assert parts[1..][j] == parts[j + 1];
        }
      }
    }
  }

  /** `parts.some(part => part.type === 'tool-call')` */
  function SomeContentPart(parts: seq<Value>): Outcome<bool> {
    if parts == [] then Returns(false)
    else if Property(parts[0], "type").None? then Throws
    else if ContentToolCall(parts[0]) then Returns(true)
    else SomeContentPart(parts[1..])
  }

  /** `some` stops where `find` stops: it throws where `find` throws and is true
      exactly where `find` finds a part. */
  lemma {:induction false} SomeAgreesWithFind(parts: seq<Value>)
    ensures SomeContentPart(parts).Throws? <==> FindContentPart(parts).Throws?
    ensures SomeContentPart(parts) == Returns(true) <==>
      FindContentPart(parts).Returns? && FindContentPart(parts).value.Some?
  {
    if parts != [] && Passes(parts[0]) {
      SomeAgreesWithFind(parts[1..]);
    }
  }

  /** The test the `message.parts` search applies: a truthy object with a
      `type` key equal to `tool-call`. */
  predicate MessageToolCall(p: Value) {
    Truthy(p) && IsObject(p) && HasKey(OwnEnumerable(p), "type") && Get(OwnEnumerable(p), "type") == Str("tool-call")
  }

  /** `message.parts.find(...)` */
  function FindMessagePart(parts: seq<Value>): (r: Option<Value>)
    ensures r.None? <==> forall i :: 0 <= i < |parts| ==> !MessageToolCall(parts[i])
    ensures r.Some? ==> MessageToolCall(r.value) && r.value in parts
    ensures r.Some? ==>
              exists i :: 0 <= i < |parts| && parts[i] == r.value &&
                          forall j :: 0 <= j < i ==> !MessageToolCall(parts[j])
  {
    if parts == [] then None
    else if MessageToolCall(parts[0]) then Some(parts[0])
    else
      var r := FindMessagePart(parts[1..]);
      assert forall i :: 1 <= i < |parts| ==> parts[i] == parts[1..][i - 1];
      if r.Some? then
        var i :| 0 <= i < |parts[1..]| && parts[1..][i] == r.value &&
                 forall j :: 0 <= j < i ==> !MessageToolCall(parts[1..][j]);
        assert parts[i + 1] == r.value && forall j :: 0 <= j < i + 1 ==> !MessageToolCall(parts[j]);
        r
      else r
  }

  /** `message.parts.some(...)` */
  function AnyMessagePart(parts: seq<Value>): (b: bool)
    ensures b <==> exists i :: 0 <= i < |parts| && MessageToolCall(parts[i])
  {
    if parts == [] then false
    else if MessageToolCall(parts[0]) then true
    else
      assert forall i :: 1 <= i < |parts| ==> parts[i] == parts[1..][i - 1];
      AnyMessagePart(parts[1..])
  }

  /** `{toolName: p.toolName, args: p.args}` for a part that is not `undefined`
      or `null`. */
  function CopyCall(p: Value): (c: Invocation)
    ensures c.toolName == Get(OwnEnumerable(p), "toolName") && c.args == Get(OwnEnumerable(p), "args")
  {
    Invocation(Get(OwnEnumerable(p), "toolName"), Get(OwnEnumerable(p), "args"))
  }

  predicate IsAssistant(msg: seq<Member>) {
    Get(msg, "role") == Str("assistant")
  }

  /** `content.parts` when `content` is an object and its `parts` is a truthy
      array. */
  predicate HasContentParts(msg: seq<Member>) {
    var content := Get(msg, "content");
    IsObject(content) && Get(OwnEnumerable(content), "parts").Arr?
  }

  function ContentParts(msg: seq<Member>): seq<Value>
    requires HasContentParts(msg)
  {
    Get(OwnEnumerable(Get(msg, "content")), "parts").items
  }

  /** `'parts' in message && Array.isArray(message.parts)` */
  predicate HasMessageParts(msg: seq<Member>) {
    HasKey(msg, "parts") && Get(msg, "parts").Arr?
  }

  function MessageParts(msg: seq<Member>): seq<Value>
    requires HasMessageParts(msg)
  {
    Get(msg, "parts").items
  }

  /** The `message.parts` match, when it also has `toolName` and `args` keys. */
  function DirectCall(msg: seq<Member>): (r: Option<Value>)
    ensures r.Some? ==> HasMessageParts(msg) && r == FindMessagePart(MessageParts(msg))
    ensures r.Some? ==> HasKey(OwnEnumerable(r.value), "toolName") && HasKey(OwnEnumerable(r.value), "args")
    ensures (HasMessageParts(msg) && FindMessagePart(MessageParts(msg)).Some? &&
             HasKey(OwnEnumerable(FindMessagePart(MessageParts(msg)).value), "toolName") &&
             HasKey(OwnEnumerable(FindMessagePart(MessageParts(msg)).value), "args")) ==> r.Some?
  {
    if HasMessageParts(msg) then
      var found := FindMessagePart(MessageParts(msg));
      if found.Some? && HasKey(OwnEnumerable(found.value), "toolName") && HasKey(OwnEnumerable(found.value), "args")
      then found else None
    else None
  }

  /** `toolInvocations[0]` when `toolInvocations` is a non-empty array and that
      element is truthy. */
  function LegacyCall(msg: seq<Member>): (r: Option<Value>)
    ensures r.Some? <==>
      HasKey(msg, "toolInvocations") && Get(msg, "toolInvocations").Arr? &&
      |Get(msg, "toolInvocations").items| > 0 && Truthy(Get(msg, "toolInvocations").items[0])
    ensures r.Some? ==> r.value == Get(msg, "toolInvocations").items[0]
  {
    var inv := Get(msg, "toolInvocations");
    if HasKey(msg, "toolInvocations") && inv.Arr? && |inv.items| > 0 && Truthy(inv.items[0])
    then Some(inv.items[0]) else None
  }

  /** `getToolCallFromMessage(message)`: `Returns(None)` for `null`. */
  function GetToolCallFromMessage(msg: seq<Member>): (r: Outcome<Option<Invocation>>)
    ensures !IsAssistant(msg) ==> r == Returns(None)
    ensures IsAssistant(msg) && !HasContentParts(msg) ==>
      r == Returns(
        if DirectCall(msg).Some? then Some(CopyCall(DirectCall(msg).value))
        else if LegacyCall(msg).Some? then Some(CopyCall(LegacyCall(msg).value))
        else None)
    ensures r.Throws? <==> IsAssistant(msg) && HasContentParts(msg) && FindContentPart(ContentParts(msg)).Throws?
  {
    if !IsAssistant(msg) then Returns(None)
    else
      var fromContent := if HasContentParts(msg) then FindContentPart(ContentParts(msg)) else Returns(None);
      match fromContent
      case Throws => Throws
      case Returns(Some(p)) => Returns(Some(CopyCall(p)))
      case Returns(None) =>
        if DirectCall(msg).Some? then Returns(Some(CopyCall(DirectCall(msg).value)))
        else if LegacyCall(msg).Some? then Returns(Some(CopyCall(LegacyCall(msg).value)))
        else Returns(None)
  }

  /** `hasToolCall(message)` as written: the `message.parts` test sits inside
      the block for object content, so with string content only
      `toolInvocations` is consulted. */
  function HasToolCall(msg: seq<Member>): (r: Outcome<bool>)
    ensures !IsAssistant(msg) ==> r == Returns(false)
    ensures IsAssistant(msg) && !IsObject(Get(msg, "content")) ==> r == Returns(LegacyPresent(msg))
  {
    if !IsAssistant(msg) then Returns(false)
    else if IsObject(Get(msg, "content")) then
      if HasContentParts(msg) then SomeContentPart(ContentParts(msg))
      else if HasMessageParts(msg) then Returns(AnyMessagePart(MessageParts(msg)))
      else Returns(LegacyPresent(msg))
    else Returns(LegacyPresent(msg))
  }

  /** `'toolInvocations' in message &&` it is a non-empty array. */
  predicate LegacyPresent(msg: seq<Member>) {
    HasKey(msg, "toolInvocations") && Get(msg, "toolInvocations").Arr? && |Get(msg, "toolInvocations").items| > 0
  }

  /** Lookup precedence: a tool-call part in `content.parts` wins and is copied;
      the other sources are consulted only when that search finds nothing. */
  lemma ContentPartsFirst(msg: seq<Member>)
    requires IsAssistant(msg) && HasContentParts(msg)
    ensures FindContentPart(ContentParts(msg)).Returns? && FindContentPart(ContentParts(msg)).value.Some? ==>
      GetToolCallFromMessage(msg) == Returns(Some(CopyCall(FindContentPart(ContentParts(msg)).value.value)))
    ensures FindContentPart(ContentParts(msg)) == Returns(None) ==>
      GetToolCallFromMessage(msg) == Returns(
        if DirectCall(msg).Some? then Some(CopyCall(DirectCall(msg).value))
        else if LegacyCall(msg).Some? then Some(CopyCall(LegacyCall(msg).value))
        else None)
  {
  }

  /** The content search stops at the first tool-call part. */
  lemma {:induction false} FirstMatchFound(parts: seq<Value>, i: int)
    requires FirstContentMatchAt(parts, i)
    ensures FindContentPart(parts) == Returns(Some(parts[i]))
    decreases i
  {
    if i > 0 {
      assert Passes(parts[0]);
      ShiftPassed(parts);
      assert parts[1..][i - 1] == parts[i];
      FirstMatchFound(parts[1..], i - 1);
    }
  }

  /** When `content.parts` holds a tool-call part the two functions agree: that
      part's call is extracted and `hasToolCall` is true. */
  lemma ContentPartsAgree(msg: seq<Member>, i: int)
    requires IsAssistant(msg) && HasContentParts(msg)
    requires FirstContentMatchAt(ContentParts(msg), i)
    ensures GetToolCallFromMessage(msg) == Returns(Some(CopyCall(ContentParts(msg)[i])))
    ensures HasToolCall(msg) == Returns(true)
  {
    FirstMatchFound(ContentParts(msg), i);
    SomeAgreesWithFind(ContentParts(msg));
  }

  /** `hasToolCall` as evidently intended, with the `message.parts` test at the
      top level as its indentation shows. */
  function HasToolCallCorrected(msg: seq<Member>): (r: Outcome<bool>)
    ensures !IsAssistant(msg) ==> r == Returns(false)
    ensures IsAssistant(msg) && !HasContentParts(msg) && HasMessageParts(msg) ==>
      r == Returns(AnyMessagePart(MessageParts(msg)))
  {
    if !IsAssistant(msg) then Returns(false)
    else if HasContentParts(msg) then SomeContentPart(ContentParts(msg))
    else if HasMessageParts(msg) then Returns(AnyMessagePart(MessageParts(msg)))
    else Returns(LegacyPresent(msg))
  }

  /** The corrected test agrees with the extraction on `content.parts` as the
      original does, and also on `message.parts` when `content` has none. */
  lemma CorrectedAgrees(msg: seq<Member>)
    requires IsAssistant(msg)
    ensures HasContentParts(msg) ==> HasToolCallCorrected(msg) == HasToolCall(msg)
    ensures !HasContentParts(msg) && DirectCall(msg).Some? ==>
      GetToolCallFromMessage(msg) == Returns(Some(CopyCall(DirectCall(msg).value))) &&
      HasToolCallCorrected(msg) == Returns(true)
  {
    if !HasContentParts(msg) && DirectCall(msg).Some? {
      var p := DirectCall(msg).value;
      var i :| 0 <= i < |MessageParts(msg)| && MessageParts(msg)[i] == p;
    }
  }

  /** As written, an assistant message with string content whose `parts` hold a
      tool call (and no `toolInvocations`) yields the call but `hasToolCall` is
      false. */
  lemma StringContentMissesParts(text: string, call: seq<Member>)
    requires HasKey(call, "type") && Get(call, "type") == Str("tool-call")
    requires HasKey(call, "toolName") && HasKey(call, "args")
    ensures var msg := [Member("role", Str("assistant")), Member("content", Str(text)),
                        Member("parts", Arr([Obj(call)]))];
      GetToolCallFromMessage(msg) == Returns(Some(CopyCall(Obj(call)))) &&
      HasToolCall(msg) == Returns(false) &&
      HasToolCallCorrected(msg) == Returns(true)
  {
    var m0, m1, m2 := Member("role", Str("assistant")), Member("content", Str(text)), Member("parts", Arr([Obj(call)]));
    var msg := [m0, m1, m2];
    assert msg == [m0] + [m1] + [m2] && [m0] == [] + [m0];
    GetSnoc([m0] + [m1], m2, "role");
    GetSnoc([m0], m1, "role");
    GetSnoc([], m0, "role");
    GetSnoc([m0] + [m1], m2, "content");
    GetSnoc([m0], m1, "content");
    GetSnoc([], m0, "content");
    GetSnoc([m0] + [m1], m2, "parts");
    GetSnoc([m0] + [m1], m2, "toolInvocations");
    GetSnoc([m0], m1, "toolInvocations");
    GetSnoc([], m0, "toolInvocations");
    assert MessageToolCall(Obj(call));
    assert MessageParts(msg) == [Obj(call)];
    assert FindMessagePart([Obj(call)]) == Some(Obj(call));
  }
}
