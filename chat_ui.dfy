/** The event-handler logic of the chat panel: the chat request body,
    `@`-mention routing, the composer turn, the tool-call progress callbacks and
    the tool-call label (src/components/chat/chat-ui.tsx). Handlers read the
    state of the render they belong to; their own updates show from the next
    render on. */
module ChatUi {
  import opened Wrappers
  import opened Strings
  import opened Json
  import opened JsErrors
  import TP = ToolProgress
  import ComposerRoute
  import Models

  const CanvasImageUrl := "https://raw.githubusercontent.com/shrix1/ai-sdk-tool-calling/refs/heads/main/public/canvas.png"
  const FallbackWhiteboardImage := "https://www.pexels.com/photo/macbook-air-on-grey-wooden-table-67112/"

  /** The `body` option of the chat hook: `notes` only with the notes tool and
      the fixed canvas image only with the whiteboard tool. */
  function ChatRequestBody(activeTool: string, model: string, editorContent: Value): (body: seq<Member>)
    ensures Get(body, "tool") == Str(activeTool) && Get(body, "model") == Str(model)
    ensures HasKey(body, "notes") <==> activeTool == "notes"
    ensures HasKey(body, "image") <==> activeTool == "whiteboard"
    ensures activeTool == "notes" ==> Get(body, "notes") == editorContent
    ensures activeTool == "whiteboard" ==> Get(body, "image") == Str(CanvasImageUrl)
  {
    var t, m := Member("tool", Str(activeTool)), Member("model", Str(model));
    var base := [t, m];
    assert base == [t] + [m] && [t] == [] + [t];
    GetSnoc([t], m, "tool");
    GetSnoc([], t, "tool");
    GetSnoc([t], m, "notes");
    GetSnoc([], t, "notes");
    GetSnoc([t], m, "image");
    GetSnoc([], t, "image");
    if activeTool == "notes" then
      var n := Member("notes", editorContent);
      GetSnoc(base, n, "tool");
      GetSnoc(base, n, "model");
      GetSnoc(base, n, "notes");
      GetSnoc(base, n, "image");
      base + [n]
    else if activeTool == "whiteboard" then
      var i := Member("image", Str(CanvasImageUrl));
      GetSnoc(base, i, "tool");
      GetSnoc(base, i, "model");
      GetSnoc(base, i, "notes");
      GetSnoc(base, i, "image");
      base + [i]
    else base
  }

  /** The tool a submission switches to: `@whiteboard` before `@notes`, and no
      change without a mention. */
  function MentionTool(input: string, activeTool: string): (tool: string)
    ensures Contains(input, "@whiteboard") ==> tool == "whiteboard"
    ensures !Contains(input, "@whiteboard") && Contains(input, "@notes") ==> tool == "notes"
    ensures !Contains(input, "@whiteboard") && !Contains(input, "@notes") ==> tool == activeTool
  {
    if Contains(input, "@whiteboard") then "whiteboard"
    else if Contains(input, "@notes") then "notes"
    else activeTool
  }

  /** `w! || fallback`: the canvas screenshot URL, or the fixed photo when there
      is none. */
  function WhiteboardImage(screenshot: Option<string>): (url: string)
    ensures url != ""
    ensures screenshot.Some? && screenshot.value != "" ==> url == screenshot.value
  {
    if screenshot.Some? && screenshot.value != "" then screenshot.value else FallbackWhiteboardImage
  }

  datatype Role = User | Assistant

  /** A composer transcript entry; an assistant's `content` is whatever
      `data.message` was, `undefined` included. */
  datatype ChatMessage = ChatMessage(role: Role, content: Value, id: string)

  function MessageValue(m: ChatMessage): Value {
    Obj([Member("role", Str(if m.role == User then "user" else "assistant")),
         Member("content", m.content), Member("id", Str(m.id))])
  }

  /** What the composer posts to `/api/composer`. */
  datatype ComposerRequest = ComposerRequest(messages: seq<ChatMessage>, editorHTML: Value, prompt: string)

  /** `{messages, editorHTML, prompt}`: the JSON body of the composer request. */
  function ComposerBody(r: ComposerRequest): (body: seq<Member>)
    ensures Get(body, "prompt") == Str(r.prompt) && Get(body, "editorHTML") == r.editorHTML
    ensures Get(body, "messages") == Arr(seq(|r.messages|, i requires 0 <= i < |r.messages| => MessageValue(r.messages[i])))
    ensures HasKey(body, "messages") && HasKey(body, "editorHTML") && HasKey(body, "prompt")
    ensures !HasKey(body, "model")
  {
    var m0 := Member("messages", Arr(seq(|r.messages|, i requires 0 <= i < |r.messages| => MessageValue(r.messages[i]))));
    var m1 := Member("editorHTML", r.editorHTML);
    var m2 := Member("prompt", Str(r.prompt));
    GetThree(m0, m1, m2, "messages");
    GetThree(m0, m1, m2, "editorHTML");
    GetThree(m0, m1, m2, "prompt");
    GetThree(m0, m1, m2, "model");
    [m0, m1, m2]
  }

  /** The `{error}` object the route answers with when it refuses a request. */
  predicate IsErrorReply(data: seq<Member>) {
    |data| == 1 && data[0].key == "error"
  }

  lemma ErrorReplyFields(data: seq<Member>, k: string)
    requires IsErrorReply(data) && k != "error"
    ensures Get(data, k) == Undefined
  {
    assert data == [] + [data[0]];
    GetSnoc([], data[0], k);
  }

  /** A tool call as the chat hook reports it. */
  datatype ToolCall = ToolCall(toolName: Option<string>, args: Value)

  /** `toolCall.toolName ?? "unknown"` */
  function TrackedToolName(call: ToolCall): (name: string)
    ensures call.toolName.Some? ==> name == call.toolName.value
    ensures call.toolName.None? ==> name == "unknown"
  {
    call.toolName.GetOr("unknown")
  }

  /** The simulated intermediate result shown one second into a web, X or file
      search call; `found` and `matchCount` are the random counts. The file
      search's `topMatchScore: 0.85` is not a whole number and is left out. */
  function IntermediatePatch(toolName: string, found: int, matchCount: int): (p: Option<TP.ProgressPatch>)
    ensures p.Some? <==> toolName in {"web", "x", "fileSearch"}
    ensures p.Some? ==>
      p.value == TP.NoChange.(intermediateResults := p.value.intermediateResults, message := p.value.message) &&
      p.value.intermediateResults.Some? && p.value.intermediateResults.value.Obj?
    ensures toolName == "web" || toolName == "x" ==>
      var results := p.value.intermediateResults.value.members;
      p.value.message == Some(Some("Found initial results...")) &&
      Get(results, "status") == Str("searching") && Get(results, "found") == Num(found) &&
      forall k :: HasKey(results, k) ==> k == "status" || k == "found"
    ensures toolName == "fileSearch" ==>
      var results := p.value.intermediateResults.value.members;
      p.value.message == Some(Some("Calculating similarity scores...")) &&
      Get(results, "matchCount") == Num(matchCount) &&
      forall k :: HasKey(results, k) ==> k == "matchCount"
  {
    if toolName == "web" || toolName == "x" then
      var m0, m1 := Member("status", Str("searching")), Member("found", Num(found));
      GetTwo(m0, m1, "status");
      GetTwo(m0, m1, "found");
      forall k ensures HasKey([m0, m1], k) ==> k == "status" || k == "found" {
        GetTwo(m0, m1, k);
      }
      Some(TP.NoChange.(
        intermediateResults := Some(Obj([m0, m1])),
        message := Some(Some("Found initial results..."))))
    else if toolName == "fileSearch" then
      var m0 := Member("matchCount", Num(matchCount));
      assert [m0] == [] + [m0];
      GetSnoc([], m0, "matchCount");
      forall k ensures HasKey([m0], k) ==> k == "matchCount" {
        GetSnoc([], m0, k);
      }
      Some(TP.NoChange.(
        intermediateResults := Some(Obj([m0])),
        message := Some(Some("Calculating similarity scores..."))))
    else None
  }

  /** The mapped argument of a tool label: `prompt` for file search, `url` for
      URL fetches, `query` for web and X search; `None` for other tools.
      `None` inside `Some` means reading it threw. */
  function MappedArg(toolName: string, args: Value): Option<Option<Value>> {
    if toolName == "fileSearch" then Some(Property(args, "prompt"))
    else if toolName == "url" then Some(Property(args, "url"))
    else if toolName == "x" || toolName == "web" then Some(Property(args, "query"))
    else None
  }

  /** `getToolNameAndArgs(toolInvocation)`: `TOOLNAME called : **arg**`, with the
      JSON of the arguments when the tool has no mapped argument or it is
      falsy; `None` when the arguments are `undefined` or `null`, where reading
      them throws. */
  function ToolLabel(toolName: string, args: Value): (shown: Option<string>)
    ensures shown.None? <==> args.Undefined? || args.Null?
    ensures shown.Some? ==> StartsWith(shown.value, ToUpper(toolName) + " called : **")
    ensures shown.Some? ==> EndsWith(shown.value, "**")
  {
    if args.Undefined? || args.Null? then None
    else
      var mapped := MappedArg(toolName, args);
      var arg := if mapped.Some? && mapped.value.Some? && Truthy(mapped.value.value)
        then ToJsString(mapped.value.value) else Text(args);
      var prefix := ToUpper(toolName) + " called : **";
      var text := prefix + arg + "**";
      assert text[..|prefix|] == prefix;
      assert text[|text| - 2..] == "**";
      Some(text)
  }

  /** The label's middle is the mapped argument when it is truthy, and the JSON
      text of the arguments otherwise. */
  lemma ToolLabelMiddle(toolName: string, args: Value)
    requires !(args.Undefined? || args.Null?)
    ensures var text := ToolLabel(toolName, args).value;
      var prefix := ToUpper(toolName) + " called : **";
      var middle := text[|prefix|..|text| - 2];
      var mapped := MappedArg(toolName, args);
      (mapped.Some? && Truthy(mapped.value.value) ==> middle == ToJsString(mapped.value.value)) &&
      (mapped.None? || !Truthy(mapped.value.value) ==> Stringify(args) == Some(middle))
  {
    var text := ToolLabel(toolName, args).value;
    var prefix := ToUpper(toolName) + " called : **";
    var mapped := MappedArg(toolName, args);
    var arg := if mapped.Some? && mapped.value.Some? && Truthy(mapped.value.value)
      then ToJsString(mapped.value.value) else Text(args);
    assert text == prefix + arg + "**";
    assert text[|prefix|..|text| - 2] == arg;
  }

  class ChatPanel {
    var activeTool: string
    var model: string
    var whiteBoardImage: Option<string>
    /** The editor content owned by the parent (`setEditorContent`). */
    var editorContent: Value
    var composerMessages: seq<ChatMessage>
    var isLoadingComposer: bool
    var inputComposer: string
    var nextPromptSuggestion: Value
    /** The bodies of the chat requests submitted, in order. */
    var sentChatBodies: seq<seq<Member>>
    const progress: TP.ToolProgressTracker

    constructor (editorContent: Value)
      ensures this.editorContent == editorContent
      ensures activeTool == "none" && model == "openai" && whiteBoardImage == None
      ensures composerMessages == [] && !isLoadingComposer && inputComposer == ""
      ensures sentChatBodies == [] && fresh(progress) && progress.state == TP.Initial
    {
      this.editorContent := editorContent;
      activeTool := "none";
      model := "openai";
      whiteBoardImage := None;
      composerMessages := [];
      isLoadingComposer := false;
      inputComposer := "";
      nextPromptSuggestion := Arr([Str("List all the tasks in table format"), Str("Mark this |taskName| as done"),
                                   Str("Add a new task |taskName|")]);
      sentChatBodies := [];
      progress := new TP.ToolProgressTracker();
    }

    /** `handleSubmitChat`. `screenshot` is what the canvas capture returned.
        The request goes out with the body of the current render, so a mention
        changes the tool from the next submission on. */
    method SubmitChat(input: string, screenshot: Option<string>)
      modifies this
      ensures |input| == 0 ==>
        activeTool == old(activeTool) && whiteBoardImage == old(whiteBoardImage) &&
        sentChatBodies == old(sentChatBodies)
      ensures |input| > 0 ==>
        activeTool == MentionTool(input, old(activeTool)) &&
        sentChatBodies == old(sentChatBodies) + [ChatRequestBody(old(activeTool), model, editorContent)]
      ensures |input| > 0 && Contains(input, "@whiteboard") ==> whiteBoardImage == Some(WhiteboardImage(screenshot))
      ensures !(|input| > 0 && Contains(input, "@whiteboard")) ==> whiteBoardImage == old(whiteBoardImage)
      ensures model == old(model) && editorContent == old(editorContent) && composerMessages == old(composerMessages)
      ensures isLoadingComposer == old(isLoadingComposer) && inputComposer == old(inputComposer)
      ensures nextPromptSuggestion == old(nextPromptSuggestion)
    {
      if |input| == 0 {
        return;
      }
      var body := ChatRequestBody(activeTool, model, editorContent);
      if Contains(input, "@whiteboard") {
        activeTool := "whiteboard";
        whiteBoardImage := Some(WhiteboardImage(screenshot));
      } else if Contains(input, "@notes") {
        activeTool := "notes";
      }
      sentChatBodies := sentChatBodies + [body];
    }

    /** `handleSubmitComposer`. `reply` is how the request and `response.json()`
        settled, a resolved reply being the parsed object's members;
        `userId`/`assistantId` are the fresh message ids. The reply is read
        without any check, so the route's `{error}` answer leaves the editor
        alone, clears the suggestions to `undefined` and appends an assistant
        message with `undefined` content. There is no `finally`: after a
        failure the loading flag stays set. */
    method SubmitComposer(reply: Settled<seq<Member>, ErrorInfo>, userId: string, assistantId: string)
      returns (posted: Option<ComposerRequest>)
      modifies this
      ensures |old(inputComposer)| == 0 ==>
        posted == None &&
        composerMessages == old(composerMessages) && isLoadingComposer == old(isLoadingComposer) &&
        inputComposer == old(inputComposer) && editorContent == old(editorContent) &&
        nextPromptSuggestion == old(nextPromptSuggestion)
      ensures |old(inputComposer)| > 0 ==>
        posted == Some(ComposerRequest(old(composerMessages), old(editorContent), old(inputComposer))) &&
        inputComposer == ""
      ensures |old(inputComposer)| > 0 && reply.Resolved? ==>
        composerMessages == old(composerMessages) +
          [ChatMessage(User, Str(old(inputComposer)), userId),
           ChatMessage(Assistant, Get(reply.value, "message"), assistantId)] &&
        editorContent == (if Get(reply.value, "updateEditorHTML") == Bool(true) then Get(reply.value, "editorHTML")
                          else old(editorContent)) &&
        nextPromptSuggestion == Get(reply.value, "nextPrompt") && !isLoadingComposer
      ensures |old(inputComposer)| > 0 && reply.Resolved? && IsErrorReply(reply.value) ==>
        editorContent == old(editorContent) && nextPromptSuggestion == Undefined &&
        composerMessages[|composerMessages| - 1] == ChatMessage(Assistant, Undefined, assistantId)
      ensures |old(inputComposer)| > 0 && reply.Rejected? ==>
        composerMessages == old(composerMessages) + [ChatMessage(User, Str(old(inputComposer)), userId)] &&
        editorContent == old(editorContent) && nextPromptSuggestion == old(nextPromptSuggestion) &&
        isLoadingComposer
      ensures activeTool == old(activeTool) && sentChatBodies == old(sentChatBodies)
    {
      if |inputComposer| == 0 {
        return None;
      }
      var prompt := inputComposer;
      var transcript := composerMessages;
      inputComposer := "";
      isLoadingComposer := true;
      composerMessages := composerMessages + [ChatMessage(User, Str(prompt), userId)];
      posted := Some(ComposerRequest(transcript, editorContent, prompt));
      if reply.Rejected? {
        return;
      }
      var data := reply.value;
      if IsErrorReply(data) {
        ErrorReplyFields(data, "updateEditorHTML");
        ErrorReplyFields(data, "nextPrompt");
        ErrorReplyFields(data, "message");
      }
      if Get(data, "updateEditorHTML") == Bool(true) {
        editorContent := Get(data, "editorHTML");
      }
      nextPromptSuggestion := Get(data, "nextPrompt");
      composerMessages := composerMessages + [ChatMessage(Assistant, Get(data, "message"), assistantId)];
      isLoadingComposer := false;
    }

    /** `onToolCall`: start tracking under the reported name, or `unknown`.
        Returns the name tracked (`None` when there was no tool call) and the
        estimate the progress interval runs with, which is undefined for a
        name outside the estimate table, `unknown` among them. */
    method OnToolCall(call: Option<ToolCall>, now: int) returns (tracked: Option<string>, estimate: Option<nat>)
      modifies progress
      ensures call.None? ==> tracked == None && estimate == None && progress.state == old(progress.state)
      ensures call.Some? ==>
        tracked == Some(TrackedToolName(call.value)) &&
        progress.state == TP.Started(TrackedToolName(call.value), call.value.args, now) &&
        estimate == TP.Estimate(TrackedToolName(call.value))
      ensures call.Some? && call.value.toolName.None? ==> estimate.None?
    {
      if call.None? {
        return None, None;
      }
      var name := TrackedToolName(call.value);
      var period;
      estimate, period := progress.Start(name, call.value.args, now);
      tracked := Some(name);
    }

    /** The timer one second into a tool call. */
    method OnIntermediateTimer(toolName: string, found: int, matchCount: int)
      modifies progress
      ensures var p := IntermediatePatch(toolName, found, matchCount);
        progress.state == if p.Some? then TP.Patched(old(progress.state), p.value) else old(progress.state)
    {
      var p := IntermediatePatch(toolName, found, matchCount);
      if p.Some? {
        progress.Update(p.value);
      }
    }

    /** The timer three seconds into a tool call. */
    method OnToolTimerDone(now: int)
      modifies progress
      ensures progress.state == TP.Finished(old(progress.state), TP.Completed, Some("Results processed successfully"), now)
    {
      progress.Complete(TP.Completed, Some("Results processed successfully"), now);
    }

    /** `onError`: progress is marked as failed only when a tool was active in
        `rendered`, the progress record of the render the callback was created
        in; the completion itself updates the current record. */
    method OnError(message: string, rendered: TP.ProgressState, now: int)
      modifies progress
      ensures rendered.isActive ==> progress.state == TP.Finished(old(progress.state), TP.Failed, Some(message), now)
      ensures !rendered.isActive ==> progress.state == old(progress.state)
    {
      if rendered.isActive {
        progress.Complete(TP.Failed, Some(message), now);
      }
    }
  }

  /** As written, a submission that mentions a tool is sent with the tool of the
      render it was typed in: the first `@whiteboard` message after plain chat
      goes out with tool `none` and no image. */
  lemma WhiteboardMentionSentWithPreviousTool(model: string, editorContent: Value)
    ensures Contains("@whiteboard", "@whiteboard")
    ensures MentionTool("@whiteboard", "none") == "whiteboard"
    ensures Get(ChatRequestBody("none", model, editorContent), "tool") == Str("none")
    ensures !HasKey(ChatRequestBody("none", model, editorContent), "image")
  {
    assert StartsWith("@whiteboard", "@whiteboard");
  }

  /** The body the mention routing evidently intends: built with the tool the
      mention selects. */
  function RoutedChatBody(input: string, activeTool: string, model: string, editorContent: Value): (body: seq<Member>)
    ensures Get(body, "tool") == Str(MentionTool(input, activeTool))
    ensures Contains(input, "@whiteboard") ==> Get(body, "image") == Str(CanvasImageUrl)
    ensures !Contains(input, "@whiteboard") && Contains(input, "@notes") ==> Get(body, "notes") == editorContent
  {
    ChatRequestBody(MentionTool(input, activeTool), model, editorContent)
  }

  /** As written, the composer posts no `model`, so the route refuses every
      composer turn with status 400 and `{error: 'Invalid model'}`, which the
      handler then reads as a reply. */
  lemma ComposerRequestLacksModel(r: ComposerRequest)
    ensures !HasKey(ComposerBody(r), "model")
    ensures ComposerRoute.ValidateModel(ComposerBody(r)) == ComposerRoute.Rejects(400, ComposerRoute.InvalidModelReply)
    ensures IsErrorReply(ComposerRoute.InvalidModelReply)
  {
  }

  /** The composer body the route evidently expects: the same fields plus the
      selected `model`, which lets a chat model through the check. */
  function ComposerBodyWithModel(r: ComposerRequest, model: string): (body: seq<Member>)
    ensures Get(body, "model") == Str(model)
    ensures forall k :: k != "model" ==> Get(body, k) == Get(ComposerBody(r), k)
    ensures ComposerRoute.ValidateModel(body).Proceeds? <==> Models.IsValidModel(model)
  {
    var m := Member("model", Str(model));
    forall k ensures Get(ComposerBody(r) + [m], k) == if k == "model" then Str(model) else Get(ComposerBody(r), k) {
      GetSnoc(ComposerBody(r), m, k);
    }
    ComposerBody(r) + [m]
  }
}
