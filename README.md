# AGC chat workspace: verified model of its decision logic

AGC is a Next.js workspace. It combines a chat panel that calls LLM tools (web search, X search, URL fetch, file search, notes, whiteboard) with a rich-text composer. Most of the repository is React UI and glue over hosted SDKs. Underneath are small sequential decision procedures. This project models those procedures in Dafny and proves what their branches promise:

- three first-match error classifiers and the retry loop with capped exponential backoff;
- the tool-call progress record with its start, tick, update, complete and delayed-reset transitions;
- the stale-request guard of the enhanced chat hook;
- the chat and composer submit handlers: `@`-mention routing, the request body, transcript appends, the editor-replacement rule and the tool-call label;
- tool-call extraction from the several message shapes;
- model-name validation and sentence chunking for embeddings;
- the two logger families:
  - the edge logger in `src/lib/logger` with its chat and composer subclasses;
  - the pino logger in `src/utils/logger.ts` with the feature chat logger;
  - level threshold, right-biased context merge, child loggers, error payloads, truncation and sanitisation, sampling predicates, configuration tables, request context and the middleware skip rule;
- the editor's slash-command menu: filtering capped at 10, wrap-around keyboard navigation, scroll-into-view;
- the notes tool's action dispatch.

Layout: one module per source file, plus four shared modules:

- `Wrappers`: `Option`, `Outcome` (a value or a thrown `TypeError`) and `Settled` (a resolved or rejected promise).
- `Strings`: substring search, prefixes, ASCII case mapping, JavaScript `trim`, `split` and number-to-text.
- `Json`: JavaScript values. It covers truthiness, objects as insertion-ordered member lists, object spread as right-biased `Spread`, property lookup and `JSON.stringify`.
- `JsErrors`: the error record the classifiers read, with name, message, stack and an optional status.

State the source changes in place becomes a class:

- the logger instances;
- the console or pino sink they write to;
- the progress tracker and the chat hook;
- the chat panel's React state;
- the slash menu and its list element;
- the thrown error that carries a `handled` flag;
- the response whose headers the middleware sets.

Pure computations are functions; loops are methods with invariants. Time, random ids, UUIDs, network replies and LLM calls are parameters of the operations that use them.

## Model

| member | source | states |
|---|---|---|
| ClientErrorHandler.HandleClientStreamError | src/lib/client/errorHandler.ts:31-67 | the type is the first matching rule (`Kind`); `retryable` is false exactly for the aborted type; the message ends with `(Error ID: id)` and the returned id is the one passed in |
| ClientErrorHandler.KindFirstMatch | src/lib/client/errorHandler.ts:36-67 | each type holds exactly when its own test passes and every earlier test fails; the JSON type arises only inside the stream-processing branch; unknown means no test passed |
| ClientErrorHandler.ReportOnlyUnrefined | src/lib/client/errorHandler.ts:45-98 | the server report is sent exactly for a stream-processing stack without a JSON hint, so a refined JSON error is never reported |
| ClientErrorHandler.MessageMentionsId | src/lib/client/errorHandler.ts:37-65 | the user message contains the error id |
| ClientErrorHandler.NewStreamProcessingError | src/lib/client/errorHandler.ts:112-129 | the thrown error is named `StreamProcessingError` and copies message, type, error id and retryable; the stack is the original's exactly when that one is non-empty |
| ClientErrorHandler.Backoff | src/lib/client/errorHandler.ts:158 | the wait never exceeds 10000 ms; it is 1000·2^n for n ≤ 3 and the 10000 cap from n = 4 on |
| ClientErrorHandler.Calls | src/lib/client/errorHandler.ts:141-161 | the number of calls is at least 1 and at most `maxRetries - retries + 1` |
| ClientErrorHandler.FetchWithStreamErrorHandling | src/lib/client/errorHandler.ts:137-163 | the loop's outcome equals the recursive definition `Retry`; it calls `fetchFn` between 1 and `maxRetries + 1` times; its waits are the backoff schedule for retries 1, 2, … and number one fewer than the calls |
| ClientErrorHandler.RetryLastCall | src/lib/client/errorHandler.ts:145-152 | the last call decides the outcome: a success is returned unchanged; a failure is wrapped from the last classification, and the loop stops only when that failure is not retryable or the retries are used up |
| ClientErrorHandler.OneCallWhenNotRetryable | src/lib/client/errorHandler.ts:150-152 | a non-retryable first failure means exactly one call, and the wrapped error comes from it |
| ClientErrorHandler.DefaultBackoffs | src/lib/client/errorHandler.ts:139-158 | with the default 3 retries the waits are 2000, 4000 and 8000 ms |
| StreamErrorHandler.ErrorId | src/lib/logger/stream-error-handler.ts:41 | the id is a prefix of the UUID, at most 8 characters long |
| StreamErrorHandler.HandleStreamError | src/lib/logger/stream-error-handler.ts:40-96 | the type is the first matching rule; every type is retryable; the user message ends with the id tag |
| StreamErrorHandler.ClassifyFirstMatch | src/lib/logger/stream-error-handler.ts:53-75 | first match in the order data-stream (with JSON beating malformed chunk inside it), timeout, network, interruption, unknown; each type holds exactly under its own condition |
| StreamErrorHandler.AbortInFetchIsTimeout | src/lib/logger/stream-error-handler.ts:66-71 | outside the data-stream branch, any stack containing `AbortError` is a timeout, never a network error, even with a `fetch` frame in it |
| StreamErrorHandler.ErrorResponse | src/lib/logger/stream-error-handler.ts:104-118 | status is 500; the body is the JSON text of error, type and id; the `X-Error-Id`/`X-Error-Type` headers equal the body's id and type |
| StreamErrorHandler.CreateStreamErrorResponse | src/lib/logger/stream-error-handler.ts:101-119 | the response is built from this error's classification, with status 500 |
| StreamErrorHandler.WithStreamErrorHandling | src/lib/logger/stream-error-handler.ts:126-136 | a success passes through unchanged; a failure is rethrown as the error response for that error |
| ChatErrorHandler.ClassifyError | src/features/chat/chatErrorHandler.ts:17-91 | the code is the first-match code; the user message is the table entry for that code; only validation and internal errors are non-retryable |
| ChatErrorHandler.CodeFirstMatch | src/features/chat/chatErrorHandler.ts:29-88 | first match in the order fetch `TypeError`, timeout, status, `dataStream`, `JSON`; each code is characterised by its own test and the failure of the earlier ones |
| ChatErrorHandler.StatusDecides | src/features/chat/chatErrorHandler.ts:47-72 | once a status is present: 429 is rate limit, 400/422 validation, ≥500 API error, any other status unknown; `dataStream` and `JSON` are not consulted |
| ChatErrorHandler.AbortIsRetryableTimeout | src/features/chat/chatErrorHandler.ts:38-44 | an `AbortError` is a retryable timeout |
| ChatErrorHandler.HandleChatError | src/features/chat/chatErrorHandler.ts:94-142 | returns exactly the classification's user message and retryable flag; the detailed log runs for internal errors and for unknown errors not yet handled; afterwards the error is marked handled exactly when it was already handled or the detailed log ran |
| ChatErrorHandler.HandleUnknownTwice | src/features/chat/chatErrorHandler.ts:120-135 | handling an unknown error twice writes the detailed log at most once, on the first call, and only if the error was not already handled |
| ChatErrorHandler.HandleStreamProcessingError | src/features/chat/chatErrorHandler.ts:145-179 | a `processDataStream`/`onErrorPart` stack gives `STREAM_PROCESSING_ERROR` with retryable true and leaves the flag alone; anything else is `handleChatError`'s result |
| ToolProgress.Estimate | src/hooks/use-tool-progress.ts:9-17 | an estimate exists exactly for the seven tool names, and each is at least 1000 ms |
| ToolProgress.EstimateFor | src/hooks/use-tool-progress.ts:9-43 | the table entry when there is one, and never below 1000 ms |
| ToolProgress.UpdateInterval | src/hooks/use-tool-progress.ts:44 | twenty periods make up the estimate |
| ToolProgress.TickPercent | src/hooks/use-tool-progress.ts:55 | the percentage never exceeds 95, is non-negative for non-negative elapsed time, and reaches 95 exactly when 100·elapsed ≥ 95·estimate |
| ToolProgress.TickPercentMonotone | src/hooks/use-tool-progress.ts:53-55 | more elapsed time never lowers the percentage |
| ToolProgress.LaterTickNotLower | src/hooks/use-tool-progress.ts:46-61 | with the start time fixed, a later tick shows at least as much progress |
| ToolProgress.Started | src/hooks/use-tool-progress.ts:31-40 | active with the given tool and args, started now with no end time, running at 0%, intermediate results and message dropped |
| ToolProgress.Ticked | src/hooks/use-tool-progress.ts:46-61 | an inactive state is unchanged; an active one changes only its percentage, to the tick value for the estimate as given (NaN without one) |
| ToolProgress.Patched | src/hooks/use-tool-progress.ts:69-74 | every supplied field is overwritten and every other field kept |
| ToolProgress.PatchLaws | src/hooks/use-tool-progress.ts:69-74 | an empty update is the identity; an update is idempotent; two updates compose into one whose later keys win |
| ToolProgress.Finished | src/hooks/use-tool-progress.ts:77-85 | inactive, 100%, ended now, with the given status and message; tool, args, start time and intermediate results kept |
| ToolProgress.AfterResetTimer | src/hooks/use-tool-progress.ts:88-104 | back to the initial state exactly when an end time is set (non-zero) and more than 5000 ms have passed since it; otherwise unchanged |
| ToolProgress.ResetSkipped | src/hooks/use-tool-progress.ts:91 | a cleared end time, or a reading exactly 5000 ms after it, leaves the state unchanged |
| ToolProgress.TransitionsKeepWellFormed | src/hooks/use-tool-progress.ts:20-104 | the initial state and every transition except a free-form update keep the record well formed: active means running, no end time and at most 95%; inactive means 0% or 100% |
| ToolProgress.ToolProgressTracker.constructor | src/hooks/use-tool-progress.ts:20-28 | the initial record: inactive, no tool, args or times, running at 0% |
| ToolProgress.ToolProgressTracker.Start | src/hooks/use-tool-progress.ts:31-66 | the state becomes `Started`. The returned estimate is the table entry, undefined exactly for a name outside the seven, and the period is a twentieth of it or undefined with it |
| ToolProgress.ToolProgressTracker.Tick | src/hooks/use-tool-progress.ts:46-61 | the interval stops exactly when the state was inactive; the state becomes `Ticked` with the estimate as given, NaN when it is undefined |
| ToolProgress.ToolProgressTracker.Update | src/hooks/use-tool-progress.ts:69-74 | the state becomes the patched state |
| ToolProgress.ToolProgressTracker.Complete | src/hooks/use-tool-progress.ts:77-86 | the state becomes `Finished`, and well-formedness is preserved |
| ToolProgress.ToolProgressTracker.ResetTimer | src/hooks/use-tool-progress.ts:88-104 | the state becomes `AfterResetTimer` of the old state |
| ToolProgress.TickPercentAsWritten | src/hooks/use-tool-progress.ts:43-55 | with a table entry the tick is `TickPercent`; it is NaN exactly when there is no entry |
| ToolProgress.PeriodAsWritten | src/hooks/use-tool-progress.ts:43-44 | the interval period exists exactly when the estimate does, and twenty periods make up the estimate |
| ToolProgress.UnknownToolProgress | src/hooks/use-tool-progress.ts:43-55 | the name `unknown` has no estimate and no period, so the as-written tick is NaN and the record is no longer well formed. With the corrected estimate the tick stays within 0–95 |
| ToolProgress.CorrectedTickWellFormed | src/hooks/use-tool-progress.ts:46-61 | with the corrected estimate, a tick keeps every well-formed record well formed, whatever the tool name |
| EnhancedChat.WithDefaults | src/hooks/useEnhancedChat.ts:30-37 | missing options default to tool `none`, empty notes and image, and 3 retries |
| EnhancedChat.ExtraOverrides | src/hooks/useEnhancedChat.ts:66-71 | the sent `extra` has the hook's tool, notes and image; every other key is the message's own `extra` key (an empty object when that is falsy) |
| EnhancedChat.SentMessageKeys | src/hooks/useEnhancedChat.ts:63-72 | the sent message is the original with only `extra` replaced |
| EnhancedChat.SupersededFails | src/hooks/useEnhancedChat.ts:57-107 | once the counter has moved past the captured id, every attempt fails with `Request superseded by newer request`, and the retry wrapper ends rejected |
| EnhancedChat.EnhancedChatHook.constructor | src/hooks/useEnhancedChat.ts:30-45 | settings are the defaults applied to the options; the counter is 0 and there is no error |
| EnhancedChat.EnhancedChatHook.Begin | src/hooks/useEnhancedChat.ts:50-98 | the error is cleared, the counter goes up by exactly 1, and the captured id is the new value |
| EnhancedChat.EnhancedChatHook.Fail | src/hooks/useEnhancedChat.ts:76-126 | the error state becomes the thrown error, `onError` receives it once when given, and the same error is rethrown |
| EnhancedChat.EnhancedChatHook.Append | src/hooks/useEnhancedChat.ts:48-92 | the counter goes up by 1; the sent message carries the merged extra; the outcome is the retry wrapper's; a failure sets the error state and is reported |
| EnhancedChat.EnhancedChatHook.Reload | src/hooks/useEnhancedChat.ts:95-127 | as `Append`, without a message |
| EnhancedChat.EnhancedChatHook.Run | src/hooks/useEnhancedChat.ts:54-89 | while the request is current, the outcome is the retry wrapper's with the configured `maxRetries`; the counter is unchanged |
| EnhancedChat.SupersededScenario | src/hooks/useEnhancedChat.ts:51-89 | a second `append` started before the first one's attempt runs makes the first one fail; the first one's `catch` then sets `error` to that failure (over the one the second had cleared) and reports it to `onError` when one is given |
| ChatUi.ChatRequestBody | src/components/chat/chat-ui.tsx:62-71 | the body carries tool and model; it has `notes` exactly when the active tool is notes, holding the editor content; it has `image` exactly when the tool is whiteboard, holding the canvas URL |
| ChatUi.MentionTool | src/components/chat/chat-ui.tsx:167-182 | `@whiteboard` wins over `@notes`; `@notes` alone selects notes; otherwise the tool is untouched |
| ChatUi.WhiteboardImage | src/components/chat/chat-ui.tsx:170-173 | a non-empty screenshot URL is used as is; the URL handed on is never empty |
| ChatUi.TrackedToolName | src/components/chat/chat-ui.tsx:81-84 | the call's tool name, or `unknown` when it has none |
| ChatUi.IntermediatePatch | src/components/chat/chat-ui.tsx:95-113 | only web, x and file search get an intermediate update, which sets message and results and nothing else. Web and X say `Found initial results...` with results exactly `status: searching` and `found`. File search says `Calculating similarity scores...` with `matchCount` |
| ChatUi.ToolLabel | src/components/chat/chat-ui.tsx:221-236 | reading the args throws exactly when they are undefined or null; otherwise the label is `<TOOL> called : **…**` |
| ChatUi.ToolLabelMiddle | src/components/chat/chat-ui.tsx:224-234 | between the markers is the tool's mapped argument (prompt, url or query) when it is truthy, else the JSON of the args |
| ChatUi.ChatPanel.constructor | src/components/chat/chat-ui.tsx:42-44 | tool `none`, model `openai`, no whiteboard image, empty composer transcript, not loading, progress in its initial state |
| ChatUi.ChatPanel.SubmitChat | src/components/chat/chat-ui.tsx:160-183 | empty input changes nothing and sends nothing; otherwise the tool follows the mention rule, one body is sent (built from the tool as it was at render time), and the image is set only for `@whiteboard`; the composer state is untouched |
| ChatUi.ChatPanel.SubmitComposer | src/components/chat/chat-ui.tsx:185-216 | empty input changes nothing. Otherwise the input is cleared and the request posts the transcript captured before this turn's user message. On a reply of any shape: the user message and an assistant message holding the reply's `message` are appended, the editor is replaced by `editorHTML` exactly when `updateEditorHTML` is `true`, the suggestions become `nextPrompt` and loading ends. An `{error}` reply keeps the editor and leaves suggestions and assistant content undefined. On a failure: only the user message is appended and loading stays on |
| ChatUi.ComposerBody | src/components/chat/chat-ui.tsx:196-203 | the composer request has `messages`, `editorHTML` and `prompt`, holding the transcript, the editor content and the prompt, and no `model` |
| ChatUi.ErrorReplyFields | src/components/chat/chat-ui.tsx:204-214 | an `{error}` reply has none of the fields the handler reads |
| ChatUi.ComposerRequestLacksModel | src/components/chat/chat-ui.tsx:196-203 | every composer request is answered with status 400 and `{error: 'Invalid model'}`, which is an error reply |
| ChatUi.ComposerBodyWithModel | src/components/chat/chat-ui.tsx:196-203 | the body gains `model` and keeps every other field; it passes the route's check exactly for a valid chat model |
| ComposerRoute.ValidateModel | src/app/api/composer/route.ts:46-50 | the request proceeds exactly when `model` is a string naming a chat model; otherwise it is answered with status 400 and `{error: 'Invalid model'}` |
| ComposerRoute.MissingModelRejected | src/app/api/composer/route.ts:46-50 | a request without `model` is always refused with 400 |
| ChatUi.ChatPanel.OnToolCall | src/components/chat/chat-ui.tsx:72-92 | no call changes nothing. A call starts progress for its tracked name and args, with that name's estimate as the table gives it: undefined for `unknown`, so for every call without a tool name |
| ChatUi.ChatPanel.OnIntermediateTimer | src/components/chat/chat-ui.tsx:95-113 | the progress record is patched with the intermediate update when there is one, else unchanged |
| ChatUi.ChatPanel.OnToolTimerDone | src/components/chat/chat-ui.tsx:116-120 | progress completes with `completed` and `Results processed successfully` |
| ChatUi.ChatPanel.OnError | src/components/chat/chat-ui.tsx:125-133 | progress is marked as error with the message exactly when a tool was active in the render the callback belongs to; otherwise unchanged |
| ChatUi.WhiteboardMentionSentWithPreviousTool | src/components/chat/chat-ui.tsx:62-175 | an `@whiteboard` message sent while the tool is `none` selects whiteboard, but its request still says `none` and has no image |
| ChatUi.RoutedChatBody | src/components/chat/chat-ui.tsx:62-182 | the body for the tool the mention selects: `@whiteboard` carries the image, `@notes` the notes |
| Types.FindContentPart | src/types.ts:69 | `find` over content parts: none found exactly when every part passed; it throws exactly when a null or undefined part is reached; a found part is the first match |
| Types.SomeAgreesWithFind | src/types.ts:69-119 | `some` and `find` over the same parts throw together and succeed together |
| Types.FindMessagePart | src/types.ts:82-84 | nothing found exactly when no part is an object whose `type` is `tool-call`; a found part is such a part, and no earlier part is one |
| Types.AnyMessagePart | src/types.ts:125-127 | true exactly when some part is an object tool call |
| Types.CopyCall | src/types.ts:71-102 | the returned invocation copies `toolName` and `args` |
| Types.DirectCall | src/types.ts:81-91 | a hit exactly when the first object tool-call part among the message parts has both `toolName` and `args`, and the hit is that part |
| Types.LegacyCall | src/types.ts:95-104 | a hit exactly when `toolInvocations` is a present non-empty array whose first element is truthy, and the hit is that element |
| Types.GetToolCallFromMessage | src/types.ts:59-107 | non-assistant messages give null; without content parts the result is the direct hit, else the legacy hit, else null; it throws exactly when the search of an assistant message's content parts throws |
| Types.HasToolCall | src/types.ts:109-137 | non-assistant messages give false; for non-object content, as written, only the legacy `toolInvocations` test is used |
| Types.ContentPartsFirst | src/types.ts:63-91 | a hit among the content parts is returned first; when they hold none, the direct and legacy lookups follow |
| Types.ContentPartsAgree | src/types.ts:63-121 | when the content parts hold a tool call, both functions report it |
| Types.HasToolCallCorrected | src/types.ts:123-128 | with the brace closed as intended, a message without content parts checks its own `parts` |
| Types.CorrectedAgrees | src/types.ts:59-137 | the corrected check agrees with the as-written one on content parts, and with `getToolCallFromMessage` on direct part hits |
| Types.StringContentMissesParts | src/types.ts:81-129 | an assistant message with string content and a tool-call part: `getToolCallFromMessage` finds the call, `hasToolCall` as written says false, the corrected one says true |
| Models.IsValidModel | src/app/api/model.ts:32-34 | a valid name is a key of the model table naming a chat model |
| Models.GetModel | src/app/api/model.ts:19-29 | a valid name maps to a chat model of the matching provider |
| Models.ValidNamesAreChatKeys | src/app/api/model.ts:19-34 | valid exactly for the table's chat-model keys, so the embedding key is excluded |
| Models.NearMissesRejected | src/app/api/model.ts:32-34 | exact match only: empty, case-changed, padded and embedding names are rejected |
| LibUtils.IsValidModel | lib/utils.ts:5-7 | a valid name has at least six characters |
| LibUtils.AgreesWithApi | lib/utils.ts:5-7 | the two validators accept exactly the same names |
| CreateEmbedding.NonEmpty | src/create-embedding.ts:8 | the filter keeps only non-empty pieces of the input, never more of them, and their concatenation is unchanged |
| CreateEmbedding.ChunksSpellText | src/create-embedding.ts:5-8 | every chunk is a non-empty, dot-free piece of the trimmed text, and together they spell it without its dots |
| CreateEmbedding.OnlyDotsNoChunks | src/create-embedding.ts:5-8 | text that trims to only dots gives no chunks |
| CreateEmbedding.Rows | src/create-embedding.ts:15-18 | one row per embedding, in order; row i holds chunk i, or nothing past the chunks |
| CreateEmbedding.GenerateEmbeddings | src/create-embedding.ts:4-21 | one row per embedding; when the counts agree, row i pairs chunk i with embedding i |
| Notes.Execute | src/tools/notes.ts:23-60 | read analyses the given notes and never updates; update with non-empty content returns that content with the success message; any other update returns the notes unchanged with the no-action message |
| Notes.UpdateIgnoresModel | src/tools/notes.ts:47-60 | the update path never consults the model |
| Notes.ReadAfterUpdate | src/tools/notes.ts:24-53 | reading notes that came from an update analyses the new content |
| LoggerIndex.Enabled | src/lib/logger/index.ts:67 | logging is off exactly when the flag is the string `false` |
| LoggerIndex.ConfiguredLevel | src/lib/logger/index.ts:68 | the configured level, or `info` when it is missing or empty |
| LoggerIndex.ShouldLogThreshold | src/lib/logger/index.ts:105-121 | a message is logged exactly when logging is on and the lower-cased configured level appears in the list trace, debug, info, warn, error, fatal no later than the message's level; an unknown configured level logs nothing |
| LoggerIndex.ShouldLogMonotone | src/lib/logger/index.ts:108-120 | if a level is logged, so is every higher level |
| LoggerIndex.DefaultLevelIsInfo | src/lib/logger/index.ts:67-121 | with no settings, everything except trace and debug is logged |
| LoggerIndex.LevelCaseInsensitive | src/lib/logger/index.ts:117 | the configured level is compared case-insensitively |
| LoggerIndex.Record | src/lib/logger/index.ts:195-202 | the `logData` record, built and never written: level, category, context and message, and a `data` key exactly when the data is truthy |
| LoggerIndex.Printed | src/lib/logger/index.ts:205-222 | the console call goes to the level's method and shows the data exactly when it is truthy |
| LoggerIndex.PrintedAgreesWithRecord | src/lib/logger/index.ts:195-222 | the console call shows the level, category, message and data of `logData` and leaves out its context, for every context |
| LoggerIndex.BuildErrorPayload | src/lib/logger/index.ts:141-160 | the loop over the error's keys builds exactly `ErrorPayload` |
| LoggerIndex.ErrorPayloadFields | src/lib/logger/index.ts:141-160 | an `Error` gives name, message and stack from itself, and every other own key copied; the three names are never overridden; a non-error passes through when truthy and is null otherwise |
| LoggerIndex.ErrorData | src/lib/logger/index.ts:162-187 | `{...data, error}`: `error` is the payload, and every other key is the data's |
| LoggerIndex.Logger.constructor | src/lib/logger/index.ts:71-78 | category defaults to general; the context is a copy of the initial one, or empty |
| LoggerIndex.Logger.SetContext | src/lib/logger/index.ts:81-83 | supplied keys override, the others are kept; the category is unchanged |
| LoggerIndex.Logger.ExtendContext | src/lib/logger/index.ts:86-88 | the same right-biased merge as `setContext` |
| LoggerIndex.Logger.SetCategory | src/lib/logger/index.ts:91-93 | only the category changes |
| LoggerIndex.Logger.Child | src/lib/logger/index.ts:96-102 | a fresh logger, distinct from the parent (which is not modified); its context is the parent's with the additional keys winning; its category is the given one, or the parent's |
| LoggerIndex.Logger.Log | src/lib/logger/index.ts:191-231 | when the level passes the threshold, one console call on the level's method with the time, level, category, message and truthy data, and no context; nothing otherwise |
| LoggerIndex.Logger.LogError | src/lib/logger/index.ts:140-163 | logs at error level with data `{...data, error: payload}` |
| LoggerIndex.Logger.LogFatal | src/lib/logger/index.ts:165-188 | logs at fatal level with data `{...data, error: payload}` |
| LoggerIndex.Emitted | src/lib/logger/index.ts:192-225 | at most one console call, present exactly when the level is logged, and it is the given one |
| LoggerIndex.WalkValue | src/lib/logger/index.ts:44-59 | the replacer's walk: an object already seen becomes `[Circular]`; a first visit marks it seen; primitives pass unchanged |
| LoggerIndex.WalkFields | src/lib/logger/index.ts:47-55 | object fields keep their keys and order |
| LoggerIndex.CycleCut | src/lib/logger/index.ts:47-55 | a self-referencing object serialises with `[Circular]` in place of the cycle |
| LoggerIndex.SharedCut | src/lib/logger/index.ts:47-55 | an object reached twice without a cycle is also replaced by `[Circular]` the second time |
| LoggerIndex.FlatFieldsCopied | src/lib/logger/index.ts:47-55 | fields holding only primitives are written as they are and mark nothing, whatever was seen before |
| LoggerIndex.FlatObjectCopied | src/lib/logger/index.ts:47-55 | for every heap, an object with only primitive members is written with exactly those members on its first visit and as `[Circular]` on every later one |
| LoggerIndex.GetRequestContext | src/lib/logger/index.ts:234-248 | eight distinct keys in order, with request id, route, method, ip, user agent and referer falling back as written, and user and session id undefined when absent |
| LoggerIndex.RequestContextDefaults | src/lib/logger/index.ts:235-246 | the incoming request id is kept when non-empty, else the UUID; missing headers give `unknown` or undefined |
| LogText.Truncate | src/lib/logger/chat-logger.ts:165-169 | empty text gives `No content`; text within the limit is unchanged; longer text is its first `maxLength` characters plus `...` |
| LogText.TruncateBounds | src/lib/logger/composer-logger.ts:120-124 | apart from `No content`, the result is at most three characters over the limit and starts with the text's first `maxLength` characters; a cut result is exactly three over and ends with `...` |
| LogText.TruncateFits | src/lib/logger/chat-logger.ts:165-169 | truncating text that fits twice changes nothing |
| LogText.NumericLength | src/lib/logger/chat-logger.ts:25 | `?.length` is the length of strings and arrays, and missing for other primitives |
| LogText.LengthOrZero | src/lib/logger/chat-logger.ts:25 | `?.length \|\| 0`: the length, or 0 for undefined and null |
| LogText.TruncateValue | src/lib/logger/chat-logger.ts:165-169 | a string is truncated; a falsy value gives `No content`; only a truthy non-string can throw |
| ChatLogger.TruncateResult | src/lib/logger/chat-logger.ts:171-188 | falsy gives null; a string is truncated to 100; an array is described by its length; an object by its own keys; other values pass through |
| ChatLogger.SanitizeParams | src/lib/logger/chat-logger.ts:190-201 | falsy gives null; otherwise an object |
| ChatLogger.SanitizeParamsFields | src/lib/logger/chat-logger.ts:190-201 | same keys as the input's own keys; truthy `apiKey` and `token` become `***`; everything else is copied |
| ChatLogger.StreamSampling | src/lib/logger/chat-logger.ts:96 | chunks 1 and 2 are logged; after that exactly the multiples of 5 are |
| ChatLogger.DataStreamStacksAgree | src/lib/logger/chat-logger.ts:138-140 | every stack the stream classifier treats as a data-stream error is one here too |
| ChatLogger.StepCount | src/lib/logger/chat-logger.ts:69 | a missing or falsy counter counts as 0 |
| ChatLogger.ChatStartContext | src/lib/logger/chat-logger.ts:22-28 | the context patch holds tool, model and `messages?.length \|\| 0` |
| ChatLogger.ChatStartPreview | src/lib/logger/chat-logger.ts:31-32 | `No messages` when there are none; otherwise the last message's content, truncated to 100 |
| ChatLogger.ChatLogger.constructor | src/lib/logger/chat-logger.ts:6-8 | a new logger in the chat category with empty context |
| ChatLogger.ChatLogger.LogChatStart | src/lib/logger/chat-logger.ts:13-34 | the context is extended with the start patch; `messagesCount` is the length or 0; it throws exactly when the preview throws, and then nothing is logged; otherwise one info line carries the preview |
| ChatLogger.ChatLogger.LogStepCompletion | src/lib/logger/chat-logger.ts:67-81 | `stepCount` becomes the previous count (0 when missing) plus 1; every other context key is unchanged; one debug line carries the step fields |
| ChatLogger.ChatLogger.LogStreamProgress | src/lib/logger/chat-logger.ts:94-106 | a sampled chunk writes one trace line from a stream-category child carrying the counts; others write nothing; this logger's context is not touched |
| ChatLogger.ChatLogger.LogStreamError | src/lib/logger/chat-logger.ts:131-154 | a data-stream stack logs `Stream processing error` with the stream details; any other stack logs `Streaming error` with only the error |
| ComposerLogger.Shortened | src/lib/logger/composer-logger.ts:133-139 | a field over 200 is cut to 200 characters plus `...`; anything else is kept; it throws exactly for an over-long non-string |
| ComposerLogger.SanitizeParams | src/lib/logger/composer-logger.ts:126-147 | falsy gives null; a result is an object |
| ComposerLogger.SanitizeParamsFields | src/lib/logger/composer-logger.ts:126-147 | it throws exactly when `editorHTML` or `prompt` is an over-long non-string. Otherwise: long `editorHTML`/`prompt` are shortened; a `messages` array becomes a note plus `messageCount`; every other key is copied; no other key is added |
| ComposerLogger.RawResponseLengthAsWritten | src/lib/logger/composer-logger.ts:104-105 | a string gives its length; it throws exactly when the raw response is undefined |
| ComposerLogger.MissingRawResponseThrows | src/lib/logger/composer-logger.ts:101-107 | the schema-error data cannot be built, so `logSchemaError` throws, exactly when no raw response is given; a string response gets its length |
| ComposerLogger.RawResponseLength | src/lib/logger/composer-logger.ts:104-105 | corrected length: 0 for a missing response, the as-written length in every other case |
| ComposerLogger.SchemaData | src/lib/logger/composer-logger.ts:102-106 | the data with `SCHEMA_VALIDATION` and the raw response's length, throwing exactly when the as-written length throws |
| ComposerLogger.SchemaDataCorrected | src/lib/logger/composer-logger.ts:102-106 | the corrected data: length 0 without a raw response, equal to the as-written data wherever that can be built |
| ComposerLogger.StartPreviews | src/lib/logger/composer-logger.ts:42-45 | prompt preview at 100 and editor preview at 150; it throws exactly when either truncation does |
| ComposerLogger.ComposerLogger.constructor | src/lib/logger/composer-logger.ts:20-22 | composer category with a copy of the initial context |
| ComposerLogger.ComposerLogger.LogComposerStart | src/lib/logger/composer-logger.ts:27-46 | the context is extended with model and the three lengths; it throws exactly when a preview throws, with nothing logged; otherwise one info line carries the previews |
| ComposerLogger.ComposerLogger.LogModelValidation | src/lib/logger/composer-logger.ts:51-61 | valid logs at debug, invalid at warn, each with its validation result |
| ComposerLogger.ComposerLogger.LogObjectGeneration | src/lib/logger/composer-logger.ts:66-87 | the context is extended with the response lengths and duration; the info line carries the response preview; it throws exactly when that preview does |
| ComposerLogger.ComposerLogger.LogGenerationError | src/lib/logger/composer-logger.ts:92-96 | throws exactly when sanitising throws; otherwise one error line with the sanitised parameters and the error payload |
| ComposerLogger.ComposerLogger.LogSchemaError | src/lib/logger/composer-logger.ts:101-107 | throws and writes nothing exactly when no raw response is given; otherwise one error line with `SCHEMA_VALIDATION` and the raw-response length |
| ComposerLogger.ComposerLogger.LogModelConfig | src/lib/logger/composer-logger.ts:112-117 | one debug line with model and config |
| UtilsLogger.LogData | src/utils/logger.ts:130-135 | the pino object has category and context, and `data` exactly when the data is truthy, and no other key |
| UtilsLogger.ErrorPayload | src/utils/logger.ts:108-113 | a non-`Error` passes through unchanged; an `Error` becomes an object |
| UtilsLogger.ErrorPayloadFields | src/utils/logger.ts:108-113 | message, stack and name, followed by the error's own enumerable keys, which win on clashes |
| UtilsLogger.Logger.constructor | src/utils/logger.ts:62-69 | category defaults to general; the context is a copy of the initial one, or empty |
| UtilsLogger.Logger.SetContext | src/utils/logger.ts:72-74 | supplied keys override, the others are kept |
| UtilsLogger.Logger.SetCategory | src/utils/logger.ts:77-79 | only the category changes |
| UtilsLogger.Logger.Child | src/utils/logger.ts:82-88 | a fresh logger on the same sink, distinct from the parent, with the merged context and the given or inherited category |
| UtilsLogger.Logger.Log | src/utils/logger.ts:130-138 | exactly one sink entry at the level with the log data |
| UtilsLogger.Logger.LogError | src/utils/logger.ts:107-116 | one error entry with data `{...data, error: payload}` |
| UtilsLogger.Logger.LogFatal | src/utils/logger.ts:118-127 | one fatal entry with data `{...data, error: payload}` |
| UtilsLogger.RequestId | src/utils/logger.ts:143 | the incoming `x-request-id` when non-empty, else the UUID |
| UtilsLogger.HandleRequest | src/utils/logger.ts:141-186 | logs `Request started` then `Request completed` (status, duration) or `Request failed` (error, duration); the outcome is passed on unchanged; a response gets the request id header; the cloned headers get it too |
| ChatLogFeatures.ChunkSampling | src/features/chat/chatLogger.ts:100 | past chunk 1, a chunk is logged exactly when its number is a multiple of 10 |
| ChatLogFeatures.MessagePreview | src/features/chat/chatLogger.ts:31-32 | no preview outside development; in development the first 100 characters, plus `...` only when cut |
| ChatLogFeatures.PreviewBounds | src/features/chat/chatLogger.ts:31-32 | the preview is the content's prefix, at most 103 long, exactly 103 when cut |
| ChatLogFeatures.AdditionalInfo | src/features/chat/chatLogger.ts:76-87 | abort wins over a JSON `TypeError`, which wins over a status; it is empty exactly when none applies |
| ChatLogFeatures.StatusReported | src/features/chat/chatLogger.ts:82-86 | with only a status, the status code is reported and no reason |
| ChatLogFeatures.ApiErrorInfo | src/features/chat/chatLogger.ts:69-73 | the stack is included only outside production |
| ChatLogFeatures.ProductionStackLogged | src/features/chat/chatLogger.ts:69-95 | the built `errorInfo` would hide the stack in production, yet the logged payload is the raw error's, which includes the stack |
| ChatLogFeatures.CorrectedApiErrorData | src/features/chat/chatLogger.ts:69-95 | corrected: the logged error is `errorInfo`, so production carries no stack |
| ChatLogFeatures.UsageField | src/features/chat/chatLogger.ts:55-56 | reading `usage?.x` throws exactly when the response is undefined or null |
| ChatLogFeatures.JsonLength | src/features/chat/chatLogger.ts:40-61 | the length of the JSON text |
| ChatLogFeatures.RequestContextFields | src/features/chat/chatLogger.ts:22-26 | after the merge, chat, user and model id are the given ones and every other key is kept |
| ChatLogFeatures.ResponseContextFields | src/features/chat/chatLogger.ts:53-57 | after the merge, latency and the two token counts are the response's and every other key is kept |
| ChatLogFeatures.ChatLogger.constructor | src/features/chat/chatLogger.ts:16-18 | chat category with a copy of the initial context |
| ChatLogFeatures.ChatLogger.LogRequestInitiated | src/features/chat/chatLogger.ts:21-34 | the context becomes the merge with the ids; one info entry carries length and preview |
| ChatLogFeatures.ChatLogger.LogApiRequest | src/features/chat/chatLogger.ts:37-49 | throws exactly for undefined or null request data, logging nothing; otherwise one debug entry with endpoint, JSON size and request metadata |
| ChatLogFeatures.ChatLogger.LogApiResponse | src/features/chat/chatLogger.ts:52-64 | throws exactly for undefined or null response data, changing nothing; otherwise the context takes latency and token counts, and one debug entry is written |
| ChatLogFeatures.ChatLogger.LogApiError | src/features/chat/chatLogger.ts:67-96 | one error entry whose data is the additional info, the request summary and the raw error payload |
| ChatLogFeatures.ChatLogger.LogStreamChunk | src/features/chat/chatLogger.ts:99-103 | a trace entry only for sampled chunks |
| ChatLogFeatures.ChatLogger.LogStreamComplete | src/features/chat/chatLogger.ts:106-111 | one info entry with the chunk count and `<n>ms` |
| ChatLogFeatures.ChatLogger.LogStreamError | src/features/chat/chatLogger.ts:114-116 | one error entry with the error payload |
| LogConfig.EnvName | src/lib/logger/config.ts:77 | the environment name, or `development` when missing or empty |
| LogConfig.LoggingConfig | src/lib/logger/config.ts:80-85 | sampling and masking come from the named table (development for an unknown name); enabled unless the flag is `false` |
| LogConfig.TableSelection | src/lib/logger/config.ts:28-81 | only the production environment samples, at 25%, and masks the three extra token fields; every other setting, unknown or unset included, samples nothing and masks the five base fields; all mask with `***` |
| LogConfig.LevelSelection | src/lib/logger/config.ts:83 | the level setting wins; otherwise the named table's level; for an unknown name it is `info`, not development's `debug` |
| LogConfig.TableInvariants | src/lib/logger/config.ts:28-73 | sampling only in production; masking always on with `***`; production masks every field development masks; rates at most 100% |
| LogConfig.SelectedMasks | src/lib/logger/config.ts:28-85 | whatever the environment, the chosen config masks with `***`, and samples exactly in production |
| LoggingTables.LoggingConfig | src/config/logging.ts:152-155 | the named table, or development's for a missing or unknown name |
| LoggingTables.UnknownIsDevelopment | src/config/logging.ts:53-155 | an unknown environment gets the development table: debug level, pretty output |
| LoggingTables.TableInvariants | src/config/logging.ts:53-149 | file output exactly when file options exist; remote output and options only in production; sampling only in production; masking always on with `***`; production masks development's fields |
| LoggingTables.SelectedConsistent | src/config/logging.ts:53-155 | the chosen table's outputs agree with their options, and masking is on |
| Middleware.SkipRule | src/middleware.ts:42-61 | skipped exactly for a listed extension (any case), a `/_next/` path or the two health paths |
| Middleware.AssetCaseInsensitive | src/middleware.ts:46 | the extension test ignores case |
| Middleware.UpperCaseImageSkipped | src/middleware.ts:46 | `/logo.PNG` is skipped |
| Middleware.ApiRouteLogged | src/middleware.ts:42-61 | `/api/chat` is not skipped |
| Middleware.HandleMiddleware | src/middleware.ts:5-28 | a skipped path gets a plain response; otherwise the response carries the request id and `request;dur=<n>` |
| SlashCommand.Filter | src/components/tiptap/editor/slash-command.tsx:49-59 | the matching items, all of them with their multiplicities and no others, in their original order |
| SlashCommand.ItemsProperties | src/components/tiptap/editor/slash-command.tsx:44-61 | at most 10 items, in their original order; an empty query gives the first 10; otherwise every item matches the lower-cased query |
| SlashCommand.ItemsMaximal | src/components/tiptap/editor/slash-command.tsx:49-60 | the result is the first 10 matches, so no match is dropped when there are at most 10 |
| SlashCommand.QueryCaseInsensitive | src/components/tiptap/editor/slash-command.tsx:45 | the query's case does not matter |
| SlashCommandList.Navigation | src/components/tiptap/editor/ui/slash-command-list.tsx:26-42 | both keys keep the index in range and wrap at the ends; up and down undo each other |
| SlashCommandList.ScrolledTo | src/components/tiptap/editor/ui/slash-command-list.tsx:65-72 | scroll up to an element above the view, down to one below it, otherwise stay |
| SlashCommandList.ScrolledVisible | src/components/tiptap/editor/ui/slash-command-list.tsx:55-73 | an element no taller than the view is fully visible afterwards |
| SlashCommandList.SlashMenu.constructor | src/components/tiptap/editor/ui/slash-command-list.tsx:13-15 | starts at index 0 with nothing selected |
| SlashCommandList.SlashMenu.ScrollSelectedIntoView | src/components/tiptap/editor/ui/slash-command-list.tsx:55-73 | with an element at the index, the list scrolls as `ScrolledTo` says; without one nothing moves |
| SlashCommandList.SlashMenu.OnKeyDown | src/components/tiptap/editor/ui/slash-command-list.tsx:18-47 | default is prevented exactly for navigation keys; arrows move the index with wrap and scroll to it; Enter on an existing item selects its command; other keys change nothing |
| SlashCommandList.SlashMenu.SetItems | src/components/tiptap/editor/ui/slash-command-list.tsx:79-81 | new items reset the index to 0 |
| SlashCommandList.HandleSlashCommandNavigation | src/components/tiptap/editor/ui/slash-command-list.tsx:115-122 | handled exactly for a navigation key while the menu is open |

## Left out

- Strings are sequences of code points. JavaScript's UTF-16 lengths and substrings differ for characters outside the Basic Multilingual Plane.
- `toLowerCase`/`toUpperCase` are modelled on ASCII letters only.
- JavaScript objects are insertion-ordered member lists. The reordering of integer-like keys is not modelled.
- Inherited and prototype properties are not modelled: `in` and property reads look at own keys only.
- Floating point is not modelled. Progress percentages are exact rationals or NaN. Sampling rates are whole percentages (25 for `0.25`). `tokensPerSecond` is not computed. `duration.toFixed(2)` text is a parameter.
- A JavaScript `length` that is not a number (an object with a `length` key) is not modelled. A non-numeric `stepCount` in the context counts as 0.
- `Date.now`, `performance.now`, `crypto.randomUUID` and `Math.random` are parameters. Intervals and timeouts become explicit transition calls, with a `now` argument.
- Concurrency and interleaving of promises are not modelled. The superseded-request guard is modelled on one explicit interleaving.
- The edge logger's context never reaches the console: `log` builds `logData` with it and then writes only the formatted line and the data. The model writes the same, so `setContext`, `extendContext` and `child` change what a logger holds but not what it prints.
- Console and pino output text is not modelled: the line layout, the `stackPreview`, the 2-space indentation of the serialised data and the pino base fields. Pino's own level filter is not modelled either: every call of the pino logger is recorded in the sink.
- The console and report side effects of the three classifiers are not modelled. This covers the `console.error` calls, the `streamLogger.error` call in `handleStreamError`, the POST to `/api/log-client-error` (reduced to the `ReportedToServer` predicate), and the `chatLogger.error` calls and system-context payload in `handleChatError`.
- `safeStringify`'s catch branch (`[Error serializing object]`) is not modelled, because values in this model are always serialisable.
- The model answers given to the notes tool and the embeddings vectors are parameters; `generateText`, `embedMany` and the prompt texts are not modelled.
- The loggers' `extends` relation is modelled as composition: each subclass logger holds its base `Logger`.
- Methods of `src/lib/logger/chat-logger.ts` that only compose the ones above are not modelled: `logToolExecution`, `logToolResult`, `logStreamStart`, `logStreamComplete` and `logModelValidationError`.
- `createClientLogger` in `src/features/chat/chatLogger.ts` is not modelled: it is console output plus a fetch.
- The trace/debug/info/warn wrappers of both loggers are the `Log` method at that level.
- The middleware's `config.matcher` is not modelled.
- `UtilsLogger.HandleRequest`: the request headers cloned at src/utils/logger.ts:147-150 are never attached to anything in the source. The model returns them as `forwarded`.
- The slash menu's `render`, popup and Escape callbacks are not modelled. The `slashItems` list comes from `ui/slash-items`, which is not part of this model; the list is a parameter.
- The list element's children are not tied to the rendered items.
- React's double invocation of state updaters in development is not modelled.
- `ChatUi.ChatPanel.SubmitComposer`: a failed composer request leaves `isLoadingComposer` on, as the source does. This is modelled but not claimed as a finding.
- The whiteboard screenshot (`getTlDrawCanvasScreenshot`) is a parameter.
- `ChatUi.IntermediatePatch`: the file search's `topMatchScore: 0.85` is left out of its intermediate results, because numbers in this model are whole.
- `ChatUi.ToolLabel` shows the label only for args that are present. Reading a field of undefined or null args throws in the source, and the model returns no label for them.

## Findings

| source | as written | input that shows it | evidently intended | confidence | as-written member | corrected member |
|---|---|---|---|---|---|---|
| src/lib/logger/composer-logger.ts:101-107 | a non-string raw response is measured with `JSON.stringify(rawResponse).length` | `logSchemaError(err)` without a raw response: `JSON.stringify(undefined)` is `undefined`, and `.length` throws | the optional parameter logs a length of 0 | low; the only caller in the repository passes a value. Not executed | ComposerLogger.RawResponseLengthAsWritten, ComposerLogger.MissingRawResponseThrows | ComposerLogger.RawResponseLength, ComposerLogger.SchemaDataCorrected |
| src/hooks/use-tool-progress.ts:43-55 with src/components/chat/chat-ui.tsx:81-84 | the estimate is read straight from the table | a tool call without `toolName` is tracked as `unknown`, which has no entry, so the percentage is NaN | fall back to the `none` estimate | medium. Not executed | ToolProgress.TickPercentAsWritten, ToolProgress.UnknownToolProgress | ToolProgress.EstimateFor, ToolProgress.CorrectedTickWellFormed |
| src/components/chat/chat-ui.tsx:62-71, 167-181 | `setActiveTool` is called just before `handleSubmit`, which sends the body built at render time | `@whiteboard` typed while the tool is `none`: the request says `none` and carries no image | the mentioned tool is used for this very message | medium. Not executed | ChatUi.WhiteboardMentionSentWithPreviousTool | ChatUi.RoutedChatBody |
| src/components/chat/chat-ui.tsx:196-203 | the composer request carries messages, editor content and prompt, but no `model` | any composer turn: the route answers 400 `{error: 'Invalid model'}`, and the handler clears the suggestions and appends an assistant message with no content | the request names the selected model, as the chat request does | high. Not executed | ChatUi.ComposerRequestLacksModel | ChatUi.ComposerBodyWithModel |
| src/types.ts:109-129 | the `message.parts` check sits inside the object-content branch | an assistant message with string content and a tool-call part: `hasToolCall` says false while `getToolCallFromMessage` finds the call | `hasToolCall` agrees with `getToolCallFromMessage` | low; `hasToolCall` has no caller in the repository. Not executed | Types.StringContentMissesParts | Types.HasToolCallCorrected, Types.CorrectedAgrees |
| src/features/chat/chatLogger.ts:69-73, 89 | `errorInfo` is built to hide the stack in production but never used; the raw `error` is logged | `logApiError(e)` with `NODE_ENV=production` and `e.stack` set: the stack is logged | log `errorInfo`, so production carries no stack | medium. Not executed | ChatLogFeatures.ProductionStackLogged | ChatLogFeatures.CorrectedApiErrorData |
