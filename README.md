# A verified model of the core types of a Go LLM client library

This project models, in Dafny, the shared types of a Go library for talking to
large-language-model providers: chat requests and responses, messages and their
multi-modal content, embeddings, token limits and budgets, usage counters, provider
and validation errors, the string enumerations (roles, finish reasons, providers, ...),
the accumulation of streamed chat chunks into a complete response, and the
callback-based stream handlers (plain callbacks, chains and filters).

One module per Go file:

- `wrappers.dfy`: `Option`, which stands for Go's nil.
- `common.dfy`: the enumerations (`pkg/types/common.go`).
- `errors.dfy`: provider and validation errors and the `Is*Error` classifiers (`pkg/types/error.go`).
- `metadata.dfy`: `Usage` and `ModelInfo` (`pkg/types/metadata.go`).
- `token.dfy`: `TokenLimit` and `TokenBudget` (`pkg/types/token.go`).
- `messages.dfy`: `Content` and its renderings (`pkg/types/message.go`).
- `chat.dfy`: `ChatRequest` and `ChatResponse` (`pkg/types/chat.go`).
- `embeddings.dfy`: embedding requests and responses (`pkg/types/embedding.go`).
- `stream.dfy`: chunks, `StreamError`, and `StreamAccumulator` (`pkg/types/stream.go`).
- `handlers.dfy`: `StreamHandlerFunc`, `ChainedStreamHandler` and `StreamFilter` (`pkg/interfaces/stream.go`).

Modelling choices:

- **Enumerations.** Go's string-based enumerations are synonyms of `string`. `IsValid` is
  membership in the set of declared constants.
- **Interface values.** Go interface values become datatypes with one constructor per
  implementation the code distinguishes: `Content`, `error`, embedding `Input` and vectors,
  and `StreamChunk`. A nil reference is `None`.
- **Objects updated in place.** These are classes: `Usage`, `TokenBudget`, `ChatRequest`,
  `EmbeddingRequest` and `StreamAccumulator`. Their methods state the whole new state.
- **Loops.** Each Go loop is a Dafny loop, proved against a specification function.
  Examples are `MultiString` against `JoinParts` and `StreamAccumulator.Add` against `Step`.
  The properties the library promises are then proved about those functions.
- **The stream accumulator.** It keeps its per-choice and per-tool-call records as values in
  maps, and `Add` replaces them. `ToChatResponse` visits the map keys in an unspecified
  order, as Go's map iteration does. It returns that order as ghost output, so its contract
  does not depend on it.
- **Stream handlers.** A user callback is known only by what it does, from outside. An
  invocation is recorded as an `Event` in a `Dispatcher`'s trace. The error it returns is
  given by a `Replies` function of the handler and the call. `Deliver` and `Notify` specify
  the resulting error and trace.
- **Integers and floats.** Go's `int` and `int64` are unbounded integers. `float64` values
  (temperatures, vector elements) are of type `real`. They are stored and copied, never
  computed with.

Where the code and its comments disagree, the model follows the code.
`ChainedStreamHandler`'s comment says that OnError is called on all handlers once one
handler fails. `OnChunk` and `OnComplete` do no such thing: they return the first error
and call no OnError (pkg/interfaces/stream.go:263-280).

## Model

| member | source | states |
|---|---|---|
| Common.RoleString | pkg/types/common.go:24-26 | Role.String returns the underlying string unchanged |
| Common.RoleIsValid | pkg/types/common.go:29-36 | valid exactly for user, assistant, system, tool and function |
| Common.ContentTypeString | pkg/types/common.go:62-64 | ContentType.String returns the underlying string unchanged |
| Common.ContentTypeIsValid | pkg/types/common.go:67-75 | valid exactly for the six declared content types |
| Common.FinishReasonString | pkg/types/common.go:104-106 | FinishReason.String returns the underlying string unchanged |
| Common.FinishReasonIsValid | pkg/types/common.go:109-118 | valid exactly for the seven declared reasons, "null" included; "" is rejected |
| Common.ModelCapabilityString | pkg/types/common.go:156-158 | ModelCapability.String returns the underlying string unchanged |
| Common.ProviderString | pkg/types/common.go:190-192 | Provider.String returns the underlying string unchanged |
| Common.ProviderIsValid | pkg/types/common.go:195-204 | valid exactly for the eight declared providers |
| Common.ImageDetailString | pkg/types/common.go:221-223 | ImageDetail.String returns the underlying string unchanged |
| Common.ToolChoiceString | pkg/types/function.go:31-33 | ToolChoice.String returns the underlying string unchanged |
| Common.DeclaredConstantsAreDistinct | pkg/types/common.go:6-36 | the declared constants are pairwise distinct (5 roles, 6 content types, 7 finish reasons, 8 providers) and none of the validators accepts "" |
| Errors.ErrorTypeString | pkg/types/error.go:44-46 | ErrorType.String returns the underlying string unchanged |
| Errors.ProviderError.Error | pkg/types/error.go:97-102 | the text starts with "type: message"; it is exactly that iff the code is empty, and otherwise continues with " (code: X)" |
| Errors.AccessorsReturnFields | pkg/types/error.go:105-132 | Type, Code, StatusCode, Provider, Retryable and Unwrap return their fields unchanged |
| Errors.NewProviderError | pkg/types/error.go:135-140 | type and message as given; empty code, zero HTTP status, no provider, not retryable, no inner error |
| Errors.NewProviderErrorWithCode | pkg/types/error.go:143-149 | NewProviderError with only the code set as well |
| Errors.ProviderErrorAccessors | pkg/types/error.go:97-149 | a constructed error's Type and Code return what was given; its text has the two formats by code |
| Errors.ProviderErrorTextIsAmbiguous | pkg/types/error.go:97-102 | for any non-empty code c, a code-less error whose message ends in " (code: c)" prints exactly like a different error carrying code c |
| Errors.ValidationError.Error | pkg/types/error.go:164-169 | the field is named in quotes iff it is non-empty; both exact formats |
| Errors.NewValidationError | pkg/types/error.go:172-177 | field and message as given |
| Errors.ProviderError.View | pkg/types/error.go:48-67 | a provider error's AIError methods report its type, code, status, provider and retry flag |
| Errors.ErrorText | pkg/types/error.go:48-51 | err.Error() of every implementation: a provider error's text starts with its "type: message" headline, a validation error's with "validation error", any other error gives its own text |
| Errors.AsAIError | pkg/types/error.go:182-186 | the type assertion succeeds exactly for a non-nil AIError (a provider error or any other implementation) and yields what its methods report |
| Errors.IsRateLimitError | pkg/types/error.go:182-187 | true iff the error is an AIError whose Type() is rate_limit_error |
| Errors.IsAuthError | pkg/types/error.go:190-195 | true iff the error is an AIError whose Type() is authentication_error |
| Errors.IsInvalidRequestError | pkg/types/error.go:198-203 | true iff the error is an AIError whose Type() is invalid_request_error |
| Errors.IsServerError | pkg/types/error.go:206-211 | true iff the error is an AIError whose Type() is server_error |
| Errors.IsTimeoutError | pkg/types/error.go:214-219 | true iff the error is an AIError whose Type() is timeout_error |
| Errors.IsRetryable | pkg/types/error.go:222-227 | the Retryable() flag of an AIError; false for nil, for validation errors and for every other error |
| Errors.OtherAIErrorsAreClassified | pkg/types/error.go:182-227 | an AIError implementation other than ProviderError is classified and judged retryable by what its Type() and Retryable() report |
| Errors.AtMostOneKind | pkg/types/error.go:182-219 | at most one classifier holds for any error, and none holds for a non-AIError |
| Metadata.Usage.constructor | pkg/types/metadata.go:6-23 | `&Usage{}` has all five counters zero |
| Metadata.Usage.Add | pkg/types/metadata.go:26-35 | nil leaves the counters unchanged; otherwise each counter grows by the argument's counter, read before the update |
| Metadata.PlusZero | pkg/types/metadata.go:30-34 | adding zero counters changes nothing |
| Metadata.PlusOrderIrrelevant | pkg/types/metadata.go:30-34 | adding a then b gives the same counters as b then a, and as adding their sum |
| Metadata.HasCapability | pkg/types/metadata.go:132-139 | the search finds the capability iff it occurs in the list |
| Token.TokenLimit.CanAccommodate | pkg/types/token.go:50-69 | true iff every positive limit holds: prompt+completion within MaxTokens, prompt within MaxInputTokens, completion within MaxOutputTokens |
| Token.TokenLimit.AvailableOutputTokens | pkg/types/token.go:73-92 | never negative; at most max(0, MaxTokens - prompt) when MaxTokens > 0; at most MaxOutputTokens when that is positive |
| Token.UnlimitedAccommodatesAll | pkg/types/token.go:50-69 | a limit with all fields zero accepts any counts |
| Token.AccommodateIsMonotone | pkg/types/token.go:50-69 | asking for fewer tokens keeps a request accepted |
| Token.AvailableOutputFits | pkg/types/token.go:50-92 | the prompt with the available output is accepted iff the prompt alone is |
| Token.AvailableOutputIsMaximal | pkg/types/token.go:50-92 | with a positive total or output limit and non-negative counts, every accepted completion size is at most the available output |
| Token.NoLimitsLeaveNoOutput | pkg/types/token.go:73-92 | with no limits at all the available output is 0 although every completion is accepted |
| Token.RemainingOf | pkg/types/token.go:183-189 | never negative, and either 0 or total - used - reserved |
| Token.UseLowersRemaining | pkg/types/token.go:183-203 | a successful use of t >= 0 tokens lowers the remaining budget by exactly t |
| Token.TokenBudget.constructor | pkg/types/token.go:175-180 | NewTokenBudget keeps the total and the reserve, with nothing used |
| Token.TokenBudget.Remaining | pkg/types/token.go:183-189 | max(0, total - used - reserved) |
| Token.TokenBudget.CanUse | pkg/types/token.go:192-194 | true iff the tokens fit in the remaining budget |
| Token.TokenBudget.Use | pkg/types/token.go:197-203 | succeeds iff CanUse held before; Used grows by exactly the tokens on success and is unchanged otherwise; total and reserve never change; Remaining drops by t for t >= 0 |
| Token.TokenBudget.Reset | pkg/types/token.go:206-208 | Used becomes 0; nothing else changes |
| Token.TokenBudget.AvailableForPrompt | pkg/types/token.go:211-213 | equals Remaining |
| Token.TokenBudget.AvailableForOutput | pkg/types/token.go:216-218 | equals the output reserve |
| Messages.NewTextContent | pkg/types/message.go:115-117 | a text content holding the text |
| Messages.ImageString | pkg/types/message.go:140-145 | "[Image: " + URL + "]" for a non-empty URL, otherwise the base64 placeholder between the same brackets |
| Messages.AudioString | pkg/types/message.go:185-193 | the transcript first, then the URL, then the base64 placeholder, each between "[Audio: " and "]" |
| Messages.MultiString | pkg/types/message.go:224-248 | the rendering loop computes JoinParts |
| Messages.ContentString | pkg/types/message.go:110-248 | Content.String: text verbatim, images and audio through their tagged renderings, multi-part content as its parts' renderings joined by single spaces |
| Messages.ContentTypeOf | pkg/types/message.go:105-107 | always a valid content type; text for text and multi-part content, image for images, audio for audio |
| Messages.TextRendersVerbatim | pkg/types/message.go:105-112 | a text content renders as its text, with type text |
| Messages.JoinPartsIsSpaceJoin | pkg/types/message.go:224-248 | the multi-part rendering is the parts' own renderings joined by single spaces |
| Messages.JoinPartsLength | pkg/types/message.go:226-229 | exactly one separator per gap: the length is the parts' lengths plus one less than their number |
| Messages.EmptyPartsStillSeparated | pkg/types/message.go:226-246 | parts of unlisted types render as "" but keep their separators |
| Messages.NewTextPart | pkg/types/message.go:256-261 | a text part holding the text |
| Messages.NewImagePart | pkg/types/message.go:264-275 | an image_url part holding URL and detail |
| Messages.NewAudioPart | pkg/types/message.go:278-283 | an audio part holding the (possibly nil) audio |
| Messages.PartRenderings | pkg/types/message.go:230-244 | constructed parts render as their text, "[Image: url]" (no placeholder for an empty URL) and the audio rendering; nil image and audio render as "[Image]" and "[Audio]" |
| Messages.SmallMultiContents | pkg/types/message.go:224-248 | zero parts render as ""; one text part renders as its text |
| Chat.ChatResponse.GetFirstMessage | pkg/types/chat.go:153-158 | nil without choices, otherwise the first choice's message |
| Chat.ChatResponse.GetFirstContent | pkg/types/chat.go:161-166 | "" without a first message or content, otherwise the content's rendering |
| Chat.ChatResponse.HasToolCalls | pkg/types/chat.go:169-174 | true iff GetToolCalls is non-empty |
| Chat.ChatResponse.GetToolCalls | pkg/types/chat.go:177-182 | the first message's tool calls, none without a first message |
| Chat.ChatRequest.constructor | pkg/types/chat.go:187-192 | NewChatRequest sets model and messages; every other field has its zero value |
| Chat.ChatRequest.WithTemperature | pkg/types/chat.go:195-198 | only the temperature changes, in place; the receiver is returned |
| Chat.ChatRequest.WithMaxTokens | pkg/types/chat.go:201-204 | only MaxTokens changes, in place; the receiver is returned |
| Chat.ChatRequest.WithStream | pkg/types/chat.go:207-210 | only Stream changes, in place; the receiver is returned |
| Chat.ChatRequest.WithTools | pkg/types/chat.go:213-216 | only Tools changes, in place; the receiver is returned |
| Chat.ChatRequest.WithToolChoice | pkg/types/chat.go:219-222 | only ToolChoice changes, to the choice's string; the receiver is returned |
| Chat.ChatRequest.WithResponseFormat | pkg/types/chat.go:225-228 | only ResponseFormat changes, in place; the receiver is returned |
| Chat.ChatRequest.AddMessage | pkg/types/chat.go:231-234 | the message is appended at the end; earlier messages and every other field are unchanged |
| Embeddings.GetInputAsString | pkg/types/embedding.go:136-141 | the input when it is a string, "" otherwise |
| Embeddings.GetInputAsStrings | pkg/types/embedding.go:145-162 | the loop computes InputAsStrings: [s] for a string, the slice itself for a non-nil []string, the strings of a []interface{}, nil otherwise (a nil []string included) |
| Embeddings.InputAsStringsCases | pkg/types/embedding.go:136-161 | [s] for a string; a non-nil slice unchanged; nil exactly for a nil []string and for other inputs; GetInputAsString is "" unless the input is a string |
| Embeddings.StringsOfAppend | pkg/types/embedding.go:151-158 | keeping the strings distributes over concatenation, so their order is kept |
| Embeddings.StringsOfContents | pkg/types/embedding.go:151-158 | no longer than the list, and holding exactly the list's strings |
| Embeddings.StringsOfAllStrings | pkg/types/embedding.go:151-158 | a list of nothing but strings converts element for element |
| Embeddings.FloatForm | pkg/types/embedding.go:63-79 | a non-nil []float64 unchanged; a []interface{} to the same length with non-floats as 0; nil for a nil []float64 and for other forms |
| Embeddings.AsFloatVector | pkg/types/embedding.go:63-79 | the slot-filling loop computes FloatForm |
| Embeddings.AsBase64 | pkg/types/embedding.go:83-88 | the string iff the embedding is a string, "" otherwise |
| Embeddings.GetFirstEmbedding | pkg/types/embedding.go:165-170 | nil iff Data is empty, otherwise Data[0] |
| Embeddings.GetFirstVector | pkg/types/embedding.go:173-178 | nil without data, otherwise the first embedding's float form |
| Embeddings.GetAllVectors | pkg/types/embedding.go:181-189 | the loop computes AllVectors, the non-nil float forms in Data order |
| Embeddings.AllVectorsAppend | pkg/types/embedding.go:181-189 | the filtering distributes over concatenation, so Data order is kept |
| Embeddings.AllVectorsBounded | pkg/types/embedding.go:181-189 | at most len(Data) vectors, each the float form of some embedding |
| Embeddings.NilVectorsAreDropped | pkg/types/embedding.go:181-189 | an embedding holding a nil []float64 has no float form and is skipped by GetAllVectors, while an empty non-nil slice is kept |
| Embeddings.AllVectorsKeepsFloatData | pkg/types/embedding.go:181-189 | when every embedding has a float form, none is dropped and the order is Data's |
| Embeddings.EmbeddingRequest.constructor | pkg/types/embedding.go:93-98 | model and input as given, other fields zero |
| Embeddings.EmbeddingRequest.FromString | pkg/types/embedding.go:101-106 | the input is the string |
| Embeddings.EmbeddingRequest.FromStrings | pkg/types/embedding.go:109-114 | the input is the string slice, and a nil slice is stored as a typed nil, so GetInputAsStrings gives back exactly the slice passed (nil included) |
| Embeddings.EmbeddingRequest.WithEncodingFormat | pkg/types/embedding.go:117-120 | only the encoding format changes; the receiver is returned |
| Embeddings.EmbeddingRequest.WithDimensions | pkg/types/embedding.go:123-126 | only the dimensions change; the receiver is returned |
| Embeddings.EmbeddingRequest.WithUser | pkg/types/embedding.go:129-132 | only the user changes; the receiver is returned |
| Stream.IsComplete | pkg/types/stream.go:58-69 | false without choices; true iff some choice has a finish reason that is neither "" nor "null" |
| Stream.ChatStreamChunk.GetFirstDelta | pkg/types/stream.go:72-77 | nil without choices, otherwise the first choice's delta |
| Stream.ChatStreamChunk.GetFirstContent | pkg/types/stream.go:80-85 | the first delta's content, "" without one |
| Stream.StreamError.Error | pkg/types/stream.go:167-172 | the text starts with "type: message"; it is exactly that iff the code is empty, and otherwise continues with " (code)" |
| Stream.StreamAccumulator.constructor | pkg/types/stream.go:232-236 | NewStreamAccumulator: empty choice map, zero header fields, nil usage; every record under its own index |
| Stream.StreamAccumulator.Add | pkg/types/stream.go:239-310 | the new state is Step of the old state and the chunk; chunks of other implementations change nothing; every record stays under its own index |
| Stream.AccumulateChoices | pkg/types/stream.go:253-308 | the choice loop computes ApplyChoices: choices with a delta merged in order, nil deltas skipped |
| Stream.AccumulateToolCalls | pkg/types/stream.go:279-302 | the tool-call loop computes ApplyToolDeltas |
| Stream.MergeChoice | pkg/types/stream.go:266-307 | the update of one choice record by a stream choice with a delta computes MergeChoiceDelta |
| Stream.MergeTool | pkg/types/stream.go:286-301 | the update of one tool-call record by a delta computes MergeToolDelta |
| Stream.MapOrder | pkg/types/stream.go:315 | a `range` over a map visits every key exactly once, in an unspecified order |
| Stream.ConvertChoices | pkg/types/stream.go:314-343 | one Choice per accumulated index, each built from its record, in the order the keys are visited |
| Stream.ConvertChoice | pkg/types/stream.go:316-342 | the Choice built from one record: its tool calls are converted only when there are some |
| Stream.StreamAccumulator.ToChatResponse | pkg/types/stream.go:313-354 | object "chat.completion"; header and usage copied; exactly one choice per accumulated index, in an unspecified order; each built from its record |
| Stream.ConvertToolCalls | pkg/types/stream.go:323-335 | one tool call per accumulated tool call, in an unspecified order |
| Stream.ToChoiceShape | pkg/types/stream.go:316-342 | a converted choice keeps index, role and finish reason, has the content as text, and has exactly as many tool calls as were accumulated (none when none were) |
| Stream.ApplyChoicesAt | pkg/types/stream.go:253-266 | index i exists afterwards iff it existed or some choice with a non-nil delta names it; a nil-delta choice creates nothing and records no finish reason |
| Stream.FoldChoiceFields | pkg/types/stream.go:268-307 | content is the old content followed by the delta contents; role is the last non-empty role; finish reason the last that is neither "" nor "null"; tool deltas applied in order |
| Stream.StreamChoiceAt | pkg/types/stream.go:239-310 | over any sequence of chunks, per choice index: presence, content concatenated in chunk order, last non-empty role, last real finish reason, all tool deltas in order |
| Stream.ApplyToolDeltasAt | pkg/types/stream.go:279-286 | tool index j exists afterwards iff it existed or some delta names it; its record is the fold of those deltas |
| Stream.FoldToolFields | pkg/types/stream.go:286-301 | ID, type and function name are the last non-empty values; arguments are the old ones followed by every fragment |
| Stream.ToolCallAt | pkg/types/stream.go:279-301 | per tool index: presence, concatenated arguments, last non-empty ID, type and name |
| Stream.StepsChoices | pkg/types/stream.go:253-308 | across chunks the choice map is all chat chunks' choices applied in order |
| Stream.UsageAfterTotal | pkg/types/stream.go:246-251 | the usage fold is unchanged until some usage arrives, and then the old usage (zero if nil) plus the sum of all arrived usages |
| Stream.StepsUsage | pkg/types/stream.go:246-251 | usage stays as it was until a chunk carries usage; then it is the old usage (zero if nil) plus the sum of all chunk usages |
| Stream.StreamUsage | pkg/types/stream.go:246-251 | from a new accumulator, usage is nil iff no chunk carried usage, and otherwise the field-wise sum |
| Stream.StepsHeader | pkg/types/stream.go:241-244 | ID, model, created and fingerprint are the last chat chunk's values, even when empty |
| Stream.StepKeepsWellKeyed | pkg/types/stream.go:258-286 | Add keeps every choice and tool-call record under its own index |
| Handlers.Deliver | pkg/interfaces/stream.go:119-132 | only the signal's callback is invoked, and any returned error is the reply of the last callback invoked |
| Handlers.DeliverFrom | pkg/interfaces/stream.go:263-280 | the chain loop from handler i invokes only that signal's callbacks; its error is the last invoked callback's reply |
| Handlers.Notify | pkg/interfaces/stream.go:135-139 | OnError invokes only error callbacks, with the error |
| Handlers.NotifyFrom | pkg/interfaces/stream.go:283-287 | the chain's OnError loop invokes only OnError callbacks, every one with the same error |
| Handlers.Dispatcher.Dispatch | pkg/interfaces/stream.go:119-132 | the returned error and the recorded invocations are Deliver's |
| Handlers.Dispatcher.DispatchChain | pkg/interfaces/stream.go:263-280 | the chain loop returns and records what DeliverFrom specifies |
| Handlers.Dispatcher.OnChunk | pkg/interfaces/stream.go:263-270 | OnChunk returns Deliver's error and records its invocations |
| Handlers.Dispatcher.OnComplete | pkg/interfaces/stream.go:273-280 | OnComplete returns Deliver's error and records its invocations |
| Handlers.Dispatcher.OnError | pkg/interfaces/stream.go:283-287 | the recorded invocations are Notify's |
| Handlers.ChainedAllNil | pkg/interfaces/stream.go:263-280 | the chain returns nil iff every handler returns nil, and then all were invoked in order |
| Handlers.ChainedStopsAtFirstError | pkg/interfaces/stream.go:263-280 | the first failing handler's error is returned and no later handler is invoked |
| Handlers.ChainedNotifiesAll | pkg/interfaces/stream.go:283-287 | OnError reaches every handler in order and never stops early |
| Handlers.FilterGates | pkg/interfaces/stream.go:309-324 | a chunk is forwarded iff the predicate accepts it, else nil is returned; completion and errors are always forwarded |
| Handlers.NilCallbacks | pkg/interfaces/stream.go:119-139 | nil callbacks return nil and invoke nothing |

## Left out

- JSON encoding and decoding: `Message.MarshalJSON` and `Message.UnmarshalJSON`, and
  `FunctionCall.ParseArguments` and `GetArgumentsMap`. They rely on the `encoding/json`
  package, which is not part of this model.
- Cost arithmetic: `TokenPricing.CalculateCost` and `EstimateCost` use float64 arithmetic.
  No numeric claim is made about floating-point values; vector elements are opaque.
- `StreamAdapter`: it selects between a channel and context cancellation, which is
  concurrency.
- `pkg/types/config.go`, plus the interface and configuration declarations in
  `pkg/interfaces` other than the stream handlers. They declare data or interfaces only.
- The `JSONSchema` constructors in `pkg/types/function.go`: they build plain data.
- No schema validation or repair loop: the modelled files do not implement one.
- Constructors outside the named core are not modelled: `NewImageContentFromURL`,
  `NewImageContentFromData`, `NewMultiContent`, `NewStreamHandlerFunc`,
  `NewChainedStreamHandler` and `NewStreamFilter`. They only fill a struct; the datatypes'
  own constructors stand for them.
- `GetID`, `GetModel` and `GetChoices` of a chunk are field reads. The datatype's fields
  stand for them.
- Message, response and request metadata, log probabilities, `StreamEvent`, and the
  request fields no modelled operation touches.
- Go's fixed-width integer overflow in `Usage.Add`, `TokenBudget` and the chunk counters:
  integers are unbounded. Counts near 2^63 would wrap in Go but not here.
- Stream.StreamAccumulator.Add: the accumulator's `*Usage` is a value here. The reference
  that `ToChatResponse` shares with the response is therefore not modelled: a later `Add`
  would change an earlier response's usage in Go.
- Stream.StreamAccumulator.ToChatResponse: Go's map iteration order is random. The model
  picks keys in an unspecified order and states each choice's content relative to that
  order, never a fixed order.
- Nil elements inside slices: a nil `*StreamChoice`, `*ToolCallDelta` or `*Choice` panics in
  Go, and so does a nil `*Embedding` reaching `GetAllVectors` (at `emb.AsFloatVector()`).
  Slices of these hold values here, so that case does not arise.
- Embeddings.GetFirstEmbedding: Go returns a nil first `*Embedding` as it is, although `Data`
  is not empty, and `GetFirstVector` then gives nil through its `emb != nil` guard; neither
  panics. `Data` holds values here, so a nil element is not modelled, and the model's
  GetFirstEmbedding is nil only for empty `Data`.
- Stream.StreamAccumulator.Add: a typed nil `*ChatStreamChunk` held in a `StreamChunk`
  passes Go's type assertion and then panics at its first field read. Chunks are values
  here, so that case does not arise.
- Errors.AsAIError: a typed nil `*ProviderError` stored in an `error` passes Go's type
  assertion and then panics in `Type()`. Here a provider error is always a value, so that
  case does not arise.
- Chat.ChatRequest.AddMessage: a `[]Message` is a value here. Go's `append` may write into a
  backing array shared with the slice the caller passed to `NewChatRequest`; that aliasing
  is not modelled. A nil `*Message` passed to `AddMessage` is stored in Go and dereferenced
  later; messages are values here, so it cannot be passed.
- Handlers.Deliver: a callback's reply is a fixed function of the handler and the call.
  Callbacks whose replies depend on earlier calls — state kept across calls — are not
  modelled, and neither are their other side effects besides being invoked.
