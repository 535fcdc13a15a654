# The protocol hub's stateful core

ClawProxyHub answers clients in three dialects (OpenAI chat completions, Anthropic messages, OpenAI
Responses), calls plugins in a fourth, the unified envelope, and reads the same three dialects back
from upstream servers. This project models the parts of it that keep state over a run, and proves
what holds of every run:

- the stream encoders and the upstream parsers, and that a parser undoes the encoder of its dialect;
- the item history of the Responses dialect, and exactly when rendering and parsing it is the identity;
- the recovery loop of one request, with its bound, its single answer and its coherent attempts;
- routing, with its sticky table, weighted choice, turns and ordered choice;
- the scheduler, its cron expressions, and the splitter of plugin log output.

Each part has the shape of the code. Objects that the code updates in place are classes whose methods
update fields; each method is proved equal to a step function on values, and the theorems are about
all runs of these step functions, stated on what goes in and what comes out. Wire events are datatypes
instead of text.

| file | what it models |
|---|---|
| `Envelope.dfy`, `Aggregate.dfy`, `AggregateAnswer.dfy` | envelope events, grouping of tool-call deltas, the non-streaming fold |
| `OpenAI.dfy`, `Anthropic.dfy`, `Responses.dfy` | the encoder and the upstream parser of each dialect |
| `OpenAIRoundTrip.dfy`, `AnthropicRoundTrip.dfy`, `ResponsesRoundTrip.dfy` | parser after encoder |
| `OpenAIClient.dfy`, `AnthropicClient.dfy`, `ResponsesOutput.dfy` | what a client of an encoder gets |
| `OpenAIParser.dfy`, `AnthropicStream.dfy`, `ResponsesStream.dfy`, `ResponsesParser.dfy` | the parsers behind any upstream |
| `AnthropicOverlap.dfy` | when Anthropic blocks overlap |
| `History.dfy`, `HistoryRoundTrip.dfy`, `HistoryInputs.dfy` | request items to messages and back; any input |
| `Accounts.dfy` | account rows: selection, refresh, pauses |
| `Serve.dfy`, `ServeProofs.dfy`, `ServeAnswers.dfy`, `ServePauses.dfy` | one request through the gateway |
| `Choice.dfy`, `Router.dfy`, `RouterProofs.dfy`, `RouterShares.dfy` | routing |
| `ServeRouting.dfy` | a request served by the router itself |
| `CronText.dfy`, `Cron.dfy`, `CronNext.dfy`, `Engine.dfy`, `EngineProofs.dfy`, `EngineTiming.dfy` | scheduling |
| `Stderr.dfy` | plugin log output |
| `Text.dfy`, `Machines.dfy`, `Arith.dfy` | strings, machines that emit, division and intervals |

Words used below: a *run* is one start, any interleaving of content, reasoning and tool deltas, and one
finish whose usage, if any, is non-negative with cached and written tokens within the input. It is *legal*
if moreover its first tool delta carries a name.

Where the code does something else than its own comments or documentation say, the model follows the code:

- A comment in `internal/gateway/anthropic.go:257` says that block indices must not overlap. Only a
  thinking block is closed before text opens; text stays open while tool blocks and later thinking blocks run.
  `BlockDiscipline` states what always holds, `BlocksApart` exactly when blocks do not overlap, and
  `TextThenCallOverlap` shows a run where they do.
- `sdk/responsesup/responsesup.go` calls `ChatBody` the inverse of the gateway's parser. `RoundTripIdentity`
  gives the exact condition on the history, and `ParseRendered` what comes back otherwise; `EmptyTextComesBackRaw`
  shows a history that does not.
- The streaming and the non-streaming Responses output differ when reasoning comes with text or calls, and when
  all content deltas are empty; `StreamingAgrees` gives the exact condition, `OutputsDiffer` a run.
- A non-streaming attempt that ends in a failure event with code 0 is neither answered, nor logged, nor
  retried (`SilentRequest`). `AnsweredOnce` states that this is the only way to get no answer.
- Nothing in the code keeps a paused account out of the rest of its request but the length of the pause.
  `PausesHoldExactly` gives the exact condition on the times, `ComesBack` a request for any other times.
- A daily rule advances by 24 hours, so on a day of 25 hours its next run may not lie after its firing.
  `DailyIsLater` gives the exact condition, `LongDayRepeats` a rule that is due again at once.

## Model

| member | source | states |
|---|---|---|
| Envelope.Tracker.Resolve | internal/gateway/toolcall.go:23-33 | a delta with an id starts or continues that call, one without continues the last call, and no call ever has an empty id; the name stays empty exactly while no delta has carried one |
| Envelope.ToolCallTracker.Resolve | internal/gateway/toolcall.go:16-33 | the tracker object assigns the id and name that the step on values assigns |
| Envelope.ToolCallTracker.constructor | internal/gateway/toolcall.go:16-20 | no call yet |
| Aggregate.AggregateCore.constructor | internal/gateway/aggregate.go:21-30 | nothing folded yet |
| Aggregate.AggregateCore.Feed | internal/gateway/aggregate.go:33-67 | feeding one event updates text, reasoning, tools, order, finish reason and usage as the fold step does |
| Aggregate.AggregateCore.ToolsInOrder | internal/gateway/aggregate.go:73-81 | lists every call once, in order of first appearance |
| Aggregate.AbsorbAllKeepsValid | internal/gateway/aggregate.go:21-67 | over any events the order lists every known call exactly once, under its own id |
| Aggregate.AbsorbKeepsValid | internal/gateway/aggregate.go:33-67 | one event keeps that |
| Aggregate.AbsorbAllConcat | internal/gateway/aggregate.go:33-67 | folding a stream in two stretches is folding it at once |
| Aggregate.AbsorbSession | internal/gateway/aggregate.go:33-67 | folding a run is folding its deltas, with the model of its start and the reason and usage of its finish |
| AggregateAnswer.AnswerOfRun | internal/gateway/aggregate.go:33-81 | every run folds to its content joined, its reasoning joined, its calls in order of first appearance, each under the name in force then and with its arguments joined, and the model, reason and counts that it names |
| AggregateAnswer.FoldListsCalls | internal/gateway/aggregate.go:42-54 | over any deltas, from any fold, exactly the calls not yet known are added, in order of first appearance |
| AggregateAnswer.FoldGathersArgs | internal/gateway/aggregate.go:42-54 | over any deltas, from any fold, the input of a call grows by the arguments of its deltas |
| OpenAI.SSEState.ConvertEvent | internal/gateway/openai.go:170-221 | the encoder object emits the chunks of the step on values and keeps its state |
| OpenAI.SSEState.constructor | internal/gateway/openai.go:165-167 | a new encoder has handed out no index |
| OpenAI.Parser.constructor | sdk/openaiup/openaiup.go:147-149 | a new parser remembers nothing |
| OpenAI.Parser.FeedToolCall | sdk/openaiup/openaiup.go:212-233 | id and name of a fragment are remembered under its index and filled in from there |
| OpenAI.Parser.FeedToolCalls | sdk/openaiup/openaiup.go:212-233 | fragments of one chunk, in order |
| OpenAI.Parser.FeedOneChoice | sdk/openaiup/openaiup.go:196-241 | reasoning first, then text, then fragments; a reason is kept before the counts of the same chunk, if any, finish with it (pinned by OpenAIParser.ClosingStep) |
| OpenAI.Parser.Feed | sdk/openaiup/openaiup.go:152-245 | the loop over choices and fragments emits the events of the step on values |
| OpenAI.Parser.FinishUsage | sdk/openaiup/openaiup.go:263-300 | at most one finish; counts under several names are reduced to their largest, within the input |
| OpenAI.Parser.Finish | sdk/openaiup/openaiup.go:248-254 | the end of the stream adds a finish only if none was sent |
| OpenAI.Largest | sdk/openaiup/openaiup.go:303-311 | the largest of some counts, or 0 if none is positive |
| OpenAIRoundTrip.UsageSurvives | internal/gateway/openai.go:225-241 | printed and read back, all four token counts are unchanged |
| OpenAIRoundTrip.StepTool | sdk/openaiup/openaiup.go:212-233 | one tool delta comes back with id and first name filled in, and encoder and parser still agree on which index is which call |
| OpenAIRoundTrip.RunDeltas | sdk/openaiup/openaiup.go:196-233 | the same over any deltas, from any agreeing encoder and parser |
| OpenAIRoundTrip.RoundTrip | sdk/openaiup/openaiup.go:152-300 | for every run, what the parser emits for the encoder's chunks is the run's deltas in order, empty text dropped and each tool delta with its call's id and first name, then exactly one finish with the same reason ("stop" if empty) and the same counts |
| OpenAIRoundTrip.RefillFoldsAlike | internal/gateway/aggregate.go:33-67 | dropping empty text and filling in ids and names does not change what the deltas fold to |
| OpenAIRoundTrip.RoundTripAnswer | sdk/openaiup/openaiup.go:152-300 | a non-streaming client behind the parser gets the same text, reasoning, calls, reason and counts as folding the run directly |
| OpenAIClient.ClientGetsAnswer | internal/gateway/openai.go:170-241 | for every run a client that keeps calls by index gets exactly the reasoning, the text and the calls of the fold, each call with id, name and all arguments at the index at which it first appeared, the reason and the counts, and every chunk carries the model of the run |
| OpenAIClient.DeltasGathered | internal/gateway/openai.go:176-206 | the same over any deltas, from any agreeing encoder, client and fold |
| OpenAIParser.EveryStream | sdk/openaiup/openaiup.go:152-300 | for any chunks from any upstream: the deltas of the choices up to the one that closes the stream, exactly one finish with the last reason that these gave ("stop" if none) and the first counts, then the deltas of the rest; the stream is closed, in the first chunk with counts, by the choice that gives a reason or else by its end, and without counts by the end of the stream; the deltas of a choice are its reasoning, its text and its fragments, each under the last id and name given for its index |
| OpenAIParser.RunParses | sdk/openaiup/openaiup.go:152-300 | the same from any parser that has not finished and knows the fragments seen so far |
| OpenAIParser.ClosingStep | sdk/openaiup/openaiup.go:196-241 | within the chunk with counts, the first choice that gives a reason finishes with that reason |
| OpenAIParser.OnlyDeltasBetween | sdk/openaiup/openaiup.go:196-233 | that finish is the only event that is not a delta |
| OpenAIParser.CountsMerged | sdk/openaiup/openaiup.go:263-300 | the names that upstreams use for the cached tokens stand for one number, their largest within the input; so do those for the written tokens |
| Anthropic.SSEState.ThinkingText | internal/gateway/anthropic.go:226-241 | opens a thinking block if none is open, and adds the text to it (pinned by AnthropicClient.ClientGetsAnswer) |
| Anthropic.SSEState.ToolDelta | internal/gateway/anthropic.go:277-303 | opens the call's block on its first delta, and passes on only non-empty fragments |
| Anthropic.SSEState.StopTools | internal/gateway/anthropic.go:319-323 | one stop for each tool block, in ascending order |
| Anthropic.SSEState.FinalDelta | internal/gateway/anthropic.go:324-345 | the mapped reason and, if reported, the counts with the cache taken out of the input |
| Anthropic.SSEState.Close | internal/gateway/anthropic.go:305-347 | stops what is open, tool blocks in ascending order, then sends the delta with reason and counts, then the stop |
| Anthropic.SSEState.ConvertEvent | internal/gateway/anthropic.go:245-350 | the encoder object emits the frames of the step on values and keeps its state |
| Anthropic.SSEState.constructor | internal/gateway/anthropic.go:205-210 | a new encoder has no block |
| Anthropic.Parser.constructor | sdk/anthropicup/anthropicup.go:217-219 | a new parser knows no block |
| Anthropic.Parser.Merge | sdk/anthropicup/anthropicup.go:344-357 | of two partial reports each count keeps the larger |
| Anthropic.Parser.Feed | sdk/anthropicup/anthropicup.go:222-308 | the parser object emits the events of the step on values and keeps its state |
| Anthropic.Parser.FinishReason | sdk/anthropicup/anthropicup.go:326-341 | at most one finish, with the mapped reason and the merged counts |
| Anthropic.Parser.Finish | sdk/anthropicup/anthropicup.go:311-317 | the end of the stream adds a finish only if none was sent |
| AnthropicRoundTrip.BlockDiscipline | internal/gateway/anthropic.go:226-347 | over every run blocks start at 0, 1, 2, …, every delta goes to a started, not yet stopped block of its kind, and every block is stopped exactly once before the message stops |
| AnthropicRoundTrip.StopsStep | internal/gateway/anthropic.go:319-323 | stopping live blocks in ascending order stops exactly these |
| AnthropicRoundTrip.DeltaSteps | internal/gateway/anthropic.go:245-303 | over any deltas the encoder's fields account for exactly the live blocks |
| AnthropicRoundTrip.CountsSurvive | internal/gateway/anthropic.go:355-364 | taking the cache counts out of the input and adding them back is the identity on the four counts |
| AnthropicRoundTrip.StopReasonSurvives | internal/gateway/anthropic.go:367-378 | a reason survives both mappings if and only if it is stop, length or tool_calls |
| AnthropicRoundTrip.ToolFold | sdk/anthropicup/anthropicup.go:277-292 | empty fragments are dropped: folding them or not gives the same calls, as far as these have arguments |
| AnthropicRoundTrip.DeltaLinks | sdk/anthropicup/anthropicup.go:266-292 | over any deltas the parser knows each open block's call, and both folds stay linked |
| AnthropicRoundTrip.RoundTrip | sdk/anthropicup/anthropicup.go:222-368 | for every legal run, encode, parse and fold keeps model, text, the calls that got arguments with id, name and full arguments, the reason as far as the dialect can say it, and all four counts |
| AnthropicRoundTrip.NoCallLost | sdk/anthropicup/anthropicup.go:277-292 | no call is lost if and only if every call got some arguments |
| AnthropicOverlap.BlocksApart | internal/gateway/anthropic.go:245-347 | at most one block is live after every frame of a stream if and only if the run is reasoning, then content, without calls, or is a single call and nothing else |
| AnthropicOverlap.ApartIsStaysOne | internal/gateway/anthropic.go:245-303 | over any deltas the frames have at most one live block if and only if the encoder never has two open |
| AnthropicOverlap.FreshOpen | internal/gateway/anthropic.go:251-303 | from a fresh encoder this is decided by the deltas alone |
| AnthropicOverlap.TextThenCallOverlap | internal/gateway/anthropic.go:257 | a concrete legal run, text and then a call, after whose fourth frame two blocks are live |
| AnthropicClient.ClientGetsAnswer | internal/gateway/anthropic.go:226-347 | for every run a client that gathers the frames by block gets the model, exactly the reasoning of the thinking frames and the text of the text frames in order, and every call with id, name and all arguments, in order of first appearance, as the fold has them |
| AnthropicClient.DeltasGathered | internal/gateway/anthropic.go:226-303 | the same over any deltas, from any agreeing encoder, client and fold |
| AnthropicClient.ClientGetsCounts | internal/gateway/anthropic.go:305-378 | the three reasons with a name of their own and end_turn for all others; the output, the cache read and written, and the input without these, none below zero, which for legal counts add up to the input |
| AnthropicStream.EveryStream | sdk/anthropicup/anthropicup.go:222-357 | for any frames from any upstream: starts, text and fragments frame by frame, each fragment under the id and name of the block last started under its index, and exactly one finish, in the place of the first frame that gives a stop reason or stops the message, with its reason mapped and each count the largest reported until then; at the end, without counts, if there is no such frame |
| AnthropicStream.NoFinishBetween | sdk/anthropicup/anthropicup.go:265-308 | nothing else is a finish |
| Responses.SSEState.AddFn | internal/gateway/responses.go:185-197 | a new call gets the next output index and a new item id; a known one only has a missing name filled in |
| Responses.SSEState.CallDelta | internal/gateway/responses.go:262-279 | opens the call's item once and appends the fragment to its arguments |
| Responses.SSEState.Close | internal/gateway/responses.go:280-336 | every open item is done before response.completed, which lists them all |
| Responses.SSEState.ConvertEvent | internal/gateway/responses.go:207-339 | the encoder object emits the frames of the step on values and stays valid |
| Responses.SSEState.constructor | internal/gateway/responses.go:176-182 | a new encoder has no item |
| Responses.Encode | internal/gateway/responses.go:161-339 | every step keeps every listed call an item of its own |
| Responses.EncodeAll | internal/gateway/responses.go:161-339 | so does every run |
| Responses.Parser.constructor | sdk/responsesup/responsesup.go:29-34 | a new parser remembers nothing |
| Responses.Parser.OpenCall | sdk/responsesup/responsesup.go:111-130 | an added function item is remembered under its index and id, and opens the call |
| Responses.Parser.PassArgs | sdk/responsesup/responsesup.go:131-150 | a fragment goes to the call of its index or item, and marks the item |
| Responses.Parser.KeepUsage | sdk/responsesup/responsesup.go:158-172 | the counts of the last report are kept for the finish |
| Responses.ItemNames | internal/gateway/responses.go:185-197 | item ids made from different indices differ, and are never blank |
| Responses.Parser.Feed | sdk/responsesup/responsesup.go:37-187 | the parser object emits the events of the step on values and keeps its state |
| Responses.Parser.ToolArgsDone | sdk/responsesup/responsesup.go:190-201 | full arguments from a done frame are passed on only if none came before |
| Responses.Parser.Finish | sdk/responsesup/responsesup.go:203-222 | a start if there was none, then one finish, unless the stream has ended already |
| Responses.Parser.FinishWithError | sdk/responsesup/responsesup.go:228-236 | one failure, unless the stream has ended already |
| ResponsesRoundTrip.DoneFramesIgnored | sdk/responsesup/responsesup.go:92-201 | the parser drops every argument and item done frame of a call whose arguments it has passed on |
| ResponsesRoundTrip.DeltaLinks | sdk/responsesup/responsesup.go:104-150 | over any deltas the parser knows each item's call, and both folds stay linked |
| ResponsesRoundTrip.RoundTrip | sdk/responsesup/responsesup.go:37-222 | for every run, encode, parse and fold keeps model, text, the calls with order, id, name and full arguments never doubled, and the input, output and cached counts |
| ResponsesOutput.ItemDiscipline | internal/gateway/responses.go:207-336 | over every run each added item has the next output index and its own id, and is done exactly once with the text or arguments that its deltas add up to, and response.completed lists the done items |
| ResponsesOutput.DeltaSteps | internal/gateway/responses.go:207-279 | over any deltas the encoder's fields account for every slot a client has seen |
| ResponsesOutput.SameRun | internal/gateway/responses.go:207-279 | over any deltas of a legal run encoder and fold gather the same texts and calls |
| ResponsesOutput.StreamingAgrees | internal/gateway/responses.go:375-405 | for every legal run the output of response.completed is the non-streaming output, item ids apart, if and only if its deltas are agreeing: content deltas, if any, include one that is not empty, and reasoning deltas come exactly when one of them is not empty and there is neither text nor a call |
| ResponsesOutput.StreamingAgreesOnPlainRuns | internal/gateway/responses.go:375-405 | in particular on every legal run without reasoning and without empty content |
| ResponsesOutput.OutputsDiffer | internal/gateway/responses.go:375-405 | a concrete legal run, reasoning and then text, whose two outputs differ |
| ResponsesOutput.CompletedSays | internal/gateway/responses.go:207-336 | for every legal run the first frame names its model and the last is response.completed with all reasoning and all text that came, every call with name and full arguments in order of first appearance, and the counts with their total |
| ResponsesOutput.EveryItemStamped | internal/gateway/responses.go:207-336 | over any events items are in progress when added and completed when done |
| ResponsesOutput.NamesFilled | internal/gateway/responses.go:185-197 | over any deltas a call ends up with the first name in force at one of its deltas, also if its first delta came without |
| ResponsesStream.EveryStream | sdk/responsesup/responsesup.go:37-222 | for any frames from any upstream, closed when they end: exactly one end, that of the first frame that ends the stream, with "length" if it was cut short, "tool_calls" if a frame before it told of a call and "stop" if none did, and with its counts, or a failure with its message; every piece of text and of a call in order (see CallsRun); and one start, with the first model named |
| ResponsesStream.EndRun | sdk/responsesup/responsesup.go:92-222 | the end, from any parser that has not ended, given which calls it has seen |
| ResponsesStream.WordsRun | sdk/responsesup/responsesup.go:104-110 | the text, from any parser |
| ResponsesStream.StartRun | sdk/responsesup/responsesup.go:92-222 | the start, from any parser |
| ResponsesStream.CallsRun | sdk/responsesup/responsesup.go:111-201 | the calls, from any parser: a function item opens its call, a fragment adds to the call it names or that of its index, and a done frame adds the full arguments exactly if none have come for its item; ids that are missing are replaced by the item id or made from the index |
| ResponsesParser.OneStartOneEnd | sdk/responsesup/responsesup.go:92-236 | over any sequence of Feed, Finish and FinishWithError there is at most one start and at most one terminal event, and a finish comes only after a start |
| ResponsesParser.RunFlags | sdk/responsesup/responsesup.go:92-236 | from any state, starts and ends are emitted exactly when the flags for them are raised |
| ResponsesParser.AllFrames | sdk/responsesup/responsesup.go:92-201 | over any consistent frames each call has been delivered exactly what the upstream has sent of it |
| ResponsesParser.ArgumentsExactlyOnce | sdk/responsesup/responsesup.go:92-201 | from any consistent upstream that completes its calls, a client gets exactly these calls, each with its full arguments once and its name if it has one, whether the arguments came as deltas, in done frames, or both |
| History.ArgsUnchanged | internal/gateway/responses.go:520-533 | arguments pass unchanged if and only if they are trimmed, non-empty, valid JSON; passing twice changes nothing more |
| History.ParseInput | internal/gateway/responses.go:69-120 | the loop over items with its pending assistant message gives the messages of the fold on values |
| History.FlushAssistant | internal/gateway/responses.go:73-81 | the pending text and calls become one assistant message, if there are any |
| History.RenderMessage | sdk/responsesup/responsesup.go:258-292 | the items of one message |
| History.ChatBody | sdk/responsesup/responsesup.go:255-300 | instructions and input of a whole history |
| HistoryRoundTrip.AnyStep | internal/gateway/responses.go:69-120 | reading one rendered message back has the effect that its canonical form describes, from any state |
| HistoryRoundTrip.StepsSeen | internal/gateway/responses.go:69-120 | a history comes back with as many messages as it has if and only if none is dropped or merged |
| HistoryRoundTrip.ParseRendered | internal/gateway/responses.go:69-120 | for every history of text messages, parsing its rendering gives its canonical form |
| HistoryRoundTrip.RoundTripIdentity | sdk/responsesup/responsesup.go:255-292 | a history of text messages comes back unchanged if and only if it is in normal form |
| HistoryRoundTrip.EmptyTextComesBackRaw | sdk/responsesup/responsesup.go:282-291 | a concrete history that does not come back: an empty user text returns as the JSON text of its content block |
| HistoryRoundTrip.CanonFlat | internal/gateway/responses.go:69-120 | for every history with clean text and arguments, dropping and merging messages keeps the order of texts, calls and results behind the instructions, with roles normalized |
| HistoryRoundTrip.OrderKept | internal/gateway/responses.go:69-120 | the same for what comes back from rendering and parsing such a history |
| HistoryInputs.EveryInput | internal/gateway/responses.go:45-120 | for any list of items from any client: the instructions, then a message for every message and output item, an assistant message together with the calls that follow it, and one message for calls that follow none; items of other kinds are skipped |
| HistoryInputs.OtherInputs | internal/gateway/responses.go:56-125 | a text is short for one message of the user, an object for a list of one, an empty text or no input for an empty list; exactly numbers and truth values are refused |
| HistoryInputs.LoopGroups | internal/gateway/responses.go:69-120 | the same for the items left, from any state of the loop |
| HistoryInputs.ArgsAreJson | internal/gateway/responses.go:520-533 | arguments are always JSON: {} for none, the trimmed text if it is JSON, and the trimmed text as a JSON string if it is not |
| HistoryInputs.InstructionsJoin | sdk/responsesup/responsesup.go:256-299 | the instructions of two stretches of a history are those of each, set apart by an empty line |
| HistoryInputs.TextsJoined | internal/gateway/responses.go:485-516 | the texts of content blocks, or of strings, are put on lines of their own |
| Serve.FailureSpec | internal/gateway/output.go:80-125 | what is delivered is the longest prefix without a failure event, and the failure is the event after it |
| Serve.RetryCosts | internal/gateway/server.go:433-453 | every retry lowers max(0, 2 − attempt) plus one if the failover is unused; recovery writes nothing |
| Serve.Request.Take | internal/gateway/server.go:420-428 | account, plugin, group, model, credential and log fields are all replaced from one resolution |
| Serve.Request.SwitchToOther | internal/gateway/server.go:368-383 | the model name is reset and resolved again; only another account counts |
| Serve.Request.RecoverCred | internal/gateway/server.go:386-405 | refresh the account; keep it if that fails for now, switch if its credential is dead |
| Serve.Request.SwitchToFailover | internal/gateway/server.go:408-429 | once per request, for the enabled status classes, if the failover group has an account |
| Serve.Request.PauseAccount | internal/account/service.go:276-286 | an active account is paused, for ten minutes after 429 and for good after 402 |
| Serve.Request.Recover | internal/gateway/server.go:433-453 | which of these steps a status leads to, and in which order |
| Serve.Request.Fail | internal/gateway/server.go:456-462 | one error answer and one log row with its status |
| Serve.Request.StreamEvents | internal/gateway/output.go:80-125 | the events before the first failure are written, then the failure if any, then one log row with status 200 or 502 (pinned by ServeAnswers.EveryStory) |
| Serve.Request.Aggregate | internal/gateway/output.go:130-162 | answers and logs only if no event is a failure |
| Serve.Request.Attempt | internal/gateway/server.go:480-551 | one Chat call and its outcome: over, or in trouble with a status |
| Serve.Request.Run | internal/gateway/server.go:464-552 | the loop ends, and does what the recursion on values does |
| Serve.ServeRequest | internal/gateway/server.go:252-552 | the whole of serve: admission by route, direct account or plugin catalogue, then the loop |
| Serve.Request.constructor | internal/gateway/server.go:327-365 | the variables that the closures share |
| ServeProofs.AdoptReady | internal/gateway/server.go:420-428 | a pick of a usable row makes the next attempt ready |
| ServeProofs.SwitchReady | internal/gateway/server.go:368-383 | a switch makes the next attempt ready, or changes nothing but the model name |
| ServeProofs.FailoverReady | internal/gateway/server.go:408-429 | a failover makes the next attempt ready and uses itself up, or changes nothing |
| ServeProofs.CredentialReady | internal/gateway/server.go:386-405 | repairing the credential makes the next attempt ready, or leaves what the log row will say alone; an account whose refresh is refused with 401 is out of reach |
| ServeProofs.RefreshEffect | internal/account/service.go:130-186 | a refreshed account is the table's current row and usable; a refusal with 401 puts it out of reach |
| ServeProofs.PauseOut | internal/account/service.go:276-286 | pausing the account of an attempt puts it out of reach of every pick from then on if and only if none of these comes after the end of the pause |
| ServeProofs.RecoverReady | internal/gateway/server.go:433-453 | recovery either makes the next attempt ready, with a tuple from one pick and a current credential, or leaves what the log row will say alone |
| ServeProofs.Courses | internal/gateway/server.go:480-552 | from any ready state: the bound, the shape of what is done, and that no account given up is attempted |
| ServeProofs.EveryRequest | internal/gateway/server.go:252-552 | every request is rejected with one answer, or makes one to four attempts, at most one on a failover; each attempt's account, plugin, group and model come from one pick and its credential from the account's current row; an account expired by a refused refresh, or paused past the later picks, is not attempted again; nothing is answered before the last attempt, and the log row is about that attempt and carries the status of the answer |
| ServeProofs.AnsweredOnce | internal/gateway/output.go:80-162 | one answer and one log row unless the last attempt was a non-streaming one broken off with code 0, and neither if it was |
| ServeProofs.NonZeroIsLoud | internal/gateway/output.go:136-157 | with failure codes that are not zero no attempt is silent |
| ServeProofs.ExactlyOneAnswer | internal/gateway/server.go:252-552 | with such codes every request is answered exactly once, and logged exactly once if it was admitted |
| ServeAnswers.EveryStory | internal/gateway/server.go:252-552 | every request, from arrival to answer: refused with the status and type that the route, the key and the catalogue call for, or a first attempt with the account, plugin, group, model and credential of its first resolution; each further attempt is the one that the trouble before it calls for; and when nothing is left to try, one answer that fits the last attempt: the events before the first failure and its message if streaming, all events if whole, else the error with its status, type and message |
| ServeAnswers.ClientGets | internal/gateway/output.go:80-162 | the client gets all events if and only if the last attempt ends with a whole stream; a broken stream is answered with what came before the first failure and its message; and an error is answered if and only if the last attempt was in trouble |
| ServeAnswers.RecoveryFits | internal/gateway/server.go:433-453 | every recovery leads to the attempt that follows, with the account table as it then is, or there is nothing left to try: no renewed credential, no other account, no failover that is open and has an account |
| ServeAnswers.RefreshedFits | internal/gateway/server.go:386-405 | after a refresh the same account, plugin, group and model are tried with the new blob, or the old one if none was sent, dated now; the row is active and has the new blob, date and amount |
| ServeAnswers.SwitchFits | internal/gateway/server.go:368-383 | another account is tried exactly if the router, asked again under the public model name, answers one that is not the same, with what it answers; the account before it has expired, or is paused for ten minutes or a hundred years from now |
| ServeAnswers.FailoverFits | internal/gateway/server.go:408-429 | the failover is tried only if the route opens it for the class of the status and it is unused, and not tried then only if it has no account |
| ServeAnswers.Stories | internal/gateway/server.go:480-552 | the same from any ready state on |
| ServePauses.PausesHoldExactly | internal/gateway/server.go:441-449 | for any times of pauses and picks: an account paused at an attempt by 429 or by 402 stays out of the rest of its request, in every sound surrounding, if and only if no later pick comes after the end of that pause |
| ServePauses.PauseHolds | internal/gateway/server.go:441-449 | one half of it, for one request |
| ServePauses.ComesBack | internal/gateway/server.go:408-429 | the other half: a sound surrounding with any such times in which the paused account is attempted again |
| ServePauses.WalkFrom | internal/gateway/server.go:480-552 | from any attempt of that request on, the paused account comes back |
| ServePauses.SilentRequest | internal/gateway/output.go:136-157 | a concrete non-streaming request, broken off with code 0, that ends with no answer and no log row |
| ServeRouting.RoutedIsSound | internal/router/router.go:150-222 | a request whose resolutions and failovers are made by the router, in any state, has the sound surrounding that the loop needs |
| ServeRouting.ArrivalIsSound | internal/gateway/server.go:266-322 | so has its arrival, by route or directly |
| ServeRouting.RoutedRequest | internal/gateway/server.go:252-552 | every request served by the router itself is answered exactly once after at most four attempts, given failure codes that are not zero |
| Choice.PickGroup | internal/router/router.go:437-459 | the entry whose interval of prefix sums holds the draw is returned, and the return after the loop is never reached |
| Choice.DrawnOnce | internal/router/router.go:437-459 | no draw selects two positions |
| Choice.Position | internal/router/router.go:437-459 | every draw below the total selects a position |
| Choice.ExactShare | internal/router/router.go:437-459 | of all draws exactly max(1, weight) select each position |
| Choice.Fair | internal/router/router.go:291-301 | k times n turns of a route over the same n accounts give each of them exactly k turns, from any counters, however the turns of other routes are interleaved and whatever accounts these have |
| Choice.PicksCycle | internal/router/router.go:291-301 | the accounts one route gets run through its list in order, whatever other routes do in between |
| Choice.OrdersAreStrictWeak | internal/router/router.go:346-354 | the orders used for selection are strict weak orders |
| Choice.PickPreferred | internal/router/direct.go:88-101 | the single pass ends with the first account that none comes before |
| Choice.ScanForemost | internal/router/direct.go:88-101 | for any strict weak order, a single pass ends with the first element that none comes before |
| Choice.SortHeadIsScan | internal/router/router.go:333-342 | for any strict weak order, the head of any stable sort is what a single pass finds |
| Choice.SortStable | internal/router/router.go:333-338 | a stable sort of any list exists, by insertion |
| Choice.SortIsStable | internal/router/router.go:333-338 | sorting by insertion is stable |
| Choice.ByExpiringFirst | internal/router/router.go:315-343 | the head of the stable sort if some credit is about to expire, the least used account if not |
| Choice.OnePassIsSort | internal/router/direct.go:88-101 | both ways of choosing name the same account whenever some credit is about to expire |
| Choice.MostExpiring | internal/router/router.go:315-343 | the account chosen carries as much expiring credit as any |
| Router.AvailableSpec | internal/router/router.go:275-288 | exactly the group's accounts that are active and not within a pause are available |
| Router.Router.SetDefaultStrategy | internal/router/router.go:53-58 | an empty or unknown strategy sets the built-in default |
| Router.Router.constructor | internal/router/router.go:76-83 | an empty table, half an hour to live, cleaned every five minutes |
| Router.Router.ChooseAccount | internal/router/router.go:171-184 | which way of choosing each strategy stands for |
| Router.Router.SetStickyPolicy | internal/router/router.go:86-95 | only positive values replace the policy |
| Router.Router.CleanupSticky | internal/router/router.go:125-137 | deleting entry by entry leaves the unexpired ones, or nothing if they are too many |
| Router.Router.LookupSticky | internal/router/router.go:370-405 | an expired entry is deleted; a hit needs route entry, usable account and membership |
| Router.Router.SaveSticky | internal/router/router.go:407-415 | the entry expires ttl from now, the default if ttl is not positive |
| Router.Router.TakeTurn | internal/router/router.go:291-301 | the route's counter is advanced, then taken modulo the number of accounts |
| Router.Router.ResolveAsk | internal/router/router.go:150-196 | the resolution, the table, the counters and the use marks of the step on values (pinned by RouterShares.GroupShare and AccountChosen) |
| Router.Router.PickFailoverTarget | internal/router/router.go:200-222 | the failover target, without a sticky entry |
| Router.FindDirect | internal/router/direct.go:52-85 | a model that is no route goes to the preferred account among those that declare it, or else among those of the hinted plugin |
| Router.Collect | internal/router/direct.go:58-74 | the loop collects exactly the accounts that qualify, in order |
| RouterProofs.AnswersAreLive | internal/router/router.go:150-196 | whatever the table holds, an answer names a group and model of a route the key may use, the group's plugin, and the current row of an account that is usable and in that group; without an account only if the group has none |
| RouterProofs.FailoverIsLive | internal/router/router.go:200-222 | the failover account is the current row of a usable member of the failover group, and nothing is pinned |
| RouterProofs.DirectIsLive | internal/router/direct.go:52-101 | a direct answer is the current row of a usable account under its plugin; if any usable account declares the model, so does the one answered, and none of those comes before it |
| RouterProofs.ChooseIsLive | internal/router/router.go:280-367 | every way of choosing gives a usable member of the group, and none only if there is none |
| RouterProofs.CleanupSpec | internal/router/router.go:125-137 | after cleanup there are only unexpired entries, at most 4096, and all of them unless these were more |
| RouterProofs.AskTouchesOne | internal/router/router.go:150-196 | a request changes the table at its own fingerprint only, and not at all on a route that is not sticky |
| RouterProofs.NeverRenewed | internal/router/router.go:370-415 | over every run of requests, failovers, cleanups, policies, edits and time, an entry of the table was there from the start, or was saved by a request of its fingerprint that missed and expires one time to live after that: a hit never renews it |
| RouterProofs.RunsShortLived | internal/router/router.go:407-415 | over every run no entry expires later than the longest time to live from now |
| RouterProofs.StepKeepsPin | internal/router/router.go:370-415 | no undisturbing step changes a pin that could be honoured, nor its expiry |
| RouterProofs.RequestsKeepPinsGood | internal/router/router.go:150-222 | requests, failovers, cleanups and policies never make a pin fail; only edits, time and a new default strategy can |
| RouterProofs.QuietIsSteady | internal/router/router.go:150-222 | without edits, a new default strategy, a wipe or another sticky route for the conversation, a pin that is good stays good until it expires |
| RouterProofs.AnswerIsPinned | internal/router/router.go:156-192 | every answer with an account on a sticky route is an unexpired pin or has just become one |
| RouterProofs.AnsweredPinIsGood | internal/router/router.go:156-192 | and that pin is the one answered and can be honoured at once |
| RouterProofs.PinnedAsk | internal/router/router.go:370-405 | a pin that could be honoured is, and the router's state does not change |
| RouterProofs.Sticking | internal/router/router.go:370-415 | over every run in which its pin stays good and undisturbed, through edits too, a conversation gets one account, group and model |
| RouterProofs.SessionsStick | internal/router/router.go:370-415 | a pin that is good now is honoured until it expires, whoever asks for what in the meantime, as long as nobody interferes in these ways |
| RouterProofs.OneAccountPerSession | internal/router/router.go:150-196 | once a request of a conversation has got an account on a sticky route, by a hit or anew, its requests get that account, group and model until the pin expires, as long as nobody interferes |
| RouterShares.GroupShare | internal/router/router.go:150-196 | on a route that is not sticky, or for a conversation without a good pin, the draws below the sum of max(1, weight) for which the request is resolved to a group and a model are exactly as many as the sum of max(1, weight) over the entries for these |
| RouterShares.AnyDraw | internal/router/router.go:437-459 | any other draw counts modulo that sum |
| RouterShares.AccountChosen | internal/router/router.go:150-196 | such a request gets the account its strategy names among the usable ones of its group: the one drawn, the longest unused, the one with the most credit about to expire if there is any, or the next in turn; on a sticky route it is pinned for the lifetime of pins, and only its use mark changes in the database |
| RouterShares.FailoverChosen | internal/router/router.go:200-222 | so does a failover, in the group and with the model that the route names for it; there is none exactly if these are not set or the group has no usable account |
| RouterShares.RefusedExactly | internal/router/router.go:150-161 | a request is forbidden if and only if its key is bound to routes but not to this one, and resolved if and only if it is not and the route has groups; a refusal changes nothing |
| RouterShares.EveryAnswerMarks | internal/router/router.go:417-421 | every answer with an account, from a pin too, marks that account as used now and changes nothing else |
| RouterShares.DirectChosen | internal/router/direct.go:52-101 | a model that is no route is served by the qualifying account with the most credit about to expire, of several by one unused as long as any, and by none if and only if none qualifies; accounts qualify by declaring the model or, if none does, by the hinted plugin |
| RouterShares.SettingsCount | internal/router/router.go:53-95 | a new policy or default strategy counts for pins and routes from then on and nothing else changes; values that are not positive or not known are replaced by those in force or built in |
| CronText.SplitComma | internal/task/cron.go:133-145 | the loop gives the stretches between commas |
| CronText.SplitJoin | internal/task/cron.go:133-145 | splitting undoes joining |
| CronText.JoinSplit | internal/task/cron.go:133-145 | joining undoes splitting, and no stretch contains the separator |
| CronText.SplitFields | internal/task/cron.go:67-84 | the loop gives the tokens between spaces and tabs |
| CronText.TokensJoin | internal/task/cron.go:67-84 | tokens joined by spaces are read back |
| CronText.ParseInt | internal/task/cron.go:156-169 | a non-empty string of digits gives the number it denotes, anything else is refused |
| CronText.IndexOfStr | internal/task/cron.go:147-154 | the first position of a character, if it occurs |
| Cron.FillValues | internal/task/cron.go:112-114 | the loop adds exactly the values from low to high in steps |
| Cron.ProgressionIsBetween | internal/task/cron.go:112-114 | stepping from low to high visits exactly the values congruent to low |
| Cron.ParseRange | internal/task/cron.go:97-108 | the bounds of *, a number or a range, exactly if it can be read |
| Cron.ParsePart | internal/task/cron.go:90-115 | one part is accepted exactly if it can be read and is within bounds, and adds its values |
| Cron.ParseCronField | internal/task/cron.go:87-117 | the loop over parts gives the union, or refuses at the first bad part |
| Cron.ReadPrint | internal/task/cron.go:90-108 | reading a written part gives it back |
| Cron.PrintRead | internal/task/cron.go:90-108 | what can be read is the written form of a part |
| Cron.FieldMeaning | internal/task/cron.go:87-117 | a written field is accepted if and only if all its parts are within bounds, and then stands for the union of their progressions |
| Cron.FieldAccepted | internal/task/cron.go:87-117 | nothing else is accepted |
| Cron.FieldInBounds | internal/task/cron.go:109-114 | accepted values lie within the bounds of the field |
| CronNext.ParseCronExpr | internal/task/cron.go:32-65 | the loop over five tokens gives five sets, or refuses |
| CronNext.ExprMeaning | internal/task/cron.go:32-65 | a written expression is accepted if and only if every part is within the bounds of its field, and then each field stands for its union |
| CronNext.MatchMeaning | internal/task/cron.go:119-131 | day of month and day of week are joined by or exactly if each leaves some day out; a field that leaves none out does not restrict |
| CronNext.HourlyMeaning | internal/task/cron.go:33-35 | @hourly matches exactly the full hours |
| CronNext.DailyMeaning | internal/task/cron.go:36-37 | @daily and @midnight match exactly midnight |
| CronNext.WeeklyMeaning | internal/task/cron.go:38-40 | @weekly matches exactly midnight on Sundays |
| CronNext.NextCron | internal/task/cron.go:8-24 | the search minute by minute gives the result of the recursion on values |
| CronNext.NextIsLeast | internal/task/cron.go:8-24 | the result is t if and only if t is the least whole minute after from and within 366 days that the fields match |
| CronNext.NoNext | internal/task/cron.go:8-24 | there is no result if and only if the expression is invalid or no such minute matches |
| Engine.Scheduler.NextOf | internal/task/engine.go:219-252 | the next run of each kind of trigger (pinned by EngineTiming.IntervalDue, DailyDue, CronDue and OnceDue) |
| Engine.Scheduler.Fire | internal/task/engine.go:101-109 | the next run is set and a once rule disabled when a rule fires |
| Engine.Scheduler.DoTick | internal/task/engine.go:76-98 | unscheduled rules are planned or disabled, then the due ones fire |
| Engine.Scheduler.constructor | internal/task/engine.go:37-39 | the rules, and nothing fired yet |
| EngineProofs.DailyIsFirst | internal/task/engine.go:228-236 | unless clocks are changed within two days, a daily rule with a valid time next runs at the first instant after from at that time of day, within a day |
| EngineProofs.DailyIsLater | internal/task/engine.go:228-236 | in any zone and for any two numbers the next run lies after from if and only if less than a day and that time has passed since midnight, counting what clocks have been set back; for a valid time away from clock changes it always does |
| EngineProofs.LongDayRepeats | internal/task/engine.go:228-236 | a concrete 25-hour day on which a daily rule that has fired is due again at once |
| EngineProofs.NextIsLater | internal/task/engine.go:219-252 | which next runs lie strictly later, for each kind of trigger: cron always, intervals if positive, daily by the condition of DailyIsLater |
| EngineProofs.FiringKeeps | internal/task/engine.go:101-109 | firing a due rule respects its last firing and sets up the next |
| EngineProofs.PlanKeeps | internal/task/engine.go:79-88 | planning unscheduled rules brings no fired rule forward |
| EngineProofs.TickKeeps | internal/task/engine.go:76-98 | a whole scan keeps what RunKeeps states |
| EngineProofs.RunKeeps | internal/task/engine.go:76-109 | over every run of scans, each firing of a rule respects the one before it |
| EngineProofs.OnceFiresOnce | internal/task/engine.go:101-109 | over every run of scans from an empty log a once rule fires at most once |
| EngineProofs.IntervalSpacing | internal/task/engine.go:219-226 | over every run of scans two firings of a rule with a positive interval are at least that far apart |
| EngineProofs.FiringsRespectNext | internal/task/engine.go:101-109 | over every run of scans, a rule does not fire again before the next run computed at its last firing |
| EngineProofs.CronFiresOnMatches | internal/task/engine.go:237-241 | over every run of scans, between two firings in a row of a cron rule lies the least minute it matches after the first |
| EngineProofs.ScanFires | internal/task/engine.go:76-98 | a scan fires no rule twice, leaves no rule that moves on due at its firing, and fires all due rules if they are fewer than twenty |
| EngineTiming.DueExactly | internal/task/engine.go:76-109 | after every run of scans a rule enabled at the start is due exactly from the moment computed at its last firing, or if it has not fired the next run it had at the start or that computed when it was planned |
| EngineTiming.IntervalDue | internal/task/engine.go:222-227 | an interval rule that last fired, or was first planned, at t is due at a moment if and only if t plus the interval is not after it |
| EngineTiming.DailyDue | internal/task/engine.go:228-236 | a daily rule is due if and only if its time of day has come since then, if clocks are not changed about t |
| EngineTiming.CronDue | internal/task/engine.go:237-241 | a cron rule is due if and only if a minute it matches has come since then, if it matches any within 366 days |
| EngineTiming.OnceDue | internal/task/engine.go:242-247 | a once rule is due from its moment until it fires, and stays enabled until it fires or is found to have no moment |
| EngineTiming.FiresExactly | internal/task/engine.go:76-109 | a scan fires a rule only if its moment has come, and does so unless twenty rules are due |
| EngineTiming.IntervalNotMissed | internal/task/engine.go:90-98 | over every run of scans, while an interval rule does not fire every scan from t plus the interval on is at its limit: the first that is not fires it |
| EngineTiming.PlannedSoon | internal/task/engine.go:79-88 | the first scan that finds fewer than fifty rules without a next run plans them all |
| EngineTiming.LastRunRecorded | internal/task/engine.go:101-109 | over every run of scans the row of a rule carries its last firing |
| Stderr.LinesSpec | internal/plugin/manager.go:413-424 | a stream is its lines, each with its line feed, and a rest, none of which holds a line feed |
| Stderr.Append | internal/plugin/manager.go:409-424 | the lines of two stretches are the lines of the first, then those of its rest joined to the second |
| Stderr.PluginStderr.Put | internal/plugin/manager.go:409-428 | one write logs the trimmed, non-empty complete lines of buffer and data, and keeps the rest, or drops it if it is longer than the limit |
| Stderr.IndexByte | internal/plugin/manager.go:414-417 | the first line feed |
| Stderr.PluginStderr.constructor | internal/plugin/manager.go:405-407 | nothing buffered, nothing logged |
| Stderr.ChunkIndependence | internal/plugin/manager.go:396-428 | however a stream is cut into writes, log and buffer are those of the uncut stream after every write if and only if no write leaves more than the limit |
| Stderr.TrimRightSpec | internal/plugin/manager.go:418 | what is trimmed are the carriage returns at the end, and all of them; a line is empty then if and only if it holds nothing else |
| Stderr.LoggedIsVisible | internal/plugin/manager.go:413-424 | logged are, line by line, those that hold anything but carriage returns |

## Left out

- Server-sent event framing (section 9.2.6 of the WHATWG HTML Living Standard) and JSON text (RFC 8259): wire events and request items are datatypes, `data: [DONE]` is the end of the stream, and validity and string encoding of JSON are given functions with three stated laws.
- Random ids and fingerprints: message and response ids are not modelled; the id that the tool-call tracker makes up is given, drawn once, and the same for the encoder and the direct fold it is compared with.
- The credit amount of a usage report: it is read from field names by fuzzy matching and is set to zero where counts are compared.
- The frames that encoders write for a failure in mid-stream, and `FinishWithError` of the OpenAI and Anthropic parsers.
- Whole results of the OpenAI and Anthropic aggregates (their tools are sorted by id), and the request parsers of these two dialects.
- Multimodal content blocks: histories hold text messages only, and other fields of a request (tools, limits, temperature) are not modelled.
- Envelope streams with several starts or finishes, or with failures in between, are outside the stream theorems; the recovery loop allows any events.
- OpenAIRoundTrip.RoundTrip: reasoning travels, the credit amount does not, and an empty reason comes back as "stop".
- ResponsesParser.ArgumentsExactlyOnce: a call whose item is added without a name is folded under the name of the call before it, so only its id and arguments are stated.
- ResponsesRoundTrip.RoundTrip: reasoning and the cache-write count do not travel in this dialect, and the stop reason says only whether there were calls.
- AnthropicRoundTrip.RoundTrip: reasoning is dropped by the parser, and calls without arguments are never emitted by it.
- OpenAIClient.ClientGetsAnswer: the total that is sent with the counts is not modelled in this dialect.
- EngineTiming.CronDue: a rule that matches no minute within 366 days of its firing has no next run, and is planned once more or disabled by a later scan; when it is due then is stated by its planning only as far as it had no next run at the start.
- EngineTiming.DailyDue: near a clock change only the exact moment of DailyNext is stated, by DueExactly.
- ServeProofs.EveryRequest: nobody else changes the account rows while the request runs, and the recovery of one attempt resolves and picks the failover at one instant.
- Timeouts, cancelled contexts and drained channels: an attempt ends in a channel error, no event in time, or some events; the text of the timeout answer has no duration in it.
- Columns of the log row other than status, account, model and number of attempts; endpoint warnings and client user agents.
- The far end of a pause that needs manual recovery is a constant of a hundred years of seconds instead of a calendar date.
- Parsing of the credit and model lists of an account: the amount of expiring credit and the declared models are given; so are an account's plugin and its first group.
- Each routing call reads the clock once; the code reads it up to three times.
- Random draws are any number reduced modulo the range; counters and token counts are unbounded integers.
- Concurrency: calls on the router are one after the other, and so are scans and writes; the janitor is a cleanup at any time.
- Time zones: daily rules take the offset of local clocks as a given function of the instant, and time.Date as the library's rule on it; cron rules take the calendar as a given function. Parsing of durations and clock times is left out.
- EngineProofs.DailyIsFirst: near a clock change the next run need not be at its time of day; only whether it is later is stated there, by DailyIsLater.
- The execution of a rule (accounts, plugin call, run records) and manual runs: firing a rule is an entry in a log.
- Strings are sequences of characters; text that is not valid UTF-8 is outside the cron parser.
- The web front end, administration, marketplace, proxies, encryption of credentials, key checks and plugin processes.
