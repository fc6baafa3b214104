# A verified model of modeltap's conversation core

modeltap is a terminal front end ("harness"), a server ("runtime") and a capturing proxy for large language
models. These files model the parts of it whose behaviour is hardest to see by reading: how a conversation is
cut down to fit a context window, how a streamed answer is read twice by independent code and must come out the
same, how the terminal shell holds text back while it asks for permission, how history is stored, compacted and
restored, and the small concurrent protocols around them. Every definition follows the source's branches and
constants; every method that changes state in the source is a method here, proved against a function, and the
properties are lemmas about that function over all inputs and all runs.

`dafny verify dfyconfig.toml` verifies the whole project.

## How it is laid out

| files | what they model |
|---|---|
| `Messages`, `Truncation`, `TruncationLaws`, `TruncationBounds` | token estimates, truncation to a window, and both in characters |
| `Prompt`, `PromptTexts` | prompt assembly, and what the prompt says |
| `Sse`, `SseLaws`, `SseLineEnds` | the two readers of server-sent events (WHATWG HTML Living Standard, sections 9.2.5 and 9.2.6), on lines with either ending |
| `Streaming`, `StreamingLaws`, `StreamAgreement` | the live relay, the capture path, and both from the same bytes |
| `Dispatcher`, `ToolEffects`, `ToolOrder` | tool calls from stream to effect, in any order of handling |
| `Shell`, `ShellLaws`, `SubmissionLaws`, `PermissionLaws`, `DecisionLaws` | transcript rows, follow-up queue, what keys submit and decide |
| `RowLaws`, `Adapter`, `AdapterLaws`, `AdapterOrder`, `AdapterStarts` | the pause buffer, starts and ends of runs, the order of a run's text |
| `TurnLog`, `Conversation`, `ConversationLaws`, `Codecs` | stored turns, the in-memory history, restore, a codec that meets the law assumed of codecs |
| `Compaction`, `CompactionLaws`, `CompactionActions`, `CompactionRestore`, `CompactionCases` | the compaction plan, its application, the caller's actions, restoring afterwards, sessions on which it surprises |
| `Aggregation` | the running average of the metrics page |
| `RunRegistry`, `Correlation`, `CorrelationLaws`, `Lifecycle`, `LifecycleLaws` | run registry, JSON-RPC call correlation, connection lifecycle |
| `Wrappers`, `Numbers` | options and results, decimal rendering |

State that the source updates in place is a class (`SSEParser`, `ToolDispatcher`, `ShellState`, `Adapter`,
`Conversation`, `Store`, `Registry`, `Connection`, `CapabilityManager`) with a `View()` as a value; runs are
sequences of messages, events or steps applied to that value. A protocol with concurrent parties is a step
system whose steps are the atomic sections of the code, so that a run is any interleaving.

## What turned out not to hold as documented

The code is kept as it is. Each promise below has its exact condition, and a lemma at an input on which it fails.

| promise | holds exactly when | fails at |
|---|---|---|
| truncation leaves calls and results paired | `Pairing`: answered calls of the kept suffix sit on assistant messages too | `UserCallBreaksPairing` |
| each result stays after its call | `OrderKeptExactly` (of `TruncationLaws`): it does in the kept suffix | `ReusedIdBreaksOrder` |
| the result fits the window | `WithinBudget`: calls that filtering makes encodable do not outweigh what it drops and the slack | `MalformedInputBreaksBudget` |
| truncating twice is truncating once | `Idempotent`: both of the first and the third | `MalformedInputBreaksBudget` |
| the live relay and the capture report the same response | `LiveAgreesWithCapture`, and from the bytes on `BothPathsAgree`, for events named by their type: every payload that reassembly reads decodes, text only in text deltas, settled counts | `MalformedChunkFails`, `OtherTextDiffers`, `SecondStartDiffers`, `ZeroCountDiffers`; for an event without a name `UnnamedEventDiffers` |
| the two event readers agree, on lines that end in a newline | `ReadersAgree`: one payload an event | `TwoDataLinesDiffer` |
| they agree on lines that end in a carriage return and a newline | `CrLfReadersAgree`: at most one payload in the whole stream | `CrLfHidesFirst` |
| the relay sends, and the dispatcher answers, each call once | `EmittedOnceExactly`, `RepeatsAreAnswered`: no other block ends after a call | `TextAfterCallRepeats` |
| a call's input is its parts joined | `InputIsJoinedExactly`: no tool block opens with an input | `EmptyObjectStays`, the input the provider sends |
| a run's text is shown in arrival order | before its start, `OrderKeptExactly` (of `AdapterOrder`): none of it waited in a detached transcript; over its start, `OrderOverStart`: what the row had then and what waited read the same either way, as when one is empty | `AttachingOvertakes` |
| an ended run's row has its whole text | `EndedRowIsWhole`: none of it waited in a detached transcript or is buffered at the end; after a start, `StartedRowIsWhole`: none is buffered; `StrayTextShowsExactly` says where buffered text goes | `EndDuringPauseLosesText`, `EndBeforeStartLosesText` |
| a started run is shown in a row of its own | `StartAttaches`: it has one, its submission's row is open, or, without a submission, no row waits for a run | `StartWithoutRowDropsText` |
| resolving another prompt keeps the focus | `FocusKeptExactly`: that prompt comes later, or the focused one is last | `ResolvingMovesFocus` |
| a restore rebuilds the history | `RestoreIsExact`: every tool input is JSON as the encoder writes it, and the store refused no turn | `InvalidInputIsLost`, `TakenTurnIsLost` |
| a client can go on counting after a restore | `CountingOnAfterRestore`: the store refused no submission | `TakenTurnIsLost` |
| compaction fails without a trace or succeeds | `CompactedIs`: no turn that stays, here or in another session, has the summary's identifier | `ClashDeletes` |
| the tokens reported freed are freed | `FreedIsTrue`: nothing summarized, or the summary costs a tenth | `LongSummaryFreesLess` |
| a client can go on counting after compaction | `CountingOnIsAccepted`: no user message was removed | `CountingOnIsRefused` |
| a successful registration is on a ready connection, as a comment in `capabilities.go` has it | `SuccessMeansReady`: the connection did not fail meanwhile | `SuccessOnFailedConnection` |
| every registered tool is in the catalog | `AllRegisteredStay`: no two different ones share a key | `KeysCanCollide` |
| the average latency is the mean, rounded down | `MeanExactly`: the discarded remainders add up to less than the requests | `ThreeRowsCanDrift` |

## Model

| member | source | states |
|---|---|---|
| Messages.EstimateMessageTokens | internal/provider/message.go:64-84 | a message's estimate is the quarter lengths of content, encoded calls, encoded results and attachment texts; an unencodable call list adds nothing |
| TruncationBounds.EstimateIsQuarter | internal/provider/message.go:64-84 | an estimate is a quarter of all characters that go to the model, text, calls, results and attachment contents, less at most the rounding of each part |
| TruncationBounds.TextAlone | internal/provider/message.go:55-65 | a message with text alone costs a quarter of its characters |
| TruncationBounds.AttachmentAdds | internal/provider/message.go:79-81 | one more attachment adds a quarter of its content |
| TruncationBounds.RawNeverMatters | internal/provider/message.go:60-63 | raw bytes, paths, types, role and metadata never change an estimate |
| Truncation.Truncate | internal/provider/truncate.go:14-134 | the in-place algorithm computes `Truncated`: error order, no limit for a window of zero or less, cutoff, reconciliation, empty removal, user check |
| Truncation.FindCutoff | internal/provider/truncate.go:31-45 | the backward loop finds the cutoff that `LongestSuffix` characterizes |
| Truncation.CollectUses | internal/provider/truncate.go:64-73 | exactly the call identifiers on assistant messages |
| Truncation.CollectResults | internal/provider/truncate.go:75-81 | exactly the identifiers that results answer |
| Truncation.FilterResults | internal/provider/truncate.go:83-93 | results with a known call, in order |
| Truncation.FilterCalls | internal/provider/truncate.go:95-106 | calls with a known result, in order |
| Truncation.ReconcileInPlace | internal/provider/truncate.go:83-107 | both filtering passes over the copied slice give every message without its orphans |
| Truncation.RemoveEmpty | internal/provider/truncate.go:109-115 | messages with content, calls, results or attachments, in order |
| Truncation.HasUser | internal/provider/truncate.go:121-131 | whether a user or tool message is left |
| Truncation.LongestSuffix | internal/provider/truncate.go:31-45 | a suffix fits the remaining budget if and only if it starts at or after the cutoff |
| TruncationLaws.ReconciledIsSelection | internal/provider/truncate.go:83-115 | the result is an order-preserving selection: exactly the messages that are not empty once trimmed |
| TruncationLaws.ReconciledIds | internal/provider/truncate.go:64-115 | which call and result identifiers survive, as set equalities |
| TruncationLaws.Pairing | internal/provider/truncate.go:64-115 | surviving results match assistant calls always, and all calls if and only if the kept suffix owns its answered calls |
| TruncationLaws.ResultsStillFollow | internal/provider/truncate.go:47-115 | if no call has the identifier of a result in the same or an earlier message, each surviving result has its call in an earlier surviving message |
| TruncationLaws.OrderKeptExactly | internal/provider/truncate.go:47-115 | every result that an assistant call asks for comes after such a call in the outcome if and only if it does in the kept suffix |
| TruncationLaws.DroppingCallsRaisesEstimate | internal/provider/message.go:64-84 | filtering calls raises their estimate if and only if a list that failed to marshal starts to marshal |
| TruncationLaws.WithinBudget | internal/provider/truncate.go:24-45 | the outcome's cost is the kept suffix's, less what filtering drops, plus calls it makes encodable; outcome and system prompt fit the window if and only if the last do not outweigh the drop and the slack |
| TruncationLaws.ReconciledFixpoint | internal/provider/truncate.go:64-115 | reconciliation leaves a list alone if and only if its calls and results are paired |
| TruncationLaws.Idempotent | internal/provider/truncate.go:14-134 | truncating its own output changes nothing if and only if the kept suffix owns its answered calls and its outcome fits as `WithinBudget` says |
| TruncationLaws.OrdinaryConversation | internal/provider/truncate.go:14-134 | with calls on assistant messages only and valid inputs, the outcome is paired, within the window and a fixed point |
| TruncationBounds.ContentFits | internal/provider/truncate.go:14-134 | with valid inputs the text of the outcome has at most four characters for each token the prompt leaves, and three more a message |
| TruncationBounds.EverythingFits | internal/provider/truncate.go:14-134 | the same for everything in it, calls, results and attachments included |
| TruncationBounds.RefusedExactly | internal/provider/truncate.go:14-27 | when each refusal is given, when there is no limit, and that an outcome has a user or tool message |
| TruncationBounds.LastTextDecides | internal/provider/truncate.go:31-134 | a conversation that ends with a user's text has an outcome, which ends with it, if and only if that text and the prompt fit the window |
| TruncationLaws.MalformedInputBreaksBudget | internal/provider/truncate.go:95-106 | a truncation whose result exceeds the window because a malformed call is dropped, and which a second truncation cuts again |
| TruncationLaws.UserCallBreaksPairing | internal/provider/truncate.go:64-115 | a truncation that keeps a call on a user message and drops its result |
| TruncationLaws.ReusedIdBreaksOrder | internal/provider/truncate.go:31-106 | a truncation that cuts a conversation in order to a result before its call |
| Prompt.Assemble | internal/runtime/prompt.go:188-209 | the prompt and its total from the layers present, trimmed when a window is set |
| Prompt.TrimLayers | internal/runtime/prompt.go:213-226 | blanks layer 6, then 7, in place, only while the total exceeds the budget |
| Prompt.SumLayerTokens | internal/runtime/prompt.go:228-234 | the total of the layers' tokens |
| Prompt.JoinLayers | internal/runtime/prompt.go:236-248 | the non-empty layers joined by blank lines |
| Prompt.PromptAccounting | internal/runtime/prompt.go:188-248 | the joined prompt's own estimate is at least the reported total and at most 7 above it, 8 with a sixth layer |
| Prompt.TrimmingFits | internal/runtime/prompt.go:213-226 | the trimmed total fits its quarter if and only if the pinned layers do |
| Prompt.TruncationHasRoom | internal/provider/truncate.go:24-27 | with pinned layers in their quarter and a window of at least 10 (11 with a sixth layer), truncation never finds the window too small |
| PromptTexts.PromptSays | internal/runtime/prompt.go:188-248 | the prompt is its texts in order; the knowledge is left out first and then the session state, exactly when the rest exceeds a quarter of the window; the total is a quarter of each text said |
| Sse.SSEParser.ReadBoundedLine | internal/runtime/streaming.go:95-112 | one line whatever the slices it arrives in; too large if and only if it exceeds the bound |
| Sse.SSEParser.Next | internal/runtime/streaming.go:57-89 | the next data payload of the remaining bytes, or why there is none, and what is left |
| Sse.ScanFields | internal/proxy/capture.go:268-276 | the last event name and the last data line of an event |
| Sse.ParseSSEChunks | internal/proxy/capture.go:254-298 | the chunks of the raw bytes |
| SseLaws.LiveReads | internal/runtime/streaming.go:57-112 | over any clean frames, repeated `Next` yields every payload in order, then the end |
| SseLaws.LongLineStops | internal/runtime/streaming.go:57-112 | a line of more than 1048576 characters with its newline ends the reading, one of exactly that does not |
| SseLaws.TrimCutsBlanks | internal/runtime/streaming.go:76-84 | trimming cuts white space at both ends and nothing else |
| SseLaws.CaptureReads | internal/proxy/capture.go:254-298 | over the same bytes, the capture path yields one chunk per event with data |
| SseLaws.CapturedIsFewer | internal/proxy/capture.go:268-276 | capture never has more payloads, and the same ones if and only if every frame has a single payload |
| SseLaws.ReadersAgree | internal/runtime/streaming.go:57-112 | on lines that end in a newline the two readers yield the same payloads if and only if every frame has a single payload |
| SseLaws.TwoDataLinesDiffer | internal/proxy/capture.go:268-276 | an event with two data lines gives one reader both and the other the second |
| SseLaws.NamedFrameAgrees | internal/proxy/capture.go:268-294 | one named event gives its data to one reader, and name and data to the other |
| SseLaws.EventStreamsAgree | internal/proxy/capture.go:254-298 | for ordinary events both yield the data in order, prefixed where the event has no name |
| SseLineEnds.CrLfLiveReads | internal/runtime/streaming.go:57-112 | on lines that end in a carriage return and a newline the live reader yields what it yields on newlines |
| SseLineEnds.CrLfCaptureReads | internal/proxy/capture.go:254-298 | the capture path takes such a stream for one event with all its field lines |
| SseLineEnds.CrLfReadersAgree | internal/proxy/capture.go:254-298 | on such lines the two readers agree if and only if the whole stream has a single payload |
| SseLineEnds.CrLfHidesFirst | internal/proxy/capture.go:254-298 | of two such events one reader has both payloads, the other the second |
| Streaming.ReadStream | internal/runtime/streaming.go:181-262 | content, calls, counts, what was sent and the error of the loop, for any payloads, read error and cancellation point |
| Streaming.Announce | internal/runtime/streaming.go:286-333 | the closing notifications for given totals and error |
| Streaming.Relay | internal/runtime/streaming.go:163-346 | the client is told once how the turn ended, with the totals answered; cancelled if and only if the context was found done first; then the error if and only if it failed, the store's only when the stream had none |
| Streaming.ReassembleStream | internal/provider/anthropic.go:98-156 | text and counts reassembled from the chunks, or the first chunk's decoding error |
| StreamingLaws.LiveTotals | internal/runtime/streaming.go:181-274 | the relay's content is the text of the text deltas and of what it sent, its counts the last positive ones |
| StreamingLaws.NoEmptyDeltas | internal/provider/anthropic.go:173-200 | no delta without text is sent |
| StreamingLaws.ReassemblesExactly | internal/provider/anthropic.go:98-156 | whatever the chunks' names, reassembly succeeds if and only if every payload under one of the three names it reads decodes |
| StreamingLaws.CapturedTotals | internal/provider/anthropic.go:98-156 | for chunks named by their type capture's text is that of all deltas, its counts the last ones |
| StreamingLaws.LastStartSays | internal/provider/anthropic.go:103-117 | model and input count are those of the last message_start, or empty |
| StreamingLaws.LastDeltaSays | internal/provider/anthropic.go:130-144 | stop reason and output count are those of the last message_delta, or empty |
| StreamingLaws.FirstBadChunkFails | internal/provider/anthropic.go:98-156 | the failure is that of the first chunk that does not decode |
| StreamingLaws.SettledExact | internal/provider/anthropic.go:98-156 | last positive and last count coincide if and only if the counts settle |
| StreamingLaws.DeltaTextExact | internal/provider/anthropic.go:163-274 | both texts coincide if and only if only text deltas carry text |
| StreamingLaws.LiveAgreesWithCapture | internal/runtime/streaming.go:181-274 | for chunks named by their type, decoding or not: when reassembly succeeds, and then text, input and output counts of both paths agree, each if and only if its condition holds; the text sent is always the content |
| StreamingLaws.OtherTextDiffers | internal/provider/anthropic.go:98-156 | text in a delta of another type is captured and not relayed |
| StreamingLaws.ZeroCountDiffers | internal/provider/anthropic.go:98-156 | a last output count of zero is captured and not relayed |
| StreamingLaws.SecondStartDiffers | internal/provider/anthropic.go:98-156 | a second message_start without a count is captured as zero and not relayed |
| StreamingLaws.MalformedChunkFails | internal/provider/anthropic.go:119-128 | a delta that does not decode costs the capture the whole response, the relay only that delta |
| StreamingLaws.OrdinaryCountsSettle | internal/provider/anthropic.go:98-156 | one start count and non-decreasing output counts settle both totals |
| StreamAgreement.SamePayloads | internal/runtime/streaming.go:181-200 | on the bytes of named events with one payload each the relay works on the payloads of the captured chunks |
| StreamAgreement.BothPathsAgree | internal/runtime/streaming.go:163-346 | end to end, from the same bytes under any decoding: the relay over repeated `Next` and reassembly over the captured chunks agree, each total if and only if its condition holds |
| StreamAgreement.OrdinaryStreamAgrees | internal/provider/anthropic.go:98-156 | the same for events of a name and a data line, in terms of the events sent |
| StreamAgreement.UnnamedEventDiffers | internal/provider/anthropic.go:146-152 | text in an event without a name is relayed and not reassembled |
| Dispatcher.ToolDispatcher.constructor | internal/harness/tool_dispatcher.go:78-86 | starts with nothing seen |
| Dispatcher.ToolDispatcher.HandleToolCall | internal/harness/tool_dispatcher.go:122-188 | the new ring, set, counters, plan and the one posted result |
| Dispatcher.RingIsWindow | internal/harness/tool_dispatcher.go:130-144 | over any calls the ring is the last 1024 accepted identifiers, without repeats, and equals the seen set |
| Dispatcher.AcceptedExactly | internal/harness/tool_dispatcher.go:130-144 | a call passes if and only if its identifier is empty or not among the last 1024 accepted |
| Dispatcher.AcceptancesApart | internal/harness/tool_dispatcher.go:130-144 | between two acceptances of one identifier lie at least 1024 different others |
| Dispatcher.NewOrRepeated | internal/harness/tool_dispatcher.go:130-144 | a repeat of the last accepted call is absorbed, a new one accepted |
| Dispatcher.OneResultPerCall | internal/harness/tool_dispatcher.go:122-188 | every call posts exactly one result under its own identifier, and the counters count them |
| Dispatcher.AnswersExactly | internal/harness/tool_dispatcher.go:122-188 | over every run, which calls are answered as duplicates, as unknown, as queued for the plan, or with the tool's own result |
| Dispatcher.PlanGainsHeld | internal/harness/tool_dispatcher.go:154-162 | the plan gains exactly the calls held back, in order |
| Dispatcher.PlanModeOnlyReads | internal/harness/tool_dispatcher.go:212-220 | throughout plan mode only read-only tools run |
| ToolEffects.RelayEmits | internal/runtime/streaming.go:222-249 | what the relay records and sends over a block stream, its pending list never popped |
| ToolEffects.CollapsedEmitted | internal/runtime/streaming.go:222-249 | without adjacent repeats, the calls sent are the calls made, with their inputs |
| ToolEffects.EmittedOnceExactly | internal/runtime/streaming.go:232-249 | each call is sent once if and only if no other block ends after one |
| ToolEffects.EffectOnce | internal/harness/tool_dispatcher.go:117-188 | fed to the dispatcher in that order, each call passes the duplicate check exactly once |
| ToolOrder.EffectOnceInAnyOrder | internal/harness/connection.go:652-662 | for at most 1024 calls each passes the duplicate check exactly once in whatever order the calls sent are handled |
| ToolEffects.RepeatsAreAnswered | internal/harness/tool_dispatcher.go:122-188 | every call sent is answered under its own identifier; once per call made if and only if no other block ends after one |
| ToolEffects.TextAfterCallRepeats | internal/runtime/streaming.go:232-249 | a text block that ends after a tool block makes the relay record and send the call twice |
| ToolEffects.InputIsJoinedExactly | internal/runtime/streaming.go:222-249 | every call the relay records has its partial inputs joined for input if and only if no tool block opened with one of its own |
| ToolEffects.EmptyObjectStays | internal/provider/anthropic.go:199-227 | a tool block opened with an empty object is recorded with that object in front of its input |
| Shell.ShellState.constructor | internal/harnessshell/model.go:85-128 | an empty shell |
| Shell.ShellState.AssistantRowIndexForRun | internal/harnessshell/events.go:382-405 | the first open row of the run, or the last open row not yet given a run |
| Shell.ShellState.AssignRunIdToPlaceholder | internal/harnessshell/events.go:346-357 | only the first assistant row of the submission gets the run |
| Shell.ShellState.RemovePlaceholderForSubmission | internal/harnessshell/events.go:363-375 | the rows without the submission's, in order |
| Shell.ShellState.MarkEventRow | internal/harnessshell/events.go:152-162 | only the first event row of the request gets the status |
| Shell.ShellState.RemovePendingPermissionByID | internal/harnessshell/permissions.go:64-77 | the first prompt of that request is gone and the focus clamped |
| Shell.ShellState.ResolveActivePermission | internal/harnessshell/permissions.go:97-108 | one decision for the prompt in focus, which stays until the host resolves it |
| Shell.ShellState.MergeQueuedSubmissions | internal/harnessshell/queue.go:78-99 | texts joined by blank lines, entries and tokens concatenated in order |
| Shell.ShellState.BeginSubmission | internal/harnessshell/queue.go:224-274 | both optimistic rows, streaming on, one submit action under a fresh name |
| Shell.ShellState.EnqueueSubmission | internal/harnessshell/queue.go:40-56 | one more queued follow-up |
| Shell.ShellState.ReleaseQueuedSubmission | internal/harnessshell/queue.go:211-217 | both buffers drained into one merged submission, or nothing |
| Shell.ShellState.EndRun | internal/harnessshell/events.go:303-321 | the run's row closed, streaming and interrupt cleared |
| Shell.ShellState.ApplyRunStarted | internal/harnessshell/events.go:227-263 | correlates the placeholder, or opens a row when the run has none |
| Shell.ShellState.ApplyRunDelta | internal/harnessshell/events.go:268-278 | the text goes to the run's row only |
| Shell.ShellState.ApplySubmissionFailed | internal/harnessshell/events.go:210-222 | the submission's rows are gone and the shell idle |
| Shell.ShellState.ApplyPermissionRequested | internal/harnessshell/events.go:122-146 | a row and a focused prompt, nothing for an empty identifier |
| Shell.ShellState.ApplyPermissionResolved | internal/harnessshell/events.go:152-180 | the row marked and the prompt removed |
| Shell.ShellState.ApplyHostEvent | internal/harnessshell/events.go:36-65 | the new state for every host event |
| Shell.ShellState.EmitSubmitOnEnter | internal/harnessshell/queue.go:121-174 | decide, release, command, enqueue or submit, by the composer's content and the state |
| Shell.ShellState.PressKey | internal/harnessshell/model.go:243-415 | the new state for Enter, Escape, the prompt keys and the y and n shortcuts |
| ShellLaws.MergedTyping | internal/harnessshell/queue.go:78-99 | merging keeps all entries and tokens in order |
| ShellLaws.QueueConservation | internal/harnessshell/queue.go:40-274 | over any events and keys without a clear, what was submitted followed by what is queued is what was typed, in order |
| ShellLaws.StepSubmits | internal/harnessshell/queue.go:121-274 | a step submits at most once, never while still streaming, and streams afterwards |
| ShellLaws.StreamingHoldsQueue | internal/harnessshell/queue.go:155-166 | nothing is submitted until an event ends the streaming |
| SubmissionLaws.TextGoesOut | internal/harnessshell/queue.go:219-274 | text entered on an idle shell is submitted at once and shown as a user row and an open assistant row of the same submission |
| SubmissionLaws.FollowupsGoOut | internal/harnessshell/queue.go:40-99 | follow-ups typed while streaming go out together on completion, in order with blank lines between, each an entry |
| SubmissionLaws.OtherEndsHoldQueue | internal/harnessshell/events.go:303-340 | a run stopped or failed, and a failed submission, release nothing |
| SubmissionLaws.CommandGoesOut | internal/harnessshell/queue.go:136-151 | a slash command goes out at once, streaming or not, and changes nothing else |
| SubmissionLaws.OtherSlashIsText | internal/harnessshell/queue.go:148-151 | a lone slash, and a slash text with tokens, are submitted as text |
| SubmissionLaws.EscapeTwiceInterrupts | internal/harnessshell/model.go:243-258 | only the second Escape while streaming interrupts, and the active run |
| SubmissionLaws.InterruptNamesRun | internal/harnessshell/model.go:243-258 | the run interrupted is the one last accepted or started |
| SubmissionLaws.ActiveRunStays | internal/harnessshell/model.go:243-415 | no key changes which run that is |
| SubmissionLaws.EndForgetsRun | internal/harnessshell/events.go:283-340 | the end of a run or a failed submission forgets it and disarms Escape |
| SubmissionLaws.FailedRowsGo | internal/harnessshell/events.go:363-375 | removing a submission's rows leaves exactly the others |
| SubmissionLaws.NamesNeverRepeat | internal/harnessshell/queue.go:102-107 | over every run no two submissions have the same name |
| SubmissionLaws.OnePlaceholderEach | internal/harnessshell/queue.go:219-252 | over every run no submission has two assistant rows, and rows are named up to the counter |
| SubmissionLaws.TwinsAreOne | internal/harnessshell/events.go:346-357 | then the assistant row of a submission is the only one, wherever it is looked for |
| ShellLaws.WithoutKeepsPairs | internal/harnessshell/events.go:363-375 | removing a submission removes its user and assistant rows together |
| ShellLaws.RowsStayPaired | internal/harnessshell/queue.go:219-252 | in every run a user row is followed at once by the assistant row of its submission |
| PermissionLaws.FocusStaysInRange | internal/harnessshell/permissions.go:12-77 | in every run the focus is on a pending prompt and its selection is one of the three actions |
| PermissionLaws.FocusKeptExactly | internal/harnessshell/permissions.go:64-77 | resolving another prompt keeps the focus if and only if that prompt comes later or the focused one is last |
| PermissionLaws.ResolvingMovesFocus | internal/harnessshell/permissions.go:64-77 | of three prompts with the second in focus, resolving the first puts the third in focus |
| DecisionLaws.KeysDecide | internal/harnessshell/permissions.go:27-90 | from a fresh prompt in focus, moves right and left and Enter emit one action for its request: approve once, for the session, or deny, by where the moves end |
| DecisionLaws.ShortcutsDecide | internal/harnessshell/permissions.go:97-108 | y approves the request in focus once, n denies it |
| DecisionLaws.NothingToDecide | internal/harnessshell/permissions.go:27-62 | with nothing pending these keys do nothing |
| DecisionLaws.FocusMoves | internal/harnessshell/permissions.go:46-62 | moving the focus goes that far and stops at the ends |
| DecisionLaws.AskedAndApproved | internal/harnessshell/events.go:122-146 | a request takes the focus: Enter then approves it once |
| DecisionLaws.AskedAndResolved | internal/harnessshell/events.go:152-197 | a request asked and resolved leaves its row marked granted, denied or done and the other prompts as they were |
| DecisionLaws.InfoShows | internal/harnessshell/events.go:108-118 | information from the host is a row of its own, unless empty |
| DecisionLaws.ClearedIsEmpty | internal/harnessshell/events.go:72-81 | clearing drops the rows and the queue and nothing else |
| RowLaws.StrayText | internal/harnessshell/events.go:382-405 | text of a run without an open row goes to the last open row that has no run, and is dropped if and only if there is none |
| RowLaws.NamelessText | internal/harnessshell/events.go:382-405 | text and ends without a run go to the last open assistant row, of whatever run |
| Adapter.Adapter.constructor | internal/harnesshost/adapter.go:95-111 | nothing attached, pending, buffered or detached |
| Adapter.Adapter.Replay | internal/harnesshost/adapter.go:211-217 | deltas reach the shell in order |
| Adapter.Adapter.ForwardStarted | internal/harnesshost/adapter.go:200-223 | attaches the run, starts it, replays and forgets its detached text |
| Adapter.Adapter.ForwardResolved | internal/harnesshost/adapter.go:228-252 | the prompt is resolved first, then the buffer replayed when none is pending |
| Adapter.Adapter.ForwardDelta | internal/harnesshost/adapter.go:253-265 | buffered during a pause, kept apart when detached, delivered otherwise |
| Adapter.Adapter.ForwardEvent | internal/harnesshost/adapter.go:194-282 | the new adapter and shell for every event |
| Adapter.Adapter.Update | internal/harnesshost/adapter.go:123-179 | the new state for every message, shell actions included, and the start event an accepted submission with a label yields |
| AdapterLaws.DeltaConservation | internal/harnesshost/adapter.go:194-282 | over every run each delta is in one place: delivered, buffered or detached; the buffer is empty when nothing is pending |
| AdapterLaws.PauseHasPrompt | internal/harnesshost/adapter.go:224-252 | a pause always has a visible prompt that can end it |
| AdapterStarts.StartAttaches | internal/harnesshost/adapter.go:200-223 | from any state a start attaches its run and keeps the pause; when it gets a row, and that this row then has its detached text and is live |
| AdapterStarts.StartedDeltaShows | internal/harnesshost/adapter.go:200-265 | its next delta is shown there or held by the pause, never detached |
| AdapterStarts.AttachedRunIsWhole | internal/harnesshost/adapter.go:200-223 | a run attached without a submission gets a row of its own with all its text, before and after |
| AdapterStarts.StartWithoutRowDropsText | internal/harnessshell/events.go:227-263 | a start whose submission has no rows left opens none, and its text is dropped |
| AdapterStarts.HostAcceptanceAttaches | internal/harnesshost/adapter.go:196-199 | an acceptance from the host attaches its run, one without a run changes nothing |
| AdapterStarts.EndDetaches | internal/harnesshost/adapter.go:266-285 | the end of the attached run detaches it, another's does not; later text of the ended run is kept apart |
| AdapterStarts.PauseHolds | internal/harnesshost/adapter.go:253-256 | while a permission is pending no text is shown: every delta is buffered in order |
| AdapterStarts.PauseEnds | internal/harnesshost/adapter.go:224-252 | a request starts the pause; its resolution ends it if and only if no other is pending, and then the prompt goes first and all that was held follows |
| AdapterStarts.NamelessDeltaShows | internal/harnesshost/adapter.go:253-265 | text without a run is never kept apart |
| AdapterStarts.AcceptanceIsRecorded | internal/harnesshost/adapter.go:128-141 | an acceptance is recorded under both names |
| AdapterLaws.PausingIsInvisible | internal/harnesshost/adapter.go:194-282 | for an attached run with nothing detached, row text followed by its buffered text is its deltas in arrival order, under any interleaving that leaves it attached, its own acceptance and start included |
| AdapterLaws.RowIsWhole | internal/harnesshost/adapter.go:228-252 | with nothing pending the row itself has the whole text |
| AdapterLaws.SameAsUnpaused | internal/harnesshost/adapter.go:224-258 | the row reads as if no permission had been asked |
| AdapterOrder.AcceptingAttaches | internal/harnesshost/adapter.go:128-141 | accepting a fresh submission makes its placeholder the run's row and attaches the run, live if and only if none of its text was detached |
| AdapterOrder.AttachedShows | internal/harnesshost/adapter.go:253-265 | until its start an attached run shows the text since its attachment, never the detached text |
| AdapterOrder.OrderKeptExactly | internal/harnesshost/adapter.go:253-265 | a run attached with an empty row and not started yet shows all its text in arrival order if and only if none of it was detached |
| AdapterOrder.OrderOverStart | internal/harnesshost/adapter.go:200-223 | over its start, with any messages before and after, if and only if the row's text at the start and the detached text read the same in either order |
| AdapterOrder.StartReplaysEarly | internal/harnesshost/adapter.go:200-223 | the start puts the detached text behind the row's text and makes the run live |
| AdapterOrder.EndClosesRow | internal/harnessshell/events.go:283-340 | each of the three ends closes the row as it is, which has the whole text if and only if nothing of it is buffered or detached |
| AdapterOrder.EndedRowIsWhole | internal/harnessshell/events.go:283-340 | from attachment through any messages without a start to its end, the row has all the run's text if and only if none of it was detached and none is buffered when it ends |
| AdapterOrder.StartedRowIsWhole | internal/harnessshell/events.go:283-340 | from a start through any messages to its end, the row has all the run's text if and only if none is buffered when it ends |
| AdapterOrder.StrayTextLands | internal/harnesshost/adapter.go:228-252 | text replayed after its run has ended lands in the last open row that has no run yet, the next submission's, or is lost |
| AdapterOrder.StrayTextShowsExactly | internal/harnesshost/adapter.go:228-252 | such a replay changes the transcript if and only if there is text and an open row without a run |
| AdapterOrder.EndDuringPauseLosesText | internal/harnessshell/events.go:283-298 | a run that ends while a prompt is pending loses the text that arrived during the pause |
| AdapterOrder.EndBeforeStartLosesText | internal/harnessshell/events.go:283-340 | a run whose first text comes before its acceptance and which ends before it is started ends with an empty row |
| AdapterOrder.AttachingOvertakes | internal/harnesshost/adapter.go:196-223 | a run attached by an accepted submission, then started, shows the text that came before behind the text that came since: in order only when the two read the same either way |
| TurnLog.Store.CreateTurn | internal/storage/turns.go:12-70 | the turn is listed in sequence order, or refused when any session has its identifier |
| TurnLog.Store.DeleteTurn | internal/storage/turns.go:193-199 | the log without that turn; no error when absent |
| TurnLog.RolesSay | internal/runtime/conversation.go:282-303 | the roles by name |
| Conversation.Conversation.constructor | internal/runtime/conversation.go:37-39 | an empty history |
| Conversation.Conversation.AppendUserTurn | internal/runtime/conversation.go:126-181 | accepted if and only if its number is next; then message, counters and stored turn, otherwise no change |
| Conversation.Conversation.AppendAssistantTurn | internal/runtime/conversation.go:186-208 | message, storage counter and stored turn with its calls and usage |
| Conversation.Conversation.RestoreFromTurns | internal/runtime/conversation.go:213-234 | messages and both counters rebuilt; a turn that does not decode leaves those before it |
| Conversation.Conversation.PendingToolCalls | internal/runtime/conversation.go:239-268 | the calls that `PendingExactly` characterizes, in order |
| Conversation.Conversation.MatchToolResult | internal/runtime/conversation.go:273-280 | the first pending call with the identifier, none if and only if there is none |
| Conversation.PendingExactly | internal/runtime/conversation.go:239-268 | a call is pending if and only if the last assistant message made it and no later message answers it |
| Conversation.SubmissionIsRemembered | internal/runtime/conversation.go:126-176 | an accepted submission is remembered with its text, attachments, results and turn identifier |
| Conversation.OtherSequenceIsRefused | internal/runtime/conversation.go:130-136 | any other sequence number changes nothing |
| Conversation.ResponseIsRemembered | internal/runtime/conversation.go:182-196 | a response is remembered with its text and calls |
| Conversation.StoredTurnsSay | internal/runtime/conversation.go:171-212 | identifiers, sequence, role, usage, calls and content of the stored turns |
| Conversation.EmptyTurnEndsRestore | internal/runtime/conversation.go:282-303 | a turn without content ends a restore with the history before it |
| Conversation.PendingAfterResponse | internal/runtime/conversation.go:186-208 | after a response exactly its calls are pending |
| Conversation.PendingAfterSubmit | internal/runtime/conversation.go:126-181 | an accepted submission settles exactly the calls it answers |
| ConversationLaws.LogStaysOrdered | internal/runtime/conversation.go:171-196 | over every run storage sequences strictly increase and no stored turn moves |
| ConversationLaws.WireNumbersAreConsecutive | internal/runtime/conversation.go:130-136 | accepted wire numbers are consecutive from the counter |
| ConversationLaws.RestoreMirrorsMemory | internal/runtime/conversation.go:126-234 | after any run, turns refused by the store included, a restore succeeds and finds the stored steps' messages as they are read back and their counters |
| ConversationLaws.KeptFallsShort | internal/runtime/turn.go:168-192 | what is stored falls short of memory by the refused turns, its wire counter by the refused submissions |
| ConversationLaws.CountingOnAfterRestore | internal/runtime/conversation.go:130-136 | after a restore a client that counts on is accepted if and only if the store refused no submission |
| ConversationLaws.RestoreIsExact | internal/runtime/turn.go:168-192 | the restored memory is the live one if and only if every tool input is JSON as the encoder writes it and the store refused no turn that memory took |
| ConversationLaws.InvalidInputIsLost | internal/runtime/conversation.go:298-303 | a response with an input that is not JSON is restored as the zero message, with both counters right |
| ConversationLaws.TakenTurnIsLost | internal/runtime/turn.go:168-192 | a submission under an identifier the log has stays in memory and is gone after a restore |
| Codecs.LawfulCodec | internal/runtime/conversation.go:282-303 | there is a codec that reads back what it wrote, and null as the zero message, for which one input is no JSON and another is rewritten |
| Compaction.SumTurnTokens | internal/runtime/compact.go:389-402 | declared tokens, or a quarter of the content |
| Compaction.Bucket | internal/runtime/compact.go:58-71 | tool output, other older turns, and the last three |
| Compaction.EstimateFreed | internal/runtime/compact.go:106-116 | all of a dropped category, nine tenths of a summarized one |
| Compaction.BuildCompactPlan | internal/runtime/compact.go:53-128 | the plan; empty for three turns or fewer |
| Compaction.MergeActions | internal/runtime/compact.go:157-164 | the caller's action for a present category, or the suggested one |
| Compaction.DeleteTurns | internal/runtime/compact.go:318-325 | the log without these turns |
| Compaction.ReplaceTurnsWithSummary | internal/runtime/compact.go:289-316 | originals deleted, then the summary inserted unless its identifier is taken |
| Compaction.ApplyCompactPlan | internal/runtime/compact.go:135-231 | the new log and the answer, or the failure |
| CompactionActions.KeepingChangesNothing | internal/runtime/compact.go:157-202 | keeping both categories changes nothing and frees nothing |
| CompactionActions.OtherCategoriesAreIgnored | internal/runtime/compact.go:130-134 | actions for anything but the two older categories are ignored |
| CompactionActions.DroppingLeavesTools | internal/runtime/compact.go:157-202 | dropping the older turns and keeping tool output leaves exactly tool turns and the last three |
| CompactionActions.DroppingBothLeavesThree | internal/runtime/compact.go:157-202 | dropping both leaves the last three |
| CompactionActions.KeepingLeavesTexts | internal/runtime/compact.go:157-202 | keeping the older turns and dropping tool output leaves exactly all but older tool turns |
| CompactionActions.KeptToolsStay | internal/runtime/compact.go:192-202 | tool turns that the caller keeps stay, even on failure |
| CompactionActions.OtherwiseToolsGo | internal/runtime/compact.go:192-202 | otherwise no older tool turn is left |
| CompactionActions.SuggestionsLeaveOneSummary | internal/runtime/compact.go:157-202 | with neither category named, or both as suggested, one summary and the last three are left |
| CompactionActions.SummarySays | internal/runtime/compact.go:289-316 | place, identifier, role, mark and content of a summary |
| CompactionActions.TurnWeighs | internal/runtime/compact.go:389-402 | a turn weighs its declared tokens, or a quarter of its content |
| CompactionActions.PlanSays | internal/runtime/compact.go:53-128 | the plan's categories with their tokens and suggestions, its estimate, and the share before, of 200000 without a window |
| CompactionActions.AnswerSays | internal/runtime/compact.go:166-202 | which lines the answer has, by what was dropped, summarized and kept |
| CompactionLaws.CompactedIs | internal/runtime/compact.go:135-231 | fails if and only if a turn that stays, here or in another session, has the summary's identifier; otherwise each bucket is rewritten in place before the unchanged recent turns |
| CompactionLaws.ContentsExactly | internal/runtime/compact.go:166-202 | exactly which turns are there afterwards, for any actions |
| CompactionLaws.LastThreeStay | internal/runtime/compact.go:144-155 | the last three turns are unchanged, even on failure |
| CompactionLaws.StaysIncreasing | internal/runtime/compact.go:289-316 | sequence numbers stay strictly increasing, for any actions, even on failure |
| CompactionLaws.SummaryNamesReplaced | internal/runtime/compact.go:173-179 | a summary's original turns are exactly the turns it replaced, in order |
| CompactionLaws.SummaryLands | internal/runtime/compact.go:306-314 | the summary takes the place of the first turn it replaces |
| CompactionLaws.PlanAccounts | internal/runtime/compact.go:73-116 | category tokens sum to the total, and the estimate stays within it |
| CompactionLaws.GuardNeverFires | internal/runtime/compact.go:117-120 | the share after compaction is never clamped |
| CompactionLaws.FreedAsPlanned | internal/runtime/compact.go:157-202 | without overrides the tokens freed are the plan's estimate |
| CompactionLaws.FreedIsTrue | internal/runtime/compact.go:182-200 | the tokens reported freed are those lost if and only if nothing was summarized or the summary costs a tenth |
| CompactionLaws.SumAfter | internal/runtime/compact.go:194-202 | dropping tool output takes exactly its weight, whatever is weighed |
| CompactionRestore.NextSequenceIsFree | internal/runtime/conversation.go:220-231 | a compacted log restores with the same storage counter, and the next sequence is above every stored and every replaced turn |
| CompactionRestore.WireCounterAfter | internal/runtime/conversation.go:229-231 | the restored wire counter is lower by the user messages removed |
| CompactionRestore.CountingOnIsAccepted | internal/runtime/conversation.go:130-136 | a client that counts on is accepted if and only if no user message was removed |
| CompactionRestore.LawfulSummaryReads | internal/runtime/compact.go:289-293 | with such a codec a summary reads back as the assistant message it was made from |
| CompactionCases.ClashDeletes | internal/runtime/compact.go:294-314 | with a recent turn named like the summary to come, the older turn is deleted and the answer is a failure |
| CompactionCases.LongSummaryFreesLess | internal/runtime/compact.go:182-183 | a session in which nine tokens are reported freed and eight are |
| CompactionCases.CountingOnIsRefused | internal/runtime/conversation.go:130-136 | a session whose only older turn was a user's: a client that counts on is refused |
| Aggregation.AggregateMetrics | internal/dashboard/api.go:345-391 | one row per distinct key in first-seen order, each the fold of that key's metrics |
| Aggregation.KeysAreDistinct | internal/dashboard/api.go:346-360 | each key of the input appears once |
| Aggregation.OrderIsFirstSeen | internal/dashboard/api.go:372-389 | a key's row stands where the key was first seen |
| Aggregation.OfKeyExactly | internal/dashboard/api.go:346-360 | a row's metrics are exactly those of its provider, or of its model |
| Aggregation.RowSays | internal/dashboard/api.go:374-389 | a row is headed by its provider or model and leaves the other blank |
| Aggregation.MergedAverage | internal/dashboard/api.go:366-370 | one merge divides toward zero, and keeps the average when there are no requests |
| Aggregation.RowConserves | internal/dashboard/api.go:360-365 | a row carries the exact counts, tokens, errors and cost of its metrics |
| Aggregation.GroupingConserves | internal/dashboard/api.go:345-391 | over all rows the totals are those of the input |
| Aggregation.RunningAverageBound | internal/dashboard/api.go:366-370 | for non-negative inputs the average times N is at most the weighted sum and short of it by at most N - 1 for each row after the first |
| Aggregation.AverageAccounts | internal/dashboard/api.go:366-370 | the weighted latencies are the average times the requests plus the remainders the merges discarded |
| Aggregation.MeanExactly | internal/dashboard/api.go:366-370 | the average is the mean rounded down if and only if the discarded remainders add up to less than N |
| Aggregation.TwoRowsAreExact | internal/dashboard/api.go:366-370 | up to two rows it is the mean rounded down |
| Aggregation.ThreeRowsCanDrift | internal/dashboard/api.go:366-370 | three rows whose average is below the mean rounded down |
| RunRegistry.Registry.constructor | internal/runtime/run_registry.go:24-29 | both maps empty |
| RunRegistry.Registry.Register | internal/runtime/run_registry.go:31-50 | the new maps for some eviction the bound allows |
| RunRegistry.Registry.Cancel | internal/runtime/run_registry.go:52-65 | true if and only if the run is there and can be cancelled; then both entries are gone |
| RunRegistry.Registry.RunIDForTurn | internal/runtime/run_registry.go:67-71 | the run of a turn, or empty |
| RunRegistry.Registry.Deregister | internal/runtime/run_registry.go:73-80 | the maps without this run and this turn |
| RunRegistry.RegisterIsExact | internal/runtime/run_registry.go:31-50 | registering keeps the turn map the inverse if and only if no other run that stays serves the turn |
| RunRegistry.CancelKeeps | internal/runtime/run_registry.go:52-65 | cancelling always keeps it |
| RunRegistry.DeregisterIsExact | internal/runtime/run_registry.go:73-80 | deregistering keeps it if and only if the pair belongs together |
| RunRegistry.RegisteredIsFound | internal/runtime/run_registry.go:31-50 | a registered run is there and found by its turn; another is evicted only for a new run in a registry of 4096 |
| RunRegistry.CancelledIsGone | internal/runtime/run_registry.go:52-65 | a cancelled run and its turn are gone; one that cannot be cancelled stays, and so do all others |
| RunRegistry.DeregisteredIsGone | internal/runtime/run_registry.go:73-80 | a deregistered run and turn are gone and all others stay |
| RunRegistry.RegistryInvariant | internal/runtime/run_registry.go:31-80 | over every run and any evictions: inverse maps, both within 4096, and a lookup finds exactly the run that serves the turn |
| Correlation.Connection.NextRequestId | internal/harness/client.go:250-253 | a fresh number and its call |
| Correlation.Connection.AddPending | internal/harness/client.go:192-195 | the call's channel is in the table |
| Correlation.Connection.ReleasePending | internal/harness/mcp_client.go:204-208 | the call has failed and its entry is gone |
| Correlation.Connection.TakePending | internal/harness/client.go:287-293 | the entry of a known response is taken out, an unknown one dropped |
| Correlation.Connection.Deliver | internal/harness/client.go:294-296 | the response is in the call's slot |
| Correlation.Connection.FailPending | internal/harness/mcp_client.go:121-127 | every pending channel is closed and the table empty |
| CorrelationLaws.IdsAreConsecutive | internal/harness/mcp_client.go:154-158 | over every run the calls carry the numbers 1, 2, 3 and so on, one each |
| CorrelationLaws.IdsAreKept | internal/harness/mcp_client.go:154-158 | a call's number never changes |
| CorrelationLaws.IdsNeverReused | internal/harness/client.go:250-253 | over every run no two requests of the protocol client carry the same identifier on the wire |
| CorrelationLaws.ReaderNeverBlocks | internal/harness/client.go:287-296 | whenever the reader sends, the slot is free and the channel open |
| CorrelationLaws.OneOwnResponse | internal/harness/mcp_client.go:106-129 | no channel is sent to twice or both sent to and closed, and a call receives only its own response |
| CorrelationLaws.FirstResponseWins | internal/harness/client.go:282-296 | what reaches a call is the first response with its key read while it waits |
| CorrelationLaws.ReturnsFirst | internal/harness/client.go:211-231 | what a call returns is that response, whatever else arrives |
| CorrelationLaws.SweepWakesAll | internal/harness/mcp_client.go:119-127 | right after closing every registered caller can return |
| CorrelationLaws.TrimSpaces | internal/harness/client.go:333-341 | the identifier without spaces and tabs at its ends |
| CorrelationLaws.KeyIsExact | internal/harness/client.go:325-331 | a response has the n-th request's key if and only if its trimmed identifier is n, quoted or not |
| CorrelationLaws.PaddedKey | internal/harness/client.go:325-341 | spaces and tabs around an identifier do not matter |
| CorrelationLaws.DecimalKeysAreInjective | internal/harness/client.go:250-253 | decimal keys never repeat |
| Lifecycle.CapabilityManager.ReplaceTools | internal/runtime/capabilities.go:110-117 | the catalog of these tools, the last of a key staying |
| Lifecycle.CapabilityManager.ApplyUpdate | internal/runtime/capabilities.go:121-136 | removed by plain name first, then added; the counts answered are the list lengths |
| Lifecycle.Connection.constructor | internal/runtime/connection.go:132-149 | a connecting connection with an empty catalog |
| Lifecycle.Connection.Transition | internal/runtime/connection.go:202-220 | moves if and only if the move is listed |
| Lifecycle.Connection.Initialize | internal/runtime/connection.go:227-232 | to Registering, through Authenticating when required |
| Lifecycle.Connection.BeginRegister | internal/runtime/capabilities.go:176-186 | goes on only in state Registering |
| Lifecycle.Connection.Partition | internal/runtime/capabilities.go:205-214 | the valid tools, and names and reasons of the others, in order |
| Lifecycle.Connection.EndRegister | internal/runtime/capabilities.go:196-239 | failure on a foreign version; otherwise version, catalog, project, Ready if the move is still allowed, and the answer with the split and the server's limits |
| Lifecycle.Connection.EndUpdate | internal/runtime/capabilities.go:245-269 | all or nothing: refused with the first invalid tool and its reason, or applied and answered with the lengths of both lists and the time |
| LifecycleLaws.OperationalMeansRegistered | internal/runtime/capabilities.go:176-269 | in every reachable state Ready or Degraded means exactly one successful registration and version "1"; the catalog holds only valid tools under their own keys |
| LifecycleLaws.MovesAreListed | internal/runtime/connection.go:84-90 | no step but initialization makes more than one move, and none an unlisted one |
| LifecycleLaws.MovesExactly | internal/runtime/connection.go:84-90 | a connection moves exactly along the moves written out |
| LifecycleLaws.InitializedExactly | internal/runtime/connection.go:222-232 | initialization ends in Registering, through Authenticating if and only if required |
| LifecycleLaws.ServedExactly | internal/runtime/connection.go:333-352 | which methods are served in which state |
| LifecycleLaws.ValidExactly | internal/runtime/capabilities.go:145-172 | when a tool is valid, and the reason otherwise |
| LifecycleLaws.SplitExactly | internal/runtime/capabilities.go:205-214 | every offered tool is registered or rejected, with its own reason |
| LifecycleLaws.RegisteredExactly | internal/runtime/capabilities.go:176-239 | what a registration leaves: version, project and exactly the valid tools under their keys, or a failed connection |
| LifecycleLaws.UpdatedExactly | internal/runtime/capabilities.go:119-136 | what an update leaves, key by key; nothing changes with one invalid tool |
| LifecycleLaws.FailedIsFinal | internal/runtime/connection.go:84-90 | once Failed, always Failed |
| LifecycleLaws.AuthenticationIsPassed | internal/runtime/connection.go:222-232 | Ready is reached through Authenticating if and only if authentication is required |
| LifecycleLaws.ReplayIsRefused | internal/runtime/capabilities.go:177-186 | once Ready was reached a replayed registration changes nothing |
| LifecycleLaws.SuccessMeansReady | internal/runtime/capabilities.go:216-239 | a successful answer means Ready if and only if the connection did not fail meanwhile |
| LifecycleLaws.SuccessOnFailedConnection | internal/runtime/connection.go:257-262 | a run in which a missed heartbeat makes that answer untrue |
| LifecycleLaws.AllRegisteredStay | internal/runtime/capabilities.go:110-117 | every registered tool is in the catalog if and only if no two different ones share a key |
| LifecycleLaws.KeysCanCollide | internal/runtime/capabilities.go:138-143 | a name with a colon and a namespaced name share a key: only the later tool stays |

## Left out

- AdapterLaws.PausingIsInvisible: for messages that leave the run attached; AdapterOrder.OrderOverStart, AdapterOrder.EndedRowIsWhole and AdapterOrder.StartedRowIsWhole are the exact conditions over its start and at its end.
- Correlation.Connection.Deliver: the free slot and open channel are its precondition here; CorrelationLaws.ReaderNeverBlocks proves that every reachable state meets it.
- CorrelationLaws.SweepWakesAll: a caller that registers after the sweep waits for its own write to fail, which is I/O.
- Prompt.Assemble: the layers' texts are inputs, and the default share of a quarter is taken as exact integer division.
- Messages.EstimateMessageTokens: JSON lengths come from an abstract encoding; list lengths are brackets, elements and commas.
- Conversation.Conversation.RestoreFromTurns: JSON is an abstract codec whose one law is that reading what was written gives the message with its tool inputs as the encoder rewrites them; strings are taken to be valid UTF-8.
- Conversation.Conversation.AppendAssistantTurn: the stored turn's lists of touched files are always empty here and its creation time is left out.
- Compaction.BuildCompactPlan: the fixed value scores and the preview text of a category are left out.
- Compaction.ApplyCompactPlan: the summarizer's text, the session event it records and the wording of its answer are left out; nine tenths is exact integer arithmetic in plan and application alike.
- TurnLog.Store.CreateTurn: the listing cap of 2000 turns is left out; other refusals, by I/O, are a flag of each step in `ConversationLaws`.
- Aggregation.AggregateMetrics: costs are real numbers.
- Sse.SSEParser.Next: trimming removes ASCII white space only, not Unicode's; a `char` stands for a byte.
- Sse.ScanFields: trimming removes ASCII white space only.
- Sse.ParseSSEChunks: trimming removes ASCII white space only.
- Shell.ShellState.EmitSubmitOnEnter: the composer's text is trimmed of ASCII white space only.
- Lifecycle.Connection.Partition: names are trimmed of ASCII white space only.
- SseLineEnds.CrLfReadersAgree: streams that mix both line endings are not characterized.
- StreamingLaws.LiveAgreesWithCapture: events named by another type than their payload's are not characterized; a payload decodes for both readers or for neither.
- Dispatcher.ToolDispatcher.HandleToolCall: a dispatcher without executor or sender, and one without a plan accumulator, are left out, as is the observer; timeouts are part of the execution's result.
- Streaming.Relay: cancellation is a round after which the context is done; run events, the record of the model call and its cost are left out.
- Shell.ShellState.PressKey: the composer, previews, focus zones, selection mode, /quit and /select are left out; emitted actions stay in one list.
- Adapter.Adapter.Update: what the runtime does with a dispatched action is left out; the adapter's state is unchanged by it.
- Lifecycle.Connection.BeginRegister: decoding errors of parameters are left out; they change nothing.
- The server never enters Degraded by itself; that move and its way back are steps of the environment.
- Sockets, TLS, HTTP, timers, processes, the command line and configuration: I/O and plumbing.
- OpenAI and Ollama adapters, routing and formatters: easier copies of the same claims.
- `session.clear` and `Conversation.Reset`: they restart numbering while stored turns remain, so the mirror does not hold across them.
