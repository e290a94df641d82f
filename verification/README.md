# LLM gateway: verified model

A Dafny model of the request path of an LLM gateway, with proofs of what it is for: stream and
message conversion that keeps meaning, a failover loop that settles every breaker lease once, a gate
that commits a response only for output, candidate selection, and the sliding windows behind the
breakers and the route metrics.

## What is modelled

**Streaming converters.** `Framing` is the text the four converters share: reassembling lines and
events from byte chunks, and flushing at the end of input. `Frames` is what the gateway prints and
that the framing reads it back. `EventMachine` lifts both to events, in both directions: printed
events behave as events, and any bytes at all behave as some events; `EventText` says that the
layout of an event never shows. `MessagesToResponses`, `ResponsesToMessages`, `ChatToResponses` and
`ResponsesToChat` are the four converters, each as a step on values and as an object with the fields
that `ProcessEvent` updates; `StreamConverter` is the object with `Write` and `Close`. `Bracketing`,
`MessagesRoundTrip`, `ChatOutputs` and `ChatRoundTrip` hold the theorems about them, with
`ChatStreams` and `ChatAcceptance` for what a Chat stream says and when it is accepted, `ChatItems`
for what it announces, `MessagesOutputs`, `ResponsesReading` and `ResponsesMeaning` the same for the
other three, and `MessagesToChat` and `ChatToMessages` for the way of a message to a Chat client and
of a Chat stream to a Messages client; `Composition`, `Chain` and `ChainErrors` hold those about
chained converters.

**Failover and breakers.** `Breaker` is the leased circuit breaker, `BreakerRuns` its behaviour under
every interleaving of lease holders. `Failover` is a monitor over the trace of one request, with what
a kept trace means; `Leases` is what it means for the breakers. `Forwarding` is the request's record
and the vocabulary of fates; `BufferedForward` and `StreamForward` are the two loops, driven by an
arbitrary course of events. `Verdicts` tells their decisions from plain statuses and failures.

**Streaming attempts.** `UsageAccumulator` reads usage, end and output of a stream as it passes;
`EventGate` finds complete events in staged bytes; `StreamAttempt` is the gate and the classification
of results; `GateSafety` and `ConvertersAtGate` say what the gate guarantees, `AttemptOutcomes` when
an attempt has which result, `LostAtClose` what the client can lose.

**Requests, responses, selection, windows.** `ChatInput` and `ChatMessages` convert requests,
`ResponseBodies` whole responses, and `BodyAcceptance` says which of them are accepted; `Capabilities`
and `Matcher` select candidates, `SelectionTerms` says which in plain terms; `TargetBreaker` and
`RouteWindows` are the sliding windows.

## How to read it

- A byte is the character with the same code, so that ASCII tags are string literals.
- JSON is a pair of functions, an encoding of payload records that is free of line breaks and the
  decoding that undoes it (`Frames.Lawful`; every countable payload type has such a pair). A payload
  record has the fields the code reads; a missing field has its zero value.
- Counters, generations and times are unbounded integers. The clock and every answer of the network
  and of other parts are parameters.
- A value function and the method of the object that computes it in place are two forms of one
  operation; the method's contract equates them and the lemmas are about the function.

Where the code and its comments differ, the model follows the code:

- An attempt that the client cancels before the response arrives is reported as uncommitted
  (`internal/proxy/proxy.go:2547-2572`), although the comment above `streamAttempt` says otherwise.
- What a converter gives at `Close` is written to the converter again, which is closed by then
  (`internal/proxy/proxy.go:2920-2928`), so it never reaches the client. `GateSafety.ClosedSendsNothing`
  states this; it is why the gate's guarantee is about the output of `Write`. `LostAtClose` says when
  something is lost.
- Chat streams that mix text and tool calls print their opening events twice
  (`internal/proxy/stream_convert_chat.go:261-268`), and a Chat call whose index is not below the
  number of calls gets no closing events. `ChatOutputs.OpeningsPrinted` and
  `ChatOutputs.FinishedExactlyBelowCount` say exactly when, `ChatOutputs.MixedOpensTwice` and
  `ChatOutputs.SparseCallUnfinished` name streams.
- Usage chunks of a Chat stream are merged, not replaced, so the last one does not always come back
  (`internal/proxy/stream_convert_chat.go:204-225`): `ChatStreams.ReturnedIsLast`,
  `ChatRoundTrip.LastReportChanged`.
- A Chat stream with more than one item loses all but the first on its way to a Messages client, and
  its calls are merged into one (`internal/proxy/stream_convert.go:374-377`), because the items stay
  open until the end: `ChatToMessages.NothingLostExactly`, `ChatToMessages.TwoCallsMerge`.
- A chain of converters may report different errors for the same stream cut differently, because a
  failing call drops its output: `ChainErrors.ErrorIgnoresChunksExactly`,
  `ChainErrors.ChunksDecideTheError`.
- An `event: message_stop` line alone ends the accumulator's reading, before the data line of that
  event (`internal/proxy/streamusage.go:166-171`).

## Model

| member | source | states |
|---|---|---|
| Framing.FeedTwice | internal/proxy/stream_convert.go:43-115 | writing two chunks gives the output, first error and state of writing their concatenation |
| Framing.ChunkingIsInvisible | internal/proxy/stream_convert.go:43-115 | any cutting of a byte stream into writes, even inside a line or line ending, gives the same output, first error and converter state as one write; for any converter |
| Framing.ConversionIgnoresChunking | internal/proxy/stream_convert_chat.go:62-146 | the same for a whole stream with its `Close` |
| Frames.CountableTypesHaveCodecs | internal/proxy/stream_convert.go:330-334 | the requirement on JSON can be met for every countable payload type |
| Frames.DrainFrame | internal/proxy/stream_convert_chat.go:12-16 | a printed event is read back as exactly its name and data |
| Frames.DrainFrames | internal/proxy/stream_convert_chat.go:90-146 | a printed sequence of events is processed event by event, up to the first error |
| EventMachine.ConvertEvents | internal/proxy/stream_convert.go:59-115 | converting printed events, in any chunks, is running the converter on the events and printing what it emits |
| EventMachine.BytesAreEvents | internal/proxy/stream_convert.go:272-328 | whatever bytes arrive in whatever chunks, the output, the error and the final core are those of some sequence of events, as `Close` leaves them unless a write failed |
| EventText.TextIsRead | internal/proxy/stream_convert_chat.go:90-146 | a text of events in any layout (line feeds or carriage returns too, with or without a space after the colon, other lines between) is processed event by event, each as its last name and its data values joined by line feeds |
| EventText.LayoutIsInvisible | internal/proxy/stream_convert.go:59-115 | two layouts of the same events give the same output, error and state, for every converter |
| EventText.PrintedIsLaid | internal/proxy/stream_convert_chat.go:12-16 | what the gateway prints is one such layout |
| StreamConverter.Converter.Write | internal/proxy/stream_convert.go:43-49 | takes the object to the state, and gives the output and first error, that the chunk laws are about |
| StreamConverter.Converter.Close | internal/proxy/stream_convert_chat.go:70-88 | drains the rest of the input once, and reports an unfinished stream where the converter does |
| StreamConverter.Converter.DrainComplete | internal/proxy/stream_convert_chat.go:90-107 | the loop over complete lines, up to the first error |
| StreamConverter.Converter.DrainToEnd | internal/proxy/stream_convert_chat.go:90-122 | the loop, the unterminated last line, and the pending event |
| StreamConverter.Converter.TakeLine | internal/proxy/stream_convert_chat.go:124-146 | event and data lines lose one space, data lines are joined with line feeds, an empty line ends the event |
| MessagesToResponses.MessagesConverter.ProcessEvent | internal/proxy/stream_convert.go:117-226 | one Messages event updates the fields and emits as the value step does, with every error case |
| MessagesToResponses.MessagesConverter.StartOfBlock | internal/proxy/stream_convert.go:153-181 | a block start takes the next item index and announces the item and, for text, its part |
| MessagesToResponses.MessagesConverter.DeltaOfBlock | internal/proxy/stream_convert.go:182-196 | a delta is recorded and passed on at the current item |
| MessagesToResponses.MessagesConverter.EndOfBlock | internal/proxy/stream_convert.go:197-208 | a stop closes the current item with the text or arguments recorded |
| ResponsesToMessages.ResponsesConverter.ProcessEvent | internal/proxy/stream_convert.go:336-460 | one Responses event updates the fields and emits as the value step does, with every error case |
| ResponsesToMessages.ResponsesConverter.OpenBlock | internal/proxy/stream_convert.go:372-396 | an item opens the next block unless one is open |
| ResponsesToMessages.ResponsesConverter.Finish | internal/proxy/stream_convert.go:462-489 | the end closes an open block before the message |
| ChatToResponses.ChatConverter.ProcessEvent | internal/proxy/stream_convert_chat.go:180-291 | one Chat chunk updates the fields and emits as the value step does, with every error case |
| ChatToResponses.ChatConverter.ProcessToolCallDelta | internal/proxy/stream_convert_chat.go:339-402 | a tool call delta is checked, given its slot, announced once and passed on, in that order |
| ChatToResponses.ChatConverter.Identify | internal/proxy/stream_convert_chat.go:353-374 | an id may not change nor be shared, and a new call takes the next output index |
| ChatToResponses.ChatConverter.EndStream | internal/proxy/stream_convert_chat.go:449-503 | the loop over the calls and the final event |
| ResponsesToChat.ResponsesChatConverter.ProcessEvent | internal/proxy/stream_convert_chat.go:683-799 | one Responses event updates the fields and emits as the value step does, with every error case |
| ResponsesToChat.ResponsesChatConverter.AddOutputItem | internal/proxy/stream_convert_chat.go:716-754 | one message or any number of calls, never both |
| ResponsesToChat.ResponsesChatConverter.End | internal/proxy/stream_convert_chat.go:835-873 | usage, finish reason and the final mark, once |
| Bracketing.AnyEventsBracketed | internal/proxy/stream_convert.go:354-489 | for any events at all, Responses to Messages output is well bracketed |
| Bracketing.AnyBytesBracketed | internal/proxy/stream_convert.go:354-489 | the same for any bytes, which print the well-bracketed output |
| Bracketing.BracketingSpelledOut | internal/proxy/stream_convert.go:372-489 | well bracketed means: text and tool blocks 0, 1, 2, … start once each, at most one is open, deltas and stops name it and deltas are of its kind, `message_start` comes at most once, `message_stop` once, with none open, and last |
| MessagesRoundTrip.StreamReturns | internal/proxy/stream_convert.go:117-226 | for every message of text and tool blocks, Messages to Responses to Messages returns the same events: indices, fragments, ids, names, tokens and stop reason |
| MessagesRoundTrip.PingsAreInvisible | internal/proxy/stream_convert.go:122-124 | pings anywhere in the stream change nothing |
| MessagesRoundTrip.MessageComesBack | internal/proxy/stream_convert.go:336-489 | the same on bytes, for any chunking before and between the two converters |
| MessagesOutputs.AcceptedExactly | internal/proxy/stream_convert.go:117-226 | which Messages streams convert without error, for any events: one `message_start`, blocks and deltas of known kinds, a block stop only after a block; anything after the end |
| MessagesOutputs.AnyEventsSound | internal/proxy/stream_convert.go:153-208 | for any events Messages to Responses numbers its items 0, 1, 2, …, its deltas and done events are at the last item, and text-done and arguments-done carry exactly what was passed on for that item |
| MessagesOutputs.AnyBytesSound | internal/proxy/stream_convert.go:153-208 | the same for any bytes |
| MessagesOutputs.ItemsAreTheBlocks | internal/proxy/stream_convert.go:153-181 | the items announced for an accepted stream are those of its blocks in order, a call with its id and name |
| MessagesOutputs.CompletedExactly | internal/proxy/stream_convert.go:209-268 | the output of an accepted stream holds a `response.completed` exactly when the stream holds a `message_stop`, and then ends with it, with the tokens and the stop reason told before the first |
| MessagesToChat.MessageBecomesChat | internal/proxy/stream_convert_chat.go:683-873 | every Messages stream of blocks, through Responses to Chat, is accepted exactly when it is one text block or any number of tool calls with id and name; then the Chat stream has the same text and calls, the tokens, and the finish reason: `length` for `max_tokens`, `tool_calls` for `tool_use` or any call, `stop` for every other stop reason |
| ResponsesReading.MessagesAccepted | internal/proxy/stream_convert.go:336-460 | for any events Responses to Messages has no error exactly when every event is readable and, up to the first `response.completed`, of a known type, item kind and part kind, none incomplete or failed; and of the events before an error, `message_stop` is in the output exactly when one is a `response.completed` |
| ResponsesReading.CompletedSays | internal/proxy/stream_convert.go:462-489 | an accepted stream with a `response.completed` ends with `message_delta` and `message_stop`, with the stop reason (or `end_turn`) and output tokens of the first |
| ResponsesReading.ChatAccepted | internal/proxy/stream_convert_chat.go:683-799 | for any events Responses to Chat has no error exactly when, up to the end, every event is readable and of a known type, no failure, with one message or any number of calls with id and name, and plain text parts |
| ResponsesReading.ChatBytesAccepted | internal/proxy/stream_convert_chat.go:683-799 | the same for any bytes |
| ResponsesReading.ChatEndSays | internal/proxy/stream_convert_chat.go:800-873 | how the Chat stream of any accepted Responses stream ends: usage, and the finish reason for the status, the reason and the calls |
| ResponsesMeaning.ChatMeansTheSame | internal/proxy/stream_convert_chat.go:683-873 | for any accepted Responses stream, the Chat stream means what the events say: text, calls with id, name and arguments at their indices, usage and finish reason |
| ResponsesMeaning.MessagesMeanTheSame | internal/proxy/stream_convert.go:336-489 | for any accepted Responses stream, a Messages client hears what the events say, one open item at a time, with stop reason and output tokens |
| ChatOutputs.AnyChunksSound | internal/proxy/stream_convert_chat.go:252-274 | for any chunks, announced output indices are pairwise distinct and below the next index, no two calls share an id, and every arguments-done event carries exactly the deltas of its index |
| ChatOutputs.AnyBytesSound | internal/proxy/stream_convert_chat.go:339-402 | the same for any bytes, output and final state |
| ChatOutputs.FinishedExactlyBelowCount | internal/proxy/stream_convert_chat.go:465-477 | in the output of every stream that reaches its end, the call of a tool index has its done events exactly when the index is below the number of tool indices seen |
| ChatOutputs.AllFinishedExactlyDense | internal/proxy/stream_convert_chat.go:339-477 | on every well-formed stream all announced calls get their done events exactly when the tool indices seen are 0, 1, … without a gap |
| ChatOutputs.SparseCallUnfinished | internal/proxy/stream_convert_chat.go:465-477 | a whole accepted stream with one call of index 1: the call is announced and never finished |
| ChatOutputs.MessageFinishedOnce | internal/proxy/stream_convert_chat.go:451-464 | in the output of every stream that reaches its end an announced message gets exactly one text-done, one part-done and one item-done, in that order, at its output index and before the last event; without an announced message there is none |
| ChatOutputs.CallFinishedOnce | internal/proxy/stream_convert_chat.go:465-477 | and every call below the number of tool indices gets exactly one arguments-done, with all that was passed on, and then one item-done |
| ChatItems.ItemsAreKnown | internal/proxy/stream_convert_chat.go:376-402 | for any events without an error, every announced item is the one message or a call, at the index and under the id and name that this call has for good; a call without an id is named after its index |
| Identities.ChatResponseIsOne | internal/proxy/stream_convert_chat.go:404-525 | for any Chat events, every event about the response has one id and the status of its type |
| Identities.MessageResponseIsOne | internal/proxy/stream_convert.go:117-226 | the same for any Messages events |
| Identities.ChunksAreLabelled | internal/proxy/stream_convert_chat.go:705-833 | from a `response.created` to the next, every Chat chunk has the id and model that it brought |
| ChatOutputs.OpeningsPrinted | internal/proxy/stream_convert_chat.go:252-268 | for any events `response.created` is printed once for the first tool delta and once for the first text, so at most once exactly when not both arrive |
| ChatOutputs.MixedOpensTwice | internal/proxy/stream_convert_chat.go:252-348 | an accepted stream of text and then a call for which it is printed twice |
| ChatAcceptance.AcceptedExactly | internal/proxy/stream_convert_chat.go:180-402 | which Chat streams are accepted to their end, as a check on the events alone: one choice of index 0, known fields, tool indices not negative, type `function` or none, a fresh id and a name first and the same id or none later, readable usage, a known finish reason, an end; text, calls or both |
| ChatAcceptance.LastEventSays | internal/proxy/stream_convert_chat.go:479-525 | every stream that reaches its end closes with the event its finish reason calls for, with all usage reports as one: the last counts, and each detail from the last report that states it |
| ChatRoundTrip.ChatComesBack | internal/proxy/stream_convert_chat.go:180-291 | a Chat stream whose calls begin with id and name passes Chat to Responses to Chat to its end exactly when it is well formed and does not bring both text and calls; then text, each call's id, name and arguments in order of arrival even when interleaved, and the finish reason come back, `stop` plus calls as `tool_calls`; and exactly which usage, for any number of reports and every finish reason |
| ChatRoundTrip.ChatBytesComeBack | internal/proxy/stream_convert_chat.go:683-873 | the same on bytes, for any chunking before and between the two converters |
| ChatStreams.ReturnedIsLast | internal/proxy/stream_convert_chat.go:204-225 | on a completed stream the usage that comes back is the last report exactly when that report has input tokens unless none were known early, and states each detail unless none was stated above zero |
| ChatStreams.OneReportReturns | internal/proxy/stream_convert_chat.go:204-225 | a single report always comes back |
| ChatRoundTrip.LastReportChanged | internal/proxy/stream_convert_chat.go:204-225 | a stream of two reports where the last states no cached tokens and the early ones come back |
| ChatRoundTrip.EndingReasons | internal/proxy/stream_convert_chat.go:479-501 | every finish reason goes through the Responses status and comes back |
| ChatToMessages.ChatReachesMessages | internal/proxy/adapter.go:109-121 | every well-formed Chat stream, through Responses to Messages: it converts to its end exactly when it finishes with `stop` or `tool_calls`, and then the message has the first item of the stream as its only block, the whole text or the first call with the arguments of all calls, and its tokens and stop reason |
| ChatToMessages.ChatBytesReachMessages | internal/proxy/adapter.go:109-121 | the same on bytes, for any chunking before and between the two converters |
| ChatToMessages.NothingLostExactly | internal/proxy/stream_convert.go:372-426 | so of a completed Chat stream nothing is lost or mixed up on the way to a Messages client exactly when it has at most one item, a text or a call |
| ChatToMessages.TwoCallsMerge | internal/proxy/stream_convert.go:374-377 | two parallel calls reach a Messages client as one call with the arguments of both |
| Composition.ComposedHasLaw | internal/proxy/adapter.go:179-210 | chaining keeps the law that chunks do not matter to output, state and whether there is an error |
| Composition.ComposedIsComposition | internal/proxy/adapter.go:173-210 | two chained converters succeed exactly when both whole-stream conversions do, and then give the second's output for the first's, for any chunking |
| Composition.DeliveredBeforeError | internal/proxy/adapter.go:179-210 | a stream that fails, in a write or at `Close`, has delivered exactly its output for the chunks before the failing call, which has the error |
| Composition.ChainOnEvents | internal/proxy/adapter.go:110-121 | a chain of two of the converters on a printed stream prints what the second emits for the events of the first |
| Chain.ComposedConverter.Write | internal/proxy/adapter.go:179-189 | the loop over the steps, with each step's new state and the first error |
| Chain.ComposedConverter.Close | internal/proxy/adapter.go:191-210 | the nested loops: each step is closed in turn and what it gives is written through the steps after it |
| Chain.ChainHasLaw | internal/proxy/adapter.go:173-210 | a chain of any length obeys the same law |
| Chain.ChainIsComposition | internal/proxy/adapter.go:173-210 | a chain of any length, for any chunking, succeeds exactly when the whole-stream conversions do one after the other, and then gives what the last of them gives |
| ChainErrors.ComposedReports | internal/proxy/adapter.go:179-210 | the error of two chained converters for any chunking, `Close` included: when the first fails, that of the second on what it was given before, else that of the first; when it does not, that of the second on its whole output |
| ChainErrors.ComposedDelivers | internal/proxy/adapter.go:179-210 | for any two converters the second runs on what the calls of the first deliver, and its error comes first |
| ChainErrors.ChainReports | internal/proxy/adapter.go:179-210 | a chain of any length reports the error of the last step that fails, each run on what the one before delivers and closed only if that one was |
| ChainErrors.LastReports | internal/proxy/adapter.go:179-210 | when no step before the last fails, the error of a chain of any length does not depend on the chunks |
| ChainErrors.ErrorIgnoresChunksExactly | internal/proxy/adapter.go:179-189 | the error of two chained converters is the same for every chunking exactly when the first does not fail while written, or the second has no other error on what the first gives before failing |
| ChainErrors.ChunksDecideTheError | internal/proxy/adapter.go:110-121 | one Messages stream that a Messages to Chat chain refuses with one error when written at once and another when written byte by byte |
| ChainErrors.ChainsAreNotExact | internal/proxy/adapter.go:110-121 | so chaining does not keep the law with the error, which single converters obey |
| ChainErrors.SingleIsExact | internal/proxy/stream_convert.go:43-115 | in a single converter chunks never change the error |
| Breaker.CircuitBreaker.constructor | internal/proxy/circuitbreaker.go:63-71 | a new breaker is closed in its first generation |
| Breaker.CircuitBreaker.AcquireLease | internal/proxy/circuitbreaker.go:103-128 | when a lease is granted, of what kind, and what that does to the breaker |
| Breaker.CircuitBreaker.MayContinue | internal/proxy/circuitbreaker.go:137-147 | a lease may go on exactly in its own generation and mode |
| Breaker.CircuitBreaker.SettleLease | internal/proxy/circuitbreaker.go:149-192 | the effect of an accepted settlement, and that a stale one changes nothing |
| Breaker.CircuitBreaker.CancelLease | internal/proxy/circuitbreaker.go:194-204 | a cancelled probe reopens the breaker; anything else changes nothing |
| Breaker.CircuitBreaker.WouldAdmit | internal/proxy/circuitbreaker.go:216-230 | looks without changing anything |
| BreakerRuns.OneProbe | internal/proxy/circuitbreaker.go:103-204 | in every reachable state the breaker is half-open exactly when a probe is pending, and then exactly one grant holds it |
| BreakerRuns.RunMonotone | internal/proxy/circuitbreaker.go:103-204 | generations never decrease |
| BreakerRuns.LeaseDiesAtOpening | internal/proxy/circuitbreaker.go:149-204 | a lease from before an opening can never change the breaker again |
| BreakerRuns.NoGrantDuringCooldown | internal/proxy/circuitbreaker.go:110-118 | nothing is granted between an opening and the recovery timeout |
| BreakerRuns.AdmitsAgainExactly | internal/proxy/circuitbreaker.go:103-128 | after the last failure that opened the breaker, whatever was asked or cancelled since: a call is granted exactly when the breaker has closed again, or no probe is out and the timeout since that failure has passed; and the lease is a probe exactly in the second case |
| BreakerRuns.NeverOpenedAdmits | internal/proxy/circuitbreaker.go:103-128 | a breaker that no failure has opened grants every call |
| BreakerRuns.ProbeDecides | internal/proxy/circuitbreaker.go:149-192 | a probe that succeeds closes the breaker with no failure on its count; one that fails starts the timeout anew, and a call is granted exactly once it has passed |
| BreakerRuns.OnlyItsHolderEndsAProbe | internal/proxy/circuitbreaker.go:149-204 | through any calls of others a probe stays live until its holder settles or cancels it |
| BreakerRuns.LeaseLivesUntilOpening | internal/proxy/circuitbreaker.go:137-147 | a lease of the closed breaker is live exactly until a failure opens the breaker |
| BreakerRuns.OpensAtThreshold | internal/proxy/circuitbreaker.go:174-191 | while closed the counter is the trailing run of failures, and a failure opens the breaker exactly when that run reaches the threshold |
| BreakerRuns.LookAgrees | internal/proxy/circuitbreaker.go:216-230 | a look predicts a call at the same time |
| BreakerRuns.CancelledProbeFreesAtOnce | internal/proxy/circuitbreaker.go:194-204 | a cancelled probe leaves the breaker grantable at once and from then on |
| BreakerRuns.SettledProbeIsNeverAwaited | internal/proxy/circuitbreaker.go:149-204 | once its holder settled or cancelled it, no half-open breaker waits for a lease |
| Failover.ProviderEndedOnce | internal/proxy/proxy.go:1063-1105 | each provider lease claimed is ended once, with that lease, before the next candidate |
| Failover.RouteEndedOnce | internal/proxy/proxy.go:1070-1105 | the same for route leases |
| Failover.OneFailureAVisit | internal/proxy/proxy.go:1831-1837 | a candidate visit adds at most one provider failure |
| Failover.OneRecordAVisit | internal/proxy/proxy.go:1194-1207 | a candidate visit gives the target at most one record |
| Failover.ConversionChargesRouteOnly | internal/proxy/proxy.go:1593-1673 | a route lease is ended with a failure exactly for a conversion error, and then neither the provider is charged nor the target recorded |
| Verdicts.EndedExactly | internal/proxy/errorcat.go:45-103 | in plain statuses and failures: the buffered loop ends at a candidate exactly when its last answer was delivered, was cancelled by the client or had one of the seven final statuses, and leaves it for a conversion error exactly when a good answer did not convert; all answers before were other errors |
| Verdicts.StreamEndedExactly | internal/proxy/proxy.go:2437-2715 | the same for the streaming loop, in terms of the exchanges |
| Verdicts.PassingErrorsTryEveryone | internal/proxy/proxy.go:1129-1878 | when every response is another error and no breaker, check or clock stands in the way, every candidate is called `maxRetries + 1` times while the cap of eight lasts, and then an error is written |
| Verdicts.PassingExchangesTryEveryone | internal/proxy/proxy.go:1905-2418 | the same for streaming, when every exchange fails without bytes sent and without a final status |
| Verdicts.ProviderChargedExactly | internal/proxy/proxy.go:1593-1811 | for any trace that keeps the rules: a provider lease is ended with a failure exactly after a final status, a stream cut off, a final 5xx of a stream, or a transport failure or error status that used up the retries; and with success exactly after a delivered answer |
| Verdicts.RouteChargedExactly | internal/proxy/proxy.go:1593-1673 | a route lease is ended with a failure exactly when only the conversion failed, and with success exactly after a delivered answer |
| Verdicts.RecordExactly | internal/proxy/proxy.go:1194-1207 | what each visit tells its target, by the reason it ended for and by its last answer |
| Verdicts.ErrorExactly | internal/proxy/proxy.go:1843-1878 | when nothing was delivered: the last status if it is a 4xx, 503 when the upstreams or all targets are unavailable, 502 otherwise |
| Verdicts.LastErrorCounts | internal/proxy/proxy.go:1831-1841 | that status is the one of the last error among all answers, unless the cap or the budget stopped the walk |
| Verdicts.AbortedExactly | internal/proxy/proxy.go:2239-2349 | the client's connection is aborted exactly when the last exchange sent bytes and its conversion failed, or they hold an upstream error, or they do not end a stream well and it was not the client that stopped it |
| Leases.NoProbeLeft | internal/proxy/proxy.go:1063-1105 | for every lease a breaker grants to a request of either loop, in any run of that breaker with any other holders: once the request is done with the breaker, it is not half-open on that lease |
| Leases.NoClaimLeft | internal/proxy/proxy.go:1082-1101 | the same for every claim of a trace that keeps the rules |
| Failover.CommitIsLast | internal/proxy/proxy.go:2386-2402 | after a response is begun nothing is called, claimed, visited or written again |
| Failover.CallsBounded | internal/proxy/proxy.go:45 | at most eight upstream calls, at most `maxRetries + 1` to a candidate, in candidate order |
| Failover.LogCost | internal/proxy/proxy.go:656-668 | the logged cost is the sum of the price snapshots of exactly the upstream calls, and known when all were |
| Forwarding.Request.EndProviderProbe | internal/proxy/proxy.go:1082-1101 | a guard settles its lease once; later calls do nothing |
| Forwarding.Request.EndRouteProbe | internal/proxy/proxy.go:1082-1101 | the same for the route guard |
| Forwarding.Request.Attempted | internal/proxy/proxy.go:680-684 | the chain entry of a call has the next order and the candidate's price snapshot |
| Forwarding.Admit | internal/proxy/proxy.go:1178-1309 | the checks and claims before a candidate's first attempt and the reason when it is passed over; the guards hold exactly the leases the breakers grant, and a granted lease is claimed on every exit |
| BufferedForward.Attempt | internal/proxy/proxy.go:1560-1811 | a buffered response delivers, passes on, retries or ends by its kind, charging breakers and telling the target as the rules say |
| BufferedForward.TryCandidate | internal/proxy/proxy.go:1312-1841 | the retry loop leaves the candidate for a reason that holds, with every answer it gave |
| BufferedForward.ForwardBuffered | internal/proxy/proxy.go:1129-1878 | for every candidate list and course of events: the rules are kept, exactly the leases granted are claimed and every one is ended, every target is told exactly what is due, the chain accounts for the calls, the conversation is the one the fates tell, the walk stops early only for a reason, and the error has the status the fates call for |
| StreamForward.Settle | internal/proxy/proxy.go:2239-2349 | each result settles provider and route once, makes exactly the target record that is due, as its status says, and aborts the client exactly for a stream cut off after it was begun |
| StreamForward.TryCandidate | internal/proxy/proxy.go:2059-2378 | the streaming retry loop leaves the candidate for a reason that holds, with every result |
| StreamForward.ForwardStream | internal/proxy/proxy.go:1905-2418 | the same guarantees for streaming, each answer being the result of that attempt's exchange; the client's connection is aborted exactly when the last result is a stream cut off |
| UsageAccumulator.Accumulator.Feed | internal/proxy/streamusage.go:116-151 | a feed does to the fields what the chunk law is about |
| UsageAccumulator.FeedingIgnoresChunking | internal/proxy/streamusage.go:116-151 | any cutting of the stream into feeds gives the same accumulator |
| UsageAccumulator.FirstEndDecides | internal/proxy/streamusage.go:156-291 | the first line that ends the stream decides how it ended; output was produced exactly when a line up to there produces some |
| UsageAccumulator.FirstEndMarks | internal/proxy/streamusage.go:166-248 | which terminal mark that line leaves, and which error message |
| UsageAccumulator.LastReportWins | internal/proxy/streamusage.go:249-289 | prompt, cache-read and cache-creation tokens are the last positive ones among the lines read |
| UsageAccumulator.OutputIsCounted | internal/proxy/streamusage.go:249-297 | so are the output tokens; without a report of them, the first total that came while no prompt tokens were known |
| UsageAccumulator.StreamIsRead | internal/proxy/streamusage.go:116-297 | all of this, and all four counts, for the bytes of a stream in any chunks |
| UsageAccumulator.OutputStays | internal/proxy/streamusage.go:176-178 | output once seen stays seen |
| UsageAccumulator.TrimmedExactly | internal/proxy/streamusage.go:166-181 | names and data are read without exactly the space at both ends |
| UsageAccumulator.NoUsageExactly | internal/proxy/streamusage.go:192-235 | which report of a line counts: its own, the response's, the message's, and a Gemini object's only beside neither |
| EventGate.SplitFirstEvent | internal/proxy/proxy.go:3207-3223 | finds the first event that two line endings complete |
| EventGate.EventHasData | internal/proxy/proxy.go:3244-3260 | tells whether a line of the event is a data line with something on it |
| EventGate.FirstMeaningfulEvent | internal/proxy/proxy.go:3228-3242 | is meaningful exactly when some complete event has data, and returns such an event |
| EventGate.EventEndExactly | internal/proxy/proxy.go:3207-3223 | the first event ends just past the first two line endings of one kind in a row, and there is none without them |
| EventGate.HasDataExactly | internal/proxy/proxy.go:3244-3260 | an event has data exactly when some line of it, from line feed to line feed, is a data line with something on it |
| EventGate.EventsTile | internal/proxy/proxy.go:3207-3242 | the complete events are the staged bytes, up to a rest without a complete event |
| EventGate.MeaningfulStays | internal/proxy/proxy.go:3207-3260 | more bytes never take a complete event away |
| EventGate.CouldBeExactly | internal/proxy/proxy.go:3271-3285 | staged bytes could be events exactly when, after leading blanks, more bytes can make them start with a tag, or an empty line is in them already |
| StreamAttempt.Attempt.WriteConverted | internal/proxy/proxy.go:2807-2876 | one chunk is converted, staged or sent as the gate says, with each failure in its variable |
| StreamAttempt.Attempt.Stage | internal/proxy/proxy.go:2815-2858 | staged bytes are released exactly when they open the gate, or are converted and no events |
| StreamAttempt.Attempt.Transmit | internal/proxy/proxy.go:2881-2928 | the first read, the read loop and the end of the converter |
| StreamAttempt.RunAttempt | internal/proxy/proxy.go:2437-3201 | the result and the bytes sent are those of the transfer, for every kind of exchange |
| StreamAttempt.ResultsArePossible | internal/proxy/proxy.go:2524-2715 | a retryable result is always uncommitted; success, truncation and downstream errors are committed |
| GateSafety.SentExactlyForOutput | internal/proxy/proxy.go:2807-2883 | what was sent is nothing or exactly what the chunks read convert to, the accumulator has read exactly that, and behind the gate it was committed exactly when it has a complete event with data and output |
| GateSafety.NeverEmptyOnceCommitted | internal/proxy/proxy.go:3117-3201 | behind the gate a committed attempt never ends as completed without output |
| GateSafety.SuccessExactly | internal/proxy/proxy.go:3017-3201 | an attempt succeeds exactly when it was committed, nothing failed, and the bytes sent end a stream well and contain output |
| AttemptOutcomes.TransferEnds | internal/proxy/proxy.go:2807-2928 | what is sent, held back and failed at the end of an exchange, by a definition over its reads, the writer's failures and the converted bytes alone |
| AttemptOutcomes.StatusExactly | internal/proxy/proxy.go:2960-3201 | when an attempt with a body has each status, whether it is committed and whether it is partial, told from how the exchange ended and what the bytes sent or held back say |
| AttemptOutcomes.CauseExactly | internal/proxy/proxy.go:2960-3201 | its status code and cause |
| AttemptOutcomes.WithoutBodyExactly | internal/proxy/proxy.go:2437-2715 | the result of every exchange that never has a body to forward |
| GateSafety.ClosedSendsNothing | internal/proxy/proxy.go:2920-2928 | closing a converter that ignores writes once closed sends nothing |
| LostAtClose.NothingLostExactly | internal/proxy/proxy.go:2887-2928 | after a transfer without failure the client has the whole conversion of the bytes read exactly when closing the converter gives no bytes |
| LostAtClose.CompleteStreamsLoseNothing | internal/proxy/proxy.go:2920-2928 | which it does not for a stream of complete events |
| LostAtClose.UnfinishedEventIsLost | internal/proxy/proxy.go:2920-2928 | when the last event lacks its empty line, exactly what that event converts to is lost |
| LostAtClose.CompletionLost | internal/proxy/proxy.go:2920-2928 | such a Messages stream whose client never gets `response.completed` |
| ConvertersAtGate.ChainAtGate | internal/proxy/proxy.go:3271-3285 | the gateway's converters and their chains write nothing but events and are silent once closed, so the gate's guarantees hold for them |
| ConvertersAtGate.SentIgnoresReads | internal/proxy/proxy.go:2887-2919 | what the client gets does not depend on how the body was read |
| ConvertersAtGate.NativePassesAll | internal/proxy/proxy.go:3287-3299 | without a converter the bytes are passed on unchanged |
| ChatInput.ResponsesInputToChat | internal/proxy/convert_chat.go:389-496 | the conversion with its error cases |
| ChatInput.ConvertItems | internal/proxy/convert_chat.go:406-495 | the loop over the items computes what the acceptance and round-trip lemmas are about |
| ChatInput.AcceptedExactlyWhenShaped | internal/proxy/convert_chat.go:406-495 | an item array is accepted exactly when it is messages, then calls with distinct ids, then outputs each answering a distinct earlier call, with the field checks met |
| ChatMessages.ChatMessagesToResponses | internal/proxy/convert_chat.go:284-349 | the loop over the messages computes what the round-trip lemma is about |
| ChatMessages.InputComesBack | internal/proxy/convert_chat.go:284-496 | every accepted input gives Chat messages that are accepted and give the same items back: instructions as a leading developer message, text blocks joined, empty messages dropped |
| ChatMessages.TextInputComesBack | internal/proxy/convert_chat.go:389-405 | a text input is accepted unless the instructions are malformed, becomes one user message behind them, and comes back |
| BodyAcceptance.TextExactly | internal/proxy/convert_chat.go:351-365 | content is text exactly when it is null, a string or text blocks without metadata, and is then all their text in order |
| BodyAcceptance.ChatMessagesAccepted | internal/proxy/convert_chat.go:284-349 | Chat messages are accepted exactly when each is text with well-formed calls or answers an earlier call, all calls have distinct ids and no call is answered twice; and then each becomes its own items, whatever came before |
| ResponseBodies.ChatToResponsesResponse | internal/proxy/convert_chat.go:522-635 | the conversion with its error cases |
| ResponseBodies.ResponsesToChatResponse | internal/proxy/convert_chat.go:637-732 | the conversion with its error cases |
| ResponseBodies.UsageIsKept | internal/proxy/convert_chat.go:785-853 | an accepted usage keeps every count and detail, and converting it again changes nothing |
| ResponseBodies.ChatResponseComesBack | internal/proxy/convert_chat.go:522-732 | an accepted Chat response comes back from Responses with its text, calls, counts and finish reason, `stop` with calls as `tool_calls` |
| ResponseBodies.ResponsesResponseComesBack | internal/proxy/convert_chat.go:522-732 | an accepted Responses response comes back from Chat exactly when it has text or a call |
| BodyAcceptance.ChatBodyAccepted | internal/proxy/convert_chat.go:522-635 | a Chat response is accepted exactly when it has one good choice, readable usage and known fields; then its text is the one message, its calls follow in order, and only `length` and `content_filter` are incomplete |
| BodyAcceptance.ResponsesBodyAccepted | internal/proxy/convert_chat.go:637-732 | a Responses response is accepted exactly when its status is known, its items are at most one message and calls of distinct ids, all well formed, and usage and fields readable; and what the one choice then holds |
| BodyAcceptance.UsageExactly | internal/proxy/convert_chat.go:738-783 | which usage objects are readable |
| Capabilities.NewSnapshot | internal/proxy/capability_snapshot.go:21-56 | a lookup gives the last row on the subject that is no legacy row; legacy fields only fill absent rows |
| Capabilities.WithModels | internal/proxy/capability_snapshot.go:121-146 | model rows override what was there |
| Capabilities.LookUp | internal/proxy/capability_snapshot.go:65-108 | precedence from the stored rows: model row, provider row, default; unknown providers support nothing |
| SelectionTerms.LegacyExactly | internal/proxy/capability_snapshot.go:21-56 | what a listed provider without rows speaks |
| Matcher.ConversionEdgesFor | internal/proxy/matcher.go:252-261 | the edges of a protocol, sorted |
| Matcher.SortedIsAscending | internal/proxy/matcher.go:259 | sorted by priority, with the same edges |
| Matcher.RouteIs | internal/proxy/matcher.go:188-208 | native wins when its features hold; otherwise the passing edge of lowest priority; none exactly when neither passes |
| Matcher.PrioritiesAreDistinct | internal/proxy/matcher.go:90-97 | the choice of edge is unique |
| Matcher.OneCandidatePerRoutedTarget | internal/proxy/matcher.go:157-209 | in target order one candidate for each target with a route |
| Matcher.RoutedTargetsAre | internal/proxy/matcher.go:157-209 | and for no other, each once |
| Matcher.NativeOnlyIsNotConverted | internal/proxy/matcher.go:99-112 | a native-only request never gets a converting candidate |
| Matcher.CollectCandidates | internal/proxy/matcher.go:157-209 | the loop collects those candidates, and notes a rejected wire route exactly when some available target has one |
| Matcher.SelectCandidates | internal/proxy/matcher.go:134-223 | the candidates of the first matching rule; the unsupported-feature error exactly when none remain and an available target had a wire route; the other errors |
| SelectionTerms.EdgesExactly | internal/proxy/matcher.go:90-97 | conversion leads between any two of the three text protocols and nowhere else, to the endpoint of its target, the preferred target first |
| SelectionTerms.RouteInTerms | internal/proxy/matcher.go:188-208 | the route in plain terms: native when the model has all the request needs; otherwise, for text and tools only, the first of the other text protocols that the model serves with all it needs; otherwise none |
| SelectionTerms.CandidatesInTerms | internal/proxy/matcher.go:157-209 | in target order exactly the usable targets with a route give a candidate, with the provider, model, protocol, path, retries and conversion it should have |
| SelectionTerms.ProtocolExactly | internal/proxy/matcher.go:231-250 | the protocol of a request that names none |
| TargetBreaker.Breaker.Prune | internal/proxy/targetbreaker.go:43-52 | what is kept is exactly what of the full history lies in the window |
| TargetBreaker.Breaker.Allow | internal/proxy/targetbreaker.go:53-58 | admits exactly when fewer than the threshold of all failures ever recorded lie in the window |
| TargetBreaker.Breaker.RecordFailure | internal/proxy/targetbreaker.go:59-65 | adds to the history |
| TargetBreaker.AdmittedAgain | internal/proxy/targetbreaker.go:43-58 | a target is admitted again exactly when the window passes the failure that is the threshold from the end |
| RouteWindows.Registry.PruneKey | internal/metrics/registry.go:267-283 | drops what is past the horizon, and an empty key, and touches no other key |
| RouteWindows.Registry.Submit | internal/metrics/registry.go:172-190 | the attempt joins its key's history; the count of keys stays within capacity; a full registry forgets the key ingested longest ago |
| RouteWindows.Registry.Ingest | internal/metrics/registry.go:291-317 | a full window drops its oldest attempt |
| RouteWindows.Registry.EvictOldest | internal/metrics/registry.go:329-339 | the evicted key is the minimum by time and key |
| RouteWindows.OldestIsUnique | internal/metrics/registry.go:319-339 | that minimum is unique, so it does not depend on the order of the map |
| RouteWindows.FindOldest | internal/metrics/registry.go:329-339 | the loop finds it in any order |
| RouteWindows.Registry.RouteSnapshot | internal/metrics/registry.go:429-492 | the totals and times are exactly those of the last 64 attempts of the key's history within ten minutes |
| RouteWindows.WindowShowsHistory | internal/metrics/registry.go:267-317 | what is recent in the bounded window is what is recent among the last 64 ever taken |
| RouteWindows.CountersCount | internal/metrics/registry.go:435-477 | each counter is the number of attempts of its kind, and the first-byte and first-token times are the positive ones in order |
| RouteWindows.FailuresAreTheFour | internal/metrics/registry.go:442-474 | failures are exactly server errors, transport errors, truncations and conversion errors |
| RouteWindows.TimesAreLatest | internal/metrics/registry.go:478-488 | last used, last success and last failure are the latest times of any, successful and failed attempts, client aborts apart |

## Left out

- MessagesRoundTrip.StreamReturns: streams of complete blocks one after the other, as an upstream sends them; other streams are covered by the bracketing theorem only.
- ChatRoundTrip.ChatComesBack: streams whose calls do not begin with id and name are not covered.
- Composition.ComposedIsComposition: success and its output; the error and what is delivered before it are `ChainErrors.ComposedReports` and `Composition.DeliveredBeforeError`.
- Composition.ComposedHasLaw: whether there is an error, not which, because chaining does not keep that (`ChainErrors.ChainsAreNotExact`).
- Chain.ChainHasLaw: the same.
- UsageAccumulator.Accumulator.Feed: of the whitespace that is trimmed only the ASCII part; what counts as output in a JSON event is a fact read from it.
- RouteWindows.Registry.Submit: the route windows of the registry; its per-target counters with their TTL are not modelled. The clock is positive and does not fall behind the last look.
- TargetBreaker.Breaker.Allow: the start of the window does not move back, as with a steady clock and a constant window; the recovery time in the status is not modelled.
- Forwarding.Request.Attempted: of a chain entry its order, candidate, start flag, price and status; not its texts and latencies.
- StreamForward.ForwardStream: the time limits of the first byte are answers of the world; log fields are not modelled.
- The breaker's older calls `Allow`, `Record` and `CancelProbe`, which nothing on the request path uses.
- The shape checks of Messages requests and whole Messages responses, and of tools and reasoning settings: long one-branch validation.
- Details of payloads that no converter reads, such as `object` and `created` fields, and the texts of errors.
- HTTP transport, timers, header and query rewriting, listener start and stop: input and output over libraries.
- Storage, migrations, dashboards, statistics counters, scoring and shadow routing.
