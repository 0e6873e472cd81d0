# The relay engine, modelled and proved

The gateway relays chat requests between three protocols (chat completions, Anthropic
messages, OpenAI responses) and a Codex upstream. This project models the parts of its relay
engine that hold state or transform data, and proves what they promise:

- **Streams.** A client of each protocol is an automaton that reads events back into content
  and rejects anything malformed (`ResponsesClient`, `AnthropicClient`). What a stream of chat
  chunks amounts to is defined directly on the chunks (`Chat`, `ResponsesReply`,
  `AnthropicReply`). The emitters (`ResponsesOut`, `AnthropicOut`) are classes with the fields of
  the original, proved to write exactly the streams that read back as that reply. The
  consumers of upstream events (`AnthropicIn`, `CodexStream`, `CodexAggregate`) are proved
  against what the upstream events say (`CodexEvents`), and the bridges compose both
  (`AnthropicToResponses`, `CodexToMessages`). `CodexAgreement` proves that streaming a Codex run
  and aggregating it agree, and exactly where they do not; `AnthropicCalls` proves exactly when
  parallel tool calls survive a protocol with one open block at a time.
- **Tools of the Responses protocol** (`ResponsesTools`, `ResponsesToolWriter`, `JsonString`):
  the alias registry and the rewriting of events, proved to be a simulation.
- **Channels.** The circuit breaker against a reference that forgets nothing (`Breaker`), its
  probes under every interleaving of requests (`Probes`), the order of candidates (`Route`) and
  the failover loop (`Failover`).
- **Money.** The usage queue, the batch transaction and the quota counters (`Ledger`, `Quota`)
  under every interleaving of requests, checks, losses and evictions.
- **Bytes.** The line-wise passthrough with slices that append in place (`Lines`,
  `Passthrough`) and the look ahead into a Codex stream (`CodexPeek`).
- **Requests.** Histories converted there and back (`Pivot`, `AnthropicHistory`,
  `ResponsesItems`, `ResponsesHistory`, `CodexHistory`), and the normal form of a Codex request (`Json`,
  `CodexSchema`, `CodexTools`, `CodexNormalize`).

`dafny verify dfyconfig.toml` checks everything.

## What the code does that its comments do not say

The model follows the code. Where it does less than the surrounding comments or one would
expect, theorems give the exact condition, and a lemma a concrete input:

- Chunks made inside the process carry the finish reason as a pointer, which the emitters do
  not recognise. Over the composed bridges a truncated reply ends as a complete one, tool use
  ends as "end_turn", and no token counts reach the client; status and counts are true exactly
  when nothing was cut, called or counted (`AnthropicToResponses.StatusAndTokensExactly`,
  `AnthropicToResponses.TruncationIsLost`, `CodexToMessages.StopAndTokensExactly`,
  `CodexToMessages.ToolUseIsLost`).
- The wire bridges keep reading after the finishing chunk; anything said there breaks the
  client's stream (`ResponsesOut.BridgeChatChunks`, `AnthropicOut.BridgeChatChunks`,
  `ResponsesReply.TextAfterTheEnd`, `AnthropicReply.TextAfterTheEnd`).
- The Anthropic emitter sends argument fragments to the open block whatever their index or its
  kind (`AnthropicCalls.CallsSurviveExactly`, `AnthropicCalls.InterleavedCallsMix`,
  `AnthropicReply.FragmentInText`).
- A custom Codex call that arrives without deltas is streamed with its JSON prefix twice
  (`CodexAgreement.ArgumentsAgreeExactly`, `CodexAgreement.PrefixTwice`).
- The aggregated reasoning of a Codex run has line breaks between its deltas, which the streamed
  one has not (`CodexAgreement.ReasoningAgreesExactly`, `CodexAgreement.ReasoningBroken`).
- A probe is given back when the request returns, not when the attempt at the channel ends as
  the comments in `internal/relay/handler.go:249-253` and `internal/relay/state.go:111-114` have it:
  it outlives exactly the attempts that neither succeed nor count against the channel
  (`Probes.ProbeOutlivesAttempt`, `Probes.OutstandingUntilTakenBack`, `Probes.RefusedProbeBlocks`).
- The relay takes the client for gone when the text of an error contains "context canceled",
  whoever wrote it, and a live client then gets an empty answer (`Failover.AnswersCounted`,
  `Failover.LiveClientUnanswered`).
- A stream that breaks off after a 3xx status is followed by a second response
  (`Failover.RelayCore`, `Failover.AnsweredTwice`); an unusable answer or such a stream makes the
  final error carry a success status (`Failover.FinalStatusIsSuccessExactly`,
  `Failover.UnusableBodyKeepsItsStatus`).
- A quota counter that was evicted and then incremented is not repaired from the database, as
  the comment in `internal/relay/quota.go:105-106` promises (`Quota.EvictionForgets`). What a counter
  lacks never shrinks while it is there (`Quota.DeficitGrowsExactly`); it is exact exactly if it
  was when it was made and no increment has failed since (`Quota.ExactWhilePresent`,
  `Quota.MadeExactly`).
- The request normalisation is idempotent exactly if no kept tool name ends in a space where
  it is cut to 128 characters (`CodexNormalize.NormalSettlesExactly`, `CodexTools.CutBehindASpace`).
- A Responses request goes to a Codex channel as it is when its body is at hand
  (`internal/relay/handler.go:308-317`), and otherwise by way of chat messages. On that way a
  history does not always arrive as it was: namespaces are dropped, custom calls become function
  calls, arguments that are no JSON object become the empty one, long call identifiers are cut,
  blank instructions and an empty history are replaced (`CodexHistory.HistorySurvivesExactly`,
  `CodexHistory.ArgumentsAndNamespacesAreLost`, `CodexHistory.InstructionsSurviveExactly`).

## Model

| member | source | states |
|---|---|---|
| `ResponsesOut.BridgeChatChunks` | `internal/relay/stream_bridge.go:916-937` | for every wire stream of chat chunks, the client reads a well-formed Responses stream holding exactly the reply the chunks amount to, if and only if nothing is said after the finishing chunk; the usage billed is the last one reported |
| `ResponsesReply.TextAfterTheEnd` | `internal/relay/stream_bridge.go:916-937` | text in a chunk after the finishing one is such a case |
| `ResponsesReply.IncompleteExactly` | `internal/relay/stream_bridge.go:338-347` | the reply is marked incomplete if and only if the first finish reason is "length" |
| `ResponsesReply.ChunksSay` | `internal/relay/stream_bridge.go:459-558` | for every chunk stream the text, the reasoning and the arguments of each call are the concatenation of the deltas of their kind |
| `ResponsesReply.AnswerItem` | `internal/relay/stream_bridge.go:524-640` | each item of the reply is the text, the reasoning, or a call with the id and cut name of its first entry and all of its arguments |
| `Chat.UsageByIndex` | `internal/relay/stream_bridge.go:427-432` | usage shown and usage billed are those of the last chunk that reports one |
| `Chat.ModelByIndex` | `internal/relay/stream_bridge.go:424-427` | the model is the one last named, or the one asked for |
| `ResponsesOut.ResponsesOutState.constructor` | `internal/relay/stream_bridge.go:391-400` | a new emitter has written nothing, and finishes with "stop" unless told otherwise |
| `ResponsesOut.ResponsesOutState.Feed` | `internal/relay/stream_bridge.go:424-567` | after every chunk the reader of what was written holds one item per speaker with everything said so far; the finishing chunk completes the reply; once complete, any chunk that says something breaks the stream and any other writes nothing |
| `ResponsesOut.ResponsesOutState.Note` | `internal/relay/stream_bridge.go:424-446` | model, usage and finish reason of a chunk are taken over, a missing one leaves the last value |
| `ResponsesOut.ResponsesOutState.Start` | `internal/relay/stream_bridge.go:447-457` | the created event is the first one written |
| `ResponsesOut.ResponsesOutState.Write` | `internal/relay/stream_bridge.go:667-677` | events are appended, and any event after the end breaks the stream |
| `ResponsesOut.ResponsesOutState.NextItemIndex` | `internal/relay/stream_bridge.go:417-421` | output indices count up from zero |
| `ResponsesOut.ResponsesOutState.AddMessage` | `internal/relay/stream_bridge.go:460-483` | the message item is announced under the next output index, then its part |
| `ResponsesOut.ResponsesOutState.AddReasoning` | `internal/relay/stream_bridge.go:494-506` | the reasoning item is announced under the next output index |
| `ResponsesOut.ResponsesOutState.AddTool` | `internal/relay/stream_bridge.go:524-544` | a call is announced under the next output index with its id and cut name, and joins the order of the calls |
| `ResponsesOut.ResponsesOutState.FeedDelta` | `internal/relay/stream_bridge.go:459-558` | the text, the reasoning and the tool entries of a delta are each passed on exactly once, in this order |
| `ResponsesOut.ResponsesOutState.FeedText` | `internal/relay/stream_bridge.go:459-491` | text opens the message item and its part at the first piece and extends it at every later one |
| `ResponsesOut.ResponsesOutState.FeedReasoning` | `internal/relay/stream_bridge.go:493-515` | reasoning opens its item at the first piece and extends it at every later one |
| `ResponsesOut.ResponsesOutState.FeedEntries` | `internal/relay/stream_bridge.go:517-558` | the entries of a delta are passed on one by one, whatever calls they belong to |
| `ResponsesOut.ResponsesOutState.Enter` | `internal/relay/stream_bridge.go:517-558` | the call of an entry is announced unless it is known, and its arguments are appended to it and written under its index |
| `ResponsesOut.ResponsesOutState.FeedEntry` | `internal/relay/stream_bridge.go:517-558` | an entry of an unseen index opens a function call item under the next output index; arguments extend the call of their own index and no other |
| `ResponsesOut.ResponsesOutState.FinishStream` | `internal/relay/stream_bridge.go:570-664` | every open item is closed exactly once under its own index with the concatenation of its deltas, and the completed response lists them in the order they were opened; a second call writes nothing |
| `ResponsesOut.ResponsesOutState.FinishItems` | `internal/relay/stream_bridge.go:584-640` | reasoning and message items are closed first, each with all it said, before the calls |
| `ResponsesOut.ResponsesOutState.FinishTools` | `internal/relay/stream_bridge.go:623-640` | the calls are closed in the order they were opened, each with all its arguments |
| `ResponsesReply.OrderDistinct` | `internal/relay/stream_bridge.go:417-421` | every speaker has one item: none is opened twice |
| `ResponsesReply.ReadCompleted` | `internal/relay/stream_bridge.go:641-663` | when every item is closed the reader accepts the completed response with those items in index order, and no other |
| `ResponsesTools.ResponsesToolBridge.constructor` | `internal/relay/responses_tools.go:25-112` | for every nested tool list the bridge is built: byAlias and byIdentity are inverse to each other, a plain function keeps its name, every other tool gets a hashed alias that no declaration uses as a name, and there is one definition per identity with the last body declared |
| `ResponsesTools.OfferedFields` | `internal/relay/responses_tools.go:80-107` | field by field: a function is offered with its own schema and strictness, a custom tool with the schema of one string; a plain function with its own description, any other tool with its full name before it and a custom one with the hint and its format behind it |
| `ResponsesTools.LastBodyByIndex` | `internal/relay/responses_tools.go:102-107` | the body of a tool is that of the last declaration of its identity |
| `ResponsesTools.ResponsesToolBridge.Add` | `internal/relay/responses_tools.go:52-109` | a list of declarations extends the registry by exactly its tools, namespaces flattened |
| `ResponsesTools.ResponsesToolBridge.AddOne` | `internal/relay/responses_tools.go:53-66` | nested namespaces are registered in place; a nameless or unknown declaration changes nothing |
| `ResponsesTools.ResponsesToolBridge.Register` | `internal/relay/responses_tools.go:67-107` | registering an identity again keeps its alias and its place and replaces its definition |
| `ResponsesTools.FreeAlias` | `internal/relay/responses_tools.go:71-79` | the salted retry loop ends, and with an alias nobody has reserved |
| `ResponsesTools.Reserve` | `internal/relay/responses_tools.go:27-36` | every name that occurs at any depth of the list is reserved |
| `ResponsesTools.ToolNamesDistinct` | `internal/relay/responses_tools.go:80-107` | the functions offered to the upstream have pairwise distinct names |
| `ResponsesTools.ResponsesToolBridge.InputItem` | `internal/relay/responses_tools.go:123-141` | a call of the history is renamed to its alias, free-text input is wrapped as JSON arguments, and the output of a custom call becomes one of a function; any other item stays |
| `ResponsesTools.ResponsesToolBridge.RestoreItem` | `internal/relay/responses_tools.go:153-171` | a call under a known alias gets back its name, its namespace and its kind, with decoded input, and its item is remembered |
| `ResponsesTools.CallRoundTrip` | `internal/relay/responses_tools.go:123-171` | a declared tool's call goes up under its alias and without its namespace, and comes back unchanged: name, namespace, kind and text |
| `ResponsesTools.RestoreIdempotent` | `internal/relay/responses_tools.go:153-179` | restoring an item twice is restoring it once, because no alias is a declared name of another tool |
| `ResponsesTools.CustomToolInputDecodes` | `internal/relay/responses_tools.go:143-151` | decoding undoes the input wrapper for every text |
| `ResponsesToolWriter.ResponsesToolWriter.Send` | `internal/relay/responses_tools.go:182-202` | each event is passed on, held back or replaced depending on whether its item is a custom call; items are restored in added, done and completed events |
| `ResponsesToolWriter.ResponsesToolWriter.RestoreOutput` | `internal/relay/responses_tools.go:173-179` | all items of a completed response are restored |
| `ResponsesToolWriter.BridgedReads` | `internal/relay/responses_tools.go:182-202` | for every well-formed stream, what the client reads through the writer is the image of what it would have read: custom calls carry one delta with the decoded input, all else differs in name and namespace only |
| `ResponsesToolWriter.SendBridged` | `internal/relay/responses_tools.go:182-218` | the writer with a bridge built for the declared tools turns every well-formed stream about aliases into a well-formed stream about the client's own tools |
| `ResponsesToolWriter.BridgeChatChunksWithTools` | `internal/relay/stream_bridge.go:916-937` | chunks that say nothing after the finishing one reach a client with declared tools as the image of the reply they amount to |
| `ResponsesToolWriter.CustomCallImage` | `internal/relay/responses_tools.go:182-202` | a custom call reaches the client as exactly one input delta, repeated by the closed item, however its arguments were fragmented |
| `ResponsesToolWriter.ImageKeeps` | `internal/relay/responses_tools.go:153-187` | the image keeps model, status, usage and the place of every item; a call of a known alias gets the name, namespace and kind of its tool and keeps id and payload, everything else stays |
| `AnthropicIn.AnthropicInState.constructor` | `internal/relay/stream_bridge.go:696-705` | a new consumer has consumed nothing |
| `AnthropicIn.AnthropicInState.Feed` | `internal/relay/stream_bridge.go:738-859` | each upstream event produces the chunk that the events so far determine, or none: text, reasoning, the start of a tool, a fragment for the tool its block began, or the end |
| `AnthropicIn.AnthropicInState.FeedStart` | `internal/relay/stream_bridge.go:744-757` | the start of a message counts its input tokens and announces the role once |
| `AnthropicIn.AnthropicInState.FeedBlockStart` | `internal/relay/stream_bridge.go:758-781` | a tool block gets the next tool number; its start gives the call its id and name |
| `AnthropicIn.AnthropicInState.FeedText` | `internal/relay/stream_bridge.go:789-800` | a text or thinking delta becomes one piece, an empty one becomes nothing |
| `AnthropicIn.AnthropicInState.FeedFragment` | `internal/relay/stream_bridge.go:801-820` | an argument fragment goes to the tool its block began, else to the tool begun last, else to the first |
| `AnthropicIn.AnthropicInState.FeedMessageDelta` | `internal/relay/stream_bridge.go:821-833` | the stop reason and the usage are taken from the message delta, with the earlier input count kept when it gives none |
| `AnthropicIn.AnthropicInState.FeedEnd` | `internal/relay/stream_bridge.go:834-858` | only the first end, regular or by an error, produces a chunk |
| `AnthropicIn.AnthropicInState.CountedUsage` | `internal/relay/stream_bridge.go:730-735` | the usage counted so far, none if both counts are zero |
| `AnthropicIn.PromptByIndex` | `internal/relay/stream_bridge.go:744-833` | the prompt tokens are those of the last message start with a count or message delta with a positive one, 0 if there is none |
| `AnthropicIn.CompletionByIndex` | `internal/relay/stream_bridge.go:828-833` | the completion tokens are those of the last message delta with usage, 0 if there is none |
| `AnthropicIn.FinishByIndex` | `internal/relay/anthropic.go:54-65` | the finish reason is given by the last tool block or stop reason: "max_tokens" is "length", "tool_use" and tool blocks are "tool_calls", anything else "stop" |
| `AnthropicIn.ModelByEvent` | `internal/relay/stream_bridge.go:739-742` | the model is that of the last event that names one, or the one asked for |
| `AnthropicToResponses.BridgeAnthropic` | `internal/relay/stream_bridge.go:955-1001` | for every sequence of upstream events, malformed and truncated ones included, the Responses client reads a well-formed reply that holds exactly what the events said; stop reason and usage do not reach it |
| `AnthropicToResponses.BridgeAnthropicWithTools` | `internal/relay/stream_bridge.go:977-1001` | the same through the tool writer: the client reads the image of that reply |
| `AnthropicToResponses.TextAgrees` | `internal/relay/stream_bridge.go:789-794` | the message text is the concatenation of the text deltas, plus the report of a first failure |
| `AnthropicToResponses.ThoughtAgrees` | `internal/relay/stream_bridge.go:795-802` | the reasoning is the concatenation of the thinking deltas |
| `AnthropicToResponses.BlockBecomesCall` | `internal/relay/stream_bridge.go:758-820` | when fragments follow their block's start, every tool block becomes one call with its own id and name and all of its own fragments in order |
| `AnthropicToResponses.CallsAreBlocks` | `internal/relay/stream_bridge.go:758-820` | the calls are the tool blocks, numbered in the order in which they began, and there are no others |
| `AnthropicToResponses.NumberedExactly` | `internal/relay/stream_bridge.go:758-790` | a number stands for a call exactly if some block was given it |
| `AnthropicToResponses.NeverFinishes` | `internal/relay/stream_bridge.go:708-718` | no chunk made inside the process finishes the emitter, which looks for a plain string |
| `AnthropicToResponses.TruncationIsLost` | `internal/relay/stream_bridge.go:708-718` | a reply the upstream cut short is reported to the client as complete |
| `AnthropicToResponses.StatusAndTokensExactly` | `internal/relay/stream_bridge.go:708-718` | for every event sequence the status of the reply is true exactly if the upstream did not stop for length, and the token counts are true exactly if they are zero |
| `AnthropicOut.BridgeChatChunks` | `internal/relay/stream_bridge.go:894-915` | for every wire stream of chat chunks, the Messages client reads a well-formed stream, exactly the blocks the chunks amount to, if and only if nothing is said after the finishing chunk and every fragment of arguments comes while a tool's block is open |
| `AnthropicReply.TextAfterTheEnd` | `internal/relay/stream_bridge.go:894-915` | text in a chunk after the finishing one breaks the first condition |
| `AnthropicReply.FragmentInText` | `internal/relay/stream_bridge.go:275-300` | a nameless argument fragment while a text block is open breaks the second |
| `AnthropicReply.StopReasonExactly` | `internal/relay/anthropic.go:67-76` | the stop reason is "max_tokens" exactly after "length", "tool_use" exactly after "tool_calls" or "function_call", and "end_turn" otherwise |
| `AnthropicOut.AnthropicOutState.constructor` | `internal/relay/stream_bridge.go:149-157` | a new emitter has written nothing, and finishes with "stop" unless told otherwise |
| `AnthropicOut.AnthropicOutState.Start` | `internal/relay/stream_bridge.go:160-176` | the message starts once, with the model and the input tokens known by then |
| `AnthropicOut.AnthropicOutState.CloseBlock` | `internal/relay/stream_bridge.go:179-190` | the open block is stopped under its own index and the next index is one more; without one nothing is written |
| `AnthropicOut.AnthropicOutState.Say` | `internal/relay/stream_bridge.go:247-274` | text and reasoning continue an open block of their kind or open a new one, and after the end they break the stream |
| `AnthropicOut.AnthropicOutState.Switch` | `internal/relay/stream_bridge.go:240-266` | a block of another kind is closed and one of this kind opened; an open block of this kind is kept |
| `AnthropicOut.AnthropicOutState.OpenTool` | `internal/relay/stream_bridge.go:280-294` | a named tool entry closes the open block and opens a tool_use block under the next index |
| `AnthropicOut.AnthropicOutState.FeedEntry` | `internal/relay/stream_bridge.go:275-299` | arguments go to the open block whatever their index: the stream stays readable if that block is a tool's and breaks otherwise |
| `AnthropicOut.AnthropicOutState.FeedEntries` | `internal/relay/stream_bridge.go:275-300` | the entries of a delta are passed on one by one |
| `AnthropicOut.AnthropicOutState.FeedDelta` | `internal/relay/stream_bridge.go:247-300` | text, reasoning and tool entries of a delta are each passed on once, in this order |
| `AnthropicOut.AnthropicOutState.FinishStream` | `internal/relay/stream_bridge.go:313-335` | the open block is stopped, the stop reason and the usage are sent, and the message is stopped; a second call writes nothing |
| `AnthropicOut.AnthropicOutState.Feed` | `internal/relay/stream_bridge.go:209-310` | after every chunk the reader holds the blocks of everything said so far, with the last one open; the finishing chunk ends the message |
| `AnthropicOut.AnthropicOutState.Note` | `internal/relay/stream_bridge.go:209-231` | model, usage and finish reason of a chunk are taken over, a missing one leaves the last value |
| `AnthropicOut.AnthropicOutState.Write` | `internal/relay/stream_bridge.go:74-81` | events are appended in order |
| `AnthropicCalls.TextSurvives` | `internal/relay/stream_bridge.go:247-274` | whatever the interleaving, the text blocks together say the text of the stream and the thinking blocks its reasoning |
| `AnthropicCalls.CallsSurviveExactly` | `internal/relay/stream_bridge.go:275-300` | if each call is named once, by its first entry: the client's tool blocks are the calls, each with exactly its own arguments, if and only if the calls come one after another |
| `AnthropicCalls.InterleavedCallsMix` | `internal/relay/stream_bridge.go:295-298` | two calls whose fragments interleave: the client gives all fragments to the second |
| `JsonString.EscapeConcat` | `internal/relay/codex.go:1681-1687` | escaping a concatenation is concatenating the escapes |
| `JsonString.EscapeRoundTrip` | `internal/relay/codex.go:1681-1687` | decoding undoes escaping for every string (section 7 of RFC 8259) |
| `JsonString.EscapeIsSafe` | `internal/relay/codex.go:1681-1690` | an escaped text has no control characters and no angle brackets, and a quote only behind a backslash, so it can be put between quotes |
| `JsonString.WrapInjective` | `internal/relay/responses_tools.go:128-141` | distinct texts have distinct wrappers |
| `CodexStream.CodexChunkState.constructor` | `internal/relay/codex.go:1515-1524` | a new converter has said nothing |
| `CodexStream.CodexChunkState.ConvertText` | `internal/relay/codex.go:1557-1573` | text and reasoning deltas become one piece, empty ones nothing |
| `CodexStream.CodexChunkState.ConvertAdded` | `internal/relay/codex.go:1575-1602` | an announced call becomes an entry under the next index with its id and its cut name; a custom one begins the input wrapper |
| `CodexStream.CodexChunkState.ConvertDelta` | `internal/relay/codex.go:1604-1620` | an argument delta continues the call of its item, escaped for a custom call |
| `CodexStream.CodexChunkState.ConvertDone` | `internal/relay/codex.go:1622-1649` | a finished item supplies arguments that were never streamed, and closes the wrapper of a custom call |
| `CodexStream.CodexChunkState.ConvertEnd` | `internal/relay/codex.go:1651-1679` | the first completion or failure finishes the stream, with the reason and usage of the run or the error as text; a later one says nothing |
| `CodexStream.CodexChunkState.Convert` | `internal/relay/codex.go:1552-1679` | along every well-formed run the chunks say what the run says so far: its text, and per call its identity and arguments; the stream finishes exactly once |
| `CodexStream.SpokenContent` | `internal/relay/codex.go:1557-1573` | whatever the events, well formed or not, the stream carries all reasoning deltas, and all text deltas with the report of a failure that ends the run |
| `CodexAgreement.StreamCodexChunks` | `internal/relay/codex.go:1430-1477` | whatever the upstream sends, the chunks say exactly what the events say one by one, their text and their reasoning are those of the events, every chunk names the first model named or none, and the end marker is sent exactly once; a completed run ends with its finish reason and reports its usage |
| `CodexAgreement.SendEvent` | `internal/relay/codex.go:1444-1466` | one event sends at most one chunk, and the end marker with the first end |
| `CodexAggregate.RelayAgg.constructor` | `internal/relay/codex.go:1034-1041` | a new aggregate is that of an empty run |
| `CodexAggregate.RelayAgg.Apply` | `internal/relay/codex.go:896-971` | along every well-formed run the aggregate holds the text, the finished calls in the order they were finished, the finish reason and the usage; along any run it gathers the text, the reasoning line by line and the last failure |
| `CodexAggregate.RelayAgg.ApplyDelta` | `internal/relay/codex.go:922-925` | a delta extends the pending call of its item and nothing else |
| `CodexAggregate.RelayAgg.ApplyDone` | `internal/relay/codex.go:926-955` | a finished call leaves the pending table and joins the list with its deltas, or its payload if there were none |
| `CodexAggregate.RelayAgg.ApplyCompleted` | `internal/relay/codex.go:956-967` | completion leaves nothing pending and takes the usage |
| `CodexAgreement.WriteChatCompletion` | `internal/relay/codex.go:1377-1426` | the completion lists the calls in order, wraps custom input, and finishes with "stop" if nothing else was said |
| `CodexAgreement.AggregateCodexStream` | `internal/relay/codex.go:1034-1041` | the completion of a well-formed run: its text, its finished calls, its finish reason and its usage; for every sequence of events its reasoning is the deltas in lines of their own, from the first one on that says something |
| `CodexAgreement.ArgumentsAgreeExactly` | `internal/relay/codex.go:1588-1638` | streamed and aggregated arguments of a finished call are equal if and only if it is not a custom call finished without a delta, whose prefix is streamed twice |
| `CodexAgreement.PrefixTwice` | `internal/relay/codex.go:1575-1649` | a custom call announced and finished without a delta, with any input, is such a case: the prefix goes before the whole wrapper |
| `CodexAgreement.ReasoningAgreesExactly` | `internal/relay/codex.go:905-909` | for every sequence of events the aggregated reasoning is the streamed one if and only if at most one delta comes from the first one on that says something |
| `CodexAgreement.ReasoningBroken` | `internal/relay/codex.go:905-909` | two deltas "a" and "b" are streamed as "ab" and aggregated with a line break between |
| `CodexAgreement.BothWays` | `internal/relay/codex.go:896-1702` | for every completed well-formed run, reading the chunk stream and reading the completion give the same text, finish reason, usage (zero if none was reported) and calls, with equal arguments exactly as above |
| `CodexToMessages.BridgeCodexToMessages` | `internal/relay/stream_bridge.go:1021-1058` | for every event sequence the Messages client gets a readable stream exactly if every fragment comes while a tool's block is open, with what the events say up to the end of the run; it always ends with "end_turn" and no tokens, while the usage billed is the run's |
| `CodexToMessages.TextAndReasoningSurvive` | `internal/relay/stream_bridge.go:1021-1058` | a readable message holds the whole reasoning and the whole text up to the end of the run, in its thinking and its text blocks |
| `CodexToMessages.StopAndTokensExactly` | `internal/relay/stream_bridge.go:1021-1058` | the message tells why the run stopped exactly if it made no calls, and its tokens exactly if there were none |
| `CodexToMessages.ToolUseIsLost` | `internal/relay/stream_bridge.go:1021-1058` | a run of one function call that used one token each way is read as an ended turn without tokens |
| `CodexToMessages.PassOne` | `internal/relay/stream_bridge.go:1034-1054` | one event is converted, passed on, and ends the message if it ends the run |
| `CodexToMessages.Finish` | `internal/relay/stream_bridge.go:1046-1057` | the message is ended with the pieces said so far |
| `CodexToMessages.RunSurvives` | `internal/relay/stream_bridge.go:1021-1058` | of a readable run the client gets the whole text, and the calls in order each with its own arguments exactly if they come one after another |
| `Breaker.State.constructor` | `internal/relay/state.go:48-57` | a new breaker is closed and has no failures |
| `Breaker.State.Allow` | `internal/relay/state.go:119-136` | closed lets through without a token; half-open lets through one leased probe at a time, each under a new token; open lets nothing through before its interval is over |
| `Breaker.AllowsExactly` | `internal/relay/state.go:119-136` | who is let through: everybody while closed, nobody before the open interval is over, one at a time while the lease lasts; a token is given exactly when not closed |
| `Breaker.Durations` | `internal/relay/state.go:66-92` | what is not configured takes 30 seconds, the lease 120 |
| `Breaker.State.ReleaseOne` | `internal/relay/state.go:140-149` | a token clears the probe it was given for and no other |
| `Breaker.State.OnSuccess` | `internal/relay/state.go:152-158` | a success closes the breaker and clears failures and probe |
| `Breaker.State.OnFailure` | `internal/relay/state.go:161-178` | a failure trips a half-open breaker at once, is ignored while open, and is counted within the window while closed |
| `Breaker.State.Reset` | `internal/relay/state.go:181-187` | a reset closes the breaker and clears failures and probe |
| `Breaker.State.TrimLocked` | `internal/relay/state.go:190-199` | compaction drops the leading failures older than the window and nothing else |
| `Breaker.State.TransitionLocked` | `internal/relay/state.go:103-109` | an open interval that is over turns into half-open without a probe |
| `Breaker.State.TripLocked` | `internal/relay/state.go:201-206` | tripping records the moment and clears failures and probe |
| `Breaker.State.ClearProbeLocked` | `internal/relay/state.go:208-211` | no probe is outstanding afterwards |
| `Breaker.State.Snapshot` | `internal/relay/state.go:214-219` | looking moves an open interval that is over on, and reports phase and failures |
| `Breaker.WindowIsExact` | `internal/relay/state.go:103-211` | for every run with a monotone clock, the breaker behaves as one that keeps every failure since it was last cleared: same phase, and its list is that history filtered to the window; outside the closed phase the list is empty |
| `Breaker.TripsExactly` | `internal/relay/state.go:161-178` | the closed breaker trips at a failure exactly when the window that ends there holds the threshold number of failures |
| `Probes.ProbeHasOneHolder` | `internal/relay/handler.go:244-262` | in every interleaving an outstanding probe belongs to exactly one live request |
| `Probes.UnsettledGrantsAreSpaced` | `internal/relay/state.go:119-136` | probes that nobody gave back or settled are granted at least the lease apart |
| `Probes.LateReleaseIsHarmless` | `internal/relay/state.go:140-149` | a returning request clears its own probe and never a newer one |
| `Probes.Recovers` | `internal/relay/state.go:103-136` | after the longer of the open interval and the lease without a step, the next request is let through |
| `Probes.Invariant` | `internal/relay/handler.go:244-262` | tokens are unique among live requests, outstanding only while half-open, and never beyond the last one given |
| `Probes.ProbeOutlivesAttempt` | `internal/relay/handler.go:249-262` | the probe of an attempt stays outstanding when the attempt ends if and only if it neither succeeded nor counted against the channel |
| `Probes.WhoSettlesNothing` | `internal/relay/handler.go:277-441` | these are the attempts with a revoked credential, those given up because the client left or seemed to, and those refused with a status other than 429 and 5xx |
| `Probes.OutstandingUntilTakenBack` | `internal/relay/handler.go:244-262` | in every run an outstanding probe stays so exactly until its holder returns, somebody settles the breaker, or somebody asks after the lease |
| `Probes.TakenBackExactly` | `internal/relay/state.go:103-149` | until then every request that asks is turned away |
| `Probes.RefusedProbeBlocks` | `internal/relay/handler.go:249-262` | a probe answered with 400 leaves the channel closed to everybody while its request is busy with the next channel |
| `Route.BuildCandidates` | `internal/relay/route.go:24-76` | the candidates are exactly the eligible channels, each as often as listed, from the highest priority down |
| `Route.CandidatesAre` | `internal/relay/route.go:33-57` | every candidate is enabled, of kind "api_key" or "oauth", on the list if there is one, and maps the model if it maps any; it is asked for the mapped model exactly if there is one; every such channel is a candidate |
| `Route.ByPriority` | `internal/relay/route.go:32-51` | each priority's group holds its eligible channels in list order |
| `Route.Admit` | `internal/relay/route.go:36-50` | a channel is a candidate if and only if it is enabled, of a known kind, allowed for the key and serves the model, under the mapped model name |
| `Route.ExchangeSort` | `internal/relay/route.go:61-67` | the priorities are sorted in descending order, none lost |
| `Route.Settle` | `internal/relay/route.go:62-66` | one pass puts the largest remaining priority in its place and loses none |
| `Route.Shuffle` | `internal/relay/route.go:71-73` | shuffling a group keeps its members |
| `Route.KeysOf` | `internal/relay/route.go:57-60` | every priority that occurs is listed once |
| `Failover.TryInTurn` | `internal/relay/handler.go:244-463` | the candidates are tried in order until one ends the request, a call whose error text mentions a cancellation included; the client gets what they wrote and, if none ended it, one error with the last status; the breaker of a watched channel hears of each channel failure once and of a success |
| `Failover.BreakerFail` | `internal/relay/handler.go:231-243` | a channel is charged at most once per request, and only if its breaker is on |
| `Failover.RelayCore` | `internal/relay/handler.go:170-463` | unless the client leaves, the number of responses is one for every stream that broke off after a status outside 2xx, and one more unless the last call failed unwritten with a text that mentions a cancellation: exactly one if and only if neither happens or each does once; without such a cut never two |
| `Failover.AnswersCounted` | `internal/relay/handler.go:244-463` | the number of responses for every list of tries: one per attempt that wrote and went on, and one more unless the relay stops silently or the client left |
| `Failover.LiveClientUnanswered` | `internal/relay/handler.go:388-394` | a client that never left gets no response when the upstream answers 200 with an error message that contains "context canceled" |
| `Failover.AnsweredTwice` | `internal/relay/handler.go:388-427` | a stream that breaks off after 300 is followed by a second response |
| `Failover.WhoWritesAndGoesOn` | `internal/relay/handler.go:388-427` | the attempts that write and go on are exactly the streams that break off, not cancelled nor taken for it, after a status outside 2xx |
| `Failover.ChargesExactly` | `internal/relay/route.go:89-127` | a channel is charged for a status 429 or from 500 on and for every error that is neither a refusal nor a sign of the client leaving |
| `Failover.EndsExactly` | `internal/relay/handler.go:388-456` | the request ends with a success, with the client leaving or seeming to, and on a stream with a failure after a status that may have been sent |
| `Failover.EachChannelOnce` | `internal/relay/handler.go:244-262` | channels with distinct ids are tried at most once each |
| `Failover.UnusableBodyKeepsItsStatus` | `internal/relay/handler.go:410-463` | an unusable body of a whole answer makes the final error carry that answer's success status |
| `Failover.FinalStatusIsSuccessExactly` | `internal/relay/handler.go:410-463` | when no candidate ends the request, the final error carries a status below 400 if and only if the last failed call had an unusable body with such a status or was a stream cut off after one outside 2xx |
| `Ledger.Database.FlushUsageBatch` | `internal/op/op.go:376-397` | rows are inserted and every key is credited with its total, all or nothing |
| `Ledger.Credit` | `internal/op/op.go:386-394` | each existing key is credited with its own delta; a failing statement fails the whole |
| `Ledger.Totals` | `internal/relay/usage.go:83-88` | the deltas of a batch are the summed costs per key |
| `Ledger.UsageWriter.constructor` | `internal/relay/usage.go:45-61` | the batch size defaults to 100 |
| `Ledger.RecordKeeps` | `internal/relay/usage.go:64-70` | recording puts the entry in exactly one place and never overfills the queue |
| `Ledger.TakeKeeps` | `internal/relay/usage.go:97-113` | taking moves an entry and keeps every other in its place |
| `Ledger.SpentConcat` | `internal/relay/usage.go:83-88` | costs of consecutive batches add up |
| `Ledger.UsageWriter.Record` | `internal/relay/usage.go:64-70` | recording queues the entry, or drops it when the queue is full |
| `Ledger.UsageWriter.Flush` | `internal/relay/usage.go:78-93` | a batch is stored with its totals or lost as a whole, and is empty afterwards |
| `Ledger.UsageWriter.Take` | `internal/relay/usage.go:97-116` | the oldest queued entry joins the batch, which is flushed exactly when it is full |
| `Ledger.UsageWriter.Stop` | `internal/relay/usage.go:97-129` | stopping leaves queue and batch empty, loses no entry unless a flush fails, and stores in the order recorded |
| `Ledger.FlushKeeps` | `internal/relay/usage.go:78-93` | flushing keeps every entry in exactly one place, and keeps the stored totals equal to the summed cost of the stored rows |
| `Quota.QuotaEnforcer.DbUsed` | `internal/relay/quota.go:97-103` | the stored total of the key, nothing if it cannot be read |
| `Quota.QuotaEnforcer.CurrentUsed` | `internal/relay/quota.go:72-94` | the counter while it is there, nothing if it is not a number; otherwise the stored total, which becomes the counter when the counter was missing; an unreadable counter falls back to the stored total |
| `Quota.StepsAreTheCheck` | `internal/relay/quota.go:72-94` | the interleaved steps of a check, when nobody comes between, compare the value of currentUsed and leave its counters, whatever fails, a counter that is not a number included |
| `Quota.QuotaEnforcer.OverLimit` | `internal/relay/quota.go:59-69` | case by case, a request is rejected exactly if a value was read and reaches a positive limit: the counter if it is there and a number, the stored total if the counter is missing and could be filled or if it could not be read |
| `Quota.QuotaEnforcer.Add` | `internal/relay/quota.go:107-114` | a finished request adds its cost to its key's counter and to no other |
| `Quota.Conservation` | `internal/relay/handler.go:474-502` | in every interleaving each finished request is in exactly one of: about to be recorded, queue, batch, stored, dropped, lost; and each stored total equals the summed cost of its stored rows |
| `Quota.NeverRejectedEarly` | `internal/relay/quota.go:59-114` | in every interleaving, with any loss, the compared value is the cost of finished requests of the key, none counted twice, so no key is rejected while its real spend is below its limit |
| `Quota.CounterIsExact` | `internal/relay/quota.go:105-114` | while no counter is evicted and no increment fails, every counter, present or missing, equals what its key has spent, whatever the queue drops and the database refuses |
| `Quota.DeficitGrowsExactly` | `internal/relay/quota.go:105-114` | in every run, while a counter is there, what it lacks grows by the failed increments of its key and by nothing else, and is never repaired |
| `Quota.ExactWhilePresent` | `internal/relay/quota.go:72-114` | a counter that is there is exact if and only if it was exact when it was made and no increment of its key has failed since |
| `Quota.MadeOnce` | `internal/relay/quota.go:72-114` | every counter that is there was made by one last step |
| `Quota.MadeExactly` | `internal/relay/quota.go:78-89` | a counter filled from the database is exact if and only if every cost of the key so far was stored already when the value it was filled with was read; one made by an increment, if and only if nothing was spent before |
| `Quota.EvictionForgets` | `internal/relay/quota.go:105-114` | a run in which everything is stored, the counter was evicted, and a check compares 5 where 105 were spent |
| `Lines.LinesJoin` | `internal/relay/protocol.go:103-125` | cutting into lines loses nothing |
| `Passthrough.StreamPassthrough` | `internal/relay/protocol.go:59-130` | the output is the body with a line feed at its end, and the usage is what its lines report, whatever the reads the body arrived in; when a read fails, the whole lines are sent and the usage is what they report |
| `Passthrough.LargestCounts` | `internal/relay/protocol.go:80-93` | each count is the largest any line reports, 0 if none reports more; found exactly if some line reports |
| `Passthrough.LastModelNamed` | `internal/relay/protocol.go:89-91` | the model is the last one a line names |
| `Passthrough.Append` | `internal/relay/protocol.go:76-102` | appending writes in place when the array has room, changing nothing before the end of the slice nor beyond what it appends |
| `Passthrough.Copier.HandleLine` | `internal/relay/protocol.go:74-97` | a line is sent with its line feed, its usage merged, and the bytes around it are left alone |
| `Passthrough.Copier.TakeLine` | `internal/relay/protocol.go:108-112` | the in-place line feed leaves the pending bytes unharmed |
| `Passthrough.Copier.Drain` | `internal/relay/protocol.go:103-115` | every complete line is handled and nothing is lost between output and pending bytes |
| `Passthrough.Copier.Receive` | `internal/relay/protocol.go:99-115` | a read is appended to the pending bytes and its complete lines are handled |
| `Passthrough.Copier.IndexOf` | `internal/relay/protocol.go:134-141` | the first place of a byte, if there is one |
| `CodexPeek.PeekError` | `internal/relay/codex.go:1237-1284` | the verdict depends on the first bytes of the body alone, for every way they arrive; when it passes, the replacing body delivers exactly the original bytes and then the end or failure of the original |
| `CodexPeek.LookAhead` | `internal/relay/codex.go:1247-1275` | events are read whole until one tells, and read plus unread bytes are the window |
| `CodexPeek.BufReader.ReadEvent` | `internal/relay/codex.go:1293-1307` | an event is read up to its blank line, whatever the reads underneath |
| `CodexPeek.BufReader.ReadString` | `internal/relay/codex.go:1293-1307` | a line is read up to its line feed, whatever the reads underneath |
| `CodexPeek.ReplayBody.Read` | `internal/relay/codex.go:1277-1289` | reads of any size deliver prefix, buffer, rest of the window and rest of the body in order, losing nothing, and then report what the original reports |
| `CodexPeek.RetryOnlyBeforeOutput` | `internal/relay/codex.go:1254-1270` | a retry is called for exactly if some event fails and neither it nor any event before it carries output; "not a stream" exactly if the first event that tells is no frame |
| `CodexPeek.FirstEventExactly` | `internal/relay/codex.go:1293-1307` | an event ends with its first blank line, with or without a carriage return, or with the stream |
| `AnthropicHistory.PivotToAnthropic` | `internal/relay/anthropic.go:364-450` | the messages of a chat request become the turns, tool results gathered in runs |
| `AnthropicHistory.MessageToPivot` | `internal/relay/anthropic.go:152-237` | one turn gives its tool results as messages of their own, then what is left of it |
| `AnthropicHistory.AnthropicToPivot` | `internal/relay/anthropic.go:82-113` | the turns are taken apart one after another, the system text first |
| `AnthropicHistory.TurnIsTakenApart` | `internal/relay/anthropic.go:152-237` | a turn, whatever its blocks, gives its tool results, then one message with its texts, its calls and its reasoning one block a line, or none if it has none of these |
| `AnthropicHistory.SystemIsSent` | `internal/relay/anthropic.go:398-401` | all system and developer texts that say something are sent, in order, a blank line between them |
| `AnthropicHistory.CallIsSent` | `internal/relay/anthropic.go:414-429` | a named call becomes a tool use with its id, its cut name, and its arguments as the object they are, or else the empty object |
| `AnthropicHistory.ResultByPart` | `internal/relay/anthropic.go:267-289` | the text of a tool result is its parts one a line |
| `Pivot.JoinTextParts` | `internal/relay/codex.go:673-695` | the text of a list of parts: each part that says something in a line of its own |
| `Pivot.TrimSplits` | `internal/relay/codex.go:398-410` | trimming takes nothing but spaces, and only from the ends |
| `AnthropicHistory.ThereAndBack` | `internal/relay/anthropic.go:150-450` | for every conversation, gathering tool results and taking them apart again restores every kept message in its place |
| `AnthropicHistory.UnchangedExactly` | `internal/relay/anthropic.go:150-450` | a conversation comes back unchanged if and only if it is normal: at most one leading system text, tidy contents, no reasoning, named and identified calls with printed JSON objects |
| `AnthropicHistory.CanonicalExactly` | `internal/relay/anthropic.go:527-543` | arguments come back unchanged if and only if they are a JSON object as it is printed |
| `ResponsesHistory.ResponsesToPivot` | `internal/relay/responses_api.go:36-69` | the input of a Responses request, a text or a list of items, becomes chat messages: every item goes through the tool bridge, and parallel calls are merged |
| `ResponsesHistory.PivotMessage` | `internal/relay/responses_api.go:151-193` | the message of one item: its tool goes by the alias, its namespace is dropped, and an item of any other kind has none |
| `ResponsesHistory.CallsAreGathered` | `internal/relay/responses_api.go:53-66` | no calling message follows another: parallel calls share one message |
| `ResponsesHistory.MessagesToInput` | `internal/relay/codex.go:101-167` | the messages of a chat request become items; the first system or developer message becomes the instructions |
| `ResponsesHistory.SpokenItems` | `internal/relay/codex.go:115-155` | a spoken message gives reasoning, content and calls, in this order |
| `ResponsesHistory.AssistantCalls` | `internal/relay/codex.go:134-153` | each named call becomes one item, in order |
| `ResponsesHistory.MessagesSay` | `internal/relay/responses_api.go:44-69` | merging parallel calls and splitting them again restores the sequence of kept items |
| `ResponsesHistory.UnchangedExactly` | `internal/relay/responses_api.go:44-69` | before the normal form, the items come back unchanged if and only if every one is a text message, an identified and named call of a function without a namespace, or an identified output of a function |
| `ResponsesHistory.InstructionsSurvive` | `internal/relay/responses_api.go:36-69` | before the normal form, instructions survive the way; without any, the first system or developer item takes their place |
| `CodexHistory.BuildCodexRequest` | `internal/relay/codex.go:86-236` | the request sent is the normal form of the converted one: its input field holds the converted items with their identifiers cut and their arguments made JSON objects, or the placeholder, and its instructions are the own ones or the default |
| `CodexHistory.ItemIsSent` | `internal/relay/codex.go:333-410` | the normal form of every kind of converted item |
| `CodexHistory.PartFields` | `internal/relay/codex.go:121-133` | parts of the assistant are output texts, parts of anybody else input texts, each with its own text |
| `CodexHistory.HistorySurvivesExactly` | `internal/relay/codex.go:86-236` | the history of a Responses request that goes through chat messages to a Codex upstream is sent as it came if and only if it is not empty and every item is a normal text message, an output or a call of a function with an identifier of at most 64 characters and, for a call, no namespace and arguments that are a trimmed JSON object |
| `CodexHistory.ArgumentsAndNamespacesAreLost` | `internal/relay/codex.go:398-410` | a call with the arguments [1] and a call in a namespace are both sent as the plain call with empty arguments |
| `CodexHistory.ResponsesToCodex` | `internal/relay/responses_api.go:23-69` | both conversions in a row, from declared tools, text or items to the request: the same exact condition on the input field that is sent |
| `CodexHistory.InstructionsSurviveExactly` | `internal/relay/codex.go:109-290` | instructions are sent as they came if and only if they are not blank, and what is sent is never blank |
| `CodexSchema.HasUnescapedPropertyEscape` | `internal/relay/codex.go:576-590` | the backward count of backslashes agrees with reading the pattern from the left |
| `CodexSchema.ParityIsLexing` | `internal/relay/codex.go:576-590` | a property escape is unescaped for the counting test exactly if a forward lexer meets it |
| `CodexSchema.CleanExactly` | `internal/relay/codex.go:547-573` | cleaning leaves no rejected pattern at any depth, and changes a schema if and only if it had one |
| `CodexSchema.ParamsExactly` | `internal/relay/codex.go:547-820` | parameters are sent as a clean object schema, and unchanged if and only if they already were one |
| `CodexSchema.ParamsKeep` | `internal/relay/codex.go:800-822` | every keyword but type, properties and pattern is sent, cleaned; the type is "object" and properties that are no object become empty |
| `CodexSchema.CleanInside` | `internal/relay/codex.go:544-573` | cleaning goes through lists and properties one by one and keeps their keys and their length |
| `CodexTools.ToolExactly` | `internal/relay/codex.go:411-492` | a tool is sent unchanged if and only if it fits; what is sent fits if and only if its names still do after being cut |
| `CodexTools.FunctionIsSent` | `internal/relay/codex.go:424-452` | name, description, parameters and strictness of a function are its own, or those of its nested function where it has none |
| `CodexTools.NestedAsFlat` | `internal/relay/codex.go:424-452` | a function in the nested form is sent as the flat function with the same fields |
| `CodexTools.ToolsSettleExactly` | `internal/relay/codex.go:411-492` | normalizing the tools twice is normalizing them once if and only if no kept name ends in a space where it was cut |
| `CodexTools.CutBehindASpace` | `internal/relay/codex.go:411-440` | a name of 127 letters, a space and a letter is such a name: it changes twice |
| `CodexTools.ChoiceNamesATool` | `internal/relay/codex.go:494-545` | a function or custom choice that is sent names a tool that is sent, and stays as it is the next time |
| `CodexTools.ChoiceIsSent` | `internal/relay/codex.go:494-530` | a choice that can be met is sent: the three words, an offered function or custom tool under its cut name, an offered hosted tool as it is |
| `CodexNormalize.InputSettles` | `internal/relay/codex.go:333-376` | the input sent is never empty, and is sent as it is the next time |
| `CodexNormalize.ItemIsDropped` | `internal/relay/codex.go:341-353` | exactly blank texts, item references and what is neither a text nor an object are dropped |
| `CodexNormalize.ItemIsSent` | `internal/relay/codex.go:354-371` | field by field: system messages become developer ones, server identifiers go, call identifiers are cut, payloads become texts, arguments objects; every other field stays |
| `CodexNormalize.MergedSettles` | `internal/relay/codex.go:592-609` | the merged list holds every string once and the required one, and merging again changes nothing |
| `CodexNormalize.MergedHolds` | `internal/relay/codex.go:592-609` | the merged list holds exactly the strings of the list and the required one |
| `CodexNormalize.BoundedSettles` | `internal/relay/codex.go:632-643` | a session name fits the limit, counted in bytes, and is kept the next time |
| `CodexNormalize.ReasoningSettles` | `internal/relay/codex.go:292-306` | reasoning always has an effort and a summary, and stays as it is |
| `CodexNormalize.NormalForm` | `internal/relay/codex.go:277-330` | only allowed fields, a non-empty input, fitting tools and a choice among them |
| `CodexNormalize.CopiesAreSent` | `internal/relay/codex.go:315-330` | model, metadata and text settings are copied; "fast" becomes "priority" and no other tier is sent |
| `CodexNormalize.TextsAreSent` | `internal/relay/codex.go:288-324` | instructions that say something and session names that fit are sent as they are |
| `CodexNormalize.ReasoningIsSent` | `internal/relay/codex.go:292-313` | effort and summary are the given ones, "low" and "auto" if missing, other settings stay; encrypted reasoning is included unless the effort is "none" |
| `CodexNormalize.NormalSettlesExactly` | `internal/relay/codex.go:277-330` | normalizing a request twice is normalizing it once if and only if no kept tool name ends in a space where it was cut |
| `CodexNormalize.NormalizeCodexRequest` | `internal/relay/codex.go:277-330` | editing the request field by field and dropping the rest reaches the normal form |
| `CodexNormalize.NormalizeContent` | `internal/relay/codex.go:278-286` | flags, input, tools and choice are edited, every other field is left alone |
| `CodexNormalize.NormalizeSettings` | `internal/relay/codex.go:288-324` | instructions, reasoning, include, tier and session are edited, every other field is left alone |
| `CodexNormalize.EditInput` | `internal/relay/codex.go:281-281` | the input is replaced by its normal form and nothing else changes |
| `CodexNormalize.EditTools` | `internal/relay/codex.go:282-285` | the tools are replaced by the kept ones, or dropped if none is left |
| `CodexNormalize.EditChoice` | `internal/relay/codex.go:286-286` | the choice is judged against the tools that are sent |
| `CodexNormalize.EditInstructions` | `internal/relay/codex.go:288-290` | blank instructions are replaced by the default ones |
| `CodexNormalize.EditReasoning` | `internal/relay/codex.go:292-306` | effort and summary are filled in |
| `CodexNormalize.EditInclude` | `internal/relay/codex.go:307-313` | encrypted reasoning is requested unless the effort is none |
| `CodexNormalize.EditTier` | `internal/relay/codex.go:315-319` | fast becomes priority, any other tier is dropped |
| `CodexNormalize.EditSession` | `internal/relay/codex.go:320-324` | the session name is bounded, an empty one dropped |
| `CodexNormalize.NormalizeInput` | `internal/relay/codex.go:333-376` | string and list input alike become the list of kept items, a placeholder if none is left |
| `CodexNormalize.NormalizeTools` | `internal/relay/codex.go:411-492` | the kept tools in order, each in the form it is sent in |
| `CodexNormalize.MergeStringList` | `internal/relay/codex.go:592-609` | the strings of the list, each once, in order of first occurrence, then the required one |

## Left out

- JSON parsing and printing: events and requests are datatypes; a field of another JSON type than the code asserts is the value the failed assertion gives. Only string escaping and the input wrapper are concrete; the rest of the codec is a parameter (`Json.Faithful`, `ResponsesTools.InputDecoder`).
- Hashes: the alias hash is a parameter that gives distinct values on distinct salts, the session digest one that gives 61 hexadecimal digits.
- Generated ids and clock readings are parameters or part of the events; the role marker of the first delta, response ids and timestamps are not modelled.
- Passthrough.StreamPassthrough: writing to the client always succeeds here and in the emitters; only `Failover` knows the outcome "client left".
- Aliasing of items: an item restored in its done event is the same object in the completed response; the model restores the completed items twice instead and proves that this changes nothing (`ResponsesTools.RestoreIdempotent`).
- In-place editing of JSON maps (items, tools, schemas, messages) is modelled on values; the request body of `CodexNormalize` is edited field by field.
- Costs are exact integers instead of floating point, the probe counter does not wrap around, and quota resets are outside the runs of `Quota`.
- Mutexes: each breaker operation is one step; `Quota` and `Probes` interleave at the level of those steps.
- CodexPeek.PeekError: a body ends or breaks off for good; a read that fails once and then goes on is not modelled.
- What an event of a Codex stream looks like is a parameter of the look ahead (`CodexPeek.Judge`), and what a line says about usage one of the passthrough.
- AnthropicHistory.PivotToAnthropic: leaves out image parts, which become a bare object on the way back when they stand alone; the histories hold text and tools only.
- AnthropicHistory.MessageToPivot: leaves out image blocks, for the same reason.
- ResponsesHistory.ResponsesToPivot: leaves out images, which have no place in the text of a message.
- CodexHistory.BuildCodexRequest: takes the tools, the tool choice and the copied fields as already converted; their normal form is in `CodexTools` and `CodexNormalize`.
- Failover.RelayCore: gives no account of the probe tokens a request holds; `Probes` does, with the release at the return of the request.
- Codex runs with a failure event or malformed items are converted and aggregated by the same code, but the agreement is stated for well-formed runs.
- The chat entry of the Anthropic bridge and request parameters other than messages: branches that only add easy members.
- Pricing, OAuth adapters, transport, TLS, encryption, admin handlers and the web interface are not part of this model.
