# Verification of maxx

maxx is a proxy in front of language-model providers.  It translates requests and streams between
the dialects of clients and providers, fails over from one provider to the next, and keeps providers
that have failed out of use for a while, on several instances at once.  This project models the parts
of it in which state, order and chance meet, and proves what they are for.

`dafny verify dfyconfig.toml` checks everything.

## How the model is made

Every component is described twice.  *Specification functions* on values say what it does, on every
input, step by step in the order of the program; the theorems are about them.  Beside them stands
the program's own form: objects whose fields change in place, and loops.  Each such method is proved
to do exactly what the function of the same name says.

What the code does not decide itself comes from outside as an argument: JSON decoding and validity,
the current time, the failures of store and bus, the delivery of events, the order of a range over a
map, the outcome of every attempt and what the context says when it is looked at.  A theorem holds
for all of these.  A Go string is a sequence of bytes, one character each.  Times are integers.  A lemma
by induction says so in its body; automatic induction is switched off everywhere.

## The components

- **Event streams.**  `Text` and `Sse` are the parser of server-sent events with its carried-over buffer,
  and the formatter.
- **Chat Completions to Responses.**  `ResponsesEvents` is the grammar of the events the Codex client
  reads, `ResponsesFacts` says what the grammar means without it.  `OpenAIToCodex` is the converter,
  `ResponsesConverter` the object.  `CodexStreamSafety` has the invariant, `CodexStreamExact` the ways to
  break it, `CodexLateChoices` what may follow the end, `CodexStreams` the exact condition, `CodexOutputs` the
  final output of any stream, `CodexItemsDone` its agreement with the items that ended in the stream,
  `CodexAggregation` that with the non-streaming converter; `CodexResponseIds`, `CodexAnnouncements` and
  `CodexConservation` hold of streams with any number of choices; `FreeformTools` are the tools concerned.
- **To Claude.**  `ClaudeEvents` is the grammar and its meaning; `OpenAIToClaude`, `OpenAIToClaudeStreams`,
  `OpenAIToClaudeConverter` and `OpenAIToClaudeBytes` are converter, theorems, object over bytes, and the
  two put together; `GeminiToClaude` and `GeminiToClaudeConverter` the Gemini form.
- **Names and patterns.**  `ToolNames`, `Decimal`, `Wildcard`, `ModelMappings`, `GeminiCalls`.
- **Cooldowns.**  `CooldownStores` is the store and SetIfLater, `Cooldowns` one instance, `CooldownManager`
  the object, `CooldownProtocol` many instances with one store and a bus, `CooldownEffects` what a mutation
  means for those who ask and for the other instances.  `RedisKeys` are the keys.
- **Dispatch.**  `Dispatch` and `Dispatcher` are the retry and failover loops with the closing step;
  `ResponseCaptures` the bounded snapshot of a response.

## Where the code does less than one might expect

Each of these is proved: an input or a run that shows the failure, and the exact condition.

- The event parser forgets the data lines it has collected when a chunk ends in the middle of the next line,
  and reports them early when a chunk ends just before it.  Exactly the texts whose data lines are each
  followed at once by an empty line are safe from the cuts (`ChunkingIndependentExactly`, `CutsMatter`); CRLF
  streams are not (`CrlfCutLosesEvent`).  An event name can be lost in the same way, which matters to the
  Claude converter for the name `done` (`NamedDoneDependsOnCut`): a stream survives every cut exactly if each
  frame of that name is the end marker (`CutsDoNotMatterExactly`).
- The wildcard matcher tries a letter before a star, so a `*` in the input can be taken for the star of
  the pattern; every pattern with a star except `*` has an input that it wrongly rejects
  (`RightExactly`, `WrongInput`).
- Equal generations do not always mean equal cooldowns.  `AgreementExactly` says which steps keep that, in
  every run; the runs that lose it are a write on an instance that has not seen the last generation
  (`StaleWriteDisagrees`), a mutation of another instance between a write and its bump
  (`OverlapDisagrees`), a write or a bump that fails (`FailedWriteDisagrees`, `FailedBumpDisagrees`), and a
  reload that a write overtakes (`OvertakenReloadDisagrees`).  A bump that fails right after its write does
  harm exactly if the write changed something live and another instance was up to date (`FailedBumpExactly`).
- A failure timed by its policy can move the end of a cooldown earlier: if the store cannot be written, or has
  no later end where the instance has (`FailureShortensExactly`, `OverwriteOccurs`).
- SetIfLater on Redis keeps the latest end, and makes the order of the writers irrelevant, exactly if the
  clocks of all instances are ahead of Redis's by the same (`ClocksExactly`); any two that are not can lose an
  end (`SkewLosesLatest`).
- A Chat Completions stream with text after text and a tool_calls delta, or with a call that never gets
  a name, gives Responses events that no client can follow (`TextAfterToolsBreaks`, `NamelessCallBreaks`;
  `CodexStreams.StreamExact` says exactly which streams do).
- The Responses output of a stream is not always that of the whole message: content or tool calls in the
  middle of the reasoning cut it into several items, and a call without an id is dropped
  (`ReasoningComesApart`; `StreamingMatchesExactly` says exactly when the two agree).
- Two tools or more with empty names can cost another tool its name on the way back (`RoundTripExactly`,
  `EmptyNamesLose`).
- A provider that disables error cooldown can be tried without end (`DisabledGoesOn`); a request has a bound
  exactly if it meets no such provider with a candidate to try (`EndsExactly`).
- Two attempts can reach the same client, after a provider-scope broken stream and only then
  (`WrittenGoesOnExactly`, `SplicingOccurs`).  A comment in `internal/executor/response_capture.go` (lines
  83-88) names the disabled error cooldown as the only case; the code (`internal/executor/executor.go`, lines
  451-477) does so whatever the provider's setting, and the model follows the code.

## Model

| member | source | states |
|---|---|---|
| CodexStreams.StreamExact | internal/converter/openai_to_codex.go:445-947 | For every single-choice stream: the events are well formed **if and only if** a finish reason comes, the stream is fair up to it (no text after text and a tool_calls delta; each call with an id has a name by then and keeps the one it was announced with; a freeform call is not renamed to a function while it has arguments) and mute after it (no text or reasoning, no announcement, no more arguments of a function, no second finish with new ids); and then `response.completed` is last with the output the stream said. |
| CodexLateChoices.LateChoice | internal/converter/openai_to_codex.go:586-852 | After the end a choice adds no event **if and only if** it is mute, and the state after it is again one in which that holds. |
| CodexOutputs.OutputExact | internal/converter/openai_to_codex.go:854-943 | Every single-choice stream with a finish reason, fair or not, sends `response.completed` with the runs of reasoning, the text and the calls by index that it sent up to there; and sends it last, if it says nothing more. |
| CodexItemsDone.OutputListsAll | internal/converter/openai_to_codex.go:560-943 | In every well-formed single-choice stream the output of `response.completed` lists exactly the items of the `response.output_item.done` events: the reasoning, then the message, then the calls, each kind in the order in which it ended, each item as it ended, but for arguments that stayed empty, which end as `{}`. |
| CodexItemsDone.FinishDone | internal/converter/openai_to_codex.go:763-943 | The same at the finish reason, from any state that keeps the invariant. |
| CodexResponseIds.OneResponse | internal/converter/openai_to_codex.go:482-943 | In every stream, of any number of choices, fair or not: `response.created`, `response.in_progress` and `response.completed` carry the one response id - that of the first chunk that counts, or a fresh one - the ids of all reasoning and message items are built from it, those of calls from their call, and the two opening events come first. |
| CodexAnnouncements.AnnouncedFirst | internal/converter/openai_to_codex.go:586-849 | In every stream, of any number of choices, fair or not, each part, delta and end of a message or reasoning item comes after the event that announced that item at that output index. |
| CodexConservation.TextConserved | internal/converter/openai_to_codex.go:591-650 | In every stream, of any number of choices, fair or not, the deltas of the message of a choice are together the content of that choice, and those of all reasoning items all reasoning. |
| CodexAggregation.WholeOutputJoins | internal/converter/openai_to_codex.go:284-331 | The output of a whole response is that of its choices, one after the other. |
| CodexAggregation.StreamingMatchesExactly | internal/converter/openai_to_codex.go:254-943 | A message cut into deltas in whatever order: `response.completed` carries what the non-streaming converter gives for the whole message, freeform tools included, **if and only if** no content or tool_calls delta stands between two pieces of its reasoning (a choice's content coming before its own reasoning) and each of its calls has an id; and the events are well formed **if and only if** no call with an id lacks a name and no content follows content that a tool_calls delta has ended. |
| CodexAggregation.StreamingMatchesWhole | internal/converter/openai_to_codex.go:254-943 | So in the usual order - reasoning before content, both before the calls, and no delta with reasoning and content together - the output always agrees, if the calls have ids. |
| CodexAggregation.ReasoningComesApart | internal/converter/openai_to_codex.go:591-650 | A concrete stream of three deltas, the second with content and reasoning: it ends with two reasoning items, the whole message gives one. |
| CodexAggregation.TransformWhole | internal/converter/openai_to_codex.go:284-331 | The loops of the non-streaming converter over choices and calls give the output items of the whole response, choices without a message skipped. |
| CodexAggregation.CallsHeard | internal/converter/openai_to_codex.go:687-758 | The deltas of a cut message add up to its calls: ids, names and arguments, per call index, whatever else comes between them. |
| CodexStreams.TextAfterToolsBreaks | internal/converter/openai_to_codex.go:652-685 | A concrete two-chunk stream with text after text and tool_calls is not well formed. |
| CodexStreams.NamelessCallBreaks | internal/converter/openai_to_codex.go:803-847 | A concrete stream with a call that never gets a name is not well formed. |
| CodexStreamExact.UnfairChoiceBreaks | internal/converter/openai_to_codex.go:586-852 | A choice that is not fair breaks the event grammar, whatever came before. |
| CodexStreamSafety.HandleContentSound | internal/converter/openai_to_codex.go:591-625 | Content keeps the invariant that ties the converter's maps to the items the client has seen: it closes the open reasoning, announces the message once, and sends the delta to it. |
| CodexStreamSafety.HandleReasoningSound | internal/converter/openai_to_codex.go:627-650 | Reasoning keeps the invariant: it goes to the one open reasoning item, opened at the next output index. |
| CodexStreamSafety.HandleToolSound | internal/converter/openai_to_codex.go:687-759 | A tool delta keeps the invariant: the item is announced once id and name are known, and arguments held back until then are sent in full and in order. |
| CodexStreamSafety.HandleToolsSound | internal/converter/openai_to_codex.go:652-760 | A tool_calls delta keeps the invariant; it ends reasoning and message first. |
| CodexStreamSafety.FinishSound | internal/converter/openai_to_codex.go:763-849 | A finish reason closes every open item, once, with its final text. |
| CodexStreamSafety.HandleChoiceSound | internal/converter/openai_to_codex.go:586-852 | A fair choice keeps the invariant; after a finish reason all items are closed. |
| ResponsesFacts.EventInPlace | internal/converter/openai_to_codex.go:445-947 | What the grammar means at each event: deltas fall between the announcement and the end of their item, an item ends once and with the concatenation of its deltas (empty arguments as `{}`), completion comes after all ends. |
| ResponsesFacts.WellFormedLog | internal/converter/openai_to_codex.go:445-947 | What it means for the whole log: sequence numbers 1, 2, 3, …; output indices 0, 1, 2, … announced in order; each item ended exactly once; `response.completed` once and last. |
| ResponsesFacts.GrammarTally | internal/converter/openai_to_codex.go:479-480 | The grammar's state agrees with independent counts over the log. |
| SortedKeys.Sorted | internal/converter/openai_to_codex.go:949-956 | The keys of a map, each once, in increasing order. |
| ResponsesConverter.Converter.constructor | internal/converter/openai_to_codex.go:449-468 | The fields start as the program starts them. In-place update proved equal to the specification function the theorems are about. |
| ResponsesConverter.Converter.MsgOutIdx | internal/converter/openai_to_codex.go:425-433 | A choice keeps the output index it got; a new one gets the next. In-place update proved equal to the specification function the theorems are about. |
| ResponsesConverter.Converter.FuncOutIdx | internal/converter/openai_to_codex.go:435-443 | The same for calls. In-place update proved equal to the specification function the theorems are about. |
| ResponsesConverter.Converter.Reset | internal/converter/openai_to_codex.go:482-518 | The first chunk resets every field of the stream. In-place update proved equal to the specification function the theorems are about. |
| ResponsesConverter.Converter.Start | internal/converter/openai_to_codex.go:482-529 | `response.created` and `response.in_progress`, once. In-place update proved equal to the specification function the theorems are about. |
| ResponsesConverter.Converter.StopReasoning | internal/converter/openai_to_codex.go:560-584 | The three closing events of a reasoning item, and its text kept for the output. In-place update proved equal to the specification function the theorems are about. |
| ResponsesConverter.Converter.HandleContent | internal/converter/openai_to_codex.go:591-625 | Content, in the order of the program's steps. In-place update proved equal to the specification function the theorems are about. |
| ResponsesConverter.Converter.HandleReasoning | internal/converter/openai_to_codex.go:627-650 | Reasoning. In-place update proved equal to the specification function the theorems are about. |
| ResponsesConverter.Converter.CloseMessage | internal/converter/openai_to_codex.go:657-685 | Closing a message item, at most once. In-place update proved equal to the specification function the theorems are about. |
| ResponsesConverter.Converter.AnnounceTool | internal/converter/openai_to_codex.go:701-733 | Announcing a call, deferred until id and name are known. In-place update proved equal to the specification function the theorems are about. |
| ResponsesConverter.Converter.FlushArguments | internal/converter/openai_to_codex.go:741-758 | Sending the arguments not yet sent. In-place update proved equal to the specification function the theorems are about. |
| ResponsesConverter.Converter.HandleTools | internal/converter/openai_to_codex.go:652-760 | The loop over the tool deltas. In-place update proved equal to the specification function the theorems are about. |
| ResponsesConverter.Converter.FinishTool | internal/converter/openai_to_codex.go:804-847 | Closing a call. In-place update proved equal to the specification function the theorems are about. |
| ResponsesConverter.Converter.Finish | internal/converter/openai_to_codex.go:763-849 | Closing everything, in the order of the sorted keys. In-place update proved equal to the specification function the theorems are about. |
| ResponsesConverter.Converter.HandleChoices | internal/converter/openai_to_codex.go:586-852 | The loop over the choices. In-place update proved equal to the specification function the theorems are about. |
| ResponsesConverter.Converter.Convert | internal/converter/openai_to_codex.go:445-947 | One chunk: new state and events written. In-place update proved equal to the specification function the theorems are about. |
| ResponsesConverter.ConvertAll | internal/converter/openai_to_codex.go:361-379 | A whole stream through the object writes the specified log. |
| FreeformTools.CustomToolNames | internal/converter/codex_freeform_tools.go:63-86 | A name is freeform iff it is not empty, some declaration of it is custom or freeform and none is a function. |
| FreeformTools.TypesRead | internal/converter/codex_freeform_tools.go:48-55 | Case and surrounding white space of a tool type do not matter. |
| FreeformTools.FunctionWins | internal/converter/codex_freeform_tools.go:57-62 | A function declaration takes exactly its own name out, wherever it stands in the list. |
| Sse.ParseSSE | internal/converter/sse.go:15-61 | The parser's loop computes the specified events and the unfinished last line. |
| Sse.ChunkingIndependentExactly | internal/converter/sse.go:15-61 | Cutting a text anywhere changes neither the payloads and end markers nor the final buffer, whichever texts are JSON, **if and only if** each of its data lines is followed at once by an empty line. |
| Sse.ChunkingIndependent | internal/converter/sse.go:15-61 | If every data line of a stream is followed at once by an empty line, cutting the stream anywhere changes neither the payloads and end markers nor the final buffer. |
| Sse.CutsMatter | internal/converter/sse.go:18-28 | Where a data line is not followed at once by an empty line and what is collected by then is JSON or an end marker, two cuts of the text deliver different numbers of events: one before the next line reports the event early, one inside it loses the event. |
| Sse.FormattedSurvivesCutting | internal/converter/sse.go:83-111 | A stream of formatted frames delivers the same payloads and end markers in whatever chunks it arrives, and leaves nothing over. |
| Sse.FormatParseRoundTrip | internal/converter/sse.go:83-106 | Parsing the uncut formatted stream gives back every frame, event names included (trimmed). |
| Sse.DoneIsAFrame | internal/converter/sse.go:108-111 | The end marker is the frame of the text `[DONE]`. |
| Sse.SeveralDataLines | internal/converter/sse.go:33-48 | An event of several data lines has one payload, of which these lines are the values, trimmed; it is the end marker, an event or nothing as its text says. |
| Sse.FeedIsolated | internal/converter/sse.go:15-61 | From any carried buffer: what the chunks report is what the complete data lines say, and the buffer is the unfinished line. |
| Sse.CrlfCutLosesEvent | internal/converter/sse.go:23-28 | A concrete stream with CRLF line ends that loses its event. |
| Text.SpaceExactly | internal/converter/sse.go:30 | A white-space character is exactly the UTF-8 encoding of a code point with the property White_Space. |
| Text.TrimAfterTrimRight | internal/converter/sse.go:30-56 | Trimming the right end first makes no difference (Unicode white space as bytes). |
| Text.TrimTrimmed | internal/converter/sse.go:30 | Neither end of a trimmed string is white space. |
| Text.SplitAtCut | internal/converter/sse.go:17 | The pieces after a cut continue the last piece before it. |
| OpenAIToClaudeStreams.StreamExact | internal/converter/openai_to_claude_stream.go:8-262 | For every sequence of chunks and end markers: the Claude stream is well formed **if and only if** the first chunk with choices has an id, one end marker follows it and nothing is said after that; then its fragments (text, reasoning that is not blank, tool starts, tool arguments) are the upstream's in order, the message is introduced by the id and the model of that first chunk, and it stops for the last finish reason sent (`length` as max_tokens, `tool_calls` as tool_use, all else as end_turn), whatever the map order. |
| OpenAIToClaudeStreams.RunIntroduces | internal/converter/openai_to_claude_stream.go:40-56 | Fair or not: the first event, if there is any, is message_start with the id and the model of the first chunk with choices. |
| OpenAIToClaudeStreams.Conserved | internal/converter/openai_to_claude_stream.go:97-199 | On such streams the text sent, the reasoning that is not blank, and the arguments sent for each tool index come out in full and nothing else. |
| OpenAIToClaudeStreams.OrdinaryStreamsAreFair | internal/converter/openai_to_claude_stream.go:14-21 | Any chunks after a first one with an id and a choice, ended by one `[DONE]`, are such a stream. |
| OpenAIToClaudeStreams.SpeakSound | internal/converter/openai_to_claude_stream.go:60-131 | Text and reasoning keep the invariant: at most one text or thinking block is open, it is the last block, and deltas go to it. |
| OpenAIToClaudeStreams.HandleToolSound | internal/converter/openai_to_claude_stream.go:134-200 | A tool delta keeps it: known tools and open tool blocks correspond one to one, ranked by first appearance. |
| OpenAIToClaudeStreams.FinishSound | internal/converter/openai_to_claude_stream.go:213-262 | Closing stops every open block once, in any order of the tool map, then sends message_delta and message_stop. |
| OpenAIToClaudeStreams.HopelessStays | internal/converter/openai_to_claude_stream.go:41-57 | A message without an id never becomes well formed: it is started again by the next chunk. |
| OpenAIToClaudeBytes.CutsDoNotMatterExactly | internal/converter/openai_to_claude_stream.go:8-24 | From bytes: however the network cuts a formatted upstream stream, whatever its payloads are read as and in whatever order maps are visited, the converter ends in the state it reaches frame by frame, **if and only if** every frame named `done` holds `[DONE]`. |
| OpenAIToClaudeBytes.CutsDoNotMatter | internal/converter/openai_to_claude_stream.go:8-14 | The same for one cutting, one reading and one order. |
| OpenAIToClaudeBytes.BytesExact | internal/converter/openai_to_claude_stream.go:8-262 | From bytes to well-formedness: the exact condition holds of the frames, whatever the cuts, if every frame named `done` holds `[DONE]`; and then text, name, model and stop reason of the message are those of the frames. |
| OpenAIToClaudeBytes.NamedDoneDependsOnCut | internal/converter/openai_to_claude_stream.go:13-20 | A frame named `done` that holds a chunk ends the stream if it comes whole, and counts as the chunk if it is cut after its first line. |
| OpenAIToClaudeConverter.Converter.HandleReasoning | internal/converter/openai_to_claude_stream.go:60-94 | Reasoning. In-place update proved equal to its specification function. |
| OpenAIToClaudeConverter.Converter.HandleContent | internal/converter/openai_to_claude_stream.go:96-131 | Text. In-place update proved equal to its specification function. |
| OpenAIToClaudeConverter.Converter.HandleTool | internal/converter/openai_to_claude_stream.go:135-199 | A tool delta. In-place update proved equal to its specification function. |
| OpenAIToClaudeConverter.Converter.HandleTools | internal/converter/openai_to_claude_stream.go:133-201 | The loop over tool deltas. In-place update proved equal to its specification function. |
| OpenAIToClaudeConverter.Converter.HandleChunk | internal/converter/openai_to_claude_stream.go:34-206 | A chunk. In-place update proved equal to its specification function. |
| OpenAIToClaudeConverter.Converter.CloseTools | internal/converter/openai_to_claude_stream.go:227-234 | The range over the tool map. In-place update proved equal to its specification function. |
| OpenAIToClaudeConverter.Converter.HandleFinish | internal/converter/openai_to_claude_stream.go:212-262 | The end of the message. In-place update proved equal to its specification function. |
| OpenAIToClaudeConverter.Converter.TransformChunk | internal/converter/openai_to_claude_stream.go:8-210 | A network chunk with the carried buffer. In-place update proved equal to its specification function. |
| OpenAIToClaudeConverter.ConvertAll | internal/converter/openai_to_claude_stream.go:8-210 | A whole stream of network chunks. |
| ClaudeEvents.WellFormedFacts | internal/converter/openai_to_claude_stream.go:212-262 | What the grammar means: message_start first and once; message_delta and message_stop last and once; each block started once and later stopped once, all its deltas, of its kind, in between; block numbers below the number of blocks. |
| ClaudeEvents.StartsInOrder | internal/converter/openai_to_claude_stream.go:156-175 | Block starts carry increasing indices. |
| ClaudeEvents.EndedStops | internal/converter/openai_to_claude_stream.go:255-256 | Nothing may follow message_stop. |
| GeminiToClaude.StreamExact | internal/converter/gemini_to_claude_stream.go:5-168 | For every sequence of chunks: the Claude stream is well formed **if and only if** a finish reason comes once and nothing is said after it; then at most one block is ever open, the fragments are the upstream's in order, and the stop reason is max_tokens exactly for `MAX_TOKENS`; from the first chunk on the message bears its fixed name. |
| GeminiToClaude.HandlePartSound | internal/converter/gemini_to_claude_stream.go:33-132 | A part keeps the invariant; a thought with text hides a call in the same part. |
| GeminiToClaude.CallToolSound | internal/converter/gemini_to_claude_stream.go:103-131 | A function call starts and stops its block at once. |
| GeminiToClaude.FinishSound | internal/converter/gemini_to_claude_stream.go:134-158 | Finishing closes the one open block and ends the message. |
| GeminiToClaudeConverter.Converter.HandlePart | internal/converter/gemini_to_claude_stream.go:33-132 | In-place update proved equal to its specification function. |
| GeminiToClaudeConverter.Converter.HandleChunk | internal/converter/gemini_to_claude_stream.go:16-159 | The same for a chunk, with the loop over the parts. |
| GeminiToClaudeConverter.Converter.TransformChunk | internal/converter/gemini_to_claude_stream.go:5-168 | The same for a network chunk with the carried buffer. |
| ToolNames.Shorten | internal/converter/tool_name.go:10-25 | At most 64 bytes, unchanged if that is so already, never empty for a name that is not. |
| ToolNames.ShortenMcp | internal/converter/tool_name.go:14-22 | Of a long MCP name the part after the last two underscores survives behind `mcp__`, up to 59 bytes of it. |
| ToolNames.ShortenPlain | internal/converter/tool_name.go:10-25 | Any other long name is cut after its first 64 bytes. |
| ToolNames.Pigeonhole | internal/converter/tool_name.go:40-54 | As many names are in use as were tried in vain. |
| ToolNames.FirstFree | internal/converter/tool_name.go:35-55 | The suffix search ends within one more try than there are used names, at the first free name. |
| ToolNames.MakeUniqueName | internal/converter/tool_name.go:35-55 | The search loop, proved to terminate and to find that name. |
| ToolNames.BuildShortNameMap | internal/converter/tool_name.go:27-64 | The loop over the names builds the specified map. |
| ToolNames.BuildInjective | internal/converter/tool_name.go:57-62 | Every name has a short name, and no two names share one, repeated names included. |
| ToolNames.BuildFits | internal/converter/tool_name.go:40-50 | With fewer than 10^63 names every short name has at most 64 bytes. |
| ToolNames.IdentityExactly | internal/converter/tool_name.go:27-64 | The map changes nothing **if and only if** the names are distinct and short enough. |
| ToolNames.RoundTripExactly | internal/converter/codex_to_claude.go:456-479 | For each number of untyped tools with an empty name: every request with that many gets back the client's own name for every name sent upstream **if and only if** the number is 0 or 1. |
| ToolNames.RoundTrip | internal/converter/codex_to_claude.go:456-479 | The client's own name comes back for every name sent upstream, if at most one of its untyped tools has an empty name. |
| ToolNames.ReverseMap | internal/converter/codex_to_claude.go:472-477 | The reverse map inverts the short names, in whatever order the map is ranged over. |
| ToolNames.NamesNotEmpty | internal/converter/claude_to_codex.go:34-48 | The request side shortens no empty name; without empty names both sides shorten the same list. |
| ToolNames.SideBySide | internal/converter/claude_to_codex.go:34-48 | One empty name more on the response side leaves the short names of the others alone. |
| ToolNames.OutgoingFits | internal/converter/claude_to_codex.go:86-94 | Whatever tool is named, declared or not, its name fits upstream; a short one that was not declared goes out unchanged. |
| ToolNames.IncomingUnknown | internal/converter/codex_to_claude.go:228-245 | A name that stands for no tool of the request comes back unchanged. |
| ToolNames.EmptyNamesLose | internal/converter/codex_to_claude.go:466-469 | With two empty names or more, before tools `_1` and `_1_1`, the tool `_1_1` comes back as `_1`. |
| Decimal.ItoaLength | internal/converter/tool_name.go:41 | A number below 10^k has at most k digits. |
| Wildcard.MatchWildcard | internal/domain/model.go:1375-1412 | The loop, proved to terminate, computes the specified match. |
| Wildcard.MatchesFit | internal/domain/model.go:1389-1411 | On every input a match means that the input is the pattern with a string for each star. |
| Wildcard.MatchesExactly | internal/domain/model.go:1375-1412 | On inputs without `*`, and for patterns without it, it matches **if and only if** the (trimmed, non-empty) pattern fits. |
| Wildcard.RightExactly | internal/domain/model.go:1390-1400 | A pattern is matched rightly on every input **if and only if** it is `*` or has no star. |
| Wildcard.WrongInput | internal/domain/model.go:1390-1400 | For every other pattern, an input that fits and is rejected: the star of the input is taken for the star of the pattern. |
| Wildcard.StarStep | internal/domain/model.go:1395-1400 | A later star can take over from the last one without losing a match. |
| Wildcard.BackStep | internal/domain/model.go:1401-1406 | Going back loses no match. |
| ModelMappings.MapModelCandidates | internal/executor/executor.go:134-160 | The candidates are the targets of the mappings that apply, each once, in order of first appearance; the requested model if none applies; never none. |
| CooldownProtocol.GenerationsSafe | internal/cooldown/events.go:79-206 | In every run, with store errors, lost, repeated and reordered events, writes and bumps as separate calls of the store that other instances come between, and reloads that other steps overtake: no instance's generation goes back, and no instance, event or reload is ahead of the store. |
| CooldownProtocol.WriteThenBump | internal/cooldown/manager.go:268-373 | A mutation as the manager performs it is its write followed by its bump, if the store took the write. |
| CooldownProtocol.GenerationRises | internal/cooldown/events.go:83-100 | A generation rises, by one, only in a bump that does not fail, for the provider that the instance wrote. |
| CooldownProtocol.OwedWasWritten | internal/cooldown/manager.go:350-373 | Who is about to bump has written before, with success, and not bumped since: no generation rises without a successful write. |
| CooldownProtocol.MutationGenerations | internal/cooldown/events.go:79-122 | A mutation bumps the generation here and in the store together or not at all, and every change of the store's entries is announced unless the bump itself fails. |
| CooldownProtocol.StepSafe | internal/cooldown/events.go:131-206 | Every kind of step keeps that invariant. |
| CooldownProtocol.AgreementExactly | internal/cooldown/events.go:79-252 | In every run, with any failures, any treatment of events and any overtaking: every step fits **if and only if** at no time, once the half-done mutations are finished, an instance that knows the store's generation differs from the store. A write fits if its writer held the store's entries up to the key written, and nothing live changes while another mutation of the provider is half done; a failing write, if it puts no cooldown the store lacks on an instance that is up to date; a failing bump, if all who are up to date hold what was written (`FailedBumpExactly` says when, by what was known before); the end of a reload, if what it listed is still what the store has; all else fits. |
| CooldownProtocol.FailedBumpExactly | internal/cooldown/events.go:84-96 | What a bump that fails right after its write does, told by the state before the write: the caches stay coherent **if and only if** the write changes nothing that is live at the provider, or no other instance knows the store's generation. |
| CooldownProtocol.CachesAgree | internal/cooldown/events.go:131-206 | So, if writes and bumps do not fail, reloads are one step, who writes has seen the provider's last generation, and no other instance writes or bumps it between a write and its bump: whoever knows the store's generation of a provider with no mutation half done holds exactly the store's live entries for it, under any loss, repetition and reordering of events, and failures to publish, list or read. |
| CooldownProtocol.OverlapDisagrees | internal/cooldown/manager.go:350-373 | The last premise is needed: a concrete run in which two instances, both up to date, write and bump one inside the other, and the outer one stays wrong with equal generations, event and sync included. |
| CooldownProtocol.FailedBumpDisagrees | internal/cooldown/events.go:84-96 | A concrete run with a bump that fails, after which the other instance stays wrong with equal generations. |
| CooldownProtocol.FailedWriteDisagrees | internal/cooldown/manager.go:323-330 | A concrete run with a write that fails, after which the writer holds what the store does not. |
| CooldownProtocol.OvertakenReloadDisagrees | internal/cooldown/events.go:153-206 | A concrete run in which a write overtakes a reload and the end of the reload takes its entry away, with equal generations. |
| CooldownProtocol.MutationAgreesExactly | internal/cooldown/manager.go:268-373 | After a mutation whose write goes through and that nothing interrupts, the instance agrees with the store **if and only if** it did before up to the key written (always, after clearing a provider) - whether or not it had seen the last generation, and whether or not the bump fails. |
| CooldownProtocol.StaleWriteDisagrees | internal/cooldown/events.go:136-141 | A concrete run in which a write on a stale instance makes it skip its peer's event and stay wrong with equal generations, a later sync included. |
| CooldownProtocol.SyncRestores | internal/cooldown/events.go:212-252 | Outside the throttling window a sync brings the instance up to the store's generation and into agreement. |
| CooldownProtocol.InstallAgrees | internal/cooldown/events.go:153-206 | A reload puts the provider's live entries in place, whatever generation it aims at, and leaves other providers alone. |
| CooldownProtocol.MutationKeepsOthers | internal/cooldown/manager.go:268-373 | A mutation changes no entry of another provider. |
| CooldownProtocol.OneInstance | internal/cooldown/manager.go:468-523 | One instance whose writes and bumps do not fail always agrees with the store, takes a client and model to be cooling down exactly if a live key of the store with that or an empty client and model says so, and reports the latest end that those keys have. |
| CooldownProtocol.OneInstanceNeverShortens | internal/cooldown/manager.go:162-185 | There a failure timed by its policy moves no end of a cooldown earlier. |
| CooldownEffects.MutationLive | internal/cooldown/manager.go:129-466 | While an instance agrees with the store and its write goes through, what holds afterwards - here as in the store - is what the operation says of what held before, key by key; other providers are left alone. |
| CooldownEffects.FailureKeepsAway | internal/cooldown/manager.go:129-185 | After a failure exactly those queries are kept away that were before or that its scope concerns: the whole provider, one client, or one client and model. |
| CooldownEffects.ClearedFor | internal/cooldown/manager.go:214-251 | After a success or a clearing exactly those are kept away whom another key concerns; after clearing the provider no one is. |
| CooldownEffects.MutationTells | internal/cooldown/events.go:79-122 | A mutation that the store took sends one event with the generation it has raised by one. |
| CooldownEffects.NewsArrives | internal/cooldown/events.go:131-206 | An event with a newer generation makes the instance hold what the store holds at that moment, under the event's generation, and leaves other providers alone; an older or equal one changes nothing. |
| CooldownEffects.NewsSpreads | internal/cooldown/events.go:79-206 | In every clean run: an up-to-date instance changes something, its event is delivered to another instance, and that one then holds exactly what the operation left in the store, and knows its generation. |
| CooldownEffects.SyncThrottled | internal/cooldown/events.go:212-252 | After a look at the store an instance does not look again within the window, whatever has become of the store. |
| CooldownEffects.RefusedLooksAgain | internal/cooldown/events.go:212-252 | A write that the store refused, or could not take, makes the next query look at the store whatever the window, and reach its generation and agreement. |
| CooldownEffects.WriteReasons | internal/cooldown/manager.go:190-373 | A write gives its reason to its key if it counts here - an update keeps the reason there was - and leaves all other reasons alone. |
| CooldownEffects.ReloadReasons | internal/cooldown/events.go:153-206 | What a reload takes over has no known reason; reasons of other providers stay. |
| CooldownEffects.ReasonsKept | internal/cooldown/manager.go:268-373 | In every run, with any failures and overtaking, each cooldown of an instance has a reason and each reason a cooldown. |
| CooldownEffects.CleanupDrops | internal/cooldown/manager.go:545-578 | The cleanup drops exactly the cooldowns that are over, with their reasons. |
| Cooldowns.InCooldownExactly | internal/cooldown/manager.go:484-510 | The four checks hold iff some live key concerns the client and model. |
| Cooldowns.UntilIsLatest | internal/cooldown/manager.go:627-648 | The end reported is the latest among those keys, and the zero time iff there is none. |
| Cooldowns.FailureShortensExactly | internal/cooldown/manager.go:162-185 | A policy-timed failure moves the end reported for a query earlier **if and only if** its own key holds a later end that alone decides the query, and nothing stops it: the store cannot be written, or does not have a later end for the key. |
| Cooldowns.FailureMovesEarlier | internal/cooldown/manager.go:162-185 | Of single keys: exactly that key's end is moved, in exactly that case, and no other key changes. |
| Cooldowns.FailureNeverShortens | internal/cooldown/manager.go:162-185 | So a policy-timed failure never shortens while instance and store agree and the write goes through, for every query. |
| Cooldowns.OverwriteOccurs | internal/cooldown/manager.go:316-330 | Both ways occur: a store error, and a local end of which the store no longer knows. |
| CooldownManager.Manager.BumpAndPublish | internal/cooldown/events.go:79-122 | Bump, record, publish. In-place update of manager and store proved equal to its specification function. |
| CooldownManager.Manager.SetCooldown | internal/cooldown/manager.go:268-373 | setCooldownLocked with its past-time, accepted, rejected and failed cases. In-place update of manager and store proved equal to its specification function. |
| CooldownManager.Manager.UpdateCooldown | internal/cooldown/manager.go:190-209 | A past time clears. In-place update of manager and store proved equal to its specification function. |
| CooldownManager.Manager.RecordFailure | internal/cooldown/manager.go:129-185 | The scope chooses the key; the end time is returned. In-place update of manager and store proved equal to its specification function. |
| CooldownManager.Manager.RecordSuccess | internal/cooldown/manager.go:214-251 | One key is cleared. In-place update of manager and store proved equal to its specification function. |
| CooldownManager.Manager.ClearCooldown | internal/cooldown/manager.go:398-466 | Empty client and model clear the provider. In-place update of manager and store proved equal to its specification function. |
| CooldownManager.Manager.ReloadProvider | internal/cooldown/events.go:153-206 | List, replace, forward-only generation. In-place update of manager and store proved equal to its specification function. |
| CooldownManager.Manager.ApplyRemoteEvent | internal/cooldown/events.go:131-144 | Only news reloads. In-place update of manager and store proved equal to its specification function. |
| CooldownManager.Manager.SyncProviderGeneration | internal/cooldown/events.go:212-252 | Throttled look at the store. In-place update of manager and store proved equal to its specification function. |
| CooldownManager.Manager.IsInCooldown | internal/cooldown/manager.go:474-511 | Sync, then some live key concerns the query. In-place update of manager and store proved equal to its specification function. |
| CooldownManager.Manager.GetCooldownUntil | internal/cooldown/manager.go:516-523 | Sync, then the latest end. In-place update of manager and store proved equal to its specification function. |
| CooldownManager.Manager.CleanupExpired | internal/cooldown/manager.go:545-578 | What is over is dropped, with its reason. In-place update of manager and store proved equal to its specification function. |
| CooldownStores.MemoryStore.ListByProvider | internal/cooldown/store_memory.go:39-50 | Exactly the provider's entries that still hold. |
| CooldownStores.MemoryStore.SetIfLater | internal/cooldown/store_memory.go:59-69 | Refused iff the present end is later. |
| CooldownStores.MemoryStore.DeleteByProvider | internal/cooldown/store_memory.go:78-87 | Exactly the provider's entries go. |
| CooldownStores.MemoryStore.BumpGeneration | internal/cooldown/store_memory.go:95-100 | One up, the new value returned. |
| CooldownStores.ScriptAnswers | internal/cooldown/store_redis.go:189-211 | The script says yes exactly if it has written: no later end is there and the end lies ahead; otherwise the key is left alone. |
| CooldownStores.ClocksExactly | internal/cooldown/store_redis.go:189-211 | For instances whose clocks are ahead of Redis's by given amounts: whatever they submit and whenever, each sequence of SetIfLater calls leaves the latest end, **if and only if** all clocks are ahead by the same; and reordering the calls changes nothing under the same condition and only then. |
| CooldownStores.ScriptsKeepLatest | internal/cooldown/store_redis.go:189-211 | Any sequence of SetIfLater calls on a key that may expire in between, each with its caller's clock and Redis's own, leaves the latest of the base and the submitted times, if what ends later is not given up earlier. |
| CooldownStores.SkewLosesLatest | internal/cooldown/store_redis.go:198-202 | For any two clocks that differ, a pair of calls after which the key is gone while one of the ends submitted would still hold; the other order keeps it. |
| CooldownStores.MemoryKeepsLatest | internal/cooldown/store_memory.go:59-69 | SetIfLater calls on a key of the memory store leave the latest of what it held and what was submitted, and everything else alone. |
| CooldownStores.StoresAgree | internal/cooldown/store_redis.go:189-211 | With one clock both stores take the same calls to the same end. |
| CooldownStores.OrderDoesNotMatter | internal/cooldown/store_redis.go:189-211 | Two interleavings of the same calls leave the same value, if what ends later is not given up earlier. |
| RedisKeys.KeyRoundTrip | internal/cooldown/store_redis.go:48-96 | `parseKey(keyName(k)) == k` for every key, whatever bytes its parts hold, empty parts included. |
| RedisKeys.KeyNameInjective | internal/cooldown/store_redis.go:48-52 | Different keys have different names. |
| RedisKeys.EscapeRoundTrip | internal/cooldown/store_redis.go:54-70 | Query escaping is undone by unescaping. |
| RedisKeys.PartRoundTrip | internal/cooldown/store_redis.go:54-70 | A part comes back, and its encoding has no colon. |
| RedisKeys.GenerationKeyInjective | internal/cooldown/store_redis.go:17-22 | Different providers have different generation counters. |
| RedisKeys.ParsedShape | internal/cooldown/store_redis.go:73-96 | Whatever is read as a cooldown key has the printed form, prefix and version included, and its parts are the provider, the client and the model. |
| RedisKeys.UnescapeExactly | internal/cooldown/store_redis.go:61-70 | Unescaping fails exactly for a percent sign without two hexadecimal digits after it. |
| Decimal.ParsePrinted | internal/cooldown/store_redis.go:73-96 | A printed number is read again if it fits 64 bits, and is an error otherwise. |
| RedisKeys.GenerationKeysDoNotParse | internal/cooldown/store_redis.go:17-22 | A generation counter is never taken for a cooldown. |
| RedisKeys.ScanSelects | internal/cooldown/store_redis.go:117-128 | A provider's scan pattern fits a cooldown key iff it is one of that provider's. |
| RedisKeys.ScanSkipsGenerations | internal/cooldown/store_redis.go:217-220 | It never fits a generation counter. |
| RedisKeys.ListsExactly | internal/cooldown/store_redis.go:117-167 | Scanning, parsing and filtering report exactly the provider's entries that are not over. |
| Dispatch.EndsSettled | internal/executor/middleware_egress.go:9-40 | Every run that ends leaves a final status, an error iff the request did not complete, final attempt records, as many as there were executions, the completed one last and only then, and every provider slot taken for an execution given back before the next was taken. |
| Dispatch.Terminates | internal/executor/middleware_dispatch.go:58-85 | If no provider disables error cooldown, the run ends whatever happens, with at most max(0, MaxRetries + 1) executions for each route. |
| Dispatch.EndsExactly | internal/executor/middleware_dispatch.go:58-85 | For any list of routes: there is a bound on the executions and the passes of a request, whatever the world does and whatever is remembered, **if and only if** no provider that disables error cooldown and has a candidate comes up before a route at whose start the context has ended. |
| Dispatch.DisabledGoesOn | internal/executor/middleware_dispatch.go:80-85 | A provider that disables error cooldown is executed once for each turn of the world, as long as the attempts fail retryably: without bound. |
| Dispatch.NoSplicing | internal/executor/middleware_dispatch.go:415-443 | An attempt of which the client saw something is followed by another only if it failed with a provider-scope network error of a broken stream; without such errors only the last attempt reaches the client. |
| Dispatch.WrittenGoesOnExactly | internal/executor/middleware_dispatch.go:410-555 | After a failed attempt of which the client saw something the loops go on **if and only if** it was such an error, the context is alive at the check, and it stays alive over the wait where there is one. |
| Dispatch.SplicingOccurs | internal/executor/middleware_dispatch.go:415-443 | On any route with a retry left and any such error, two attempts can reach the same client and the request completes. |
| Dispatch.PassExactly | internal/executor/middleware_dispatch.go:85-543 | Exactly when a pass ends the request, goes to the next route or tries again, by the fields of the error and of the turn: what may be retried (retryable, a failed connection, a broken stream, a 4xx or 5xx status where error cooldown is disabled, a forced failure of provider, endpoint or model that is not the request's own), what ends the request (bytes already sent, a context that has ended, an error of the request itself), which candidate and attempt come next; and what is left: final status, error kept, attempt record, cooldown, remembered candidate. |
| Dispatch.FailsOver | internal/executor/middleware_dispatch.go:58-512 | If every route before the k-th passes the request on - no slot, a conversion that fails, or a failure that may not be retried, is not the request's own, with nothing sent and the context alive - each of them is executed once, with its first candidate, and a success on the k-th completes the request there. |
| Dispatch.AllFail | internal/executor/middleware_dispatch.go:546-578 | If every route passes it on, the request fails after one execution of each, with the last error; without routes, with the error that all routes are exhausted. |
| Dispatch.NoneAfterEnd | internal/executor/middleware_dispatch.go:58-85 | Over every script: no adapter is executed after a pass that has found the context ended. |
| Dispatch.CancelledByClient | internal/executor/cancel_status.go:11-56 | Over every script: a request ends as cancelled only if its last execution failed because the client had gone. |
| Dispatch.RoundRobin | internal/executor/middleware_dispatch.go:514-526 | On a smart-mapping route the k-th attempt uses candidate (start + k div limit) mod n, while attempts fail retryably. |
| Dispatch.EveryCandidateTried | internal/executor/middleware_dispatch.go:514-526 | So every candidate is tried within n * limit attempts. |
| Dispatch.StartInRange | internal/executor/executor.go:187-203 | The start is a candidate: the remembered one, where the smart mapping has a choice and remembers one that is still a candidate, and the first otherwise. |
| Dispatch.SuccessIsRemembered | internal/executor/executor.go:205-215 | The candidate that succeeded is where the next request starts. |
| Dispatch.CooledOnce | internal/executor/middleware_dispatch.go:587-599 | A route whose provider keeps failing on the network is set to cool down once, with its last retry. |
| Dispatch.JudgedStreamRead | internal/executor/executor.go:451-477 | The retry policies neither make nor hide a broken stream. |
| Dispatch.AttemptBooks | internal/executor/middleware_dispatch.go:191-443 | One pass keeps the books: counts, records, slots, status. |
| Dispatcher.Request.Begin | internal/executor/middleware_dispatch.go:176-211 | A slot of the provider is taken and an attempt record opened. In-place update proved equal to its specification function. |
| Dispatcher.Request.Execute | internal/executor/middleware_dispatch.go:270-282 | The adapter runs, the slot is given back, and a finalising error counts. In-place update proved equal to its specification function. |
| Dispatcher.Request.Attempt | internal/executor/middleware_dispatch.go:87-370 | A pass from the quota check on. In-place update proved equal to its specification function. |
| Dispatcher.Request.HandleFailure | internal/executor/middleware_dispatch.go:372-512 | The exits after a failure, in the program's order. In-place update proved equal to its specification function. |
| Dispatcher.Request.Advance | internal/executor/middleware_dispatch.go:514-555 | Next candidate, wait, next attempt. In-place update proved equal to its specification function. |
| Dispatcher.Request.Dispatch | internal/executor/middleware_dispatch.go:58-580 | The nested loops. In-place update proved equal to its specification function. |
| Dispatcher.Request.StartIndex | internal/executor/executor.go:187-203 | The loop finds the remembered candidate. |
| Dispatcher.Request.Egress | internal/executor/middleware_egress.go:16-37 | Closing what is still open. |
| Dispatcher.Handle | internal/executor/executor.go:119-126 | A request from start to end. |
| ResponseCaptures.BufferIsPrefix | internal/executor/response_capture.go:94-111 | After any writes, short ones included, the buffer holds exactly the first bytes accepted up to the cap, the total is right, and truncated holds iff there were more. |
| ResponseCaptures.TrimmedBuffer | internal/executor/response_capture.go:148-167 | If the accepted bytes are valid UTF-8, trimming leaves the longest prefix of whole runes, dropping at most three bytes. |
| ResponseCaptures.TrimIsBoundary | internal/executor/response_capture.go:152-167 | The same for any prefix of valid UTF-8. |
| ResponseCaptures.TrimPartialRune | internal/executor/response_capture.go:152-167 | The loop from the end computes the specified trim. |
| ResponseCaptures.ResponseCapture.CaptureBounded | internal/executor/response_capture.go:94-111 | In-place update proved equal to its specification function. |
| ResponseCaptures.ResponseCapture.Write | internal/executor/response_capture.go:74-81 | Only accepted bytes are captured. |
| ResponseCaptures.StoredText | internal/executor/response_capture.go:137-146 | The stored text is all that was accepted, if it fits; otherwise, for valid UTF-8, the longest prefix of whole runes within the cap, at most three bytes shorter, and a marker with the true length. |
| ResponseCaptures.StrayBytesReplaced | internal/executor/response_capture.go:137-146 | In a text that is cleaned up a run of bytes that start no rune becomes one U+FFFD, and the valid text around it stays. |
| ResponseCaptures.RuneExactly | internal/executor/response_capture.go:152-168 | A rune at the front of a text is exactly the encoding of a code point by section 3 of RFC 3629. |
| ResponseCaptures.MarkerExample | internal/executor/response_capture.go:137-146 | The text of the marker, for a response of seven bytes and room for five. |
| ResponseCaptures.CutTextIsValid | internal/executor/response_capture.go:137-146 | Whatever bytes were accepted, a text that was cut is valid UTF-8. |
| GeminiCalls.CallsAnsweredInOrder | internal/converter/gemini_to_codex.go:86-162 | For every list of contents: call ids are distinct, no two outputs share an id, and every output answers the oldest call without one, or has an id of its own if there is none. |
| GeminiCalls.ConversationSent | internal/converter/gemini_to_codex.go:92-172 | For every list of contents the request sends, in order, every call with its name as shortened and its own arguments, every response of a part without a call with its text, and the texts of each content with its speaker - the model as the assistant, everyone else as the user - and nothing else. |
| GeminiCalls.Convert | internal/converter/gemini_to_codex.go:92-172 | The nested loops with the queue build the specified items. |
| GeminiCalls.ResponseKeepsQueue | internal/converter/gemini_to_codex.go:126-162 | An output keeps the queue equal to the unanswered calls. |
| GeminiCalls.CallKeepsQueue | internal/converter/gemini_to_codex.go:107-125 | So does a call. |

## Left out

- JSON syntax, gjson and sjson: chunks and events are records, validity and decoding are arguments; item ids built by formatting are constructors.
- Usage counters, timestamps, `created`, echoed request fields and other members of the JSON that are copied through.
- `FuncArgsDone` of the Responses converter, which is written and never read.
- CodexStreams.StreamExact: streams with more than one choice are outside, since a finish reason in one choice closes the items of all.  For them `CodexResponseIds`, `CodexAnnouncements` and `CodexConservation` say what always holds.
- CodexAggregation.StreamingMatchesExactly: the message is one choice, and its deltas name each call by its place in the message; `unwrapFreeformArgsToInput` is an argument, the same on both sides.
- OpenAIToClaudeBytes.CutsDoNotMatterExactly: the byte level is not repeated for the Gemini and Codex converters, which ignore names or the end marker.
- ToolNames.RoundTripExactly: which of the other tools are recovered in a request with two or more empty names is not said.
- `unwrap` after `wrap` of freeform arguments, which is JSON encoding.
- CooldownProtocol.AgreementExactly: the calls of one write (several batches, when a provider is cleared on Redis) and of one listing are one step, and so are the looks at the clock within one call; a store call that reports an error has had no effect.
- CooldownProtocol.GenerationsSafe: all instances and the store read one clock, though in the program each has its own; what different clocks do to SetIfLater is in `CooldownStores.ClocksExactly`.
- The manager without a store, loading from the database, the repository writes, failure counts and the policies that turn them into durations: a duration is any number.
- Redis itself: expiry is modelled in `CooldownStores.Script`, SCAN is taken to return the keys that fit, cursors and batches are not modelled.
- In `dispatch`: backoff times, pricing, quota amounts, sticky sessions, token warming, broadcasts, the details kept of requests and responses, the WebSocket variant, a missing execution state, and panics of an adapter.  A router that is not configured behaves like one that always grants a slot.
- Error texts: whether a text contains the words looked for is part of the error.
- Response headers and status codes of the capture.
- HTTP and WebSocket handlers, OAuth, SQL repositories, the desktop launcher and the user interface.
