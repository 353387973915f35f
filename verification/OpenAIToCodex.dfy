/** Chat Completions chunks in, Responses events out: the per-chunk converter of
    internal/converter/openai_to_codex.go, as functions on the converter's state.

    Every function here is total: it says what the converter does on any input, including
    streams that no well-behaved upstream sends. */
module OpenAIToCodex {
  import opened Options
  import opened ResponsesEvents
  import opened SortedKeys

  // ---------------------------------------------------------------- what the upstream sends

  /** One entry of `delta.tool_calls`; a missing string reads as "". */
  datatype ToolDelta = ToolDelta(index: Option<int>, id: string, name: string, arguments: string)

  /** One choice; `tools` is None when `tool_calls` is missing or not an array. */
  datatype Choice = Choice(index: int, content: string, reasoning: string,
                           tools: Option<seq<ToolDelta>>, finishReason: string)

  /** One chunk; `choices` is None when the field is missing or not an array. */
  datatype Chunk = Chunk(objectType: string, id: string, choices: Option<seq<Choice>>)

  /** What the converter takes from outside the stream: the response id it makes up when the
      first chunk has none, the tool names the client declared freeform, and the reading of the
      `input` property out of wrapped arguments. */
  datatype Context = Context(freshId: string, custom: set<string>, unwrap: string -> string)

  // ---------------------------------------------------------------- the converter's state

  // The fields of openaiToResponsesState, grouped.  A Go map from an index to true is the set
  // of its keys; ReasoningID is None where the program has "".

  datatype Reasoning = Reasoning(id: Option<ItemId>, index: nat, buf: string, done: seq<Item>)

  datatype Messages = Messages(
    text: map<int, string>, added: set<int>, partAdded: set<int>, done: set<int>, index: map<int, nat>)

  datatype Tools = Tools(
    args: map<int, string>, names: map<int, string>, callIds: map<int, string>,
    added: set<int>, sent: map<int, nat>, done: set<int>, index: map<int, nat>)

  /** `log` is everything written so far. */
  datatype State = State(
    seqNo: nat, started: bool, response: string, custom: set<string>, nextIndex: nat, completed: bool,
    reasoning: Reasoning, messages: Messages, tools: Tools, log: seq<Event>)

  const NO_REASONING := Reasoning(None, 0, "", [])
  const NO_MESSAGES := Messages(map[], {}, {}, {}, map[])
  const NO_TOOLS := Tools(map[], map[], map[], {}, map[], {}, map[])

  const INITIAL_STATE := State(0, false, "", {}, 0, false, NO_REASONING, NO_MESSAGES, NO_TOOLS, [])

  function Get(m: map<int, string>, k: int): string {
    if k in m then m[k] else ""
  }

  function IndexOf(m: map<int, nat>, k: int): nat {
    if k in m then m[k] else 0
  }

  // ---------------------------------------------------------------- steps

  function Emit(s: State, body: Body): State {
    s.(seqNo := s.seqNo + 1, log := s.log + [Event(s.seqNo + 1, body)])
  }

  /** The three events that close a text-carrying item. */
  function EmitClosing(s: State, channel: Channel, id: ItemId, index: nat, text: string, item: Item): State {
    Emit(Emit(Emit(s, TextDone(channel, id, index, text)), PartDone(channel, id, index, text)), ItemDone(index, item))
  }

  /** Nothing that was written is taken back, and the settings of the stream stay. */
  predicate Continues(s: State, r: State) {
    r.started == s.started && r.response == s.response && r.custom == s.custom && r.completed == s.completed
    && s.log <= r.log
  }

  predicate OnlyReasoning(s: State, r: State) {
    Continues(s, r) && r.messages == s.messages && r.tools == s.tools
  }

  predicate OnlyMessages(s: State, r: State) {
    Continues(s, r) && r.reasoning == s.reasoning && r.tools == s.tools
  }

  predicate OnlyTools(s: State, r: State) {
    Continues(s, r) && r.reasoning == s.reasoning && r.messages == s.messages
  }

  function MsgOutIdx(s: State, c: int): nat {
    if c in s.messages.index then s.messages.index[c] else s.nextIndex
  }

  function AssignMsgIndex(s: State, c: int): State {
    if c in s.messages.index then s
    else s.(messages := s.messages.(index := s.messages.index[c := s.nextIndex]), nextIndex := s.nextIndex + 1)
  }

  function FuncOutIdx(s: State, i: int): nat {
    if i in s.tools.index then s.tools.index[i] else s.nextIndex
  }

  function AssignFuncIndex(s: State, i: int): State {
    if i in s.tools.index then s
    else s.(tools := s.tools.(index := s.tools.index[i := s.nextIndex]), nextIndex := s.nextIndex + 1)
  }

  function Start(s: State, ctx: Context, id: string): State {
    if s.started then s
    else
      var resp := if id == "" then ctx.freshId else id;
      var s1 := State(s.seqNo, true, resp, ctx.custom, 0, false,
                      NO_REASONING.(done := s.reasoning.done), NO_MESSAGES, NO_TOOLS, s.log);
      Emit(Emit(s1, Created(resp)), InProgress(resp))
  }

  /** Closes the open reasoning item, if there is one. */
  function StopReasoning(s: State): (r: State)
    ensures OnlyReasoning(s, r)
  {
    if s.reasoning.id.None? then s
    else
      var now := s.reasoning;
      var item := ReasoningItem(now.id.value, now.buf);
      EmitClosing(s, SummaryText, now.id.value, now.index, now.buf, item)
        .(reasoning := Reasoning(None, now.index, "", now.done + [item]))
  }

  function AnnounceMessage(s: State, c: int): (r: State)
    ensures OnlyMessages(s, r)
  {
    if c in s.messages.added then s
    else
      var t := Emit(AssignMsgIndex(s, c), ItemAdded(MsgOutIdx(s, c), MessageItem(MsgId(s.response, c), "")));
      t.(messages := t.messages.(added := t.messages.added + {c}))
  }

  function AddMessagePart(s: State, c: int): (r: State)
    ensures OnlyMessages(s, r)
  {
    if c in s.messages.partAdded then s
    else
      var t := Emit(AssignMsgIndex(s, c), PartAdded(OutputText, MsgId(s.response, c), MsgOutIdx(s, c)));
      t.(messages := t.messages.(partAdded := t.messages.partAdded + {c}))
  }

  function Say(s: State, c: int, text: string): (r: State)
    ensures OnlyMessages(s, r)
  {
    var t := Emit(AssignMsgIndex(s, c), Delta(OutputText, MsgId(s.response, c), MsgOutIdx(s, c), text));
    t.(messages := t.messages.(text := t.messages.text[c := Get(t.messages.text, c) + text]))
  }

  function HandleContent(s: State, c: int, text: string): (r: State)
    ensures Continues(s, r)
  {
    if text == "" then s else Say(AddMessagePart(AnnounceMessage(StopReasoning(s), c), c), c, text)
  }

  function OpenReasoning(s: State, c: int): (r: State)
    ensures OnlyReasoning(s, r)
  {
    if s.reasoning.id.Some? then s
    else
      var id := RsId(s.response, c);
      var n := s.nextIndex;
      var s1 := s.(reasoning := s.reasoning.(id := Some(id), index := n), nextIndex := n + 1);
      Emit(Emit(s1, ItemAdded(n, ReasoningItem(id, ""))), PartAdded(SummaryText, id, n))
  }

  lemma {:induction false} OpenReasoningOpens(s: State, c: int)
    ensures OpenReasoning(s, c).reasoning.id.Some?
  {
  }

  function Think(s: State, text: string): (r: State)
    requires s.reasoning.id.Some?
    ensures OnlyReasoning(s, r)
  {
    var now := s.reasoning;
    Emit(s, Delta(SummaryText, now.id.value, now.index, text)).(reasoning := now.(buf := now.buf + text))
  }

  function HandleReasoning(s: State, c: int, text: string): (r: State)
    ensures Continues(s, r)
  {
    if text == "" then s else Think(OpenReasoning(s, c), text)
  }

  /** The three closing events of the message item of choice `c`, unless it is not open. */
  function CloseMessage(s: State, c: int): (r: State)
    ensures OnlyMessages(s, r)
  {
    if c !in s.messages.added || c in s.messages.done then s
    else
      var id := MsgId(s.response, c);
      var text := Get(s.messages.text, c);
      var t := EmitClosing(AssignMsgIndex(s, c), OutputText, id, MsgOutIdx(s, c), text, MessageItem(id, text));
      t.(messages := t.messages.(done := t.messages.done + {c}))
  }

  function IsCustom(s: State, i: int): bool {
    Get(s.tools.names, i) in s.custom
  }

  /** Takes over the name and the call id that a tool delta carries. */
  function NoteTool(t: Tools, i: int, d: ToolDelta): Tools {
    var names := if d.name != "" then t.names[i := d.name] else t.names;
    var ids := if Get(t.callIds, i) == "" && d.id != "" then t.callIds[i := d.id] else t.callIds;
    t.(names := names, callIds := ids)
  }

  function AnnouncedItem(s: State, i: int): Item {
    var call, name := Get(s.tools.callIds, i), Get(s.tools.names, i);
    if IsCustom(s, i) then CustomItem(CtcId(call), call, name, "") else FunctionItem(FcId(call), call, name, "")
  }

  /** Announces the item of call `i` once both its id and its name are known. */
  function AnnounceTool(s: State, i: int): (r: State)
    ensures OnlyTools(s, r)
  {
    if i in s.tools.added || Get(s.tools.callIds, i) == "" || Get(s.tools.names, i) == "" then s
    else
      var t := AssignFuncIndex(s.(tools := s.tools.(added := s.tools.added + {i})), i);
      Emit(t, ItemAdded(FuncOutIdx(s, i), AnnouncedItem(s, i)))
  }

  function BufferArguments(t: Tools, i: int, args: string): Tools {
    t.(args := t.args[i := Get(t.args, i) + args])
  }

  /** Sends the arguments of call `i` that have not been sent yet. */
  function FlushArguments(s: State, i: int): (r: State)
    ensures OnlyTools(s, r)
  {
    var call := Get(s.tools.callIds, i);
    var full := Get(s.tools.args, i);
    var sent := IndexOf(s.tools.sent, i);
    if IsCustom(s, i) || i !in s.tools.added || call == "" || |full| <= sent then s
    else
      var t := Emit(AssignFuncIndex(s, i), Delta(Arguments, FcId(call), FuncOutIdx(s, i), full[sent..]));
      t.(tools := t.tools.(sent := t.tools.sent[i := |full|]))
  }

  function HandleTool(s: State, i: int, d: ToolDelta): (r: State)
    ensures OnlyTools(s, r)
  {
    var s1 := AnnounceTool(s.(tools := NoteTool(s.tools, i, d)), i);
    FlushArguments(s1.(tools := BufferArguments(s1.tools, i, d.arguments)), i)
  }

  /** The call index of the k-th entry: its own index, or its position. */
  function CallIndex(d: ToolDelta, k: nat): int {
    if d.index.Some? then d.index.value else k
  }

  function HandleToolsFrom(s: State, ds: seq<ToolDelta>, k: nat): (r: State)
    requires k <= |ds|
    ensures Continues(s, r)
    decreases |ds| - k
  {
    if k == |ds| then s else HandleToolsFrom(HandleTool(s, CallIndex(ds[k], k), ds[k]), ds, k + 1)
  }

  function HandleTools(s: State, c: int, tools: Option<seq<ToolDelta>>): (r: State)
    ensures Continues(s, r)
  {
    if tools.None? then s
    else HandleToolsFrom(CloseMessage(StopReasoning(s), c), tools.value, 0)
  }

  function EmitFinal(s: State, ctx: Context, i: int, index: nat): (r: State)
    ensures Continues(s, r)
  {
    var call, name := Get(s.tools.callIds, i), Get(s.tools.names, i);
    var args := FinalArguments(Get(s.tools.args, i));
    if IsCustom(s, i) then Emit(s, ItemDone(index, CustomItem(CtcId(call), call, name, ctx.unwrap(args))))
    else Emit(Emit(s, TextDone(Arguments, FcId(call), index, args)),
              ItemDone(index, FunctionItem(FcId(call), call, name, args)))
  }

  function FinishTool(s: State, ctx: Context, i: int): (r: State)
    ensures Continues(s, r)
  {
    if Get(s.tools.callIds, i) == "" || i in s.tools.done then s
    else
      var t := EmitFinal(AssignFuncIndex(s, i), ctx, i, FuncOutIdx(s, i));
      t.(tools := t.tools.(done := t.tools.done + {i}))
  }

  function CloseMessages(s: State, keys: seq<int>): (r: State)
    ensures Continues(s, r)
    decreases |keys|
  {
    if keys == [] then s else CloseMessages(CloseMessage(s, keys[0]), keys[1..])
  }

  function FinishTools(s: State, ctx: Context, keys: seq<int>): (r: State)
    ensures Continues(s, r)
    decreases |keys|
  {
    if keys == [] then s else FinishTools(FinishTool(s, ctx, keys[0]), ctx, keys[1..])
  }

  function Finish(s: State, ctx: Context): (r: State)
    ensures Continues(s, r)
  {
    var s1 := StopReasoning(CloseMessages(s, Sorted(s.messages.added)));
    FinishTools(s1, ctx, Sorted(s1.tools.callIds.Keys))
  }

  function HandleChoice(s: State, ctx: Context, ch: Choice): (r: State)
    ensures Continues(s, r)
  {
    var s1 := HandleContent(s, ch.index, ch.content);
    var s2 := HandleReasoning(s1, ch.index, ch.reasoning);
    var s3 := HandleTools(s2, ch.index, ch.tools);
    if ch.finishReason == "" then s3 else Finish(s3, ctx)
  }

  function HandleChoices(s: State, ctx: Context, choices: seq<Choice>): (r: State)
    ensures Continues(s, r)
    decreases |choices|
  {
    if choices == [] then s else HandleChoices(HandleChoice(s, ctx, choices[0]), ctx, choices[1..])
  }

  function OutputMessages(s: State, keys: seq<int>): seq<Item> {
    if keys == [] then []
    else [MessageItem(MsgId(s.response, keys[0]), Get(s.messages.text, keys[0]))] + OutputMessages(s, keys[1..])
  }

  function ToolItem(ctx: Context, custom: set<string>, call: string, name: string, args: string): Item {
    if name in custom then CustomItem(CtcId(call), call, name, ctx.unwrap(args))
    else FunctionItem(FcId(call), call, name, args)
  }

  function OutputTools(s: State, ctx: Context, keys: seq<int>): seq<Item> {
    if keys == [] then []
    else
      var i := keys[0];
      [ToolItem(ctx, s.custom, Get(s.tools.callIds, i), Get(s.tools.names, i), Get(s.tools.args, i))]
      + OutputTools(s, ctx, keys[1..])
  }

  /** The `output` array of `response.completed`. */
  function Output(s: State, ctx: Context): seq<Item> {
    s.reasoning.done + OutputMessages(s, Sorted(s.messages.added)) + OutputTools(s, ctx, Sorted(s.tools.callIds.Keys))
  }

  predicate HasFinish(choices: seq<Choice>) {
    exists k :: 0 <= k < |choices| && choices[k].finishReason != ""
  }

  function Complete(s: State, ctx: Context, choices: seq<Choice>): State {
    if s.completed || !HasFinish(choices) then s
    else Emit(s.(completed := true), Completed(s.response, Output(s, ctx)))
  }

  /** One chunk: convertOpenAIChatCompletionsChunkToResponses. */
  function Convert(s: State, ctx: Context, chunk: Chunk): State {
    if chunk.objectType != "" && chunk.objectType != "chat.completion.chunk" then s
    else if chunk.choices.None? then s
    else
      var s1 := HandleChoices(Start(s, ctx, chunk.id), ctx, chunk.choices.value);
      Complete(s1, ctx, chunk.choices.value)
  }

  /** A whole upstream stream. */
  function Run(s: State, ctx: Context, chunks: seq<Chunk>): State
    decreases |chunks|
  {
    if chunks == [] then s else Run(Convert(s, ctx, chunks[0]), ctx, chunks[1..])
  }

  function Stream(ctx: Context, chunks: seq<Chunk>): State {
    Run(INITIAL_STATE, ctx, chunks)
  }
}
