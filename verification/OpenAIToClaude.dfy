/** Chat Completions chunks in, Claude events out: the per-chunk converter of
    internal/converter/openai_to_claude_stream.go as functions on its state, total on every input. */
module OpenAIToClaude {
  import opened Options
  import opened ClaudeEvents
  import Text

  // ---------------------------------------------------------------- what the upstream sends

  datatype ToolDelta = ToolDelta(index: int, id: string, name: string, arguments: string)

  /** The `delta` of a choice: the reasoning text already collected, "" for content that is
      missing or no string. */
  datatype Piece = Piece(reasoning: string, content: string, tools: seq<ToolDelta>)

  datatype Choice = Choice(delta: Option<Piece>, finishReason: string)

  datatype Chunk = Chunk(id: string, model: string, choices: seq<Choice>)

  /** One event of the upstream stream; events whose data does not decode are skipped. */
  datatype Item = Done | Data(chunk: Chunk)

  // ---------------------------------------------------------------- the converter's state

  datatype BlockType = NoBlock | InText | InThinking

  datatype ToolState = ToolState(id: string, name: string, arguments: string, contentIndex: int)

  datatype State = State(
    messageId: string, index: int, block: BlockType, tools: map<int, ToolState>, stopReason: string,
    log: seq<Event>)

  const INITIAL_STATE := State("", 0, NoBlock, map[], "", [])

  /** The order in which a range over a map visits its keys is any order, and may differ from one
      range to the next: it may depend on how much was written before. */
  type Order = (nat, set<int>) -> seq<int>

  ghost predicate Enumerates(keys: seq<int>, all: set<int>) {
    && (forall k :: k in keys <==> k in all)
    && (forall i, j :: 0 <= i < j < |keys| ==> keys[i] != keys[j])
  }

  ghost predicate IsMapOrder(order: Order) {
    forall n: nat, all: set<int> :: Enumerates(order(n, all), all)
  }

  // ---------------------------------------------------------------- the steps

  function Emit(s: State, e: Event): State {
    s.(log := s.log + [e])
  }

  function StopBlock(s: State): (r: State)
    ensures s.log <= r.log && r.messageId == s.messageId && r.tools == s.tools && r.stopReason == s.stopReason
  {
    Emit(s, BlockStop(s.index)).(index := s.index + 1, block := NoBlock)
  }

  /** Text or reasoning: close the block of the other kind, open one of this kind, send the delta. */
  function Speak(s: State, t: BlockType, content: Content, delta: Delta): (r: State)
    ensures s.log < r.log && r.messageId == s.messageId && r.tools == s.tools && r.stopReason == s.stopReason
  {
    var s1 := if s.block != NoBlock && s.block != t then StopBlock(s) else s;
    var s2 := if s1.block != t then Emit(s1, BlockStart(s1.index, content)).(block := t) else s1;
    Emit(s2, BlockDelta(s2.index, delta))
  }

  function HandleReasoning(s: State, text: string): (r: State)
    ensures s.log <= r.log && r.messageId == s.messageId && r.tools == s.tools && r.stopReason == s.stopReason
  {
    if Text.Trim(text) == "" then s else Speak(s, InThinking, ThinkingBlock, ThinkingDelta(text))
  }

  function HandleContent(s: State, text: string): (r: State)
    ensures s.log <= r.log && r.messageId == s.messageId && r.tools == s.tools && r.stopReason == s.stopReason
  {
    if text == "" then s else Speak(s, InText, TextBlock, TextDelta(text))
  }

  function OpenTool(s: State, t: ToolDelta): (r: State)
    ensures s.log < r.log && r.messageId == s.messageId && r.stopReason == s.stopReason && t.index in r.tools
  {
    var s1 := if s.block != NoBlock then StopBlock(s) else s;
    Emit(s1.(tools := s1.tools[t.index := ToolState(t.id, t.name, "", s1.index)]),
         BlockStart(s1.index, ToolUse(t.id, t.name, "{}"))).(index := s1.index + 1)
  }

  function RenameTool(s: State, t: ToolDelta): (r: State)
    requires t.index in s.tools
    ensures r.log == s.log && r.messageId == s.messageId && r.stopReason == s.stopReason && t.index in r.tools
  {
    var tc := s.tools[t.index];
    s.(tools := s.tools[t.index := tc.(id := if t.id != "" then t.id else tc.id,
                                       name := if t.name != "" then t.name else tc.name)])
  }

  function SendArguments(s: State, t: ToolDelta): (r: State)
    requires t.index in s.tools
    ensures s.log <= r.log && r.messageId == s.messageId && r.stopReason == s.stopReason
  {
    if t.arguments == "" then s
    else
      var tc := s.tools[t.index];
      Emit(s.(tools := s.tools[t.index := tc.(arguments := tc.arguments + t.arguments)]),
           BlockDelta(tc.contentIndex, InputJsonDelta(t.arguments)))
  }

  function HandleTool(s: State, t: ToolDelta): (r: State)
    ensures s.log <= r.log && r.messageId == s.messageId && r.stopReason == s.stopReason
    ensures t.index !in s.tools ==> s.log < r.log
  {
    SendArguments(if t.index in s.tools then RenameTool(s, t) else OpenTool(s, t), t)
  }

  function HandleTools(s: State, tools: seq<ToolDelta>): (r: State)
    ensures s.log <= r.log && r.messageId == s.messageId && r.stopReason == s.stopReason
    ensures tools != [] && tools[0].index !in s.tools ==> s.log < r.log
    decreases |tools|
  {
    if tools == [] then s else HandleTools(HandleTool(s, tools[0]), tools[1..])
  }

  function HandlePiece(s: State, p: Piece): (r: State)
    ensures s.log <= r.log && r.messageId == s.messageId && r.stopReason == s.stopReason
  {
    HandleTools(HandleContent(HandleReasoning(s, p.reasoning), p.content), p.tools)
  }

  function StartMessage(s: State, c: Chunk): (r: State)
    ensures s.log <= r.log
  {
    if s.messageId == "" then Emit(s.(messageId := c.id), MessageStart(c.id, c.model)) else s
  }

  /** Only the first choice counts. */
  function HandleChunk(s: State, c: Chunk): (r: State)
    ensures s.log <= r.log
  {
    if c.choices == [] then s
    else
      var choice := c.choices[0];
      var s1 := StartMessage(s, c);
      var s2 := if choice.delta.None? then s1 else HandlePiece(s1, choice.delta.value);
      if choice.finishReason == "" then s2 else s2.(stopReason := choice.finishReason)
  }

  function StopName(finishReason: string): string {
    if finishReason == "length" then "max_tokens" else if finishReason == "tool_calls" then "tool_use" else "end_turn"
  }

  function CloseTools(s: State, keys: seq<int>): (r: State)
    ensures s.log <= r.log && r.messageId == s.messageId && r.tools == s.tools
    decreases |keys|
  {
    if keys == [] then s
    else CloseTools(if keys[0] in s.tools then Emit(s, BlockStop(s.tools[keys[0]].contentIndex)) else s, keys[1..])
  }

  /** handleFinish */
  function Finish(s: State, order: Order): (r: State)
    ensures s.log < r.log && r.messageId == s.messageId && r.tools == map[]
  {
    var s1 := if s.block != NoBlock then StopBlock(s) else s;
    var s2 := CloseTools(s1, order(|s1.log|, s1.tools.Keys));
    var s3 := Emit(s2, MessageDelta(StopName(s.stopReason)));
    Emit(s3, MessageStop).(tools := map[])
  }

  function Step(s: State, item: Item, order: Order): (r: State)
    ensures s.log <= r.log
  {
    match item
    case Done => if s.messageId != "" then Finish(s, order) else s
    case Data(chunk) => HandleChunk(s, chunk)
  }

  function Run(s: State, items: seq<Item>, order: Order): State
    decreases |items|
  {
    if items == [] then s else Run(Step(s, items[0], order), items[1..], order)
  }

  // ---------------------------------------------------------------- what the upstream said

  datatype Stage = Waiting | Running | Over | Spoilt

  /** A reading of the upstream stream alone.  `slots` ranks the tool indices by first appearance. */
  datatype Heard = Heard(stage: Stage, slots: map<int, nat>, said: seq<Fragment>, finish: string)

  const UNHEARD := Heard(Waiting, map[], [], "")

  function HearTool(h: Heard, t: ToolDelta): (r: Heard)
    ensures r.stage == h.stage && r.finish == h.finish && t.index in r.slots
  {
    var h1 := if t.index in h.slots then h
              else h.(slots := h.slots[t.index := |h.slots|],
                      said := h.said + [Called(|h.slots|, t.id, t.name, "{}")]);
    if t.arguments == "" then h1 else h1.(said := h1.said + [Arguments(h1.slots[t.index], t.arguments)])
  }

  function HearTools(h: Heard, tools: seq<ToolDelta>): (r: Heard)
    ensures r.stage == h.stage && r.finish == h.finish
    decreases |tools|
  {
    if tools == [] then h else HearTools(HearTool(h, tools[0]), tools[1..])
  }

  function HearReasoning(h: Heard, text: string): Heard {
    if Text.Trim(text) == "" then h else h.(said := h.said + [Thought(text)])
  }

  function HearContent(h: Heard, text: string): Heard {
    if text == "" then h else h.(said := h.said + [Spoken(text)])
  }

  function HearPiece(h: Heard, p: Piece): (r: Heard)
    ensures r.stage == h.stage && r.finish == h.finish
  {
    HearTools(HearContent(HearReasoning(h, p.reasoning), p.content), p.tools)
  }

  function HearChoice(h: Heard, choice: Choice): Heard {
    var h1 := if choice.delta.None? then h else HearPiece(h, choice.delta.value);
    if choice.finishReason == "" then h1 else h1.(finish := choice.finishReason)
  }

  /** Nothing in the choice would be passed on. */
  predicate Silent(choice: Choice) {
    choice.delta.None?
    || (Text.Trim(choice.delta.value.reasoning) == "" && choice.delta.value.content == ""
        && choice.delta.value.tools == [])
  }

  /** A fair stream names its message in the first chunk that has choices, ends once after that,
      and says nothing more. */
  function Hear(h: Heard, item: Item): Heard {
    match item
    case Done =>
      (match h.stage
       case Running => h.(stage := Over)
       case Over => h.(stage := Spoilt)
       case _ => h)
    case Data(chunk) =>
      if chunk.choices == [] then h
      else match h.stage
        case Waiting =>
          if chunk.id == "" then h.(stage := Spoilt) else HearChoice(h.(stage := Running), chunk.choices[0])
        case Running => HearChoice(h, chunk.choices[0])
        case Over => if Silent(chunk.choices[0]) then h else h.(stage := Spoilt)
        case Spoilt => h
  }

  function HearAll(h: Heard, items: seq<Item>): Heard
    decreases |items|
  {
    if items == [] then h else HearAll(Hear(h, items[0]), items[1..])
  }

  predicate Fair(items: seq<Item>) {
    HearAll(UNHEARD, items).stage.Over?
  }

  function Said(items: seq<Item>): seq<Fragment> {
    HearAll(UNHEARD, items).said
  }
}
