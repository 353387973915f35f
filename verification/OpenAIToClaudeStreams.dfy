/** Which upstream streams the OpenAI to Claude converter turns into well-formed Claude streams,
    and that it then passes on exactly what was said, in order. */
module OpenAIToClaudeStreams {
  import opened Options
  import opened ClaudeEvents
  import opened OpenAIToClaude

  // ---------------------------------------------------------------- while the message runs

  predicate IsOpenTool(blocks: seq<Block>, i: int, tool: nat) {
    0 <= i < |blocks| && blocks[i].open && blocks[i].content.ToolUse? && blocks[i].tool == tool
  }

  /** The known tools and the open blocks below `n` are in one-to-one correspondence. */
  ghost predicate ToolsMatch(tools: map<int, ToolState>, blocks: seq<Block>, n: int, slots: map<int, nat>) {
    && tools.Keys == slots.Keys
    && (forall t :: t in tools ==> tools[t].contentIndex < n && IsOpenTool(blocks, tools[t].contentIndex, slots[t]))
    && (forall t, u :: t in tools && u in tools && tools[t].contentIndex == tools[u].contentIndex ==> t == u)
    && (forall i :: 0 <= i < n && i < |blocks| && blocks[i].open ==>
        exists t :: t in tools && tools[t].contentIndex == i)
  }

  function ContentOf(t: BlockType): Content
    requires !t.NoBlock?
  {
    if t.InText? then TextBlock else ThinkingBlock
  }

  /** The current text or thinking block is the last one; without one the last block is a tool. */
  predicate CurrentMatches(index: int, block: BlockType, blocks: seq<Block>) {
    if block.NoBlock? then
      index == |blocks| && (blocks != [] ==> blocks[|blocks| - 1].content.ToolUse?)
    else
      0 <= index == |blocks| - 1 && blocks[index].open && blocks[index].content == ContentOf(block)
  }

  ghost predicate Sound(s: State, h: Heard) {
    var r := Read(s.log);
    && s.messageId != "" && r.Reader? && r.phase.Body?
    && r.said == h.said && r.tools == |h.slots| && s.stopReason == h.finish
    && CurrentMatches(s.index, s.block, r.blocks)
    && ToolsMatch(s.tools, r.blocks, s.index, h.slots)
  }

  /** Between closing a block and opening the next the last block may be of either kind. */
  ghost predicate BetweenBlocks(s: State, h: Heard) {
    var r := Read(s.log);
    && s.messageId != "" && r.Reader? && r.phase.Body?
    && r.said == h.said && r.tools == |h.slots| && s.stopReason == h.finish
    && s.block.NoBlock? && s.index == |r.blocks|
    && ToolsMatch(s.tools, r.blocks, s.index, h.slots)
  }

  function LastContent(s: State): Option<Content> {
    var r := Read(s.log);
    if r.Reader? && r.blocks != [] then Some(r.blocks[|r.blocks| - 1].content) else None
  }

  lemma {:induction false} StopBlockBetween(s: State, h: Heard)
    requires Sound(s, h) && !s.block.NoBlock?
    ensures BetweenBlocks(StopBlock(s), h) && LastContent(StopBlock(s)) == Some(ContentOf(s.block))
  {
    ReadNext(s.log, BlockStop(s.index));
    var r, r' := Read(s.log), Read(s.log + [BlockStop(s.index)]);
    assert forall i :: 0 <= i < s.index ==> r'.blocks[i] == r.blocks[i];
  }

  lemma {:induction false} OneMoreBlock(tools: map<int, ToolState>, blocks: seq<Block>, n: nat, slots: map<int, nat>,
                                        block: Block)
    requires ToolsMatch(tools, blocks, n, slots) && n == |blocks|
    ensures ToolsMatch(tools, blocks + [block], n, slots)
  {
    assert forall i :: 0 <= i < n ==> (blocks + [block])[i] == blocks[i];
  }

  /** Opening a text or thinking block. */
  lemma {:induction false} OpenBlockSound(s: State, h: Heard, t: BlockType)
    requires BetweenBlocks(s, h) && !t.NoBlock? && LastContent(s) != Some(ContentOf(t))
    ensures Sound(Emit(s, BlockStart(s.index, ContentOf(t))).(block := t), h)
  {
    hide ToolsMatch;
    var e := BlockStart(s.index, ContentOf(t));
    ReadNext(s.log, e);
    var r, r' := Read(s.log), Read(s.log + [e]);
    OneMoreBlock(s.tools, r.blocks, s.index, h.slots, r'.blocks[s.index]);
    assert r'.blocks == r.blocks + [r'.blocks[s.index]];
  }

  lemma {:induction false} SpeakSound(s: State, h: Heard, t: BlockType, text: string)
    requires Sound(s, h) && !t.NoBlock?
    ensures Sound(Speak(s, t, ContentOf(t), if t.InText? then TextDelta(text) else ThinkingDelta(text)),
                  h.(said := h.said + [if t.InText? then Spoken(text) else Thought(text)]))
  {
    var delta := if t.InText? then TextDelta(text) else ThinkingDelta(text);
    hide ToolsMatch, Read;
    var s1 := if s.block != NoBlock && s.block != t then StopBlock(s) else s;
    if s.block != NoBlock && s.block != t {
      StopBlockBetween(s, h);
    }
    var s2 := if s1.block != t then Emit(s1, BlockStart(s1.index, ContentOf(t))).(block := t) else s1;
    if s1.block != t {
      OpenBlockSound(s1, h, t);
    }
    ReadNext(s2.log, BlockDelta(s2.index, delta));
  }

  /** One more tool, with one more block that is open. */
  lemma {:induction false} OneMoreTool(tools: map<int, ToolState>, blocks: seq<Block>, n: nat, slots: map<int, nat>,
                                       t: int, tool: ToolState, block: Block)
    requires ToolsMatch(tools, blocks, n, slots) && n == |blocks| && t !in tools && tool.contentIndex == n
    requires block.open && block.content.ToolUse? && block.tool == |slots|
    ensures ToolsMatch(tools[t := tool], blocks + [block], n + 1, slots[t := |slots|])
    ensures |slots[t := |slots|]| == |slots| + 1
  {
    var tools', slots', blocks' := tools[t := tool], slots[t := |slots|], blocks + [block];
    assert slots'.Keys == slots.Keys + {t};
    assert |slots'| == |slots'.Keys| == |slots.Keys| + 1;
    assert forall i :: 0 <= i < n ==> blocks'[i] == blocks[i];
    forall i | 0 <= i < n + 1 && blocks'[i].open ensures exists u :: u in tools' && tools'[u].contentIndex == i {
      if i < n {
        var u :| u in tools && tools[u].contentIndex == i;
        assert u in tools' && tools'[u].contentIndex == i;
      } else {
        assert t in tools' && tools'[t].contentIndex == i;
      }
    }
  }

  /** A tool block starts: its rank is the number of tools so far. */
  lemma {:induction false} OpenToolSound(s: State, h: Heard, t: ToolDelta)
    requires BetweenBlocks(s, h) && t.index !in s.tools
    ensures Sound(OpenTool(s, t), HearTool(h, t.(arguments := "")))
  {
    hide ToolsMatch;
    ReadNext(s.log, BlockStart(s.index, ToolUse(t.id, t.name, "{}")));
    assert t.index !in h.slots by { SameTools(s, h, t.index); }
    var r, s' := Read(s.log), OpenTool(s, t);
    var r' := Read(s'.log);
    OneMoreTool(s.tools, r.blocks, s.index, h.slots, t.index, s'.tools[t.index], r'.blocks[s.index]);
    assert r'.blocks == r.blocks + [r'.blocks[s.index]];
  }

  lemma {:induction false} SameTools(s: State, h: Heard, t: int)
    requires BetweenBlocks(s, h)
    ensures t in s.tools <==> t in h.slots
  {
  }

  lemma {:induction false} RenameToolSound(s: State, h: Heard, t: ToolDelta)
    requires Sound(s, h) && t.index in s.tools
    ensures Sound(RenameTool(s, t), h)
  {
    hide Read;
    SameIndices(s.tools, RenameTool(s, t).tools, Read(s.log).blocks, s.index, h.slots);
  }

  /** Only the content indices of the tools matter. */
  lemma {:induction false} SameIndices(tools: map<int, ToolState>, tools': map<int, ToolState>, blocks: seq<Block>,
                                       n: int, slots: map<int, nat>)
    requires ToolsMatch(tools, blocks, n, slots) && tools'.Keys == tools.Keys
    requires forall t :: t in tools ==> tools'[t].contentIndex == tools[t].contentIndex
    ensures ToolsMatch(tools', blocks, n, slots)
  {
    forall i | 0 <= i < n && i < |blocks| && blocks[i].open
        ensures exists t :: t in tools' && tools'[t].contentIndex == i {
      var t :| t in tools && tools[t].contentIndex == i;
      assert t in tools' && tools'[t].contentIndex == i;
    }
  }

  lemma {:induction false} SendArgumentsSound(s: State, h: Heard, t: ToolDelta)
    requires Sound(s, h) && t.index in s.tools
    ensures t.index in h.slots
    ensures t.arguments != "" ==>
              Sound(SendArguments(s, t), h.(said := h.said + [Arguments(h.slots[t.index], t.arguments)]))
  {
    hide Read;
    var tc, r := s.tools[t.index], Read(s.log);
    assert IsOpenTool(r.blocks, tc.contentIndex, h.slots[t.index]);
    if t.arguments != "" {
      ReadNext(s.log, BlockDelta(tc.contentIndex, InputJsonDelta(t.arguments)));
      SameIndices(s.tools, SendArguments(s, t).tools, r.blocks, s.index, h.slots);
    }
  }

  lemma {:induction false} HandleToolSound(s: State, h: Heard, t: ToolDelta)
    requires Sound(s, h)
    ensures Sound(HandleTool(s, t), HearTool(h, t))
  {
    hide Read, ToolsMatch, CurrentMatches;
    assert s.tools.Keys == h.slots.Keys by { SameKeys(s, h); }
    if t.index in s.tools {
      RenameToolSound(s, h, t);
      SendArgumentsSound(RenameTool(s, t), h, t);
    } else {
      var s1 := if s.block != NoBlock then StopBlock(s) else s;
      if s.block != NoBlock {
        StopBlockBetween(s, h);
      } else {
        assert BetweenBlocks(s, h) by { SoundBetween(s, h); }
      }
      assert OpenTool(s, t) == OpenTool(s1, t);
      OpenToolSound(s1, h, t);
      SendArgumentsSound(OpenTool(s1, t), HearTool(h, t.(arguments := "")), t);
    }
  }

  lemma {:induction false} SameKeys(s: State, h: Heard)
    requires Sound(s, h)
    ensures s.tools.Keys == h.slots.Keys
  {
  }

  lemma {:induction false} SoundBetween(s: State, h: Heard)
    requires Sound(s, h) && s.block.NoBlock?
    ensures BetweenBlocks(s, h)
  {
  }

  lemma {:induction false} HandleToolsSound(s: State, h: Heard, tools: seq<ToolDelta>)
    requires Sound(s, h)
    ensures Sound(HandleTools(s, tools), HearTools(h, tools))
    decreases |tools|
  {
    hide Sound;
    if tools != [] {
      HandleToolSound(s, h, tools[0]);
      HandleToolsSound(HandleTool(s, tools[0]), HearTool(h, tools[0]), tools[1..]);
    }
  }

  lemma {:induction false} HandlePieceSound(s: State, h: Heard, p: Piece)
    requires Sound(s, h)
    ensures Sound(HandlePiece(s, p), HearPiece(h, p))
  {
    hide Sound, Speak, Text.Trim;
    var s1, h1 := HandleReasoning(s, p.reasoning), HearReasoning(h, p.reasoning);
    if Text.Trim(p.reasoning) != "" {
      SpeakSound(s, h, InThinking, p.reasoning);
    }
    var s2, h2 := HandleContent(s1, p.content), HearContent(h1, p.content);
    if p.content != "" {
      SpeakSound(s1, h1, InText, p.content);
    }
    HandleToolsSound(s2, h2, p.tools);
  }

  /** A chunk with choices after message_start. */
  lemma {:induction false} HandleChoiceSound(s: State, h: Heard, c: Chunk)
    requires Sound(s, h) && c.choices != []
    ensures Sound(HandleChunk(s, c), HearChoice(h, c.choices[0]))
  {
    hide Read, ToolsMatch, CurrentMatches, HandlePiece, HearPiece;
    var choice := c.choices[0];
    if choice.delta.Some? {
      HandlePieceSound(s, h, choice.delta.value);
    }
  }

  lemma {:induction false} FirstChunkSound(s: State, h: Heard, c: Chunk)
    requires s.log == [] && s.messageId == "" && s.index == 0 && s.block.NoBlock? && s.tools == map[]
    requires h.said == [] && h.slots == map[] && s.stopReason == h.finish && c.id != "" && c.choices != []
    ensures Sound(HandleChunk(s, c), HearChoice(h, c.choices[0]))
  {
    var s1 := StartMessage(s, c);
    ReadNext(s.log, MessageStart(c.id, c.model));
    assert Sound(s1, h);
    HandleChoiceSound(s1, h, c);
    assert HandleChunk(s, c) == HandleChunk(s1, c);
  }

  // ---------------------------------------------------------------- the end of the message

  /** Open blocks are those of the tools still to be closed. */
  ghost predicate LeftOpen(tools: map<int, ToolState>, blocks: seq<Block>, keys: seq<int>) {
    && (forall k :: k in keys ==>
        k in tools && 0 <= tools[k].contentIndex < |blocks| && blocks[tools[k].contentIndex].open)
    && (forall i, j :: 0 <= i < j < |keys| && keys[i] in tools && keys[j] in tools ==>
          tools[keys[i]].contentIndex != tools[keys[j]].contentIndex)
    && (forall i :: 0 <= i < |blocks| && blocks[i].open ==>
        exists k :: k in keys && k in tools && tools[k].contentIndex == i)
  }

  lemma {:induction false} CloseOne(s: State, keys: seq<int>)
    requires Read(s.log).Reader? && Read(s.log).phase.Body? && keys != []
    requires LeftOpen(s.tools, Read(s.log).blocks, keys)
    ensures keys[0] in s.tools
    ensures var s' := Emit(s, BlockStop(s.tools[keys[0]].contentIndex)); var r' := Read(s'.log);
            && r'.Reader? && r'.phase.Body? && r'.said == Read(s.log).said
            && LeftOpen(s.tools, r'.blocks, keys[1..])
  {
    hide Read;
    var key := keys[0];
    assert key in keys;
    assert key in s.tools;
    var c := s.tools[key].contentIndex;
    ReadNext(s.log, BlockStop(c));
    var b, b' := Read(s.log).blocks, Read(s.log + [BlockStop(c)]).blocks;
    assert b' == b[c := b[c].(open := false)];
    var rest := keys[1..];
    assert keys == [keys[0]] + rest;
    forall k | k in rest
      ensures k in s.tools && 0 <= s.tools[k].contentIndex < |b'| && b'[s.tools[k].contentIndex].open
    {
      var j :| 0 <= j < |rest| && rest[j] == k;
      assert keys[j + 1] == k && k in keys;
    }
    forall i | 0 <= i < |b'| && b'[i].open
        ensures exists k :: k in rest && k in s.tools && s.tools[k].contentIndex == i {
      var k :| k in keys && k in s.tools && s.tools[k].contentIndex == i;
      assert k in rest;
    }
  }

  lemma {:induction false} CloseAll(s: State, keys: seq<int>)
    requires Read(s.log).Reader? && Read(s.log).phase.Body?
    requires LeftOpen(s.tools, Read(s.log).blocks, keys)
    ensures var r := Read(CloseTools(s, keys).log);
            r.Reader? && r.phase.Body? && r.said == Read(s.log).said && AllClosed(r.blocks)
    decreases |keys|
  {
    hide Read;
    if keys == [] {
    } else {
      CloseOne(s, keys);
      hide LeftOpen;
      CloseAll(Emit(s, BlockStop(s.tools[keys[0]].contentIndex)), keys[1..]);
    }
  }

  /** Whatever order the tools are closed in. */
  lemma {:induction false} ToolsLeftOpen(s: State, h: Heard, keys: seq<int>)
    requires BetweenBlocks(s, h) && Enumerates(keys, s.tools.Keys)
    ensures LeftOpen(s.tools, Read(s.log).blocks, keys)
  {
    hide Read;
    var blocks := Read(s.log).blocks;
    forall k | k in keys
      ensures k in s.tools && 0 <= s.tools[k].contentIndex < |blocks| && blocks[s.tools[k].contentIndex].open
    {
      assert k in s.tools.Keys;
      assert IsOpenTool(blocks, s.tools[k].contentIndex, h.slots[k]);
    }
    forall i | 0 <= i < |blocks| && blocks[i].open
      ensures exists k :: k in keys && k in s.tools && s.tools[k].contentIndex == i
    {
      var t :| t in s.tools && s.tools[t].contentIndex == i;
      assert t in s.tools.Keys && t in keys;
    }
  }

  lemma {:induction false} FinishSound(s: State, h: Heard, order: Order)
    requires Sound(s, h) && IsMapOrder(order)
    ensures var s' := Finish(s, order);
            && WellFormed(s'.log) && Read(s'.log).said == h.said && Read(s'.log).stopReason == StopName(h.finish)
  {
    hide Read, ToolsMatch, CurrentMatches, LeftOpen, AllClosed;
    var s1 := if s.block != NoBlock then StopBlock(s) else s;
    if s.block != NoBlock {
      StopBlockBetween(s, h);
    } else {
      SoundBetween(s, h);
    }
    var keys := order(|s1.log|, s1.tools.Keys);
    ToolsLeftOpen(s1, h, keys);
    CloseAll(s1, keys);
    var s2 := CloseTools(s1, keys);
    var e := MessageDelta(StopName(s.stopReason));
    ReadNext(s2.log, e);
    ReadNext(s2.log + [e], MessageStop);
  }

  // ---------------------------------------------------------------- streams that go wrong

  lemma {:induction false} Extended(log: seq<Event>, log': seq<Event>)
    requires log <= log'
    ensures Read(log).Broken? ==> Read(log').Broken?
    ensures WellFormed(log) && log < log' ==> Read(log').Broken?
  {
    var more := log'[|log|..];
    assert log' == log + more;
    if Read(log).Broken? {
      BrokenStays(log, more);
    } else if WellFormed(log) && log < log' {
      EndedStops(log, more);
    }
  }

  /** Block events alone neither start nor end a message. */
  predicate Unfinished(log: seq<Event>) {
    Read(log).Broken? || Read(log).phase.Body?
  }

  lemma {:induction false} UnfinishedNext(log: seq<Event>, e: Event)
    requires Unfinished(log) && (e.BlockStart? || e.BlockDelta? || e.BlockStop?)
    ensures Unfinished(log + [e])
  {
    ReadNext(log, e);
  }

  lemma {:induction false} SpeakUnfinished(s: State, t: BlockType, content: Content, delta: Delta)
    requires Unfinished(s.log)
    ensures Unfinished(Speak(s, t, content, delta).log)
  {
    hide Unfinished;
    UnfinishedNext(s.log, BlockStop(s.index));
    var s1 := if s.block != NoBlock && s.block != t then StopBlock(s) else s;
    UnfinishedNext(s1.log, BlockStart(s1.index, content));
    var s2 := if s1.block != t then Emit(s1, BlockStart(s1.index, content)).(block := t) else s1;
    UnfinishedNext(s2.log, BlockDelta(s2.index, delta));
  }

  lemma {:induction false} HandleToolUnfinished(s: State, t: ToolDelta)
    requires Unfinished(s.log)
    ensures Unfinished(HandleTool(s, t).log)
  {
    hide Unfinished;
    UnfinishedNext(s.log, BlockStop(s.index));
    var s1 := if s.block != NoBlock then StopBlock(s) else s;
    UnfinishedNext(s1.log, BlockStart(s1.index, ToolUse(t.id, t.name, "{}")));
    var s2 := if t.index in s.tools then RenameTool(s, t) else OpenTool(s, t);
    UnfinishedNext(s2.log, BlockDelta(s2.tools[t.index].contentIndex, InputJsonDelta(t.arguments)));
  }

  lemma {:induction false} HandleToolsUnfinished(s: State, tools: seq<ToolDelta>)
    requires Unfinished(s.log)
    ensures Unfinished(HandleTools(s, tools).log)
    decreases |tools|
  {
    hide Unfinished;
    if tools != [] {
      HandleToolUnfinished(s, tools[0]);
      HandleToolsUnfinished(HandleTool(s, tools[0]), tools[1..]);
    }
  }

  lemma {:induction false} HandlePieceUnfinished(s: State, p: Piece)
    requires Unfinished(s.log)
    ensures Unfinished(HandlePiece(s, p).log)
  {
    hide Unfinished, Speak, Text.Trim;
    SpeakUnfinished(s, InThinking, ThinkingBlock, ThinkingDelta(p.reasoning));
    var s1 := HandleReasoning(s, p.reasoning);
    SpeakUnfinished(s1, InText, TextBlock, TextDelta(p.content));
    HandleToolsUnfinished(HandleContent(s1, p.content), p.tools);
  }

  /** No continuation makes the log well formed: it is broken, or its message has no name and the
      next chunk with choices will start the message again. */
  ghost predicate Hopeless(s: State) {
    Read(s.log).Broken? || (s.messageId == "" && Unfinished(s.log))
  }

  lemma {:induction false} NamelessChunk(s: State, c: Chunk)
    requires s.log == [] && s.messageId == "" && c.id == "" && c.choices != []
    ensures Hopeless(HandleChunk(s, c))
  {
    hide HandlePiece;
    var s1 := StartMessage(s, c);
    ReadNext(s.log, MessageStart(c.id, c.model));
    if c.choices[0].delta.Some? {
      HandlePieceUnfinished(s1, c.choices[0].delta.value);
    }
  }

  lemma {:induction false} HopelessStays(s: State, item: Item, order: Order)
    requires Hopeless(s)
    ensures Hopeless(Step(s, item, order))
  {
    hide HandlePiece, Finish, Read;
    var s' := Step(s, item, order);
    if Read(s.log).Broken? {
      Extended(s.log, s'.log);
    } else if item.Data? && item.chunk.choices != [] {
      var c := item.chunk;
      ReadNext(s.log, MessageStart(c.id, c.model));
      assert StartMessage(s, c).log <= s'.log;
      Extended(StartMessage(s, c).log, s'.log);
    }
  }

  // ---------------------------------------------------------------- after the message

  lemma {:induction false} SilentStep(s: State, c: Chunk)
    requires s.messageId != "" && c.choices != [] && Silent(c.choices[0])
    ensures HandleChunk(s, c).log == s.log && HandleChunk(s, c).messageId == s.messageId
    ensures HandleChunk(s, c).tools == s.tools
  {
  }

  lemma {:induction false} LoudStep(s: State, c: Chunk)
    requires s.messageId != "" && s.tools == map[] && c.choices != [] && !Silent(c.choices[0])
    ensures s.log < HandleChunk(s, c).log
  {
    hide Speak, HandleTools, Text.Trim;
    var p := c.choices[0].delta.value;
    var s1 := HandleReasoning(s, p.reasoning);
    var s2 := HandleContent(s1, p.content);
    assert s.log <= s1.log <= s2.log <= HandleTools(s2, p.tools).log;
  }

  // ---------------------------------------------------------------- whole streams

  /** The converter and the reading of its input agree. */
  ghost predicate Agree(s: State, h: Heard) {
    match h.stage
    case Waiting =>
      s.log == [] && s.messageId == "" && s.index == 0 && s.block.NoBlock? && s.tools == map[]
      && s.stopReason == h.finish && h.said == [] && h.slots == map[]
    case Running => Sound(s, h)
    case Over =>
      s.messageId != "" && s.tools == map[] && WellFormed(s.log)
      && Read(s.log).said == h.said && Read(s.log).stopReason == StopName(h.finish)
    case Spoilt => Hopeless(s)
  }

  lemma {:induction false} DoneAgrees(s: State, h: Heard, order: Order)
    requires Agree(s, h) && IsMapOrder(order)
    ensures Agree(Step(s, Done, order), Hear(h, Done))
  {
    hide Finish, Sound, Read;
    match h.stage
    case Running =>
      assert s.messageId != "" by { Named(s, h); }
      FinishSound(s, h, order);
    case Over =>
      Extended(s.log, Finish(s, order).log);
    case Spoilt =>
      HopelessStays(s, Done, order);
    case Waiting =>
  }

  lemma {:induction false} Named(s: State, h: Heard)
    requires Sound(s, h)
    ensures s.messageId != ""
  {
  }

  lemma {:induction false} DataAgrees(s: State, h: Heard, c: Chunk, order: Order)
    requires Agree(s, h)
    ensures Agree(Step(s, Data(c), order), Hear(h, Data(c)))
  {
    hide HandleChunk, HearChoice, Sound, Read, Silent;
    if c.choices == [] {
      assert HandleChunk(s, c) == s by { NoChoices(s, c); }
    } else {
      match h.stage
      case Waiting =>
        if c.id == "" {
          NamelessChunk(s, c);
        } else {
          FirstChunkSound(s, h.(stage := Running), c);
          assert HearChoice(h.(stage := Running), c.choices[0]).stage == Running
              by { KeepsStage(h.(stage := Running), c.choices[0]); }
        }
      case Running =>
        HandleChoiceSound(s, h, c);
        KeepsStage(h, c.choices[0]);
      case Over =>
        if Silent(c.choices[0]) {
          SilentStep(s, c);
        } else {
          LoudStep(s, c);
          Extended(s.log, HandleChunk(s, c).log);
        }
      case Spoilt =>
        HopelessStays(s, Data(c), order);
    }
  }

  lemma {:induction false} NoChoices(s: State, c: Chunk)
    requires c.choices == []
    ensures HandleChunk(s, c) == s
  {
  }

  lemma {:induction false} KeepsStage(h: Heard, choice: Choice)
    ensures HearChoice(h, choice).stage == h.stage
  {
  }

  lemma {:induction false} RunAgrees(s: State, h: Heard, items: seq<Item>, order: Order)
    requires Agree(s, h) && IsMapOrder(order)
    ensures Agree(Run(s, items, order), HearAll(h, items))
    decreases |items|
  {
    hide Agree, Step, Hear, IsMapOrder;
    if items != [] {
      if items[0].Done? {
        DoneAgrees(s, h, order);
      } else {
        DataAgrees(s, h, items[0].chunk, order);
      }
      RunAgrees(Step(s, items[0], order), Hear(h, items[0]), items[1..], order);
    }
  }

  // ---------------------------------------------------------------- which message it is

  /** The first chunk that has choices. */
  function Opening(items: seq<Item>): Option<Chunk> {
    if items == [] then None
    else if items[0].Data? && items[0].chunk.choices != [] then Some(items[0].chunk)
    else Opening(items[1..])
  }

  /** The message is introduced with the id and the model of that chunk. */
  predicate Introduces(log: seq<Event>, items: seq<Item>) {
    match Opening(items)
    case None => log == []
    case Some(c) => log != [] && log[0] == MessageStart(c.id, c.model)
  }

  lemma {:induction false} RunExtends(s: State, items: seq<Item>, order: Order)
    ensures s.log <= Run(s, items, order).log
    decreases |items|
  {
    hide Step;
    if items != [] {
      RunExtends(Step(s, items[0], order), items[1..], order);
    }
  }

  lemma {:induction false} FirstChunkIntroduces(s: State, c: Chunk)
    requires s.log == [] && s.messageId == "" && c.choices != []
    ensures HandleChunk(s, c).log != [] && HandleChunk(s, c).log[0] == MessageStart(c.id, c.model)
  {
    hide HandlePiece;
    assert [MessageStart(c.id, c.model)] <= HandleChunk(s, c).log;
  }

  lemma {:induction false} RunIntroduces(s: State, items: seq<Item>, order: Order)
    requires s.log == [] && s.messageId == ""
    ensures Introduces(Run(s, items, order).log, items)
    decreases |items|
  {
    hide HandleChunk;
    if items != [] {
      if items[0].Data? && items[0].chunk.choices != [] {
        FirstChunkIntroduces(s, items[0].chunk);
        RunExtends(Step(s, items[0], order), items[1..], order);
      } else {
        assert Step(s, items[0], order) == s by { NothingYet(s, items[0], order); }
        RunIntroduces(s, items[1..], order);
      }
    }
  }

  lemma {:induction false} NothingYet(s: State, item: Item, order: Order)
    requires s.messageId == "" && (item.Data? ==> item.chunk.choices == [])
    ensures Step(s, item, order) == s
  {
  }

  /** The last finish reason before the first end marker that follows a chunk with choices. */
  function ReasonSent(items: seq<Item>, begun: bool, reason: string): string
    decreases |items|
  {
    if items == [] then reason
    else match items[0]
      case Done => if begun then reason else ReasonSent(items[1..], begun, reason)
      case Data(c) =>
        if c.choices == [] then ReasonSent(items[1..], begun, reason)
        else
          var next := c.choices[0].finishReason;
          ReasonSent(items[1..], true, if next == "" then reason else next)
  }

  /** What the client is told about the end of the message. */
  predicate StopsFor(reason: string, stop: string) {
    if reason == "length" then stop == "max_tokens"
    else if reason == "tool_calls" then stop == "tool_use"
    else stop == "end_turn"
  }

  lemma {:induction false} SpoiltStays(h: Heard, items: seq<Item>)
    ensures h.stage.Spoilt? ==> HearAll(h, items).stage.Spoilt?
    decreases |items|
  {
    if items != [] && h.stage.Spoilt? {
      SpoiltStays(Hear(h, items[0]), items[1..]);
    }
  }

  lemma {:induction false} OverStays(h: Heard, items: seq<Item>)
    requires h.stage.Over? && !HearAll(h, items).stage.Spoilt?
    ensures HearAll(h, items) == h
    decreases |items|
  {
    if items != [] {
      SpoiltStays(Hear(h, items[0]), items[1..]);
      OverStays(Hear(h, items[0]), items[1..]);
    }
  }

  lemma {:induction false} HearReason(h: Heard, items: seq<Item>)
    requires (h.stage.Waiting? || h.stage.Running?) && !HearAll(h, items).stage.Spoilt?
    ensures HearAll(h, items).finish == ReasonSent(items, h.stage.Running?, h.finish)
    decreases |items|
  {
    hide HearPiece;
    if items != [] {
      var h1 := Hear(h, items[0]);
      SpoiltStays(h1, items[1..]);
      if h1.stage.Over? {
        OverStays(h1, items[1..]);
      } else {
        HearReason(h1, items[1..]);
      }
    }
  }

  // ---------------------------------------------------------------- the main result

  /** The converter writes a well-formed Claude stream for exactly the fair upstream streams, and
      then its fragments are the upstream's: text, reasoning that is not blank, and the start and
      arguments of each tool call, in their order, whatever the order of the map ranges.  The message
      bears the id and the model of the first chunk with choices, and its end the reason sent. */
  lemma {:induction false} StreamExact(items: seq<Item>, order: Order)
    requires IsMapOrder(order)
    ensures var log := Run(INITIAL_STATE, items, order).log;
            && (WellFormed(log) <==> Fair(items))
            && (Fair(items) ==>
                  && Read(log).said == Said(items)
                  && Opening(items).Some? && Introduces(log, items)
                  && StopsFor(ReasonSent(items, false, ""), Read(log).stopReason))
  {
    hide Sound, Read, Run, HearAll, Opening;
    RunAgrees(INITIAL_STATE, UNHEARD, items, order);
    RunIntroduces(INITIAL_STATE, items, order);
    if Fair(items) {
      HearReason(UNHEARD, items);
    }
    var s, h := Run(INITIAL_STATE, items, order), HearAll(UNHEARD, items);
    match h.stage
    case Waiting => assert !WellFormed([]) by { NotYet(); }
    case Running => assert !WellFormed(s.log) by { StillRunning(s, h); }
    case Over => NotYet();
    case Spoilt =>
  }

  lemma {:induction false} NotYet()
    ensures !WellFormed([])
  {
  }

  lemma {:induction false} StillRunning(s: State, h: Heard)
    requires Sound(s, h)
    ensures !WellFormed(s.log)
  {
  }

  // ---------------------------------------------------------------- what was said, added up

  function Chosen(item: Item): Option<Piece> {
    if item.Data? && item.chunk.choices != [] then item.chunk.choices[0].delta else None
  }

  /** All the text the upstream sent. */
  function TextSent(items: seq<Item>): string
    decreases |items|
  {
    if items == [] then ""
    else (if Chosen(items[0]).Some? then Chosen(items[0]).value.content else "") + TextSent(items[1..])
  }

  function ToolArguments(tools: seq<ToolDelta>, t: int): string
    decreases |tools|
  {
    if tools == [] then "" else (if tools[0].index == t then tools[0].arguments else "") + ToolArguments(tools[1..], t)
  }

  /** All the arguments the upstream sent for tool index `t`. */
  function ArgumentsSent(items: seq<Item>, t: int): string
    decreases |items|
  {
    if items == [] then ""
    else
      (if Chosen(items[0]).Some? then ToolArguments(Chosen(items[0]).value.tools, t) else "")
      + ArgumentsSent(items[1..], t)
  }

  lemma {:induction false} SpokenNext(said: seq<Fragment>, f: Fragment)
    ensures SpokenText(said + [f]) == SpokenText(said) + (if f.Spoken? then f.text else "")
    ensures forall k :: ArgumentsOf(said + [f], k)
                     == ArgumentsOf(said, k) + (if f.Arguments? && f.tool == k then f.json else "")
  {
    assert (said + [f])[..|said|] == said;
  }

  /** The arguments heard for tool index `t`. */
  function ArgumentsHeard(h: Heard, t: int): string {
    if t in h.slots then ArgumentsOf(h.said, h.slots[t]) else ""
  }

  /** Tool indices have distinct ranks, and nothing was said about the next rank. */
  ghost predicate Ranked(h: Heard) {
    && (forall t :: t in h.slots ==> h.slots[t] < |h.slots|)
    && (forall t, u :: t in h.slots && u in h.slots && h.slots[t] == h.slots[u] ==> t == u)
    && (forall k :: k >= |h.slots| ==> ArgumentsOf(h.said, k) == "")
  }

  lemma {:induction false} NewToolAdds(h: Heard, d: ToolDelta, t: int)
    requires Ranked(h) && d.index !in h.slots
    ensures var h1 := h.(slots := h.slots[d.index := |h.slots|],
                         said := h.said + [Called(|h.slots|, d.id, d.name, "{}")]);
            && Ranked(h1) && SpokenText(h1.said) == SpokenText(h.said)
            && ArgumentsHeard(h1, t) == ArgumentsHeard(h, t)
  {
    hide SpokenText, ArgumentsOf;
    var f := Called(|h.slots|, d.id, d.name, "{}");
    var slots := h.slots[d.index := |h.slots|];
    assert slots.Keys == h.slots.Keys + {d.index};
    assert |slots| == |slots.Keys| == |h.slots.Keys| + 1;
    SpokenNext(h.said, f);
    forall k ensures ArgumentsOf(h.said + [f], k) == ArgumentsOf(h.said, k) {
      assert ArgumentsOf(h.said, k) + "" == ArgumentsOf(h.said, k);
    }
    assert SpokenText(h.said) + "" == SpokenText(h.said);
  }

  lemma {:induction false} MoreArguments(h: Heard, d: ToolDelta, t: int)
    requires Ranked(h) && d.index in h.slots
    ensures var h1 := h.(said := h.said + [Arguments(h.slots[d.index], d.arguments)]);
            && Ranked(h1) && SpokenText(h1.said) == SpokenText(h.said)
            && ArgumentsHeard(h1, t) == ArgumentsHeard(h, t) + (if d.index == t then d.arguments else "")
  {
    hide SpokenText, ArgumentsOf;
    var f := Arguments(h.slots[d.index], d.arguments);
    SpokenNext(h.said, f);
    forall k | k != h.slots[d.index] ensures ArgumentsOf(h.said + [f], k) == ArgumentsOf(h.said, k) {
      assert ArgumentsOf(h.said, k) + "" == ArgumentsOf(h.said, k);
    }
    assert SpokenText(h.said) + "" == SpokenText(h.said);
    assert "" + "" == "" && ArgumentsHeard(h, t) + "" == ArgumentsHeard(h, t);
  }

  lemma {:induction false} HearToolAdds(h: Heard, d: ToolDelta, t: int)
    requires Ranked(h)
    ensures Ranked(HearTool(h, d))
    ensures SpokenText(HearTool(h, d).said) == SpokenText(h.said)
    ensures ArgumentsHeard(HearTool(h, d), t)
         == ArgumentsHeard(h, t) + (if d.index == t then d.arguments else "")
  {
    hide Ranked, SpokenText, ArgumentsHeard;
    var h1 := if d.index in h.slots then h
              else h.(slots := h.slots[d.index := |h.slots|],
                      said := h.said + [Called(|h.slots|, d.id, d.name, "{}")]);
    if d.index !in h.slots {
      NewToolAdds(h, d, t);
    }
    MoreArguments(h1, d, t);
    assert ArgumentsHeard(h, t) + "" == ArgumentsHeard(h, t);
  }

  lemma {:induction false} Joined(a: string, b: string, c: string)
    ensures (a + b) + c == a + (b + c) && a + "" == a
  {
  }

  lemma {:induction false} HearToolsAdd(h: Heard, tools: seq<ToolDelta>, t: int)
    requires Ranked(h)
    ensures Ranked(HearTools(h, tools))
    ensures SpokenText(HearTools(h, tools).said) == SpokenText(h.said)
    ensures ArgumentsHeard(HearTools(h, tools), t) == ArgumentsHeard(h, t) + ToolArguments(tools, t)
    decreases |tools|
  {
    hide Ranked, ArgumentsHeard, HearTool, SpokenText;
    if tools == [] {
      Joined(ArgumentsHeard(h, t), "", "");
    } else {
      HearToolAdds(h, tools[0], t);
      HearToolsAdd(HearTool(h, tools[0]), tools[1..], t);
      var a := if tools[0].index == t then tools[0].arguments else "";
      Joined(ArgumentsHeard(h, t), a, ToolArguments(tools[1..], t));
    }
  }

  lemma {:induction false} FragmentAdds(h: Heard, f: Fragment, t: int)
    requires Ranked(h) && (f.Spoken? || f.Thought?)
    ensures var h1 := h.(said := h.said + [f]);
            && Ranked(h1) && ArgumentsHeard(h1, t) == ArgumentsHeard(h, t)
            && SpokenText(h1.said) == SpokenText(h.said) + (if f.Spoken? then f.text else "")
  {
    hide SpokenText, ArgumentsOf;
    SpokenNext(h.said, f);
    forall k ensures ArgumentsOf(h.said + [f], k) == ArgumentsOf(h.said, k) {
      assert ArgumentsOf(h.said, k) + "" == ArgumentsOf(h.said, k);
    }
  }

  lemma {:induction false} HearPieceAdds(h: Heard, p: Piece, t: int)
    requires Ranked(h)
    ensures Ranked(HearPiece(h, p))
    ensures SpokenText(HearPiece(h, p).said) == SpokenText(h.said) + p.content
    ensures ArgumentsHeard(HearPiece(h, p), t) == ArgumentsHeard(h, t) + ToolArguments(p.tools, t)
  {
    hide Text.Trim, Ranked, ArgumentsHeard, SpokenText;
    FragmentAdds(h, Thought(p.reasoning), t);
    assert SpokenText(h.said) + "" == SpokenText(h.said);
    var h1 := HearReasoning(h, p.reasoning);
    FragmentAdds(h1, Spoken(p.content), t);
    HearToolsAdd(HearContent(h1, p.content), p.tools, t);
  }

  lemma {:induction false} HearChoiceAdds(h: Heard, choice: Choice, t: int)
    requires Ranked(h)
    ensures var h', p := HearChoice(h, choice), choice.delta;
            && Ranked(h')
            && SpokenText(h'.said) == SpokenText(h.said) + (if p.Some? then p.value.content else "")
            && ArgumentsHeard(h', t) == ArgumentsHeard(h, t) + (if p.Some? then ToolArguments(p.value.tools, t) else "")
  {
    hide HearPiece, SpokenText, ArgumentsOf, ToolArguments;
    if choice.delta.Some? {
      HearPieceAdds(h, choice.delta.value, t);
    } else {
      NothingAdds(h, t);
    }
  }

  lemma {:induction false} NothingAdds(h: Heard, t: int)
    ensures SpokenText(h.said) + "" == SpokenText(h.said)
    ensures ArgumentsHeard(h, t) + "" == ArgumentsHeard(h, t)
    ensures ToolArguments([], t) == ""
  {
    hide SpokenText, ArgumentsHeard;
  }

  lemma {:induction false} HearAdds(h: Heard, item: Item, t: int)
    requires Ranked(h) && !Hear(h, item).stage.Spoilt?
    ensures var h', p := Hear(h, item), Chosen(item);
            && Ranked(h')
            && SpokenText(h'.said) == SpokenText(h.said) + (if p.Some? then p.value.content else "")
            && ArgumentsHeard(h', t) == ArgumentsHeard(h, t) + (if p.Some? then ToolArguments(p.value.tools, t) else "")
  {
    hide HearChoice, Text.Trim, SpokenText, ArgumentsOf, ToolArguments;
    NothingAdds(h, t);
    if item.Data? && item.chunk.choices != [] && !h.stage.Over? {
      HearChoiceAdds(h, item.chunk.choices[0], t);
      HearChoiceAdds(h.(stage := Running), item.chunk.choices[0], t);
    }
  }

  lemma {:induction false} HearAllAdds(h: Heard, items: seq<Item>, t: int)
    requires Ranked(h) && !HearAll(h, items).stage.Spoilt?
    ensures SpokenText(HearAll(h, items).said) == SpokenText(h.said) + TextSent(items)
    ensures ArgumentsHeard(HearAll(h, items), t) == ArgumentsHeard(h, t) + ArgumentsSent(items, t)
    decreases |items|
  {
    hide Ranked, Hear, Chosen, ArgumentsHeard, SpokenText, ToolArguments;
    if items == [] {
      Joined(SpokenText(h.said), "", "");
      Joined(ArgumentsHeard(h, t), "", "");
    } else {
      var h1 := Hear(h, items[0]);
      SpoiltStays(h1, items[1..]);
      HearAdds(h, items[0], t);
      HearAllAdds(h1, items[1..], t);
      var c := if Chosen(items[0]).Some? then Chosen(items[0]).value.content else "";
      Joined(SpokenText(h.said), c, TextSent(items[1..]));
      var a := if Chosen(items[0]).Some? then ToolArguments(Chosen(items[0]).value.tools, t) else "";
      Joined(ArgumentsHeard(h, t), a, ArgumentsSent(items[1..], t));
    }
  }

  /** The reasoning in a piece, if it is more than white space. */
  function Reasoned(p: Option<Piece>): string {
    if p.None? || Text.Trim(p.value.reasoning) == "" then "" else p.value.reasoning
  }

  /** All the reasoning the upstream sent, but for blank fragments. */
  function ThoughtsSent(items: seq<Item>): string
    decreases |items|
  {
    if items == [] then "" else Reasoned(Chosen(items[0])) + ThoughtsSent(items[1..])
  }

  lemma {:induction false} ThoughtNext(said: seq<Fragment>, f: Fragment)
    ensures ThoughtText(said + [f]) == ThoughtText(said) + (if f.Thought? then f.text else "")
    ensures !f.Thought? ==> ThoughtText(said + [f]) == ThoughtText(said)
  {
    assert (said + [f])[..|said|] == said;
    assert ThoughtText(said) + "" == ThoughtText(said);
  }

  lemma {:induction false} ToolsThinkNothing(h: Heard, tools: seq<ToolDelta>)
    ensures ThoughtText(HearTools(h, tools).said) == ThoughtText(h.said)
    decreases |tools|
  {
    hide ThoughtText;
    if tools != [] {
      var t := tools[0];
      var h1 := if t.index in h.slots then h
                else h.(slots := h.slots[t.index := |h.slots|],
                        said := h.said + [Called(|h.slots|, t.id, t.name, "{}")]);
      ThoughtNext(h.said, Called(|h.slots|, t.id, t.name, "{}"));
      ThoughtNext(h1.said, Arguments(h1.slots[t.index], t.arguments));
      ToolsThinkNothing(HearTool(h, t), tools[1..]);
    }
  }

  lemma {:induction false} ChoiceThinks(h: Heard, choice: Choice)
    ensures ThoughtText(HearChoice(h, choice).said) == ThoughtText(h.said) + Reasoned(choice.delta)
  {
    hide ThoughtText, Text.Trim;
    Joined(ThoughtText(h.said), "", "");
    if choice.delta.Some? {
      var p := choice.delta.value;
      var h1 := HearReasoning(h, p.reasoning);
      ThoughtNext(h.said, Thought(p.reasoning));
      ThoughtNext(h1.said, Spoken(p.content));
      ToolsThinkNothing(HearContent(h1, p.content), p.tools);
    }
  }

  lemma {:induction false} HearAllThinks(h: Heard, items: seq<Item>)
    requires !HearAll(h, items).stage.Spoilt?
    ensures ThoughtText(HearAll(h, items).said) == ThoughtText(h.said) + ThoughtsSent(items)
    decreases |items|
  {
    hide ThoughtText, HearChoice, Text.Trim;
    if items == [] {
      Joined(ThoughtText(h.said), "", "");
    } else {
      var h1 := Hear(h, items[0]);
      SpoiltStays(h1, items[1..]);
      HearAllThinks(h1, items[1..]);
      Joined(ThoughtText(h.said), Reasoned(Chosen(items[0])), ThoughtsSent(items[1..]));
      if items[0].Data? && items[0].chunk.choices != [] && !h.stage.Over? {
        ChoiceThinks(h, items[0].chunk.choices[0]);
        ChoiceThinks(h.(stage := Running), items[0].chunk.choices[0]);
      }
    }
  }

  /** On a fair stream the text blocks hold, in all, the text the upstream sent, the thinking blocks
      its reasoning, and the blocks of each tool the arguments it sent for that tool. */
  lemma {:induction false} Conserved(items: seq<Item>, order: Order, t: int)
    requires IsMapOrder(order) && Fair(items)
    ensures WellFormed(Run(INITIAL_STATE, items, order).log)
    ensures var said, slots := Read(Run(INITIAL_STATE, items, order).log).said, HearAll(UNHEARD, items).slots;
            && SpokenText(said) == TextSent(items) && ThoughtText(said) == ThoughtsSent(items)
            && (if t in slots then ArgumentsOf(said, slots[t]) else "") == ArgumentsSent(items, t)
  {
    hide Run, HearAll, Read, TextSent, ArgumentsSent, ThoughtsSent, IsMapOrder;
    StreamExact(items, order);
    HearAllThinks(UNHEARD, items);
    assert "" + ThoughtsSent(items) == ThoughtsSent(items);
    assert Ranked(UNHEARD);
    HearAllAdds(UNHEARD, items, t);
    assert "" + TextSent(items) == TextSent(items);
    assert "" + ArgumentsSent(items, t) == ArgumentsSent(items, t);
  }

  function AllData(chunks: seq<Chunk>): seq<Item> {
    if chunks == [] then [] else [Data(chunks[0])] + AllData(chunks[1..])
  }

  lemma {:induction false} RunningStays(h: Heard, chunks: seq<Chunk>)
    requires h.stage.Running?
    ensures HearAll(h, AllData(chunks) + [Done]).stage.Over?
    decreases |chunks|
  {
    var items := AllData(chunks) + [Done];
    if chunks == [] {
      assert items == [Done] && items[1..] == [];
    } else {
      assert items[1..] == AllData(chunks[1..]) + [Done];
      hide HearChoice;
      if chunks[0].choices != [] {
        KeepsStage(h, chunks[0].choices[0]);
      }
      RunningStays(Hear(h, items[0]), chunks[1..]);
    }
  }

  /** Any chunks after a first one with an id and a choice, ended by one `[DONE]`, are fair. */
  lemma {:induction false} OrdinaryStreamsAreFair(first: Chunk, chunks: seq<Chunk>)
    requires first.id != "" && first.choices != []
    ensures Fair(AllData([first] + chunks) + [Done])
  {
    var items := AllData([first] + chunks) + [Done];
    assert ([first] + chunks)[1..] == chunks;
    assert items[1..] == AllData(chunks) + [Done];
    KeepsStage(UNHEARD.(stage := Running), first.choices[0]);
    RunningStays(Hear(UNHEARD, items[0]), chunks);
  }
}
