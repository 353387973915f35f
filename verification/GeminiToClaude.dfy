/** Gemini chunks in, Claude events out: the block state machine of
    internal/converter/gemini_to_claude_stream.go as functions on its state, total on every input. */
module GeminiToClaude {
  import opened Options
  import opened ClaudeEvents

  /** `args` is JSON. */
  datatype Call = Call(name: string, args: string)

  datatype Part = Part(text: string, thought: bool, call: Option<Call>)

  datatype Candidate = Candidate(parts: seq<Part>, finishReason: string)

  /** A chunk that decodes; only its first candidate counts. */
  datatype Chunk = Chunk(candidates: seq<Candidate>)

  datatype BlockType = NoBlock | InText | InThinking

  datatype State = State(messageId: string, index: int, block: BlockType, log: seq<Event>)

  const INITIAL_STATE := State("", 0, NoBlock, [])

  // ---------------------------------------------------------------- the steps

  function Emit(s: State, e: Event): State {
    s.(log := s.log + [e])
  }

  function StopBlock(s: State): (r: State)
    ensures s.log <= r.log && r.messageId == s.messageId
  {
    Emit(s, BlockStop(s.index)).(index := s.index + 1, block := NoBlock)
  }

  function Speak(s: State, t: BlockType, content: Content, delta: Delta): (r: State)
    ensures s.log < r.log && r.messageId == s.messageId
  {
    var s1 := if s.block != NoBlock && s.block != t then StopBlock(s) else s;
    var s2 := if s1.block != t then Emit(s1, BlockStart(s1.index, content)).(block := t) else s1;
    Emit(s2, BlockDelta(s2.index, delta))
  }

  /** A function call comes whole: its block starts and stops at once. */
  function CallTool(s: State, call: Call): (r: State)
    ensures s.log < r.log && r.messageId == s.messageId
  {
    var s1 := if s.block != NoBlock then StopBlock(s) else s;
    var s2 := Emit(s1, BlockStart(s1.index, ToolUse("call_" + call.name, call.name, call.args)));
    Emit(s2, BlockStop(s2.index)).(index := s2.index + 1, block := NoBlock)
  }

  /** A thought with text hides a function call in the same part. */
  function HandlePart(s: State, p: Part): (r: State)
    ensures s.log <= r.log && r.messageId == s.messageId
    ensures p.text != "" || p.call.Some? ==> s.log < r.log
  {
    if p.thought && p.text != "" then Speak(s, InThinking, ThinkingBlock, ThinkingDelta(p.text))
    else
      var s1 := if p.text == "" then s else Speak(s, InText, TextBlock, TextDelta(p.text));
      if p.call.None? then s1 else CallTool(s1, p.call.value)
  }

  function HandleParts(s: State, parts: seq<Part>): (r: State)
    ensures s.log <= r.log && r.messageId == s.messageId
    ensures (exists p :: p in parts && (p.text != "" || p.call.Some?)) ==> s.log < r.log
    decreases |parts|
  {
    if parts == [] then s else HandleParts(HandlePart(s, parts[0]), parts[1..])
  }

  function StopName(finishReason: string): string {
    if finishReason == "MAX_TOKENS" then "max_tokens" else "end_turn"
  }

  /** Unlike every other stop, this one does not move to the next index. */
  function Finish(s: State, finishReason: string): (r: State)
    ensures s.log < r.log && r.messageId == s.messageId
  {
    var s1 := if s.block != NoBlock then Emit(s, BlockStop(s.index)).(block := NoBlock) else s;
    Emit(Emit(s1, MessageDelta(StopName(finishReason))), MessageStop)
  }

  function HandleCandidate(s: State, c: Candidate): (r: State)
    ensures s.log <= r.log && r.messageId == s.messageId
  {
    var s1 := HandleParts(s, c.parts);
    if c.finishReason == "" then s1 else Finish(s1, c.finishReason)
  }

  function StartMessage(s: State): (r: State)
    ensures s.log <= r.log && r.messageId != ""
  {
    if s.messageId == "" then Emit(s.(messageId := "msg_gemini"), MessageStart("msg_gemini", "")) else s
  }

  function HandleChunk(s: State, c: Chunk): (r: State)
    ensures s.log <= r.log && r.messageId != ""
  {
    var s1 := StartMessage(s);
    if c.candidates == [] then s1 else HandleCandidate(s1, c.candidates[0])
  }

  function Run(s: State, chunks: seq<Chunk>): State
    decreases |chunks|
  {
    if chunks == [] then s else Run(HandleChunk(s, chunks[0]), chunks[1..])
  }

  // ---------------------------------------------------------------- what the upstream said

  datatype Stage = Running | Over | Spoilt

  datatype Heard = Heard(stage: Stage, tools: nat, said: seq<Fragment>, finish: string)

  const UNHEARD := Heard(Running, 0, [], "")

  function HearPart(h: Heard, p: Part): (r: Heard)
    ensures r.stage == h.stage && r.finish == h.finish
  {
    if p.thought && p.text != "" then h.(said := h.said + [Thought(p.text)])
    else
      var h1 := if p.text == "" then h else h.(said := h.said + [Spoken(p.text)]);
      if p.call.None? then h1
      else
        var c := p.call.value;
        h1.(tools := h1.tools + 1, said := h1.said + [Called(h1.tools, "call_" + c.name, c.name, c.args)])
  }

  function HearParts(h: Heard, parts: seq<Part>): (r: Heard)
    ensures r.stage == h.stage && r.finish == h.finish
    decreases |parts|
  {
    if parts == [] then h else HearParts(HearPart(h, parts[0]), parts[1..])
  }

  predicate Silent(c: Candidate) {
    c.finishReason == "" && forall p :: p in c.parts ==> p.text == "" && p.call.None?
  }

  /** A fair stream finishes once and says nothing afterwards. */
  function Hear(h: Heard, c: Chunk): Heard {
    if c.candidates == [] then h
    else
      var candidate := c.candidates[0];
      match h.stage
      case Running =>
        var h1 := HearParts(h, candidate.parts);
        if candidate.finishReason == "" then h1 else h1.(stage := Over, finish := candidate.finishReason)
      case Over => if Silent(candidate) then h else h.(stage := Spoilt)
      case Spoilt => h
  }

  function HearAll(h: Heard, chunks: seq<Chunk>): Heard
    decreases |chunks|
  {
    if chunks == [] then h else HearAll(Hear(h, chunks[0]), chunks[1..])
  }

  predicate Fair(chunks: seq<Chunk>) {
    HearAll(UNHEARD, chunks).stage.Over?
  }

  function Said(chunks: seq<Chunk>): seq<Fragment> {
    HearAll(UNHEARD, chunks).said
  }

  // ---------------------------------------------------------------- while the message runs

  /** Blocks start only when no other is open: at most one block is open at any time. */
  ghost predicate Sequential(log: seq<Event>) {
    forall k :: 0 <= k < |log| && log[k].BlockStart? ==> NoneOpen(Read(log[..k]))
  }

  predicate NoneOpen(r: Reader) {
    r.Reader? && AllClosed(r.blocks)
  }

  lemma {:induction false} SequentialNext(log: seq<Event>, e: Event)
    requires Sequential(log) && (e.BlockStart? ==> NoneOpen(Read(log)))
    ensures Sequential(log + [e])
  {
    hide Read, NoneOpen;
    forall k | 0 <= k < |log + [e]| && (log + [e])[k].BlockStart? ensures NoneOpen(Read((log + [e])[..k])) {
      assert (log + [e])[..k] == log[..k];
      assert log[..|log|] == log;
    }
  }

  function ContentOf(t: BlockType): Content
    requires !t.NoBlock?
  {
    if t.InText? then TextBlock else ThinkingBlock
  }

  /** The blocks before `index` are closed; a current text or thinking block comes after them. */
  predicate CurrentMatches(index: int, block: BlockType, blocks: seq<Block>) {
    && index == |blocks| - (if block.NoBlock? then 0 else 1)
    && (forall i :: 0 <= i < |blocks| && i < index ==> !blocks[i].open)
    && (!block.NoBlock? ==> 0 <= index && blocks[index].open && blocks[index].content == ContentOf(block))
  }

  ghost predicate Near(s: State, h: Heard) {
    var r := Read(s.log);
    && s.messageId != "" && r.Reader? && r.phase.Body? && Sequential(s.log)
    && r.said == h.said && r.tools == h.tools
    && CurrentMatches(s.index, s.block, r.blocks)
  }

  function LastContent(s: State): Option<Content> {
    var r := Read(s.log);
    if r.Reader? && r.blocks != [] then Some(r.blocks[|r.blocks| - 1].content) else None
  }

  /** With no block open the last one, if any, was a tool. */
  ghost predicate Sound(s: State, h: Heard) {
    Near(s, h) && (s.block.NoBlock? ==> LastContent(s).None? || LastContent(s).value.ToolUse?)
  }

  lemma {:induction false} StopBlockNear(s: State, h: Heard)
    requires Sound(s, h) && !s.block.NoBlock?
    ensures Near(StopBlock(s), h) && LastContent(StopBlock(s)) == Some(ContentOf(s.block))
  {
    hide Sequential;
    ReadNext(s.log, BlockStop(s.index));
    SequentialNext(s.log, BlockStop(s.index));
    var r, r' := Read(s.log), Read(s.log + [BlockStop(s.index)]);
    assert forall i :: 0 <= i < s.index ==> r'.blocks[i] == r.blocks[i];
  }

  lemma {:induction false} OpenBlockSound(s: State, h: Heard, t: BlockType)
    requires Near(s, h) && s.block.NoBlock? && !t.NoBlock? && LastContent(s) != Some(ContentOf(t))
    ensures Sound(Emit(s, BlockStart(s.index, ContentOf(t))).(block := t), h)
  {
    hide Sequential;
    var e := BlockStart(s.index, ContentOf(t));
    ReadNext(s.log, e);
    SequentialNext(s.log, e);
  }

  lemma {:induction false} SpeakSound(s: State, h: Heard, t: BlockType, text: string)
    requires Sound(s, h) && !t.NoBlock?
    ensures Sound(Speak(s, t, ContentOf(t), if t.InText? then TextDelta(text) else ThinkingDelta(text)),
                  h.(said := h.said + [if t.InText? then Spoken(text) else Thought(text)]))
  {
    hide Read, Sequential;
    var delta := if t.InText? then TextDelta(text) else ThinkingDelta(text);
    var s1 := if s.block != NoBlock && s.block != t then StopBlock(s) else s;
    if s.block != NoBlock && s.block != t {
      StopBlockNear(s, h);
    }
    var s2 := if s1.block != t then Emit(s1, BlockStart(s1.index, ContentOf(t))).(block := t) else s1;
    if s1.block != t {
      OpenBlockSound(s1, h, t);
    }
    ReadNext(s2.log, BlockDelta(s2.index, delta));
    SequentialNext(s2.log, BlockDelta(s2.index, delta));
  }

  lemma {:induction false} CallToolSound(s: State, h: Heard, c: Call)
    requires Sound(s, h)
    ensures Sound(CallTool(s, c),
                  h.(tools := h.tools + 1, said := h.said + [Called(h.tools, "call_" + c.name, c.name, c.args)]))
  {
    hide Read, Sequential;
    var s1 := if s.block != NoBlock then StopBlock(s) else s;
    if s.block != NoBlock {
      StopBlockNear(s, h);
    }
    var start := BlockStart(s1.index, ToolUse("call_" + c.name, c.name, c.args));
    ReadNext(s1.log, start);
    SequentialNext(s1.log, start);
    var log := s1.log + [start];
    ReadNext(log, BlockStop(s1.index));
    SequentialNext(log, BlockStop(s1.index));
  }

  lemma {:induction false} HandlePartSound(s: State, h: Heard, p: Part)
    requires Sound(s, h)
    ensures Sound(HandlePart(s, p), HearPart(h, p))
  {
    hide Sound, Speak, CallTool;
    if p.thought && p.text != "" {
      SpeakSound(s, h, InThinking, p.text);
    } else {
      var s1 := if p.text == "" then s else Speak(s, InText, TextBlock, TextDelta(p.text));
      var h1 := if p.text == "" then h else h.(said := h.said + [Spoken(p.text)]);
      if p.text != "" {
        SpeakSound(s, h, InText, p.text);
      }
      if p.call.Some? {
        CallToolSound(s1, h1, p.call.value);
      }
    }
  }

  lemma {:induction false} HandlePartsSound(s: State, h: Heard, parts: seq<Part>)
    requires Sound(s, h)
    ensures Sound(HandleParts(s, parts), HearParts(h, parts))
    decreases |parts|
  {
    hide Sound, HandlePart, HearPart;
    if parts != [] {
      HandlePartSound(s, h, parts[0]);
      HandlePartsSound(HandlePart(s, parts[0]), HearPart(h, parts[0]), parts[1..]);
    }
  }

  lemma {:induction false} FinishSound(s: State, h: Heard, reason: string)
    requires Sound(s, h)
    ensures var s' := Finish(s, reason); var r := Read(s'.log);
            && WellFormed(s'.log) && Sequential(s'.log) && r.said == h.said && r.stopReason == StopName(reason)
  {
    hide Read, Sequential;
    var s1 := if s.block != NoBlock then Emit(s, BlockStop(s.index)).(block := NoBlock) else s;
    ReadNext(s.log, BlockStop(s.index));
    SequentialNext(s.log, BlockStop(s.index));
    var e := MessageDelta(StopName(reason));
    assert Read(s1.log).Reader? && AllClosed(Read(s1.log).blocks);
    ReadNext(s1.log, e);
    SequentialNext(s1.log, e);
    ReadNext(s1.log + [e], MessageStop);
    SequentialNext(s1.log + [e], MessageStop);
  }

  // ---------------------------------------------------------------- whole streams

  lemma {:induction false} Extended(log: seq<Event>, log': seq<Event>)
    requires log <= log'
    ensures Read(log).Broken? ==> Read(log').Broken?
    ensures WellFormed(log) && log < log' ==> Read(log').Broken?
  {
    hide Read;
    var more := log'[|log|..];
    assert log' == log + more;
    if Read(log).Broken? {
      BrokenStays(log, more);
    } else if WellFormed(log) && log < log' {
      EndedStops(log, more);
    }
  }

  /** Before the first chunk there is nothing; after it the converter and the reading agree. */
  ghost predicate Agree(s: State, h: Heard) {
    match h.stage
    case Running => Sound(s, h)
    case Over =>
      && s.messageId != "" && WellFormed(s.log) && Sequential(s.log)
      && Read(s.log).said == h.said && Read(s.log).stopReason == StopName(h.finish)
    case Spoilt => s.messageId != "" && Read(s.log).Broken?
  }

  lemma {:induction false} ChunkAgrees(s: State, h: Heard, c: Chunk)
    requires Agree(s, h) && s.messageId != ""
    ensures Agree(HandleChunk(s, c), Hear(h, c))
  {
    hide Sound, Read, HandleParts, HearParts, Finish, Sequential;
    if c.candidates != [] {
      var candidate := c.candidates[0];
      match h.stage
      case Running =>
        HandlePartsSound(s, h, candidate.parts);
        var s1, h1 := HandleParts(s, candidate.parts), HearParts(h, candidate.parts);
        FinishSound(s1, h1, candidate.finishReason);
      case Over =>
        if Silent(candidate) {
          SilentParts(s, candidate.parts);
        } else {
          LoudCandidate(s, candidate);
          Extended(s.log, HandleChunk(s, c).log);
        }
      case Spoilt =>
        Extended(s.log, HandleChunk(s, c).log);
    }
  }

  lemma {:induction false} SilentParts(s: State, parts: seq<Part>)
    requires forall p :: p in parts ==> p.text == "" && p.call.None?
    ensures HandleParts(s, parts) == s
    decreases |parts|
  {
    if parts != [] {
      assert parts[0] in parts;
      SilentParts(s, parts[1..]);
    }
  }

  lemma {:induction false} LoudCandidate(s: State, c: Candidate)
    requires !Silent(c)
    ensures s.log < HandleCandidate(s, c).log
  {
    hide HandleParts, Finish;
    if c.finishReason == "" {
      assert exists p :: p in c.parts && (p.text != "" || p.call.Some?);
    }
  }

  lemma {:induction false} RunAgrees(s: State, h: Heard, chunks: seq<Chunk>)
    requires Agree(s, h) && s.messageId != ""
    ensures Agree(Run(s, chunks), HearAll(h, chunks))
    decreases |chunks|
  {
    hide Agree, HandleChunk, Hear;
    if chunks != [] {
      ChunkAgrees(s, h, chunks[0]);
      RunAgrees(HandleChunk(s, chunks[0]), Hear(h, chunks[0]), chunks[1..]);
    }
  }

  lemma {:induction false} StartSound()
    ensures Sound(StartMessage(INITIAL_STATE), UNHEARD)
  {
    ReadNext([], MessageStart("msg_gemini", ""));
    assert [] + [MessageStart("msg_gemini", "")] == [MessageStart("msg_gemini", "")];
  }

  lemma {:induction false} NotYet(s: State, h: Heard)
    ensures !WellFormed([])
    ensures Sound(s, h) ==> !WellFormed(s.log)
  {
  }

  /** The first finish reason of a first candidate. */
  function FirstFinish(chunks: seq<Chunk>): string {
    if chunks == [] then ""
    else if chunks[0].candidates != [] && chunks[0].candidates[0].finishReason != ""
    then chunks[0].candidates[0].finishReason
    else FirstFinish(chunks[1..])
  }

  lemma {:induction false} OverStays(h: Heard, chunks: seq<Chunk>)
    requires !h.stage.Running?
    ensures HearAll(h, chunks).finish == h.finish
    decreases |chunks|
  {
    if chunks != [] {
      OverStays(Hear(h, chunks[0]), chunks[1..]);
    }
  }

  lemma {:induction false} FinishHeard(h: Heard, chunks: seq<Chunk>)
    requires h.stage.Running? && h.finish == ""
    ensures HearAll(h, chunks).finish == FirstFinish(chunks)
    decreases |chunks|
  {
    hide HearParts;
    if chunks != [] {
      var h1 := Hear(h, chunks[0]);
      if h1.stage.Running? {
        FinishHeard(h1, chunks[1..]);
      } else {
        OverStays(h1, chunks[1..]);
      }
    }
  }

  lemma {:induction false} RunExtends(s: State, chunks: seq<Chunk>)
    ensures s.log <= Run(s, chunks).log
    decreases |chunks|
  {
    hide HandleChunk;
    if chunks != [] {
      RunExtends(HandleChunk(s, chunks[0]), chunks[1..]);
    }
  }

  lemma {:induction false} Introduced(chunks: seq<Chunk>)
    ensures var log := Run(INITIAL_STATE, chunks).log;
            chunks != [] ==> log != [] && log[0] == MessageStart("msg_gemini", "")
  {
    hide HandleCandidate;
    if chunks != [] {
      assert [MessageStart("msg_gemini", "")] <= HandleChunk(INITIAL_STATE, chunks[0]).log;
      RunExtends(HandleChunk(INITIAL_STATE, chunks[0]), chunks[1..]);
    }
  }

  /** The converter writes a well-formed Claude stream for exactly the streams that finish once and
      say nothing afterwards; then at most one block is ever open, the fragments are the upstream's, in
      order, and the end tells whether the upstream stopped for length.  From the first chunk on the
      message bears its fixed name. */
  lemma {:induction false} StreamExact(chunks: seq<Chunk>)
    ensures var log := Run(INITIAL_STATE, chunks).log;
            && (WellFormed(log) <==> Fair(chunks))
            && (Fair(chunks) ==>
                  && Sequential(log) && Read(log).said == Said(chunks)
                  && Read(log).stopReason
                     == (if FirstFinish(chunks) == "MAX_TOKENS" then "max_tokens" else "end_turn"))
            && (chunks != [] ==> log != [] && log[0] == MessageStart("msg_gemini", ""))
  {
    hide Sound, Read, HandleChunk, Sequential;
    FinishHeard(UNHEARD, chunks);
    Introduced(chunks);
    if chunks == [] {
      NotYet(INITIAL_STATE, UNHEARD);
    } else {
      StartSound();
      var s := StartMessage(INITIAL_STATE);
      assert HandleChunk(INITIAL_STATE, chunks[0]) == HandleChunk(s, chunks[0]) by { SameStart(chunks[0]); }
      RunAgrees(s, UNHEARD, chunks);
      NotYet(Run(s, chunks), HearAll(UNHEARD, chunks));
    }
  }

  lemma {:induction false} SameStart(c: Chunk)
    ensures HandleChunk(INITIAL_STATE, c) == HandleChunk(StartMessage(INITIAL_STATE), c)
  {
  }
}
