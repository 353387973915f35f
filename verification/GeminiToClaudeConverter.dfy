/** The Gemini to Claude converter as an object over bytes.  Each method does what the function of
    the same name in GeminiToClaude says. */
module GeminiToClaudeConverter {
  import opened Options
  import opened ClaudeEvents
  import S = GeminiToClaude
  import Sse

  datatype Reading = Reading(valid: string -> bool, decode: string -> Option<S.Chunk>)

  /** Event names play no role, and the end marker does not decode. */
  function ChunksOf(events: seq<Sse.SseEvent>, rd: Reading): seq<S.Chunk> {
    if events == [] then []
    else
      var data, rest := events[0].data, ChunksOf(events[1..], rd);
      if data.None? || rd.decode(data.value).None? then rest else [rd.decode(data.value).value] + rest
  }

  class Converter {
    var messageId: string
    var currentIndex: int
    var currentBlockType: S.BlockType
    var buffer: string

    /** Every event written so far. */
    var out: seq<Event>

    ghost function View(): S.State
      reads this
    {
      S.State(messageId, currentIndex, currentBlockType, out)
    }

    constructor ()
      ensures View() == S.INITIAL_STATE && buffer == ""
    {
      messageId, currentIndex, currentBlockType := "", 0, S.NoBlock;
      buffer, out := "", [];
    }

    method StopBlock()
      modifies this`out, this`currentIndex, this`currentBlockType
      ensures View() == S.StopBlock(old(View()))
    {
      out := out + [BlockStop(currentIndex)];
      currentIndex := currentIndex + 1;
      currentBlockType := S.NoBlock;
    }

    method HandlePart(p: S.Part)
      modifies this`out, this`currentIndex, this`currentBlockType
      ensures View() == S.HandlePart(old(View()), p)
    {
      if p.thought && p.text != "" {
        if currentBlockType == S.InText {
          StopBlock();
        }
        if currentBlockType != S.InThinking {
          out := out + [BlockStart(currentIndex, ThinkingBlock)];
          currentBlockType := S.InThinking;
        }
        out := out + [BlockDelta(currentIndex, ThinkingDelta(p.text))];
        return;
      }
      if p.text != "" {
        if currentBlockType == S.InThinking {
          StopBlock();
        }
        if currentBlockType != S.InText {
          out := out + [BlockStart(currentIndex, TextBlock)];
          currentBlockType := S.InText;
        }
        out := out + [BlockDelta(currentIndex, TextDelta(p.text))];
      }
      if p.call.Some? {
        if currentBlockType == S.InText || currentBlockType == S.InThinking {
          StopBlock();
        }
        var call := p.call.value;
        out := out + [BlockStart(currentIndex, ToolUse("call_" + call.name, call.name, call.args))];
        StopBlock();
      }
    }

    method HandleChunk(c: S.Chunk)
      modifies this`messageId, this`out, this`currentIndex, this`currentBlockType
      ensures View() == S.HandleChunk(old(View()), c)
    {
      hide S.HandlePart;
      if messageId == "" {
        messageId := "msg_gemini";
        out := out + [MessageStart(messageId, "")];
      }
      if |c.candidates| == 0 {
        return;
      }
      var candidate := c.candidates[0];
      var parts := candidate.parts;
      ghost var started := View();
      for k := 0 to |parts|
        invariant messageId == started.messageId
        invariant S.HandleParts(View(), parts[k..]) == S.HandleParts(started, parts)
      {
        assert parts[k..][0] == parts[k] && parts[k..][1..] == parts[k + 1..];
        HandlePart(parts[k]);
      }
      assert parts[|parts|..] == [];
      if candidate.finishReason != "" {
        if currentBlockType != S.NoBlock {
          out := out + [BlockStop(currentIndex)];
          currentBlockType := S.NoBlock;
        }
        var stopReason := "end_turn";
        if candidate.finishReason == "MAX_TOKENS" {
          stopReason := "max_tokens";
        }
        out := out + [MessageDelta(stopReason)];
        out := out + [MessageStop];
      }
    }

    /** One network chunk; `output` are the events written for it. */
    method TransformChunk(chunk: string, rd: Reading) returns (output: seq<Event>)
      modifies this
      ensures var (events, rest) := Sse.Parse(old(buffer) + chunk, rd.valid);
              View() == S.Run(old(View()), ChunksOf(events, rd)) && buffer == rest
      ensures out == old(out) + output
    {
      hide S.HandleChunk, Sse.Parse;
      var events, remaining := Sse.ParseSSE(buffer + chunk, rd.valid);
      buffer := remaining;
      var written := |out|;
      for k := 0 to |events|
        invariant buffer == remaining && old(out) <= out
        invariant S.Run(View(), ChunksOf(events[k..], rd)) == S.Run(old(View()), ChunksOf(events, rd))
      {
        assert events[k..][0] == events[k] && events[k..][1..] == events[k + 1..];
        var data := events[k].data;
        if data.Some? && rd.decode(data.value).Some? {
          HandleChunk(rd.decode(data.value).value);
        }
      }
      assert events[|events|..] == [];
      output := out[written..];
    }
  }
}
